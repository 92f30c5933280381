/**
 * The order-status notification of the starting app
 * (app/src/main/java/com/example/jetsnack/ui/home/notification/SnackbarNotificationManager.kt):
 * five order states, each with a delay, a title, a text, a large icon and
 * action buttons, and `start`, which schedules one post per state.
 */
module AppNotification {
  import opened Options
  import opened Resources
  import opened NotificationPlatform

  const ChannelId := "live_updates_channel_id"
  const ChannelName := "live_updates_channel_name"
  const NotificationId := 1234

  datatype OrderState = Initializing | FoodPreparation | FoodEnroute | FoodArriving | OrderComplete

  /** `OrderState.entries`: every state, in declaration order. */
  const Entries: seq<OrderState> := [Initializing, FoodPreparation, FoodEnroute, FoodArriving, OrderComplete]

  /** The delay, in milliseconds after `start`, at which a state is posted. */
  function Delay(state: OrderState): nat
  {
    match state
    case Initializing => 0
    case FoodPreparation => 7000
    case FoodEnroute => 13000
    case FoodArriving => 18000
    case OrderComplete => 21000
  }

  /** `entries` lists every state exactly once. */
  lemma EntriesListEachStateOnce()
    ensures forall s: OrderState :: s in Entries
    ensures forall i, j :: 0 <= i < j < |Entries| ==> Entries[i] != Entries[j]
  {
    forall s: OrderState ensures s in Entries {
      match s
      case Initializing => assert Entries[0] == s;
      case FoodPreparation => assert Entries[1] == s;
      case FoodEnroute => assert Entries[2] == s;
      case FoodArriving => assert Entries[3] == s;
      case OrderComplete => assert Entries[4] == s;
    }
  }

  /** Delays strictly increase in declaration order, starting at once: 0 < 7000 < 13000 < 18000 < 21000. */
  lemma DelaysIncreaseAlongEntries()
    ensures Delay(Entries[0]) == 0
    ensures forall i, j :: 0 <= i < j < |Entries| ==> Delay(Entries[i]) < Delay(Entries[j])
  {
  }

  /** A `Notification.Action` with no icon and no intent: only its title is set. */
  datatype Action = Action(title: string)

  /** A `Notification.Builder`; the optional parts are `None` until set. */
  datatype Notification = Notification(
    channelId: string,
    smallIcon: Drawable,
    ongoing: bool,
    actions: seq<Action>,
    title: Option<string>,
    text: Option<string>,
    largeIcon: Option<Drawable>)

  /** `Notification.Builder.addAction`: the action goes after those already added. */
  function AddAction(n: Notification, action: Action): (r: Notification)
    ensures r.actions == n.actions + [action]
    ensures r == n.(actions := r.actions)
  {
    n.(actions := n.actions + [action])
  }

  function ActionTitles(actions: seq<Action>): (r: seq<string>)
    ensures |r| == |actions|
    ensures forall i :: 0 <= i < |actions| ==> r[i] == actions[i].title
  {
    if actions == [] then [] else [actions[0].title] + ActionTitles(actions[1..])
  }

  /** What every notification of this manager has in common. */
  predicate IsBaseNotification(n: Notification)
  {
    n.channelId == ChannelId && n.smallIcon == IcNotification && n.ongoing
  }

  /**
   * `buildBaseNotification`: an ongoing notification on the live-updates
   * channel; only the last two states get action buttons.
   */
  function BuildBaseNotification(state: OrderState): (n: Notification)
    ensures IsBaseNotification(n)
    ensures n.title.None? && n.text.None? && n.largeIcon.None?
    ensures |n.actions| <= 2
    ensures n.actions != [] <==> state == FoodArriving || state == OrderComplete
  {
    var builder := Notification(ChannelId, IcNotification, true, [], None, None, None);
    match state
    case Initializing => builder
    case FoodPreparation => builder
    case FoodEnroute => builder
    case FoodArriving => AddAction(AddAction(builder, Action("Got it")), Action("Tip"))
    case OrderComplete => AddAction(builder, Action("Rate delivery"))
  }

  /** The action buttons of each state, by title and in order. */
  lemma ActionsByState()
    ensures ActionTitles(BuildBaseNotification(Initializing).actions) == []
    ensures ActionTitles(BuildBaseNotification(FoodPreparation).actions) == []
    ensures ActionTitles(BuildBaseNotification(FoodEnroute).actions) == []
    ensures ActionTitles(BuildBaseNotification(FoodArriving).actions) == ["Got it", "Tip"]
    ensures ActionTitles(BuildBaseNotification(OrderComplete).actions) == ["Rate delivery"]
  {
  }

  /**
   * `buildNotification` of each state: the base notification of that state,
   * with a title and a text, and the cupcake as large icon on every state
   * but INITIALIZING.
   */
  function BuildNotification(state: OrderState): (n: Notification)
    ensures IsBaseNotification(n)
    ensures n.actions == BuildBaseNotification(state).actions
    ensures n.title.Some? && n.text.Some?
    ensures n.largeIcon == if state == Initializing then None else Some(Cupcake)
  {
    var base := BuildBaseNotification(state);
    match state
    case Initializing =>
      base.(title := Some("You order is being placed"),
            text := Some("Confirming with bakery..."))
    case FoodPreparation =>
      base.(title := Some("Your order is being prepared"),
            text := Some("Next step will be delivery"),
            largeIcon := Some(Cupcake))
    case FoodEnroute =>
      base.(title := Some("Your order is on its way"),
            text := Some("Enroute to destination"),
            largeIcon := Some(Cupcake))
    case FoodArriving =>
      base.(title := Some("Your order is arriving and has been dropped off"),
            text := Some("Enjoy & don't forget to refrigerate any perishable items."),
            largeIcon := Some(Cupcake))
    case OrderComplete =>
      base.(title := Some("Your order is complete."),
            text := Some("Thank you for using JetSnack for your snacking needs."),
            largeIcon := Some(Cupcake))
  }

  /** The post `start` schedules for a state. */
  function PostFor(state: OrderState): Post<Notification>
  {
    Post(Delay(state), NotificationId, BuildNotification(state))
  }

  /** A schedule that posts every state in declaration order has strictly increasing delays. */
  lemma ScheduleDelaysIncrease(posts: seq<Post<Notification>>)
    requires |posts| == |Entries|
    requires forall i :: 0 <= i < |Entries| ==> posts[i].delay == Delay(Entries[i])
    ensures forall i, j :: 0 <= i < j < |posts| ==> posts[i].delay < posts[j].delay
  {
    DelaysIncreaseAlongEntries();
  }

  /** The `SnackbarNotificationManager` singleton and what it has done to the platform. */
  class SnackbarNotificationManager {
    /** Whether the `lateinit` fields (notification manager, application context) are set. */
    var initialized: bool
    /** The channels this manager has asked the notification manager to create, in order. */
    var createdChannels: seq<NotificationChannel>

    constructor ()
      ensures !initialized && createdChannels == []
    {
      initialized := false;
      createdChannels := [];
    }

    /** `initialize`: keep the context and register the live-updates channel. */
    method Initialize()
      modifies this
      ensures initialized
      ensures createdChannels == old(createdChannels) + [NotificationChannel(ChannelId, ChannelName, ImportanceDefault)]
    {
      initialized := true;
      createdChannels := createdChannels + [NotificationChannel(ChannelId, ChannelName, ImportanceDefault)];
    }

    /**
     * `start`: with no SDK check, one post per state, in declaration order,
     * at that state's delay and under the one notification id; the first
     * is posted with no delay.
     */
    method Start() returns (outcome: StartOutcome<Notification>)
      ensures !initialized ==> outcome == UninitializedAccess
      ensures initialized ==>
        && outcome.Scheduled?
        && |outcome.posts| == |Entries|
        && outcome.posts[0].delay == 0
        && forall i :: 0 <= i < |Entries| ==>
             outcome.posts[i] == PostFor(Entries[i])
      ensures outcome.Scheduled? ==>
        forall i, j :: 0 <= i < j < |outcome.posts| ==> outcome.posts[i].delay < outcome.posts[j].delay
    {
      if !initialized {
        // the first build reads the unset application context and throws
        return UninitializedAccess;
      }
      var posts: seq<Post<Notification>> := [];
      for i := 0 to |Entries|
        invariant |posts| == i
        invariant forall k :: 0 <= k < i ==> posts[k] == PostFor(Entries[k])
      {
        posts := posts + [PostFor(Entries[i])];
      }
      ScheduleDelaysIncrease(posts);
      outcome := Scheduled(posts);
    }
  }
}
