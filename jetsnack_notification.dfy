/**
 * The order-status live update of the Jetsnack app
 * (Jetsnack/app/src/main/java/com/example/jetsnack/ui/home/notification/SnackbarNotificationManager.kt):
 * five order states, each with a delay and a notification carrying a
 * segmented progress bar, and `start`, which schedules one post per state.
 */
module JetsnackNotification {
  import opened Options
  import opened Resources
  import opened NotificationPlatform

  const ChannelId := "live_updates_channel_id"
  const ChannelName := "live_updates_channel_name"
  const NotificationId := 1234

  /** The lowest SDK level on which `start` schedules anything. */
  const MinStartSdk := 35

  datatype OrderState = Initializing | FoodPreparation | FoodEnroute | FoodArriving | OrderComplete

  /** `OrderState.entries`: every state, in declaration order. */
  const Entries: seq<OrderState> := [Initializing, FoodPreparation, FoodEnroute, FoodArriving, OrderComplete]

  /** The position of a state in declaration order. */
  function Ordinal(state: OrderState): (k: nat)
    ensures k < |Entries| && Entries[k] == state
  {
    match state
    case Initializing => 0
    case FoodPreparation => 1
    case FoodEnroute => 2
    case FoodArriving => 3
    case OrderComplete => 4
  }

  /** The delay, in milliseconds after `start`, at which a state is posted. */
  function Delay(state: OrderState): nat
  {
    match state
    case Initializing => 5000
    case FoodPreparation => 12000
    case FoodEnroute => 18000
    case FoodArriving => 25000
    case OrderComplete => 30000
  }

  /** `entries` lists every state exactly once. */
  lemma EntriesListEachStateOnce()
    ensures forall s: OrderState :: s in Entries
    ensures forall i, j :: 0 <= i < j < |Entries| ==> Entries[i] != Entries[j]
  {
    forall s: OrderState ensures s in Entries {
      var k := Ordinal(s);
    }
  }

  /** Delays strictly increase in declaration order: 5000 < 12000 < 18000 < 25000 < 30000. */
  lemma DelaysIncreaseAlongEntries()
    ensures forall i, j :: 0 <= i < j < |Entries| ==> Delay(Entries[i]) < Delay(Entries[j])
  {
  }

  // ---------------------------------------------------------------------------
  // Colours and dark mode

  /** A Compose `Color(red, green, blue, alpha)` built from integer components, as written. */
  datatype Color = Color(red: int, green: int, blue: int, alpha: int)

  const DarkModeColor := Color(255, 248, 249, 1)
  const LightModeColor := Color(22, 19, 20, 1)
  const PointColor := Color(236, 183, 255, 1)
  const SegmentColor := Color(134, 247, 250, 1)

  /** Configuration.UI_MODE_NIGHT_MASK and the values of the night bits. */
  const UiModeNightMask: bv32 := 0x30
  const UiModeNightUndefined: bv32 := 0x00
  const UiModeNightNo: bv32 := 0x10
  const UiModeNightYes: bv32 := 0x20

  /** Dark mode is on when the night bits of the configuration's `uiMode` say "yes". */
  predicate IsDarkModeActive(uiMode: bv32)
  {
    uiMode & UiModeNightMask == UiModeNightYes
  }

  /**
   * Dark mode is decided by the night bits alone: whatever the UI mode type
   * held in the other bits, "night yes" is dark and "night no" or
   * "undefined" is not.
   */
  lemma DarkModeFollowsNightBits(modeType: bv32)
    requires modeType & UiModeNightMask == 0
    ensures IsDarkModeActive(modeType | UiModeNightYes)
    ensures !IsDarkModeActive(modeType | UiModeNightNo)
    ensures !IsDarkModeActive(modeType | UiModeNightUndefined)
  {
  }

  // ---------------------------------------------------------------------------
  // Progress style

  datatype Point = Point(position: int, color: Color)
  datatype Segment = Segment(length: int, color: Color)

  /** A `ProgressStyle`; `progress` is `None` until `setProgress` is called. */
  datatype ProgressStyle = ProgressStyle(
    points: seq<Point>,
    segments: seq<Segment>,
    progress: Option<int>,
    indeterminate: bool,
    trackerIcon: Option<Drawable>)

  function SegmentsTotal(segments: seq<Segment>): int
  {
    if segments == [] then 0 else segments[0].length + SegmentsTotal(segments[1..])
  }

  function Positions(points: seq<Point>): (r: seq<int>)
    ensures |r| == |points|
    ensures forall i :: 0 <= i < |points| ==> r[i] == points[i].position
  {
    if points == [] then [] else [points[0].position] + Positions(points[1..])
  }

  /** The four quarter segments add up to a bar of length 100. */
  lemma QuarterSegmentsTotal()
    ensures SegmentsTotal(QuarterSegments) == 100
  {
    var s := QuarterSegments;
    assert SegmentsTotal(s[3..]) == 25 by { assert s[3..][1..] == []; }
    assert s[2..][1..] == s[3..] && s[1..][1..] == s[2..];
    assert SegmentsTotal(s[1..]) == 75;
  }

  const AllPoints := [Point(25, PointColor), Point(50, PointColor), Point(75, PointColor), Point(100, PointColor)]
  const QuarterSegments := [Segment(25, SegmentColor), Segment(25, SegmentColor), Segment(25, SegmentColor), Segment(25, SegmentColor)]

  /**
   * `buildBaseProgressStyle`: four equal segments and the four default points,
   * whose points are then replaced by the points the state has reached.
   */
  function BuildBaseProgressStyle(state: OrderState): (style: ProgressStyle)
    ensures |style.segments| == 4 && SegmentsTotal(style.segments) == 100
    ensures forall i :: 0 <= i < |style.segments| ==> style.segments[i] == Segment(25, SegmentColor)
    ensures 1 <= |style.points| <= 4 && style.points == AllPoints[..|style.points|]
    ensures forall i :: 0 <= i < |style.points| ==> 0 < style.points[i].position <= SegmentsTotal(style.segments)
    ensures style.progress.None? && !style.indeterminate && style.trackerIcon.None?
  {
    QuarterSegmentsTotal();
    var base := ProgressStyle(AllPoints, QuarterSegments, None, false, None);
    match state
    case Initializing => base
    case FoodPreparation => base
    case FoodEnroute => base.(points := [Point(25, PointColor)])
    case FoodArriving => base.(points := [Point(25, PointColor), Point(50, PointColor)])
    case OrderComplete => base.(points := AllPoints)
  }

  /** The progress points of each state, by position. */
  lemma ProgressPointsByState()
    ensures Positions(BuildBaseProgressStyle(Initializing).points) == [25, 50, 75, 100]
    ensures Positions(BuildBaseProgressStyle(FoodPreparation).points) == [25, 50, 75, 100]
    ensures Positions(BuildBaseProgressStyle(FoodEnroute).points) == [25]
    ensures Positions(BuildBaseProgressStyle(FoodArriving).points) == [25, 50]
    ensures Positions(BuildBaseProgressStyle(OrderComplete).points) == [25, 50, 75, 100]
  {
  }

  // ---------------------------------------------------------------------------
  // Notifications

  /** A `Notification.Builder`; the optional parts are `None` until set. */
  datatype Notification = Notification(
    channelId: string,
    smallIcon: Drawable,
    colorized: bool,
    color: Color,
    ongoing: bool,
    showWhen: bool,
    title: Option<string>,
    text: Option<string>,
    largeIcon: Option<Drawable>,
    style: Option<ProgressStyle>)

  /** What every notification of this manager has in common. */
  predicate IsBaseNotification(n: Notification, uiMode: bv32)
  {
    && n.channelId == ChannelId
    && n.smallIcon == IcLauncherForeground
    && n.colorized && n.ongoing && n.showWhen
    && n.color == (if IsDarkModeActive(uiMode) then DarkModeColor else LightModeColor)
  }

  /** `buildBaseNotification`: the shared builder, coloured by the dark-mode setting. */
  function BuildBaseNotification(uiMode: bv32): (n: Notification)
    ensures IsBaseNotification(n, uiMode)
    ensures n.title.None? && n.text.None? && n.largeIcon.None? && n.style.None?
  {
    Notification(
      ChannelId, IcLauncherForeground, true,
      if IsDarkModeActive(uiMode) then DarkModeColor else LightModeColor,
      true, true, None, None, None, None)
  }

  /**
   * `buildNotification` of each state. Every result keeps the base settings,
   * has a title, a text and a progress style; INITIALIZING is indeterminate,
   * every later state sets its progress to 25 times its position, and every
   * state but INITIALIZING shows the cupcake as its large icon.
   */
  function BuildNotification(state: OrderState, uiMode: bv32): (n: Notification)
    ensures IsBaseNotification(n, uiMode)
    ensures n.title.Some? && n.text.Some? && n.style.Some?
    ensures n.style.value.points == BuildBaseProgressStyle(state).points
    ensures n.style.value.segments == BuildBaseProgressStyle(state).segments
    ensures n.style.value.indeterminate <==> state == Initializing
    ensures n.style.value.progress == if state == Initializing then None else Some(25 * Ordinal(state))
    ensures n.largeIcon == if state == Initializing then None else Some(Cupcake)
  {
    var base := BuildBaseNotification(uiMode);
    var style := BuildBaseProgressStyle(state);
    match state
    case Initializing =>
      base.(smallIcon := IcLauncherForeground,
            title := Some("You order is being placed"),
            text := Some("Confirming with bakery..."),
            style := Some(style.(indeterminate := true)))
    case FoodPreparation =>
      base.(title := Some("Your order is being prepared"),
            text := Some("Next step will be delivery"),
            largeIcon := Some(Cupcake),
            style := Some(style.(progress := Some(25))))
    case FoodEnroute =>
      base.(title := Some("Your order is on its way"),
            text := Some("Enroute to destination"),
            style := Some(style.(trackerIcon := Some(ShoppingBag), progress := Some(50))),
            largeIcon := Some(Cupcake))
    case FoodArriving =>
      base.(title := Some("Your order is arriving and has been dropped off"),
            text := Some("Enjoy & don't forget to refrigerate any perishable items."),
            style := Some(style.(trackerIcon := Some(DeliveryTruck), progress := Some(75))),
            largeIcon := Some(Cupcake))
    case OrderComplete =>
      base.(title := Some("Your order is complete."),
            text := Some("Thank you for using JetSnack for your snacking needs."),
            style := Some(style.(trackerIcon := Some(CheckCircle), progress := Some(100))),
            largeIcon := Some(Cupcake))
  }

  /** The progress tracker icon of each state. */
  lemma TrackerIconByState(uiMode: bv32)
    ensures BuildNotification(Initializing, uiMode).style.value.trackerIcon == None
    ensures BuildNotification(FoodPreparation, uiMode).style.value.trackerIcon == None
    ensures BuildNotification(FoodEnroute, uiMode).style.value.trackerIcon == Some(ShoppingBag)
    ensures BuildNotification(FoodArriving, uiMode).style.value.trackerIcon == Some(DeliveryTruck)
    ensures BuildNotification(OrderComplete, uiMode).style.value.trackerIcon == Some(CheckCircle)
  {
  }

  /**
   * Along declaration order the progress never decreases and never passes
   * the end of the bar: only INITIALIZING leaves it unset, and the others
   * set 25, 50, 75 and 100.
   */
  lemma ProgressNeverDecreases(uiMode: bv32)
    ensures forall i :: 0 <= i < |Entries| ==>
      (BuildNotification(Entries[i], uiMode).style.value.progress.None? <==> i == 0)
    ensures forall i, j :: 0 < i <= j < |Entries| ==>
      BuildNotification(Entries[i], uiMode).style.value.progress.value
        <= BuildNotification(Entries[j], uiMode).style.value.progress.value
        <= 100
  {
    forall i | 0 <= i < |Entries| ensures Ordinal(Entries[i]) == i {
      EntriesListEachStateOnce();
    }
  }

  // ---------------------------------------------------------------------------
  // The manager

  /** The post `start` schedules for a state. */
  function PostFor(state: OrderState, uiMode: bv32): Post<Notification>
  {
    Post(Delay(state), NotificationId, BuildNotification(state, uiMode))
  }

  /** A schedule that posts every state in declaration order has strictly increasing delays. */
  lemma ScheduleDelaysIncrease(posts: seq<Post<Notification>>)
    requires |posts| == |Entries|
    requires forall i :: 0 <= i < |Entries| ==> posts[i].delay == Delay(Entries[i])
    ensures forall i, j :: 0 <= i < j < |posts| ==> posts[i].delay < posts[j].delay
  {
    DelaysIncreaseAlongEntries();
  }

  /** The `SnackbarNotificationManager` singleton and what it has done to the platform. */
  class SnackbarNotificationManager {
    /** Whether the `lateinit` fields (notification manager, application context) are set. */
    var initialized: bool
    /** `uiMode` of the application context's configuration. */
    var uiMode: bv32
    /** The channels this manager has asked the notification manager to create, in order. */
    var createdChannels: seq<NotificationChannel>

    constructor ()
      ensures !initialized && createdChannels == []
    {
      initialized := false;
      uiMode := 0;
      createdChannels := [];
    }

    /** `initialize`: keep the context and register the live-updates channel. */
    method Initialize(contextUiMode: bv32)
      modifies this
      ensures initialized && uiMode == contextUiMode
      ensures createdChannels == old(createdChannels) + [NotificationChannel(ChannelId, ChannelName, ImportanceDefault)]
    {
      initialized := true;
      uiMode := contextUiMode;
      createdChannels := createdChannels + [NotificationChannel(ChannelId, ChannelName, ImportanceDefault)];
    }

    /**
     * `start`: below SDK 35 nothing is scheduled; otherwise one post per
     * state, in declaration order, at that state's delay and under the one
     * notification id. The notifications are built when `start` runs.
     */
    method Start(sdkInt: int) returns (outcome: StartOutcome<Notification>)
      ensures sdkInt < MinStartSdk ==> outcome == Scheduled([])
      ensures sdkInt >= MinStartSdk && !initialized ==> outcome == UninitializedAccess
      ensures sdkInt >= MinStartSdk && initialized ==>
        && outcome.Scheduled?
        && |outcome.posts| == |Entries|
        && forall i :: 0 <= i < |Entries| ==>
             outcome.posts[i] == PostFor(Entries[i], uiMode)
      ensures outcome.Scheduled? ==>
        forall i, j :: 0 <= i < j < |outcome.posts| ==> outcome.posts[i].delay < outcome.posts[j].delay
    {
      if sdkInt < MinStartSdk {
        return Scheduled([]);
      }
      if !initialized {
        // the first build reads the unset application context and throws
        return UninitializedAccess;
      }
      var mode := uiMode;
      var posts: seq<Post<Notification>> := [];
      for i := 0 to |Entries|
        invariant |posts| == i
        invariant forall k :: 0 <= k < i ==> posts[k] == PostFor(Entries[k], mode)
      {
        posts := posts + [PostFor(Entries[i], mode)];
      }
      ScheduleDelaysIncrease(posts);
      outcome := Scheduled(posts);
    }
  }
}
