# Jetsnack order updates and recent-orders widget data, in Dafny

This project models the plain logic of the Jetsnack sample app's live-update
notifications and its recent-orders home-screen widget, and proves what that
logic promises.

- **Order-status notifications, two variants.** Each variant has an
  `OrderState` enum of five states: INITIALIZING, FOOD_PREPARATION,
  FOOD_ENROUTE, FOOD_ARRIVING and ORDER_COMPLETE. Each state has a delay and
  a notification built from a fixed table. `start` walks the states in
  declaration order and schedules one post per state under notification id
  1234. Module `JetsnackNotification` is the `Jetsnack/app` variant. It has a
  segmented progress bar, dark-mode colours and an SDK 35 guard on `start`.
  Module `AppNotification` is the `app/` variant. It has per-state action
  buttons and no SDK guard.
- **Recent-orders data.** Module `RecentOrders` holds the fake repository.
  Its two fields are updated in place: `data`, the published list, and
  `items`, the source items. `load` maps the items to list records and
  publishes them. `refresh` either shuffles the demo items or empties them,
  on a random draw, and then loads. The module also holds the registry that
  keeps one repository per widget id, and the widget receiver's `onDeleted`
  loop.
- **Helpers.** Module `Shuffle` models `shuffled()` with an explicit index
  permutation. `Options`, `Resources` and `NotificationPlatform` hold the
  nullable values, the drawable ids, and the channel and post records shared
  by both managers.

Modelling choices:

- A notification builder and a progress style are values. Each setter in a
  builder chain is a datatype update.
- The `SnackbarNotificationManager` singleton is a class. Its fields are:
  - whether its `lateinit` fields are set;
  - the `uiMode` of the application context;
  - the channels it asked the platform to create.
- `start` returns the schedule, a sequence of `Post(delay, id,
  notification)`. Nothing arms a timer. If `start` runs before `initialize`,
  the first build reads the unset context and throws. The model returns
  `UninitializedAccess` in that case.
- `Random.nextInt(50)` and `shuffled()` are parameters of `Refresh`: a draw in
  [0, 50) and an index permutation.
- The Android constants used are `UI_MODE_NIGHT_MASK = 0x30`,
  `UI_MODE_NIGHT_YES = 0x20`, `UI_MODE_NIGHT_NO = 0x10` and
  `IMPORTANCE_DEFAULT = 3`.
- The demo items all carry key "1", as the code has them, although distinct
  keys "1" to "5" look intended. The model follows the code, and
  `LoadedKeysAreNotUnique` records that keys in `load` output repeat.

## Model

| member | source | states |
|---|---|---|
| `JetsnackNotification.EntriesListEachStateOnce` | Jetsnack/app/src/main/java/com/example/jetsnack/ui/home/notification/SnackbarNotificationManager.kt:61-125 | `OrderState.entries` holds every state, and no state twice. |
| `JetsnackNotification.DelaysIncreaseAlongEntries` | Jetsnack/app/src/main/java/com/example/jetsnack/ui/home/notification/SnackbarNotificationManager.kt:61-112 | State delays strictly increase in declaration order: 5000 < 12000 < 18000 < 25000 < 30000. |
| `JetsnackNotification.DarkModeFollowsNightBits` | Jetsnack/app/src/main/java/com/example/jetsnack/ui/home/notification/SnackbarNotificationManager.kt:127-130 | Only the night bits of `uiMode` decide dark mode, whatever the mode-type bits are. "Night yes" is dark. "Night no" and "undefined" are not. |
| `JetsnackNotification.QuarterSegmentsTotal` | Jetsnack/app/src/main/java/com/example/jetsnack/ui/home/notification/SnackbarNotificationManager.kt:156-163 | The four segments of length 25 add up to 100. |
| `JetsnackNotification.BuildBaseProgressStyle` | Jetsnack/app/src/main/java/com/example/jetsnack/ui/home/notification/SnackbarNotificationManager.kt:145-189 | Every base style has four segments of length 25 in the segment colour, totalling 100. Its points are a non-empty prefix of the default points 25, 50, 75 and 100, all in the point colour, and every point lies on the bar. Progress, indeterminacy and the tracker icon are left unset. |
| `JetsnackNotification.ProgressPointsByState` | Jetsnack/app/src/main/java/com/example/jetsnack/ui/home/notification/SnackbarNotificationManager.kt:148-187 | The points are [25] for FOOD_ENROUTE and [25, 50] for FOOD_ARRIVING. ORDER_COMPLETE gets [25, 50, 75, 100]. INITIALIZING and FOOD_PREPARATION keep the four default points. |
| `JetsnackNotification.BuildBaseNotification` | Jetsnack/app/src/main/java/com/example/jetsnack/ui/home/notification/SnackbarNotificationManager.kt:132-143 | The base notification is on the live-updates channel with the launcher small icon. It is colorized, ongoing and shows its time. Its colour is (255,248,249) in dark mode and (22,19,20) otherwise. Title, text, large icon and style are unset. |
| `JetsnackNotification.BuildNotification` | Jetsnack/app/src/main/java/com/example/jetsnack/ui/home/notification/SnackbarNotificationManager.kt:61-125 | Every built notification keeps the base settings and has a title, a text and a progress style with the state's points and segments. Only INITIALIZING is indeterminate and leaves progress unset. Every other state sets progress to 25 times its position. Every state but INITIALIZING has the cupcake large icon. |
| `JetsnackNotification.TrackerIconByState` | Jetsnack/app/src/main/java/com/example/jetsnack/ui/home/notification/SnackbarNotificationManager.kt:82-121 | The tracker icons are: none for the first two states, the shopping bag en route, the delivery truck on arrival, the check circle on completion. |
| `JetsnackNotification.ProgressNeverDecreases` | Jetsnack/app/src/main/java/com/example/jetsnack/ui/home/notification/SnackbarNotificationManager.kt:68-120 | Along declaration order, only the first state leaves progress unset. After it, progress never decreases and never exceeds 100. |
| `JetsnackNotification.SnackbarNotificationManager.constructor` | Jetsnack/app/src/main/java/com/example/jetsnack/ui/home/notification/SnackbarNotificationManager.kt:46-51 | Before `initialize`, the `lateinit` fields are unset and no channel has been created. |
| `JetsnackNotification.SnackbarNotificationManager.Initialize` | Jetsnack/app/src/main/java/com/example/jetsnack/ui/home/notification/SnackbarNotificationManager.kt:54-59 | `initialize` keeps the context. It creates exactly one channel, with id `live_updates_channel_id`, name `live_updates_channel_name` and default importance. |
| `JetsnackNotification.SnackbarNotificationManager.Start` | Jetsnack/app/src/main/java/com/example/jetsnack/ui/home/notification/SnackbarNotificationManager.kt:210-232 | Below SDK 35, `start` schedules nothing. If the manager is not initialized, it throws. Otherwise it schedules exactly one post per state, in declaration order, at that state's delay, under id 1234, with that state's notification. Delays strictly increase along the schedule. |
| `AppNotification.EntriesListEachStateOnce` | app/src/main/java/com/example/jetsnack/ui/home/notification/SnackbarNotificationManager.kt:49-95 | `OrderState.entries` holds every state, and no state twice. |
| `AppNotification.DelaysIncreaseAlongEntries` | app/src/main/java/com/example/jetsnack/ui/home/notification/SnackbarNotificationManager.kt:49-87 | INITIALIZING is posted with no delay. Delays strictly increase in declaration order: 0 < 7000 < 13000 < 18000 < 21000. |
| `AppNotification.AddAction` | app/src/main/java/com/example/jetsnack/ui/home/notification/SnackbarNotificationManager.kt:106-119 | `addAction` appends the action after those already added and changes nothing else. |
| `AppNotification.BuildBaseNotification` | app/src/main/java/com/example/jetsnack/ui/home/notification/SnackbarNotificationManager.kt:97-122 | The base notification is ongoing, with the `ic_notification` small icon, on channel `live_updates_channel_id`. It has at most two actions, and it has some exactly for FOOD_ARRIVING and ORDER_COMPLETE. |
| `AppNotification.ActionsByState` | app/src/main/java/com/example/jetsnack/ui/home/notification/SnackbarNotificationManager.kt:102-120 | FOOD_ARRIVING gets exactly "Got it" then "Tip". ORDER_COMPLETE gets exactly "Rate delivery". The other three states get none. |
| `AppNotification.BuildNotification` | app/src/main/java/com/example/jetsnack/ui/home/notification/SnackbarNotificationManager.kt:49-95 | Every built notification keeps the base settings and its state's actions, and has a title and a text. Every state but INITIALIZING has the cupcake large icon. INITIALIZING has none. |
| `AppNotification.SnackbarNotificationManager.constructor` | app/src/main/java/com/example/jetsnack/ui/home/notification/SnackbarNotificationManager.kt:34-39 | Before `initialize`, the `lateinit` fields are unset and no channel has been created. |
| `AppNotification.SnackbarNotificationManager.Initialize` | app/src/main/java/com/example/jetsnack/ui/home/notification/SnackbarNotificationManager.kt:42-47 | `initialize` creates exactly one channel, with the fixed id and name and default importance. |
| `AppNotification.SnackbarNotificationManager.Start` | app/src/main/java/com/example/jetsnack/ui/home/notification/SnackbarNotificationManager.kt:127-135 | There is no SDK guard. If the manager is not initialized, `start` throws. Otherwise it schedules exactly one post per state, in declaration order, at that state's delay, under id 1234. The first post has delay 0, and delays strictly increase. |
| `Shuffle.PermutePreservesMultiset` | Jetsnack/app/src/main/java/com/example/jetsnack/widget/data/FakeRecentOrdersDataRepository.kt:31-32 | Shuffling by an index permutation keeps every element, as often as it occurs. |
| `RecentOrders.Take` | Jetsnack/app/src/main/java/com/example/jetsnack/widget/data/FakeRecentOrdersDataRepository.kt:18 | `take(n)` gives the longest prefix with at most n elements. |
| `RecentOrders.InitialItemsAreAllDemoItems` | Jetsnack/app/src/main/java/com/example/jetsnack/widget/data/FakeRecentOrdersDataRepository.kt:82-115 | The first MAX_ITEMS (10) demo items are all 5 demo items, in order. |
| `RecentOrders.LoadedKeysAreNotUnique` | Jetsnack/app/src/main/java/com/example/jetsnack/widget/data/FakeRecentOrdersDataRepository.kt:84-115 | All five loaded records carry key "1". |
| `RecentOrders.ProcessImagesAndBuildData` | Jetsnack/app/src/main/java/com/example/jetsnack/widget/data/FakeRecentOrdersDataRepository.kt:52-70 | The output has one record per item. Record i copies the key, title, supporting text and image of item i. Every record has the `add_shopping_cart` trailing icon and the description "Add to Shopping Cart". |
| `RecentOrders.ProcessCommutesWithPermute` | Jetsnack/app/src/main/java/com/example/jetsnack/widget/data/FakeRecentOrdersDataRepository.kt:52-70 | Mapping shuffled items gives the shuffled mapping of the items. |
| `RecentOrders.ShowDataOnOneDrawInTen` | Jetsnack/app/src/main/java/com/example/jetsnack/widget/data/FakeRecentOrdersDataRepository.kt:29 | Exactly 5 of the 50 possible draws show data, one in ten. |
| `RecentOrders.RefreshShowsReorderedInitialData` | Jetsnack/app/src/main/java/com/example/jetsnack/widget/data/FakeRecentOrdersDataRepository.kt:28-37 | After a refresh that shows data, the records are those a new repository loads, each as often, possibly in another order. |
| `RecentOrders.FakeImageTextListDataRepository.constructor` | Jetsnack/app/src/main/java/com/example/jetsnack/widget/data/FakeRecentOrdersDataRepository.kt:16-18 | A new repository publishes the empty list and holds the first MAX_ITEMS demo items. |
| `RecentOrders.FakeImageTextListDataRepository.Load` | Jetsnack/app/src/main/java/com/example/jetsnack/widget/data/FakeRecentOrdersDataRepository.kt:42-50 | `load` publishes the mapping of the current items, and the empty list for no items. It returns exactly what it published and changes only the published list. |
| `RecentOrders.FakeImageTextListDataRepository.Refresh` | Jetsnack/app/src/main/java/com/example/jetsnack/widget/data/FakeRecentOrdersDataRepository.kt:28-37 | On a draw below 5, the items become the demo items shuffled by the given permutation; otherwise they become empty. The published list is then their mapping. It is non-empty exactly when the draw shows data. |
| `RecentOrders.LoadTwice` | Jetsnack/app/src/main/java/com/example/jetsnack/widget/data/FakeRecentOrdersDataRepository.kt:42-50 | Two loads in a row return and publish the same list and leave the items unchanged. |
| `RecentOrders.RepositoryRegistry.constructor` | Jetsnack/app/src/main/java/com/example/jetsnack/widget/data/FakeRecentOrdersDataRepository.kt:117 | The registry starts empty. |
| `RecentOrders.RepositoryRegistry.GetImageTextListDataRepo` | Jetsnack/app/src/main/java/com/example/jetsnack/widget/data/FakeRecentOrdersDataRepository.kt:122-126 | For a known id, the lookup returns the stored repository and changes nothing. Otherwise it inserts a new, empty repository under that id, returns it, and leaves every other entry as it was. |
| `RecentOrders.RepositoryRegistry.CleanUp` | Jetsnack/app/src/main/java/com/example/jetsnack/widget/data/FakeRecentOrdersDataRepository.kt:131-135 | `cleanUp` removes only the given id's entry. |
| `RecentOrders.RepositoryRegistry.OnDeleted` | Jetsnack/app/src/main/java/com/example/jetsnack/widget/RecentOrdersWidget.kt:83-88 | Deleting widgets removes exactly the entries of the deleted ids. |
| `RecentOrders.RepeatedLookupIsSameInstance` | Jetsnack/app/src/main/java/com/example/jetsnack/widget/data/FakeRecentOrdersDataRepository.kt:122-126 | Two lookups of the same id return the same instance, and that instance is now stored under the id. |
| `RecentOrders.CleanUpIsIdempotent` | Jetsnack/app/src/main/java/com/example/jetsnack/widget/data/FakeRecentOrdersDataRepository.kt:131-135 | Cleaning up twice has the effect of cleaning up once. |
| `RecentOrders.LookupAfterCleanUpIsFresh` | Jetsnack/app/src/main/java/com/example/jetsnack/widget/data/FakeRecentOrdersDataRepository.kt:122-135 | After a clean-up, a lookup of the same id yields a new, empty repository, distinct from the old one. |

## Left out

- Android notification delivery (`notify`, `createNotificationChannel` internals, `Notification.Builder.build`, `ProgressStyle` internals): `start` returns the schedule of posts instead of arming `Handler.postDelayed` timers, and `initialize` records the channel it asks for.
- Builders updated in place (`Notification.Builder`, `ProgressStyle`, `addAction`) are modelled as values: each builder is local to one build, so no aliasing can be observed.
- Notifications are built when `start` runs, as in the code; a configuration change between `start` and a post is not modelled.
- Logging in the Jetsnack `start` and the `canPostPromotedNotifications`/`hasPromotableCharacteristics` queries it logs: no effect on behaviour.
- Icon and resource loading (`IconCompat.createWithResource`, `R.drawable.*`) and Compose `Color(...).toArgb()`: an icon is the name of its drawable, a colour the four integers passed to `Color`.
- The `CharSequence.foregroundColor` span helper: text styling, never called.
- Platform randomness: `Random.nextInt(50)` and `shuffled()` are the `draw` and `perm` parameters of `Refresh`, constrained by its preconditions.
- `synchronized(repositories)` locking, coroutines (`runBlocking`, `Dispatchers`) and the `Flow` returned by `data()`: the model is sequential, and the state flow is the `data` field holding the last published list.
- The `computeIfAbsent` extension used by `getImageTextListDataRepo` is not part of this model; it is taken to return the stored value or insert and return the new one.
- The Glance UI composition of `RecentOrdersWidget` (`provideGlance`, `WidgetContent`, intents): only `onDeleted` is modelled.
- `MainActivity`: activity lifecycle and widget-preview registration against system services.
