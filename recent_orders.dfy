/**
 * The recent-orders widget's data
 * (Jetsnack/app/src/main/java/com/example/jetsnack/widget/data/FakeRecentOrdersDataRepository.kt):
 * a fake repository that maps demo items to list records and publishes
 * them, a refresh that shows a shuffled demo list about once in ten, and the
 * registry that keeps one repository per widget.
 */
module RecentOrders {
  import opened Options
  import opened Resources
  import opened Shuffle

  const MaxItems := 10

  /** `Random.nextInt(50)` draws from 0 up to, not including, this bound. */
  const DrawBound := 50

  /** A draw below this shows data: 5 of the 50 possible draws. */
  const ShowDataBelow := 5

  const TrailingIcon := AddShoppingCart
  const TrailingIconDescription := "Add to Shopping Cart"

  datatype DemoDataItem = DemoDataItem(
    key: string,
    title: string,
    supportingText: string,
    supportingImage: Drawable,
    trailingIconButton: Option<Drawable>,
    trailingIconButtonContentDescription: Option<string>)

  /** The record one row of the widget list displays. */
  datatype ImageTextListItemData = ImageTextListItemData(
    key: string,
    title: string,
    supportingText: string,
    supportingImage: Drawable,
    trailingIconButton: Drawable,
    trailingIconButtonContentDescription: string)

  /** The demo items, all under the same key "1", as written. */
  const DemoItems: seq<DemoDataItem> := [
    DemoDataItem("1", "Cupcakes", "Cupcakes, almonds, bananas, apples", Cupcake, None, None),
    DemoDataItem("1", "Donut", "Donuts, milk, tea", Donut, None, None),
    DemoDataItem("1", "Eclair", "Eclairs, green tea, sugar", Eclair, None, None),
    DemoDataItem("1", "Froyo", "Froyo", Froyo, None, None),
    DemoDataItem("1", "Gingerbread", "Gingerbread", Gingerbread, None, None)
  ]

  /** `List.take(n)`: the longest prefix of `s` with at most `n` elements. */
  function Take<T>(s: seq<T>, n: nat): (r: seq<T>)
    ensures r <= s && |r| <= n
    ensures |r| == n || r == s
  {
    if n <= |s| then s[..n] else s
  }

  /** `demoItems.take(MAX_ITEMS)`: the items a new repository starts with and a refresh shuffles. */
  function InitialItems(): seq<DemoDataItem>
  {
    Take(DemoItems, MaxItems)
  }

  /** There are fewer demo items than MAX_ITEMS, so all five are taken, in order. */
  lemma InitialItemsAreAllDemoItems()
    ensures InitialItems() == DemoItems && |InitialItems()| == 5
  {
  }

  /**
   * The keys of the demo items are not unique: every loaded record has key
   * "1", so nothing may look records up by key.
   */
  lemma LoadedKeysAreNotUnique()
    ensures |ProcessImagesAndBuildData(InitialItems())| == 5
    ensures forall i :: 0 <= i < 5 ==> ProcessImagesAndBuildData(InitialItems())[i].key == "1"
  {
  }

  /**
   * `processImagesAndBuildData`: one record per item, in order, copying the
   * item's key, title, supporting text and image and adding the shopping-cart
   * button.
   */
  function ProcessImagesAndBuildData(items: seq<DemoDataItem>): (r: seq<ImageTextListItemData>)
    ensures |r| == |items|
    ensures forall i :: 0 <= i < |items| ==>
      && r[i].key == items[i].key
      && r[i].title == items[i].title
      && r[i].supportingText == items[i].supportingText
      && r[i].supportingImage == items[i].supportingImage
      && r[i].trailingIconButton == TrailingIcon
      && r[i].trailingIconButtonContentDescription == TrailingIconDescription
  {
    if items == [] then []
    else
      var item := items[0];
      [ImageTextListItemData(item.key, item.title, item.supportingText, item.supportingImage,
                             TrailingIcon, TrailingIconDescription)]
      + ProcessImagesAndBuildData(items[1..])
  }

  /** Mapping commutes with shuffling: the records of shuffled items are the shuffled records. */
  lemma {:induction false} ProcessCommutesWithPermute(items: seq<DemoDataItem>, perm: seq<int>)
    requires forall i :: 0 <= i < |perm| ==> 0 <= perm[i] < |items|
    ensures ProcessImagesAndBuildData(Permute(items, perm)) == Permute(ProcessImagesAndBuildData(items), perm)
  {
    var lhs, rhs := ProcessImagesAndBuildData(Permute(items, perm)), Permute(ProcessImagesAndBuildData(items), perm);
    forall i | 0 <= i < |perm| ensures lhs[i] == rhs[i] {
      var it := items[perm[i]];
      assert lhs[i] == ImageTextListItemData(it.key, it.title, it.supportingText, it.supportingImage,
                                             TrailingIcon, TrailingIconDescription);
    }
  }

  /** Whether the refresh draw shows data (`Random.nextInt(50) < 5`). */
  predicate ShowData(draw: int)
  {
    draw < ShowDataBelow
  }

  /** Exactly 5 of the 50 possible draws show data: one refresh in ten, on a uniform draw. */
  lemma ShowDataOnOneDrawInTen()
    ensures |set d | 0 <= d < DrawBound && ShowData(d)| * 10 == DrawBound
  {
    assert (set d | 0 <= d < DrawBound && ShowData(d)) == {0, 1, 2, 3, 4};
  }

  /**
   * Data shown after a refresh is the data a new repository loads, in
   * another order: the same records, each as often.
   */
  lemma RefreshShowsReorderedInitialData(perm: seq<int>)
    requires IsPermutation(perm, |InitialItems()|)
    ensures multiset(ProcessImagesAndBuildData(Permute(InitialItems(), perm)))
         == multiset(ProcessImagesAndBuildData(InitialItems()))
  {
    ProcessCommutesWithPermute(InitialItems(), perm);
    PermutePreservesMultiset(ProcessImagesAndBuildData(InitialItems()), perm);
  }

  /** `FakeImageTextListDataRepository`: the published list (the state flow's value) and the item source. */
  class FakeImageTextListDataRepository {
    /** The value of the `data` state flow: the list observers see. */
    var data: seq<ImageTextListItemData>
    var items: seq<DemoDataItem>

    /** A new repository publishes nothing yet and holds the first MAX_ITEMS demo items. */
    constructor ()
      ensures data == [] && items == InitialItems()
    {
      data := [];
      items := InitialItems();
    }

    /**
     * `load`: publish the records of the current items (the empty list for no
     * items) and return what was published; the items stay as they are.
     */
    method Load() returns (r: seq<ImageTextListItemData>)
      modifies this`data
      ensures data == ProcessImagesAndBuildData(items)
      ensures items == [] ==> data == []
      ensures r == data
    {
      if |items| > 0 {
        data := ProcessImagesAndBuildData(items);
      } else {
        data := [];
      }
      r := data;
    }

    /**
     * `refresh`: on a showing draw, the items become the demo items shuffled
     * by `perm`; otherwise they become empty. Then `load`.
     */
    method Refresh(draw: int, perm: seq<int>)
      requires 0 <= draw < DrawBound
      requires IsPermutation(perm, |InitialItems()|)
      modifies this
      ensures items == if ShowData(draw) then Permute(InitialItems(), perm) else []
      ensures data == ProcessImagesAndBuildData(items)
      ensures data != [] <==> ShowData(draw)
    {
      if ShowData(draw) {
        items := Permute(InitialItems(), perm);
      } else {
        items := [];
      }
      var _ := Load();
    }
  }

  /** `load` twice in a row: the second publishes and returns what the first did. */
  method LoadTwice(repo: FakeImageTextListDataRepository) returns (first: seq<ImageTextListItemData>, second: seq<ImageTextListItemData>)
    modifies repo`data
    ensures first == second == repo.data == ProcessImagesAndBuildData(repo.items)
    ensures repo.items == old(repo.items)
  {
    first := repo.Load();
    second := repo.Load();
  }

  /** A widget id: the platform's `AppWidgetId`. */
  datatype GlanceId = AppWidgetId(appWidgetId: int)

  /** The companion object's map from widget id to that widget's repository. */
  class RepositoryRegistry {
    var repositories: map<GlanceId, FakeImageTextListDataRepository>

    constructor ()
      ensures repositories == map[]
    {
      repositories := map[];
    }

    /**
     * `getImageTextListDataRepo`: the repository already kept for the widget,
     * or else a new one, now kept for it. No other entry changes.
     */
    method GetImageTextListDataRepo(glanceId: GlanceId) returns (repo: FakeImageTextListDataRepository)
      modifies this
      ensures glanceId in old(repositories) ==> repo == old(repositories)[glanceId] && repositories == old(repositories)
      ensures glanceId !in old(repositories) ==>
        && fresh(repo) && repo.data == [] && repo.items == InitialItems()
        && repositories == old(repositories)[glanceId := repo]
    {
      if glanceId in repositories {
        repo := repositories[glanceId];
      } else {
        repo := new FakeImageTextListDataRepository();
        repositories := repositories[glanceId := repo];
      }
    }

    /** `cleanUp`: forget the widget's repository, and nothing else. */
    method CleanUp(glanceId: GlanceId)
      modifies this
      ensures repositories == old(repositories) - {glanceId}
    {
      repositories := repositories - {glanceId};
    }

    /** `RecentOrdersWidgetReceiver.onDeleted`: clean up every deleted widget, in order. */
    method OnDeleted(appWidgetIds: seq<int>)
      modifies this
      ensures repositories == old(repositories) - set i | 0 <= i < |appWidgetIds| :: AppWidgetId(appWidgetIds[i])
    {
      for k := 0 to |appWidgetIds|
        invariant repositories == old(repositories) - set i | 0 <= i < k :: AppWidgetId(appWidgetIds[i])
      {
        CleanUp(AppWidgetId(appWidgetIds[k]));
      }
    }
  }

  /** Looking the same widget up twice yields the same repository both times. */
  method RepeatedLookupIsSameInstance(registry: RepositoryRegistry, glanceId: GlanceId)
    returns (first: FakeImageTextListDataRepository, second: FakeImageTextListDataRepository)
    modifies registry
    ensures first == second && glanceId in registry.repositories && registry.repositories[glanceId] == first
    ensures glanceId in old(registry.repositories) ==> registry.repositories == old(registry.repositories)
  {
    first := registry.GetImageTextListDataRepo(glanceId);
    second := registry.GetImageTextListDataRepo(glanceId);
  }

  /** Cleaning up twice is cleaning up once. */
  method CleanUpIsIdempotent(registry: RepositoryRegistry, glanceId: GlanceId)
    modifies registry
    ensures registry.repositories == old(registry.repositories) - {glanceId}
  {
    registry.CleanUp(glanceId);
    registry.CleanUp(glanceId);
  }

  /** After a clean-up, looking the widget up again yields a new, empty repository. */
  method LookupAfterCleanUpIsFresh(registry: RepositoryRegistry, glanceId: GlanceId)
    returns (before: FakeImageTextListDataRepository, after: FakeImageTextListDataRepository)
    modifies registry
    ensures before != after && fresh(after)
    ensures after.data == [] && after.items == InitialItems()
    ensures registry.repositories == old(registry.repositories)[glanceId := after]
  {
    before := registry.GetImageTextListDataRepo(glanceId);
    registry.CleanUp(glanceId);
    after := registry.GetImageTextListDataRepo(glanceId);
  }
}
