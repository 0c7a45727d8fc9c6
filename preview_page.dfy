/** The preview page's controller: the module-level state of the page script
    (tab list, current page, page size, live-preview flag, in-memory snapshot
    map) and the extension's local storage, with the handlers that update
    them in place. */
module PreviewView {
  import opened Optional
  import opened Paging
  import opened TabList
  import opened SnapshotStore
  import opened CaptureProvider
  import opened PreviewSlots

  class PreviewPage {
    var livePreviewsEnabled: bool
    var tabs: seq<Tab>
    var currentPage: int
    var tabsPerPage: int
    /** The in-memory tier, `snapshots`. */
    var snapshots: map<nat, string>
    /** `chrome.storage.local`, the persisted tier; each write is atomic. */
    var storage: map<string, string>
    const isBrave: bool

    function Cache(): Tiers
      reads this
    {
      Tiers(snapshots, storage)
    }

    /** The page index is never negative, the page size is positive, and the
        memory tier agrees with storage. */
    ghost predicate Valid()
      reads this
    {
      currentPage >= 0 && tabsPerPage > 0 && Coherent(Cache())
    }

    /** The script's initial state; `storage` is whatever earlier pages left
        in local storage. */
    constructor (isBrave: bool, storage: map<string, string>)
      ensures Valid()
      ensures this.isBrave == isBrave && this.storage == storage && snapshots == map[]
      ensures !livePreviewsEnabled && tabs == [] && currentPage == 0 && tabsPerPage == 20
    {
      this.isBrave := isBrave;
      this.storage := storage;
      snapshots := map[];
      livePreviewsEnabled := false;
      tabs := [];
      currentPage := 0;
      tabsPerPage := 20;
      new;
      EmptyMemoryIsCoherent(storage);
    }

    /** The settings callback followed by the tab query: takes the page size,
        the live-preview flag and the window's tabs. */
    method ApplySettings(perPage: int, live: bool, queried: seq<Tab>)
      requires Valid()
      requires perPage > 0
      modifies this`tabsPerPage, this`livePreviewsEnabled, this`tabs
      ensures Valid()
      ensures tabsPerPage == perPage && livePreviewsEnabled == live && tabs == queried
    {
      tabsPerPage := perPage;
      livePreviewsEnabled := live;
      tabs := queried;
    }

    /** The Prev button. */
    method Prev()
      requires Valid()
      modifies this`currentPage
      ensures Valid()
      ensures currentPage == PrevPage(old(currentPage))
      ensures old(OnExistingPage(currentPage, tabsPerPage, |tabs|)) ==> OnExistingPage(currentPage, tabsPerPage, |tabs|)
    {
      if currentPage > 0 {
        currentPage := currentPage - 1;
      }
      if old(OnExistingPage(currentPage, tabsPerPage, |tabs|)) {
        NavigationKeepsExistingPage(old(currentPage), tabsPerPage, |tabs|);
      }
    }

    /** The Next button: a page it moves to shows at least one tab. */
    method Next()
      requires Valid()
      modifies this`currentPage
      ensures Valid()
      ensures currentPage == NextPage(old(currentPage), tabsPerPage, |tabs|)
      ensures currentPage != old(currentPage) ==> |VisibleSlice(tabs, currentPage, tabsPerPage)| >= 1
      ensures old(OnExistingPage(currentPage, tabsPerPage, |tabs|)) ==> OnExistingPage(currentPage, tabsPerPage, |tabs|)
    {
      if (currentPage + 1) * tabsPerPage < |tabs| {
        NextLandsOnNonEmptyPage(tabs, currentPage, tabsPerPage);
        currentPage := currentPage + 1;
      }
      if old(OnExistingPage(currentPage, tabsPerPage, |tabs|)) {
        NavigationKeepsExistingPage(old(currentPage), tabsPerPage, |tabs|);
      }
    }

    /** The close button's callback, once the browser has removed the tab:
        drop every tab with that id; the page index stays as it is. */
    method CloseTab(id: nat)
      requires Valid()
      modifies this`tabs
      ensures Valid()
      ensures tabs == WithoutId(old(tabs), id)
    {
      tabs := WithoutId(tabs, id);
    }

    /** `saveSnapshot`: write the data URL through to both tiers. */
    method SaveSnapshot(id: nat, dataUrl: string)
      requires Valid()
      modifies this`snapshots, this`storage
      ensures Valid()
      ensures Cache() == Save(old(Cache()), id, dataUrl)
    {
      SaveKeepsCoherent(Cache(), id, dataUrl);
      snapshots := snapshots[id := dataUrl];
      storage := storage[SnapshotKey(id) := dataUrl];
    }

    /** `loadSnapshot`: copy a persisted snapshot into memory. */
    method LoadSnapshot(id: nat)
      requires Valid()
      modifies this`snapshots
      ensures Valid()
      ensures Cache() == AfterLoad(old(Cache()), id)
    {
      LoadKeepsCoherent(Cache(), id);
      var key := SnapshotKey(id);
      if key in storage && storage[key] != "" {
        snapshots := snapshots[id := storage[key]];
      }
    }

    /** `loadCachedSnapshot`: memory first, then storage with promotion; the
        callback's argument is the result. */
    method LoadCachedSnapshot(id: nat) returns (r: Option<string>)
      requires Valid()
      modifies this`snapshots
      ensures Valid()
      ensures r == CachedSnapshot(old(Cache()), id)
      ensures Cache() == AfterCachedLoad(old(Cache()), id)
    {
      CachedLoadKeepsCoherent(Cache(), id);
      if id in snapshots && snapshots[id] != "" {
        return Some(snapshots[id]);
      }
      var key := SnapshotKey(id);
      var dataUrl := if key in storage then Some(storage[key]) else None;
      if dataUrl.Some? && dataUrl.value != "" {
        snapshots := snapshots[id := dataUrl.value];
        r := dataUrl;
      } else {
        r := None;
      }
    }

    /** `captureTabPreview`: `produced` is what the capture API of the chosen
        strategy delivered. A delivered snapshot is written through to both
        tiers before it is returned; a failure returns `None`. */
    method CaptureTabPreview(tab: Tab, produced: Option<string>) returns (r: Option<string>)
      requires Valid()
      modifies this`snapshots, this`storage
      ensures Valid()
      ensures r == CaptureResult(StrategyFor(isBrave), produced)
      ensures Cache() == AfterCapture(old(Cache()), tab.id, StrategyFor(isBrave), produced)
    {
      CaptureWriteThrough(Cache(), tab.id, StrategyFor(isBrave), produced);
      if produced == None || (isBrave && produced.value == "") {
        return None;
      }
      var dataUrl := produced.value;
      snapshots := snapshots[tab.id := dataUrl];
      storage := storage[SnapshotKey(tab.id) := dataUrl];
      r := Some(dataUrl);
    }

    /** The body of `renderTabs`'s loop for one tab: the preview image and
        its label, from the cache or, on a miss, from a capture. */
    method RenderSlot(tab: Tab, produced: Option<string>) returns (slot: Slot, captureRequested: bool)
      requires Valid()
      modifies this`snapshots, this`storage
      ensures Valid()
      ensures ResolveSlot(old(Cache()), tab.id, livePreviewsEnabled, isBrave, produced) == Resolution(Cache(), slot, captureRequested)
    {
      slot := InitialSlot(tab.id, livePreviewsEnabled, isBrave);
      captureRequested := false;
      if livePreviewsEnabled {
        var cached := LoadCachedSnapshot(tab.id);
        if cached.Some? {
          slot := slot.(alt := CachedPreview, src := cached);
        } else {
          var dataUrl := CaptureTabPreview(tab, produced);
          captureRequested := true;
          if dataUrl.Some? && dataUrl.value != "" {
            slot := slot.(alt := LivePreview, src := dataUrl);
          } else {
            slot := slot.(alt := PreviewFailed);
          }
        }
      }
    }

    /** The `forEach` of `renderTabs` over the tabs of the page, resolving
        their previews in page order. */
    method RenderPreviews(pageTabs: seq<Tab>, capture: nat -> Option<string>) returns (slots: seq<Slot>)
      requires Valid()
      modifies this`snapshots, this`storage
      ensures Valid()
      ensures RenderSlots(old(Cache()), pageTabs, livePreviewsEnabled, isBrave, capture).slots == slots
      ensures RenderSlots(old(Cache()), pageTabs, livePreviewsEnabled, isBrave, capture).tiers == Cache()
    {
      ghost var initial := Cache();
      ghost var requested: set<nat> := {};
      slots := [];
      var i := 0;
      while i < |pageTabs|
        invariant 0 <= i <= |pageTabs|
        invariant Valid()
        invariant Render(Cache(), slots, requested) == RenderSlots(initial, pageTabs[..i], livePreviewsEnabled, isBrave, capture)
      {
        var tab := pageTabs[i];
        RenderSlotsAppend(initial, pageTabs, i, livePreviewsEnabled, isBrave, capture);
        var slot, captureRequested := RenderSlot(tab, capture(tab.id));
        if captureRequested {
          requested := requested + {tab.id};
        }
        slots := slots + [slot];
        i := i + 1;
      }
      assert pageTabs[..i] == pageTabs;
    }

    /** `renderTabs`: one preview slot per tab of the current page, and the
        page indicator "Page shown of total". */
    method RenderTabs(capture: nat -> Option<string>) returns (slots: seq<Slot>, shown: int, total: nat)
      requires Valid()
      modifies this`snapshots, this`storage
      ensures Valid()
      ensures var r := RenderSlots(old(Cache()), VisibleSlice(tabs, currentPage, tabsPerPage), livePreviewsEnabled, isBrave, capture);
        slots == r.slots && Cache() == r.tiers
      ensures |slots| == |VisibleSlice(tabs, currentPage, tabsPerPage)| <= tabsPerPage
      ensures !livePreviewsEnabled ==> Cache() == old(Cache())
      ensures shown == currentPage + 1 && total == PageCount(|tabs|, tabsPerPage)
    {
      var pageTabs := VisibleSlice(tabs, currentPage, tabsPerPage);
      slots := RenderPreviews(pageTabs, capture);
      shown := currentPage + 1;
      total := PageCount(|tabs|, tabsPerPage);
    }
  }

  /** Closing the only tab of the last page leaves the page index past the
      end: 21 tabs at 20 per page, on the second page, closing the 21st tab
      leaves an empty page labelled 2 of 1 until Prev is pressed. */
  lemma CloseCanStrandPage(tabs: seq<Tab>)
    requires |tabs| == 21
    requires forall i :: 0 <= i < 20 ==> tabs[i].id != tabs[20].id
    ensures OnExistingPage(1, 20, |tabs|)
    ensures var left := WithoutId(tabs, tabs[20].id);
      && left == tabs[..20]
      && VisibleSlice(left, 1, 20) == []
      && PageCount(|left|, 20) == 1
      && !OnExistingPage(1, 20, |left|)
      && OnExistingPage(PrevPage(1), 20, |left|)
  {
    var id := tabs[20].id;
    assert tabs == tabs[..20] + [tabs[20]];
    WithoutIdDistributes(tabs[..20], [tabs[20]], id);
    WithoutAbsentIdIsIdentity(tabs[..20], id);
    assert WithoutId([tabs[20]], id) == [];
  }
}
