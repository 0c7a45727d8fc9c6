/** The preview image of each tab card: what `renderTabs` decides for it from
    the live-preview setting, the Brave check, the cache and the capture, and
    the one-shot reveal of the viewport observer. */
module PreviewSlots {
  import opened Optional
  import opened SnapshotStore
  import opened CaptureProvider
  import opened TabList

  /** The label (`alt` text) of a preview image. */
  datatype Alt = LoadingPreview | CachedPreview | LivePreview | PreviewFailed | BraveSimulated | NoPreviewAvailable

  /** The `alt` text the script writes for each label. */
  function AltText(a: Alt): string
  {
    match a
    case LoadingPreview => "Loading preview..."
    case CachedPreview => "Cached preview"
    case LivePreview => "Live preview"
    case PreviewFailed => "Preview failed"
    case BraveSimulated => "Brave preview (simulated)"
    case NoPreviewAvailable => "No preview available"
  }

  /** The six labels are distinct strings, so the `alt` text tells which
      case the script took. */
  lemma AltTextDistinct(a: Alt, b: Alt)
    ensures AltText(a) == AltText(b) <==> a == b
  {
  }

  /** One preview image: its tab, label, image source, and whether the
      viewport observer is watching it. */
  datatype Slot = Slot(tabId: nat, alt: Alt, src: Option<string>, observed: bool)

  /** A resolved slot, the tiers afterwards, and whether a capture was
      requested on the way. */
  datatype Resolution = Resolution(tiers: Tiers, slot: Slot, captureRequested: bool)

  /** The slot as created, before any asynchronous answer arrives. */
  function InitialSlot(id: nat, live: bool, isBrave: bool): (s: Slot)
    ensures s.src == None && s.observed == live
    ensures live <==> s.alt == LoadingPreview
  {
    var alt := if live then LoadingPreview else if isBrave then BraveSimulated else NoPreviewAvailable;
    Slot(id, alt, None, live)
  }

  /** The slot once the cache lookup and, on a miss, the capture have
      answered. `produced` is what the capture API delivers for this tab. */
  function ResolveSlot(t: Tiers, id: nat, live: bool, isBrave: bool, produced: Option<string>): (r: Resolution)
    ensures r.slot.tabId == id && r.slot.observed == live
    ensures !live ==> r.tiers == t && !r.captureRequested && r.slot == InitialSlot(id, live, isBrave)
  {
    if !live then Resolution(t, InitialSlot(id, live, isBrave), false)
    else
      var t1 := AfterCachedLoad(t, id);
      match CachedSnapshot(t, id)
      case Some(d) => Resolution(t1, Slot(id, CachedPreview, Some(d), true), false)
      case None =>
        var s := StrategyFor(isBrave);
        var r := CaptureResult(s, produced);
        var t2 := AfterCapture(t1, id, s, produced);
        if r.Some? && r.value != "" then Resolution(t2, Slot(id, LivePreview, r, true), true)
        else Resolution(t2, Slot(id, PreviewFailed, None, true), true)
  }

  /** Each label of a resolved slot, and the capture request, happen exactly
      in the situation the source assigns them to. */
  lemma ResolvedLabels(t: Tiers, id: nat, live: bool, isBrave: bool, produced: Option<string>)
    ensures var r := ResolveSlot(t, id, live, isBrave, produced);
      var hit := CachedSnapshot(t, id).Some?;
      var got := CaptureResult(StrategyFor(isBrave), produced);
      && r.slot.alt != LoadingPreview
      && (r.slot.alt == BraveSimulated <==> !live && isBrave)
      && (r.slot.alt == NoPreviewAvailable <==> !live && !isBrave)
      && (r.slot.alt == CachedPreview <==> live && hit)
      && (r.captureRequested <==> live && !hit)
      && (r.slot.alt == LivePreview <==> live && !hit && got.Some? && got.value != "")
      && (r.slot.alt == PreviewFailed <==> live && !hit && (got == None || got.value == ""))
  {
  }

  /** A cache hit shows the cached image and does not depend on the capture
      at all; the tiers change only by the promotion of the lookup. */
  lemma CacheHitSkipsCapture(t: Tiers, id: nat, isBrave: bool, p1: Option<string>, p2: Option<string>)
    requires CachedSnapshot(t, id).Some?
    ensures ResolveSlot(t, id, true, isBrave, p1) == ResolveSlot(t, id, true, isBrave, p2)
    ensures ResolveSlot(t, id, true, isBrave, p1).slot.src == CachedSnapshot(t, id)
    ensures ResolveSlot(t, id, true, isBrave, p1).tiers == AfterCachedLoad(t, id)
  {
  }

  /** A miss followed by a failed capture writes to neither tier. */
  lemma FailedCaptureWritesNothing(t: Tiers, id: nat, isBrave: bool, produced: Option<string>)
    requires CachedSnapshot(t, id) == None
    requires CaptureResult(StrategyFor(isBrave), produced) == None
    ensures ResolveSlot(t, id, true, isBrave, produced).tiers == t
    ensures ResolveSlot(t, id, true, isBrave, produced).slot.alt == PreviewFailed
  {
  }

  /** On a miss the tiers afterwards are the capture's write-through, and a
      delivered data URL is both the image shown and the tab's cached
      snapshot. */
  lemma MissShowsCapture(t: Tiers, id: nat, isBrave: bool, produced: Option<string>)
    requires CachedSnapshot(t, id) == None
    ensures var r := ResolveSlot(t, id, true, isBrave, produced);
      var got := CaptureResult(StrategyFor(isBrave), produced);
      && r.tiers == AfterCapture(t, id, StrategyFor(isBrave), produced)
      && (got.Some? && got.value != "" ==> r.slot.src == got && CachedSnapshot(r.tiers, id) == got)
  {
    CaptureWriteThrough(t, id, StrategyFor(isBrave), produced);
  }

  /** Once a tab's preview has been captured live, resolving it again is a
      cache hit on the same image, whatever the capture would now deliver. */
  lemma SecondResolveHitsCache(t: Tiers, id: nat, isBrave: bool, p1: Option<string>, p2: Option<string>)
    requires ResolveSlot(t, id, true, isBrave, p1).slot.alt == LivePreview
    ensures var r1 := ResolveSlot(t, id, true, isBrave, p1);
      var r2 := ResolveSlot(r1.tiers, id, true, isBrave, p2);
      r2.slot == r1.slot.(alt := CachedPreview) && !r2.captureRequested && r2.tiers == r1.tiers
  {
    var r1 := ResolveSlot(t, id, true, isBrave, p1);
    var d := r1.slot.src.value;
    assert r1.tiers == Save(AfterCachedLoad(t, id), id, d);
    SaveThenLoad(AfterCachedLoad(t, id), id, d);
  }

  lemma ResolveKeepsCoherent(t: Tiers, id: nat, live: bool, isBrave: bool, produced: Option<string>)
    requires Coherent(t)
    ensures Coherent(ResolveSlot(t, id, live, isBrave, produced).tiers)
  {
    if live {
      CachedLoadKeepsCoherent(t, id);
      CaptureWriteThrough(AfterCachedLoad(t, id), id, StrategyFor(isBrave), produced);
    }
  }

  /** The observer's callback for an image entering the viewport: show the
      memory tier's snapshot if there is one, and stop observing. Unobserved
      images get no callback. Only the memory tier is read. */
  function OnIntersect(s: Slot, memory: map<nat, string>): Slot
  {
    if !s.observed then s
    else
      var src := if s.tabId in memory && memory[s.tabId] != "" then Some(memory[s.tabId]) else s.src;
      s.(src := src, observed := false)
  }

  /** The reveal happens at most once and never touches the label. */
  lemma RevealIsOneShot(s: Slot, m1: map<nat, string>, m2: map<nat, string>)
    ensures var r := OnIntersect(s, m1);
      && !r.observed && r.alt == s.alt && r.tabId == s.tabId
      && OnIntersect(r, m2) == r
  {
  }

  /** Revealing a resolved slot against the memory tier the resolution left
      behind shows the same image the resolution chose. */
  lemma RevealAgreesWithResolution(t: Tiers, id: nat, isBrave: bool, produced: Option<string>)
    ensures var r := ResolveSlot(t, id, true, isBrave, produced);
      OnIntersect(r.slot, r.tiers.memory) == r.slot.(observed := false)
  {
  }

  /** The result of rendering a page: tiers afterwards, one slot per tab, and
      the ids whose capture was requested. */
  datatype Render = Render(tiers: Tiers, slots: seq<Slot>, captured: set<nat>)

  /** Resolves one more tab after the ones already rendered. */
  function Extend(done: Render, tab: Tab, live: bool, isBrave: bool, produced: Option<string>): Render
  {
    var next := ResolveSlot(done.tiers, tab.id, live, isBrave, produced);
    var captured := if next.captureRequested then done.captured + {tab.id} else done.captured;
    Render(next.tiers, done.slots + [next.slot], captured)
  }

  /** The slots of `pageTabs`, resolved one after the other in page order;
      `capture` gives what the capture API delivers for each tab id. */
  function RenderSlots(t: Tiers, pageTabs: seq<Tab>, live: bool, isBrave: bool, capture: nat -> Option<string>): (r: Render)
    ensures |r.slots| == |pageTabs|
    ensures !live ==> r.tiers == t && r.captured == {}
    decreases |pageTabs|
  {
    if pageTabs == [] then Render(t, [], {})
    else
      var last := pageTabs[|pageTabs| - 1];
      Extend(RenderSlots(t, pageTabs[..|pageTabs| - 1], live, isBrave, capture), last, live, isBrave, capture(last.id))
  }

  /** Rendering one more tab of the page extends the render of the tabs
      before it. */
  lemma RenderSlotsAppend(t: Tiers, pageTabs: seq<Tab>, i: nat, live: bool, isBrave: bool, capture: nat -> Option<string>)
    requires i < |pageTabs|
    ensures RenderSlots(t, pageTabs[..i + 1], live, isBrave, capture)
      == Extend(RenderSlots(t, pageTabs[..i], live, isBrave, capture), pageTabs[i], live, isBrave, capture(pageTabs[i].id))
  {
    assert pageTabs[..i + 1][..i] == pageTabs[..i];
  }

  /** The ids of a list of tabs. */
  function TabIds(tabs: seq<Tab>): set<nat>
  {
    set i | 0 <= i < |tabs| :: tabs[i].id
  }

  /** Slot i belongs to tab i of the page, and a capture is only ever
      requested for a tab of the page. */
  lemma {:induction false} RenderShape(t: Tiers, pageTabs: seq<Tab>, live: bool, isBrave: bool, capture: nat -> Option<string>)
    ensures var r := RenderSlots(t, pageTabs, live, isBrave, capture);
      && (forall i :: 0 <= i < |pageTabs| ==> r.slots[i].tabId == pageTabs[i].id && r.slots[i].observed == live)
      && r.captured <= TabIds(pageTabs)
    decreases |pageTabs|
  {
    if pageTabs != [] {
      var init := pageTabs[..|pageTabs| - 1];
      RenderShape(t, init, live, isBrave, capture);
      var r := RenderSlots(t, pageTabs, live, isBrave, capture);
      forall i | 0 <= i < |pageTabs|
        ensures r.slots[i].tabId == pageTabs[i].id && r.slots[i].observed == live
      {
        if i < |pageTabs| - 1 {
          assert pageTabs[i] == init[i];
        }
      }
      assert TabIds(init) <= TabIds(pageTabs) by {
        forall k | k in TabIds(init) ensures k in TabIds(pageTabs) {
          var j :| 0 <= j < |init| && init[j].id == k;
          assert pageTabs[j].id == k;
        }
      }
      assert pageTabs[|pageTabs| - 1].id in TabIds(pageTabs);
    }
  }

  /** With live previews off every slot is a static placeholder. */
  lemma {:induction false} StaticRender(t: Tiers, pageTabs: seq<Tab>, isBrave: bool, capture: nat -> Option<string>)
    ensures forall i :: 0 <= i < |pageTabs| ==>
      RenderSlots(t, pageTabs, false, isBrave, capture).slots[i] == InitialSlot(pageTabs[i].id, false, isBrave)
    decreases |pageTabs|
  {
    if pageTabs != [] {
      var init := pageTabs[..|pageTabs| - 1];
      StaticRender(t, init, isBrave, capture);
      var r := RenderSlots(t, pageTabs, false, isBrave, capture);
      forall i | 0 <= i < |pageTabs|
        ensures r.slots[i] == InitialSlot(pageTabs[i].id, false, isBrave)
      {
        if i < |pageTabs| - 1 {
          assert pageTabs[i] == init[i];
        }
      }
    }
  }

  lemma {:induction false} RenderKeepsCoherent(t: Tiers, pageTabs: seq<Tab>, live: bool, isBrave: bool, capture: nat -> Option<string>)
    requires Coherent(t)
    ensures Coherent(RenderSlots(t, pageTabs, live, isBrave, capture).tiers)
    decreases |pageTabs|
  {
    if pageTabs != [] {
      var init := pageTabs[..|pageTabs| - 1];
      var id := pageTabs[|pageTabs| - 1].id;
      RenderKeepsCoherent(t, init, live, isBrave, capture);
      ResolveKeepsCoherent(RenderSlots(t, init, live, isBrave, capture).tiers, id, live, isBrave, capture(id));
    }
  }
}
