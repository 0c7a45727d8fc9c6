/** `captureTabPreview`, reduced to what reaches the cache and the caller.
    The browser's capture APIs are an oracle: `produced` is the data URL the
    chosen API delivered, or `None` when it reported an error (no stream, a
    `lastError`). */
module CaptureProvider {
  import opened Optional
  import opened SnapshotStore

  /** The two capture paths; the choice is fixed by the Brave check. */
  datatype Strategy = TabCapture | VisibleTabFallback

  function StrategyFor(isBrave: bool): (s: Strategy)
    ensures s == VisibleTabFallback <==> isBrave
  {
    if isBrave then VisibleTabFallback else TabCapture
  }

  /** The value `captureTabPreview` hands its callback. The fallback path
      treats an empty data URL as a failure; the primary path encodes the
      first frame of any stream it obtained. */
  function CaptureResult(s: Strategy, produced: Option<string>): (r: Option<string>)
    ensures produced == None ==> r == None
    ensures r.Some? ==> produced == r
    ensures s == TabCapture ==> r == produced
    ensures s == VisibleTabFallback ==> (r.Some? <==> produced.Some? && produced.value != "")
  {
    match produced
    case None => None
    case Some(d) => if s == VisibleTabFallback && d == "" then None else Some(d)
  }

  /** The tiers after the capture: a delivered data URL is written through to
      both tiers before the callback runs; a failure writes nothing. */
  function AfterCapture(t: Tiers, id: nat, s: Strategy, produced: Option<string>): Tiers
  {
    match CaptureResult(s, produced)
    case None => t
    case Some(d) => Save(t, id, d)
  }

  /** A failed capture leaves both tiers as they were; a successful one makes
      its data URL the tab's cached snapshot. */
  lemma CaptureWriteThrough(t: Tiers, id: nat, s: Strategy, produced: Option<string>)
    ensures CaptureResult(s, produced) == None ==> AfterCapture(t, id, s, produced) == t
    ensures CaptureResult(s, produced).Some? && CaptureResult(s, produced).value != "" ==>
      CachedSnapshot(AfterCapture(t, id, s, produced), id) == CaptureResult(s, produced)
    ensures Coherent(t) ==> Coherent(AfterCapture(t, id, s, produced))
  {
    if CaptureResult(s, produced).Some? {
      var d := CaptureResult(s, produced).value;
      if Coherent(t) {
        SaveKeepsCoherent(t, id, d);
      }
      if d != "" {
        SaveThenLoad(t, id, d);
      }
    }
  }
}
