/** The two tiers of the snapshot cache: the page's in-memory `snapshots`
    object, keyed by tab id, and the extension's local key-value storage,
    keyed `snapshot_<tabId>`. A stored value is a data URL; as in the
    source's truthiness tests, an empty string counts as "no snapshot". */
module SnapshotStore {
  import opened Optional

  /** Decimal digits of a tab id, as a template literal prints a number. */
  function Decimal(n: nat): (s: string)
    ensures |s| >= 1
    ensures forall i :: 0 <= i < |s| ==> '0' <= s[i] <= '9'
  {
    if n < 10 then [(48 + n) as char] else Decimal(n / 10) + [(48 + n % 10) as char]
  }

  /** Reads a string of decimal digits back as a number. */
  function DecimalValue(s: string): nat
    requires forall i :: 0 <= i < |s| ==> '0' <= s[i] <= '9'
  {
    if s == [] then 0 else DecimalValue(s[..|s| - 1]) * 10 + (s[|s| - 1] as int - 48)
  }

  /** Printing a tab id and reading it back gives the id. */
  lemma {:induction false} DecimalRoundTrip(n: nat)
    ensures DecimalValue(Decimal(n)) == n
  {
    var s := Decimal(n);
    if n >= 10 {
      DecimalRoundTrip(n / 10);
      assert s[..|s| - 1] == Decimal(n / 10);
    }
  }

  const KeyPrefix: string := "snapshot_"

  /** The storage key of a tab's snapshot: `snapshot_${tabId}`. */
  function SnapshotKey(id: nat): (k: string)
    ensures |k| > |KeyPrefix| && k[..|KeyPrefix|] == KeyPrefix
    ensures k[|KeyPrefix|..] == Decimal(id)
  {
    KeyPrefix + Decimal(id)
  }

  /** Distinct tabs never share a storage key. */
  lemma SnapshotKeyInjective(a: nat, b: nat)
    requires SnapshotKey(a) == SnapshotKey(b)
    ensures a == b
  {
    DecimalRoundTrip(a);
    DecimalRoundTrip(b);
  }

  /** Both tiers at one moment. */
  datatype Tiers = Tiers(memory: map<nat, string>, persisted: map<string, string>)

  /** `snapshots[tabId]` is truthy. */
  predicate MemoryHit(t: Tiers, id: nat)
  {
    id in t.memory && t.memory[id] != ""
  }

  /** `result["snapshot_<tabId>"]` is truthy. */
  predicate PersistedHit(t: Tiers, id: nat)
  {
    SnapshotKey(id) in t.persisted && t.persisted[SnapshotKey(id)] != ""
  }

  /** Every snapshot held in memory is also the persisted one: memory is only
      a shortcut to storage, which stays the source of truth. */
  ghost predicate Coherent(t: Tiers)
  {
    forall id :: MemoryHit(t, id) ==> SnapshotKey(id) in t.persisted && t.persisted[SnapshotKey(id)] == t.memory[id]
  }

  /** Write-through of `saveSnapshot` and of a successful capture. */
  function Save(t: Tiers, id: nat, dataUrl: string): Tiers
  {
    Tiers(t.memory[id := dataUrl], t.persisted[SnapshotKey(id) := dataUrl])
  }

  /** What `loadCachedSnapshot` hands its callback: the memory value on a
      memory hit, otherwise the persisted value, and `null` for a miss. */
  function CachedSnapshot(t: Tiers, id: nat): (r: Option<string>)
    ensures r.Some? ==> r.value != ""
    ensures MemoryHit(t, id) ==> r == Some(t.memory[id])
    ensures !MemoryHit(t, id) && PersistedHit(t, id) ==> r == Some(t.persisted[SnapshotKey(id)])
    ensures r == None <==> !MemoryHit(t, id) && !PersistedHit(t, id)
  {
    if MemoryHit(t, id) then Some(t.memory[id])
    else if PersistedHit(t, id) then Some(t.persisted[SnapshotKey(id)])
    else None
  }

  /** The tiers after `loadCachedSnapshot`: a memory hit consults nothing
      else; on a miss a persisted snapshot is copied into memory. */
  function AfterCachedLoad(t: Tiers, id: nat): Tiers
  {
    if MemoryHit(t, id) then t
    else if PersistedHit(t, id) then t.(memory := t.memory[id := t.persisted[SnapshotKey(id)]])
    else t
  }

  /** The tiers after `loadSnapshot`: storage is read whatever memory holds,
      and a persisted snapshot replaces the memory entry. */
  function AfterLoad(t: Tiers, id: nat): Tiers
  {
    if PersistedHit(t, id) then t.(memory := t.memory[id := t.persisted[SnapshotKey(id)]]) else t
  }

  /** `loadCachedSnapshot` never writes storage, changes at most the memory
      entry of its own tab, and leaves everything alone on a memory hit or a
      complete miss. */
  lemma CachedLoadFrame(t: Tiers, id: nat)
    ensures AfterCachedLoad(t, id).persisted == t.persisted
    ensures forall other :: other != id ==>
      (other in AfterCachedLoad(t, id).memory <==> other in t.memory) &&
      (other in t.memory ==> AfterCachedLoad(t, id).memory[other] == t.memory[other])
    ensures MemoryHit(t, id) || !PersistedHit(t, id) ==> AfterCachedLoad(t, id) == t
    ensures !MemoryHit(t, id) && PersistedHit(t, id) ==>
      AfterCachedLoad(t, id).memory == t.memory[id := t.persisted[SnapshotKey(id)]]
  {
  }

  /** After saving, the snapshot is what a load returns, and the load then
      changes nothing. */
  lemma SaveThenLoad(t: Tiers, id: nat, dataUrl: string)
    requires dataUrl != ""
    ensures CachedSnapshot(Save(t, id, dataUrl), id) == Some(dataUrl)
    ensures AfterCachedLoad(Save(t, id, dataUrl), id) == Save(t, id, dataUrl)
  {
  }

  /** Saving one tab's snapshot leaves what every other tab loads unchanged. */
  lemma SaveKeepsOtherTabs(t: Tiers, id: nat, dataUrl: string, other: nat)
    requires other != id
    ensures CachedSnapshot(Save(t, id, dataUrl), other) == CachedSnapshot(t, other)
    ensures AfterCachedLoad(Save(t, id, dataUrl), other) == Save(AfterCachedLoad(t, other), id, dataUrl)
  {
    if SnapshotKey(other) == SnapshotKey(id) {
      SnapshotKeyInjective(other, id);
    }
  }

  /** A saved snapshot survives the loss of the memory tier (the preview page
      being closed and opened again). */
  lemma SaveSurvivesRestart(t: Tiers, id: nat, dataUrl: string)
    requires dataUrl != ""
    ensures CachedSnapshot(Tiers(map[], Save(t, id, dataUrl).persisted), id) == Some(dataUrl)
  {
  }

  /** A fresh page (empty memory) starts coherent. */
  lemma EmptyMemoryIsCoherent(persisted: map<string, string>)
    ensures Coherent(Tiers(map[], persisted))
  {
  }

  lemma SaveKeepsCoherent(t: Tiers, id: nat, dataUrl: string)
    requires Coherent(t)
    ensures Coherent(Save(t, id, dataUrl))
  {
    var s := Save(t, id, dataUrl);
    forall other | MemoryHit(s, other)
      ensures SnapshotKey(other) in s.persisted && s.persisted[SnapshotKey(other)] == s.memory[other]
    {
      if other != id {
        if SnapshotKey(other) == SnapshotKey(id) {
          SnapshotKeyInjective(other, id);
        }
        assert MemoryHit(t, other);
      }
    }
  }

  lemma CachedLoadKeepsCoherent(t: Tiers, id: nat)
    requires Coherent(t)
    ensures Coherent(AfterCachedLoad(t, id))
  {
    var s := AfterCachedLoad(t, id);
    forall other | MemoryHit(s, other)
      ensures SnapshotKey(other) in s.persisted && s.persisted[SnapshotKey(other)] == s.memory[other]
    {
      if other != id {
        assert MemoryHit(t, other);
      }
    }
  }

  lemma LoadKeepsCoherent(t: Tiers, id: nat)
    requires Coherent(t)
    ensures Coherent(AfterLoad(t, id))
  {
    var s := AfterLoad(t, id);
    forall other | MemoryHit(s, other)
      ensures SnapshotKey(other) in s.persisted && s.persisted[SnapshotKey(other)] == s.memory[other]
    {
      if other != id || !PersistedHit(t, id) {
        assert MemoryHit(t, other);
      }
    }
  }

  /** In coherent tiers the memory tier never changes the answer: a load
      returns exactly the persisted snapshot, and promoting it into memory
      does not change what the next load returns. */
  lemma CoherentLoadReadsStorage(t: Tiers, id: nat)
    requires Coherent(t)
    ensures CachedSnapshot(t, id) == CachedSnapshot(Tiers(map[], t.persisted), id)
    ensures CachedSnapshot(AfterCachedLoad(t, id), id) == CachedSnapshot(t, id)
    ensures AfterCachedLoad(AfterCachedLoad(t, id), id) == AfterCachedLoad(t, id)
  {
    if MemoryHit(t, id) {
      assert PersistedHit(t, id);
    }
  }
}
