/** The zustand scan store of src/store/scanStore.ts: the list of scans the
    dashboard shows and the scan currently selected. */
module ScanStore {
  import opened Common
  import opened Types

  /** `Partial<Scan>`: each property is either present (`Some`) or absent (`None`).
      For the optional properties of `Scan` a present property carries a value. */
  datatype ScanUpdate = ScanUpdate(
    id: Option<string>,
    target: Option<string>,
    scanType: Option<ScanType>,
    status: Option<ScanStatus>,
    progress: Option<int>,
    duration: Option<string>,
    startedAt: Option<string>,
    completedAt: Option<string>,
    findingsCount: Option<int>)

  /** The empty partial `{}`. */
  const NoChange := ScanUpdate(None, None, None, None, None, None, None, None, None)

  /** A whole scan used as a partial, as `updateScan(scan.id, scan)` in the
      pause and resume handlers does: its optional properties are present
      exactly when the scan has them. */
  function AsUpdate(s: Scan): ScanUpdate {
    ScanUpdate(Some(s.id), Some(s.target), Some(s.scanType), Some(s.status), Some(s.progress),
               s.duration, Some(s.startedAt), s.completedAt, s.findingsCount)
  }

  /** Later partial wins: `{...u1, ...u2}`. */
  function Combine(u1: ScanUpdate, u2: ScanUpdate): ScanUpdate {
    ScanUpdate(
      if u2.id.Some? then u2.id else u1.id,
      if u2.target.Some? then u2.target else u1.target,
      if u2.scanType.Some? then u2.scanType else u1.scanType,
      if u2.status.Some? then u2.status else u1.status,
      if u2.progress.Some? then u2.progress else u1.progress,
      if u2.duration.Some? then u2.duration else u1.duration,
      if u2.startedAt.Some? then u2.startedAt else u1.startedAt,
      if u2.completedAt.Some? then u2.completedAt else u1.completedAt,
      if u2.findingsCount.Some? then u2.findingsCount else u1.findingsCount)
  }

  /** `{ ...scan, ...updates }`: every property present in `updates` overrides
      the scan's, every other property is kept. */
  function Merge(scan: Scan, u: ScanUpdate): (r: Scan)
    ensures AsUpdate(r) == Combine(AsUpdate(scan), u)
  {
    Scan(
      u.id.GetOr(scan.id),
      u.target.GetOr(scan.target),
      u.scanType.GetOr(scan.scanType),
      u.status.GetOr(scan.status),
      u.progress.GetOr(scan.progress),
      if u.duration.Some? then u.duration else scan.duration,
      u.startedAt.GetOr(scan.startedAt),
      if u.completedAt.Some? then u.completedAt else scan.completedAt,
      if u.findingsCount.Some? then u.findingsCount else scan.findingsCount)
  }

  /** Merging the empty partial changes nothing. */
  lemma MergeNoChange(scan: Scan)
    ensures Merge(scan, NoChange) == scan
  {
  }

  /** Merging a whole scan yields that scan, whatever was there before, as
      long as the old entry had no optional property the new one lacks. */
  lemma MergeWholeScan(old_: Scan, s: Scan)
    requires s.duration.None? ==> old_.duration.None?
    requires s.completedAt.None? ==> old_.completedAt.None?
    requires s.findingsCount.None? ==> old_.findingsCount.None?
    ensures Merge(old_, AsUpdate(s)) == s
  {
  }

  /** Two merges in a row are one merge of the combined partial. */
  lemma MergeTwice(scan: Scan, u1: ScanUpdate, u2: ScanUpdate)
    ensures Merge(Merge(scan, u1), u2) == Merge(scan, Combine(u1, u2))
  {
  }

  /** Merging the same partial twice is merging it once. */
  lemma MergeIdempotent(scan: Scan, u: ScanUpdate)
    ensures Merge(Merge(scan, u), u) == Merge(scan, u)
  {
  }

  /** `scans.map(s => s.id === id ? { ...s, ...updates } : s)`. */
  function UpdateMatching(scans: seq<Scan>, id: string, u: ScanUpdate): (r: seq<Scan>)
    ensures |r| == |scans|
  {
    if scans == [] then []
    else [if scans[0].id == id then Merge(scans[0], u) else scans[0]] + UpdateMatching(scans[1..], id, u)
  }

  /** Position by position: entries with the id are merged, all others are
      kept, and nothing moves. */
  lemma {:induction false} UpdateMatchingAt(scans: seq<Scan>, id: string, u: ScanUpdate, k: nat)
    requires k < |scans|
    ensures UpdateMatching(scans, id, u)[k] == if scans[k].id == id then Merge(scans[k], u) else scans[k]
  {
    if k > 0 {
      UpdateMatchingAt(scans[1..], id, u, k - 1);
    }
  }

  /** Updating an id that no entry carries leaves the list as it was. */
  lemma {:induction false} UpdateAbsentId(scans: seq<Scan>, id: string, u: ScanUpdate)
    requires forall k :: 0 <= k < |scans| ==> scans[k].id != id
    ensures UpdateMatching(scans, id, u) == scans
  {
    if scans != [] {
      UpdateAbsentId(scans[1..], id, u);
    }
  }

  /** The number of entries carrying `id`. */
  function CountId(scans: seq<Scan>, id: string): nat {
    if scans == [] then 0
    else (if scans[0].id == id then 1 else 0) + CountId(scans[1..], id)
  }

  /** An id that occurs in the list is counted. */
  lemma {:induction false} CountIdPositive(scans: seq<Scan>, id: string, k: nat)
    requires k < |scans| && scans[k].id == id
    ensures CountId(scans, id) >= 1
  {
    if k > 0 {
      CountIdPositive(scans[1..], id, k - 1);
    }
  }

  /** Prepending does not deduplicate: a scan whose id is already listed ends
      up listed twice. */
  lemma AddExistingIdDuplicates(scans: seq<Scan>, scan: Scan, k: nat)
    requires k < |scans| && scans[k].id == scan.id
    ensures CountId([scan] + scans, scan.id) >= 2
  {
    assert ([scan] + scans)[1..] == scans;
    CountIdPositive(scans, scan.id, k);
  }

  /** The store. `activeScan` is a copy, not a reference into `scans`:
      updating the list does not refresh it. */
  class ScanState {
    var scans: seq<Scan>
    var activeScan: Option<Scan>

    /** The initial state: no scans and no active scan. */
    constructor ()
      ensures scans == [] && activeScan == None
    {
      scans := [];
      activeScan := None;
    }

    /** `setScans`: replaces the whole list. */
    method SetScans(newScans: seq<Scan>)
      modifies this
      ensures scans == newScans
      ensures activeScan == old(activeScan)
    {
      scans := newScans;
    }

    /** `addScan`: prepends, so the newest scan comes first. */
    method AddScan(scan: Scan)
      modifies this
      ensures scans == [scan] + old(scans)
      ensures |scans| == |old(scans)| + 1 && scans[1..] == old(scans)
      ensures activeScan == old(activeScan)
    {
      scans := [scan] + scans;
    }

    /** `updateScan`: merges `updates` into every entry whose id is `id`. */
    method UpdateScan(id: string, updates: ScanUpdate)
      modifies this
      ensures scans == UpdateMatching(old(scans), id, updates)
      ensures |scans| == |old(scans)|
      ensures forall k :: 0 <= k < |scans| ==>
        scans[k] == if old(scans)[k].id == id then Merge(old(scans)[k], updates) else old(scans)[k]
      ensures activeScan == old(activeScan)
    {
      ghost var before := scans;
      scans := UpdateMatching(scans, id, updates);
      forall k | 0 <= k < |scans|
        ensures scans[k] == if before[k].id == id then Merge(before[k], updates) else before[k]
      {
        UpdateMatchingAt(before, id, updates, k);
      }
    }

    /** `setActiveScan`: changes only the selection. */
    method SetActiveScan(scan: Option<Scan>)
      modifies this
      ensures activeScan == scan
      ensures scans == old(scans)
    {
      activeScan := scan;
    }
  }
}
