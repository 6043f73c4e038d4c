/** The scan history store of src/services/scan-history.ts: a JSON file of
    scan records. Reading sorts the parsed list in place, newest first;
    adding reads that sorted list, puts the new record in front and rewrites
    the whole file. */
module ScanHistory {
  import opened Common

  datatype Status = Verified | Suspect | Unknown

  /** A stored scan; timestamps are instants as integers. */
  datatype Scan = Scan(
    id: string,
    userId: string,
    barcode: string,
    drugName: Option<string>,
    manufacturer: Option<string>,
    status: Status,
    timestamp: int,
    isFlagged: bool,
    reason: Option<string>)

  /** What a caller submits: a scan without `id` and `timestamp`. */
  datatype NewScan = NewScan(
    userId: string,
    barcode: string,
    drugName: Option<string>,
    manufacturer: Option<string>,
    status: Status,
    isFlagged: bool,
    reason: Option<string>)

  const ReadFailure := "Could not retrieve scan history."
  const SaveFailure := "Could not save scan to history."

  /** The submitted fields with an id and a timestamp added. */
  function Stamp(n: NewScan, id: string, timestamp: int): (s: Scan)
    ensures s.id == id && s.timestamp == timestamp
    ensures Unstamp(s) == n
  {
    Scan(id, n.userId, n.barcode, n.drugName, n.manufacturer, n.status, timestamp, n.isFlagged, n.reason)
  }

  /** The submitted fields of a stored scan. */
  function Unstamp(s: Scan): NewScan
  {
    NewScan(s.userId, s.barcode, s.drugName, s.manufacturer, s.status, s.isFlagged, s.reason)
  }

  /** Timestamps never increase along the list: most recent first. */
  ghost predicate NewestFirst(s: seq<Scan>)
  {
    forall i, j :: 0 <= i < j < |s| ==> s[i].timestamp >= s[j].timestamp
  }

  /** A record at least as recent as every other may go in front of a
      newest-first list without breaking the order. */
  lemma {:induction false} PrependNewest(s: Scan, rest: seq<Scan>)
    requires NewestFirst(rest)
    requires forall i :: 0 <= i < |rest| ==> rest[i].timestamp <= s.timestamp
    ensures NewestFirst([s] + rest)
  {
    var all := [s] + rest;
    forall i, j | 0 <= i < j < |all| ensures all[i].timestamp >= all[j].timestamp {
      assert all[j] == rest[j - 1];
      if i > 0 {
        assert all[i] == rest[i - 1];
      }
    }
  }

  /** Two newest-first orderings of the same records agree on the timestamp
      at every position: reading the history fixes its order up to records
      with equal timestamps. */
  lemma {:induction false} NewestFirstIsUnique(a: seq<Scan>, b: seq<Scan>)
    requires NewestFirst(a) && NewestFirst(b) && multiset(a) == multiset(b)
    ensures |a| == |b|
    ensures forall i :: 0 <= i < |a| ==> a[i].timestamp == b[i].timestamp
    decreases |a|
  {
    assert |a| == |multiset(a)| == |multiset(b)| == |b|;
    if a != [] {
      var k := RemoveFirst(a, b);
      var rest := b[..k] + b[k + 1..];
      NewestFirstIsUnique(a[1..], rest);
      forall i | 0 <= i < |a| ensures a[i].timestamp == b[i].timestamp {
        if 0 < i <= k {
          assert a[i] == a[1..][i - 1] && rest[i - 1] == b[i - 1];
          assert b[0].timestamp >= b[i - 1].timestamp >= b[i].timestamp >= b[k].timestamp;
        } else if i > k {
          assert a[i] == a[1..][i - 1] && rest[i - 1] == b[i];
        }
      }
    }
  }

  /** The head of `a` sits at some index `k` of `b`; both heads carry the
      newest timestamp, and `b` without index `k` is still newest first and
      holds the rest of `a`. */
  lemma RemoveFirst(a: seq<Scan>, b: seq<Scan>) returns (k: nat)
    requires NewestFirst(a) && NewestFirst(b) && multiset(a) == multiset(b) && a != []
    ensures k < |b| && b[k] == a[0] && b[0].timestamp == a[0].timestamp
    ensures NewestFirst(b[..k] + b[k + 1..])
    ensures multiset(a[1..]) == multiset(b[..k] + b[k + 1..])
  {
    assert a[0] in multiset(b);
    k :| 0 <= k < |b| && b[k] == a[0];
    assert b[0] in multiset(a);
    var m :| 0 <= m < |a| && a[m] == b[0];
    RemoveAt(b, k);
    assert multiset(a[1..]) == multiset(a) - multiset{a[0]} by {
      assert a == [a[0]] + a[1..];
    }
  }

  /** Dropping one record keeps a list newest first. */
  lemma RemoveAt(b: seq<Scan>, k: nat)
    requires NewestFirst(b) && k < |b|
    ensures NewestFirst(b[..k] + b[k + 1..])
    ensures multiset(b[..k] + b[k + 1..]) == multiset(b) - multiset{b[k]}
  {
    var rest := b[..k] + b[k + 1..];
    assert b == b[..k] + [b[k]] + b[k + 1..];
    forall i, j | 0 <= i < j < |rest| ensures rest[i].timestamp >= rest[j].timestamp {
      var i' := if i < k then i else i + 1;
      var j' := if j < k then j else j + 1;
      assert rest[i] == b[i'] && rest[j] == b[j'];
    }
  }

  method Swap(a: array<Scan>, i: int, j: int)
    requires 0 <= i < a.Length && 0 <= j < a.Length
    modifies a
    ensures a[i] == old(a[j]) && a[j] == old(a[i])
    ensures forall k :: 0 <= k < a.Length && k != i && k != j ==> a[k] == old(a[k])
    ensures multiset(a[..]) == multiset(old(a[..]))
  {
    a[i], a[j] := a[j], a[i];
  }

  /** `scans.sort((a, b) => b.timestamp - a.timestamp)`, as an insertion
      sort: the array ends up newest first and holds the same records. */
  method SortNewestFirst(a: array<Scan>)
    modifies a
    ensures NewestFirst(a[..])
    ensures multiset(a[..]) == multiset(old(a[..]))
  {
    var i := 0;
    while i < a.Length
      invariant 0 <= i <= a.Length
      invariant forall k, l :: 0 <= k < l < i ==> a[k].timestamp >= a[l].timestamp
      invariant multiset(a[..]) == multiset(old(a[..]))
    {
      var j := i;
      while j > 0 && a[j - 1].timestamp < a[j].timestamp
        invariant 0 <= j <= i
        invariant forall k, l :: 0 <= k < l <= i && k != j && l != j ==> a[k].timestamp >= a[l].timestamp
        invariant forall l :: j < l <= i ==> a[j].timestamp > a[l].timestamp
        invariant 0 < j < i ==> a[j - 1].timestamp >= a[j + 1].timestamp
        invariant multiset(a[..]) == multiset(old(a[..]))
      {
        Swap(a, j - 1, j);
        j := j - 1;
      }
      i := i + 1;
    }
  }

  /** The scans file together with the operations on it. */
  class ScanHistoryStore {
    var disk: Disk<Scan>

    constructor (disk: Disk<Scan>)
      ensures this.disk == disk
    {
      this.disk := disk;
    }

    /** `getScanHistory`: the stored records newest first; a missing file
        is an empty history, any other failure throws. The file is not
        changed: the sort works on the parsed copy. */
    method GetScanHistory() returns (r: Result<seq<Scan>>)
      ensures disk.Unreadable? <==> r.Err?
      ensures r.Err? ==> r.error == ReadFailure
      ensures disk.Missing? ==> r == Ok([])
      ensures r.Ok? ==> NewestFirst(r.value) && multiset(r.value) == multiset(Records(disk))
    {
      match disk
      case Missing =>
        r := Ok([]);
      case Unreadable =>
        r := Err(ReadFailure);
      case Stored(records) =>
        var scans := new Scan[|records|](i requires 0 <= i < |records| => records[i]);
        assert scans[..] == records;
        SortNewestFirst(scans);
        r := Ok(scans[..]);
    }

    /** `addScanToHistory`: read the sorted history, put the stamped record
        at index 0 and rewrite the file with that list. Any failure, in the
        read or in the write (`writeError`), throws the one save message and
        leaves the file as it was. */
    method AddScanToHistory(newScan: NewScan, id: string, timestamp: int, writeError: Option<string>)
      returns (r: Result<()>)
      modifies this
      ensures r.Ok? <==> !old(disk).Unreadable? && writeError.None?
      ensures r.Err? ==> r.error == SaveFailure && disk == old(disk)
      ensures r.Ok? ==> disk.Stored? && |disk.records| == |Records(old(disk))| + 1
      ensures r.Ok? ==> disk.records[0] == Stamp(newScan, id, timestamp)
      ensures r.Ok? ==> NewestFirst(disk.records[1..])
      ensures r.Ok? ==> multiset(disk.records[1..]) == multiset(Records(old(disk)))
      ensures r.Ok? && (forall i :: 0 <= i < |Records(old(disk))| ==> Records(old(disk))[i].timestamp <= timestamp) ==>
                NewestFirst(disk.records)
    {
      var read := GetScanHistory();
      if read.Err? {
        return Err(SaveFailure);
      }
      var scans := read.value;
      assert |scans| == |multiset(scans)| == |multiset(Records(disk))| == |Records(disk)|;
      var stamped := Stamp(newScan, id, timestamp);
      scans := [stamped] + scans;
      if writeError.Some? {
        return Err(SaveFailure);
      }
      assert scans[1..] == read.value;
      if forall i :: 0 <= i < |Records(disk)| ==> Records(disk)[i].timestamp <= timestamp {
        forall i | 0 <= i < |read.value| ensures read.value[i].timestamp <= timestamp {
          assert read.value[i] in multiset(Records(disk));
        }
        PrependNewest(stamped, read.value);
      }
      disk := Stored(scans);
      r := Ok(());
    }
  }
}
