/** The filtering on the history page, src/app/dashboard/history/page.tsx:
    a status filter (an empty set lets everything through) followed by a
    case-insensitive search over drug name, manufacturer and barcode, and the
    toggle that adds or removes one status from the filter set. */
module HistoryFilter {
  import opened Common
  import opened Text
  import opened ScanHistory

  /** The page calls `toLowerCase` on both names, which throws on null. */
  predicate Named(s: Scan)
  {
    s.drugName.Some? && s.manufacturer.Some?
  }

  /** First filter: no statuses chosen, or the scan's status is chosen. */
  predicate PassesStatus(filters: set<Status>, s: Scan)
  {
    filters == {} || s.status in filters
  }

  /** Second filter: the lower-cased term occurs in the lower-cased drug
      name, manufacturer or barcode. */
  predicate PassesSearch(term: string, s: Scan)
  {
    var search := Lower(term);
    Contains(Lower(OrElse(s.drugName, "")), search) ||
    Contains(Lower(OrElse(s.manufacturer, "")), search) ||
    Contains(Lower(s.barcode), search)
  }

  predicate Passes(filters: set<Status>, term: string, s: Scan)
  {
    PassesStatus(filters, s) && PassesSearch(term, s)
  }

  /** `filteredScans`: the two chained filters. They are one filter by both
      tests: the result is the scans passing both, in their original order. */
  function FilterScans(scans: seq<Scan>, filters: set<Status>, term: string): (r: seq<Scan>)
    requires forall i :: 0 <= i < |scans| ==> Named(scans[i])
    ensures r == Filter(scans, s => Passes(filters, term, s))
    ensures SubsequenceOf(r, scans)
  {
    var both := s => Passes(filters, term, s);
    FilterFuse(scans, s => PassesStatus(filters, s), s => PassesSearch(term, s), both);
    FilterIsSubsequence(scans, both);
    Filter(Filter(scans, s => PassesStatus(filters, s)), s => PassesSearch(term, s))
  }

  /** A scan is shown exactly when it is in the list and passes both tests. */
  lemma {:induction false} FilterScansShows(scans: seq<Scan>, filters: set<Status>, term: string, s: Scan)
    requires forall i :: 0 <= i < |scans| ==> Named(scans[i])
    ensures s in FilterScans(scans, filters, term) <==> s in scans && Passes(filters, term, s)
  {
    var r := Filter(scans, x => Passes(filters, term, x));
    if s in scans && Passes(filters, term, s) {
      var i :| 0 <= i < |scans| && scans[i] == s;
      assert s in r;
    }
    if s in r {
      var i :| 0 <= i < |r| && r[i] == s;
    }
  }

  /** The empty search term passes every scan. */
  lemma EmptySearchPassesAll(s: Scan)
    ensures PassesSearch("", s)
  {
    assert Lower("") == "";
    EmptyOccursEverywhere(Lower(OrElse(s.drugName, "")));
  }

  /** With no status chosen and an empty search, the page shows every scan
      in its original order. */
  lemma {:induction false} NoFilterShowsAll(scans: seq<Scan>)
    requires forall i :: 0 <= i < |scans| ==> Named(scans[i])
    ensures FilterScans(scans, {}, "") == scans
  {
    forall i | 0 <= i < |scans| ensures Passes({}, "", scans[i]) {
      EmptySearchPassesAll(scans[i]);
    }
    FilterKeepsAll(scans, s => Passes({}, "", s));
  }

  /** The search ignores letter case in the term. */
  lemma SearchIgnoresTermCase(term: string, s: Scan)
    ensures PassesSearch(Lower(term), s) == PassesSearch(term, s)
  {
    LowerIdempotent(term);
  }

  /** `toggleStatusFilter`: a new set with `status` removed if it was
      present and added if it was absent. */
  function ToggleStatus(filters: set<Status>, status: Status): (r: set<Status>)
    ensures status in r <==> status !in filters
    ensures forall other :: other != status ==> (other in r <==> other in filters)
  {
    if status in filters then filters - {status} else filters + {status}
  }

  /** Toggling the same status twice gives back the original set. */
  lemma ToggleTwice(filters: set<Status>, status: Status)
    ensures ToggleStatus(ToggleStatus(filters, status), status) == filters
  {
  }
}
