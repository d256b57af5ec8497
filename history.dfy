/** The history panel: the status filter and the search box, the list they
    leave, the quick statistics, the badge numbers, and deleting an entry
    together with the current selection. */
module HistoryView {
  import opened Common
  import opened Records
  import AppState

  /** The status filter: "all" shows everything, "success" the 2xx statuses,
      "error" the statuses from 400 up; any other value shows nothing. */
  predicate MatchesFilter(filter: string, status: int) {
    filter == "all" || (filter == "success" && 200 <= status < 300) || (filter == "error" && status >= 400)
  }

  /** Statuses 0, 1xx and 3xx only pass the "all" filter. */
  lemma OtherStatusesOnlyInAll(filter: string, status: int)
    requires status < 200 || 300 <= status < 400
    ensures MatchesFilter(filter, status) <==> filter == "all"
  {
  }

  /** The search box: an empty term matches every entry, any other term must
      occur, ignoring case, in the URL or in the method. */
  predicate MatchesSearch(term: string, e: HistoryEntry) {
    term == "" || Contains(ToLower(e.url), ToLower(term)) || Contains(ToLower(e.httpMethod), ToLower(term))
  }

  /** An empty term matches every entry. */
  lemma EmptyTermMatches(e: HistoryEntry)
    ensures MatchesSearch("", e)
  {
  }

  /** Searching ignores the case of the term: a term, its upper-cased and
      its lower-cased form match the same entries. */
  lemma SearchIgnoresCase(term: string, e: HistoryEntry)
    ensures MatchesSearch(ToUpper(term), e) <==> MatchesSearch(ToLower(term), e)
    ensures MatchesSearch(term, e) <==> MatchesSearch(ToUpper(term), e)
  {
    assert ToLower(ToLower(term)) == ToLower(term);
    var up, low := ToLower(ToUpper(term)), ToLower(ToLower(term));
    assert up == low by {
      forall i | 0 <= i < |term| ensures up[i] == low[i] { }
    }
    assert ToUpper(term) == "" <==> term == "";
    assert ToLower(term) == "" <==> term == "";
  }

  predicate Shown(filter: string, term: string, e: HistoryEntry) {
    MatchesFilter(filter, e.responseStatus) && MatchesSearch(term, e)
  }

  /** `filteredHistory`: the entries passing both the filter and the search, in
      their order in the history and each as often as it occurs there. */
  function Visible(history: seq<HistoryEntry>, filter: string, term: string): (r: seq<HistoryEntry>)
    ensures SubsequenceOf(r, history)
    ensures forall i :: 0 <= i < |r| ==> r[i] in history && Shown(filter, term, r[i])
    ensures forall i :: 0 <= i < |history| && Shown(filter, term, history[i]) ==> history[i] in r
    ensures forall i :: 0 <= i < |history| ==>
              multiset(r)[history[i]] == if Shown(filter, term, history[i]) then multiset(history)[history[i]] else 0
    ensures filter == "all" && term == "" ==> r == history
  {
    Filter(history, e => Shown(filter, term, e))
  }

  predicate IsSuccess(e: HistoryEntry) {
    200 <= e.responseStatus < 300
  }

  predicate IsError(e: HistoryEntry) {
    e.responseStatus >= 400
  }

  /** The "Successful" count. */
  function SuccessCount(history: seq<HistoryEntry>): (n: nat)
    ensures n <= |history|
    ensures (forall i :: 0 <= i < |history| ==> IsSuccess(history[i])) ==> n == |history|
  {
    |Filter(history, IsSuccess)|
  }

  /** The "Errors" count. */
  function ErrorCount(history: seq<HistoryEntry>): (n: nat)
    ensures n <= |history|
    ensures (forall i :: 0 <= i < |history| ==> IsError(history[i])) ==> n == |history|
  {
    |Filter(history, IsError)|
  }

  /** No entry is counted both as a success and as an error, so the two counts
      together never exceed the total. */
  lemma CountsWithinTotal(history: seq<HistoryEntry>)
    ensures SuccessCount(history) + ErrorCount(history) <= |history|
  {
    DisjointFilters(history, IsSuccess, IsError);
  }

  function TotalTime(history: seq<HistoryEntry>): int {
    if history == [] then 0 else history[0].responseTime + TotalTime(history[1..])
  }

  /** `Math.round(total / count)` on integers: the nearest integer, halves
      rounded up. */
  function RoundedMean(total: int, count: int): int
    requires count > 0
  {
    (2 * total + count) / (2 * count)
  }

  /** The "Avg Response" figure: 0 for an empty history, otherwise the rounded
      mean of the response times. */
  function AverageTime(history: seq<HistoryEntry>): (avg: int)
    ensures history == [] ==> avg == 0
  {
    if |history| > 0 then RoundedMean(TotalTime(history), |history|) else 0
  }

  /** Every time lying in [lo, hi] bounds the total by count times each end. */
  lemma {:induction false} TotalTimeBounds(history: seq<HistoryEntry>, lo: int, hi: int)
    requires forall i :: 0 <= i < |history| ==> lo <= history[i].responseTime <= hi
    ensures lo * |history| <= TotalTime(history) <= hi * |history|
  {
    if history != [] {
      TotalTimeBounds(history[1..], lo, hi);
      assert lo * |history| == lo + lo * |history[1..]|;
      assert hi * |history| == hi + hi * |history[1..]|;
    }
  }

  lemma MulMono(a: int, b: int, c: int)
    requires a <= b && c >= 0
    ensures a * c <= b * c
  {
    assert b * c - a * c == (b - a) * c;
  }

  /** A quotient is pinned by bounds on its dividend. */
  lemma DivBetween(n: int, d: int, lo: int, hi: int)
    requires d > 0 && lo * d <= n < (hi + 1) * d
    ensures lo <= n / d <= hi
  {
    var q, r := n / d, n % d;
    assert n == q * d + r && 0 <= r < d;
    if q < lo {
      MulMono(q, lo - 1, d);
    }
    if q > hi {
      MulMono(hi + 1, q, d);
    }
  }

  /** The rounded mean of totals between count*lo and count*hi lies in [lo, hi]. */
  lemma RoundedMeanBounds(total: int, count: int, lo: int, hi: int)
    requires count > 0 && lo * count <= total <= hi * count
    ensures lo <= RoundedMean(total, count) <= hi
  {
    var d, n := 2 * count, 2 * total + count;
    assert lo * d == 2 * (lo * count);
    assert (hi + 1) * d == 2 * (hi * count) + 2 * count;
    DivBetween(n, d, lo, hi);
  }

  /** The average shown lies between the smallest and the largest time. */
  lemma AverageWithinRange(history: seq<HistoryEntry>, lo: int, hi: int)
    requires history != []
    requires forall i :: 0 <= i < |history| ==> lo <= history[i].responseTime <= hi
    ensures lo <= AverageTime(history) <= hi
  {
    TotalTimeBounds(history, lo, hi);
    RoundedMeanBounds(TotalTime(history), |history|, lo, hi);
  }

  /** The badge of each shown entry: `#(count - index)`, so the numbers run from
      the number of shown entries down to 1, one distinct number per entry. */
  function Badges(shown: nat): (b: seq<int>)
    ensures |b| == shown
    ensures forall i :: 0 <= i < shown ==> 1 <= b[i] <= shown
    ensures shown > 0 ==> b[0] == shown && b[shown - 1] == 1
    ensures forall i, j :: 0 <= i < j < shown ==> b[i] > b[j]
  {
    seq(shown, i requires 0 <= i < shown => shown - i)
  }

  /** `history.filter(req => req._id !== id)`. */
  function WithoutId(history: seq<HistoryEntry>, id: string): (r: seq<HistoryEntry>)
    ensures SubsequenceOf(r, history)
    ensures forall i :: 0 <= i < |r| ==> r[i] in history && r[i].id != id
    ensures forall i :: 0 <= i < |history| && history[i].id != id ==> history[i] in r
    ensures forall i :: 0 <= i < |history| ==>
              multiset(r)[history[i]] == if history[i].id != id then multiset(history)[history[i]] else 0
  {
    Filter(history, (e: HistoryEntry) => e.id != id)
  }

  class HistoryPanel {
    var selected: Option<HistoryEntry>
    var filter: string
    var searchTerm: string

    constructor ()
      ensures selected.None? && filter == "all" && searchTerm == ""
    {
      selected := None;
      filter := "all";
      searchTerm := "";
    }

    /** Clicking an entry (or replaying it) selects it. */
    method Select(e: HistoryEntry)
      modifies this`selected
      ensures selected == Some(e)
    {
      selected := Some(e);
    }

    /** `deleteRequest(id)`: the history without the entries of that id is
        written to storage and reloaded from there, and a selection with that
        id is cleared. A failed write (`written` false) is swallowed and
        changes nothing. */
    method DeleteRequest(app: AppState.App, id: string, written: bool)
      modifies this`selected, app`history, app`storage
      ensures written ==> app.storage == old(app.storage)[AppState.HistoryKey := app.encode(WithoutId(old(app.history), id))]
      ensures written ==> app.history == AppState.LoadedHistory(Some(app.encode(WithoutId(old(app.history), id))),
                                                                app.decode, old(app.history))
      ensures written && AppState.RoundTrips(app.encode, app.decode) ==> app.history == WithoutId(old(app.history), id)
      ensures written && old(selected).Some? && old(selected).value.id == id ==> selected.None?
      ensures written && !(old(selected).Some? && old(selected).value.id == id) ==> selected == old(selected)
      ensures !written ==> app.history == old(app.history) && app.storage == old(app.storage) && selected == old(selected)
    {
      if written {
        var updated := WithoutId(app.history, id);
        app.storage := app.storage[AppState.HistoryKey := app.encode(updated)];
        app.LoadHistory();
        if selected.Some? && selected.value.id == id {
          selected := None;
        }
      }
    }
  }
}
