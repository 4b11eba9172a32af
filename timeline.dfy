/**
 * The per-account balance reconstruction of `generate_final_balance_df`
 * (src/make_asset_timeline.py): the running-balance fold over the sorted
 * events, the last value per day, the update onto the day range and the
 * forward fill, and the per-day flow totals. Beside the pipeline stands a
 * reference definition that speaks of days only: a day's closing balance
 * is its last anchor, or else the previous day's balance, plus the day's
 * flows. The main lemmas prove that the pipeline computes the reference.
 */
module Timeline {
  import opened Wrappers
  import opened Events

  // ----- the running-balance fold -----

  /** One step of the fold: an anchor sets the balance, a flow adds its delta. */
  function Step(x: int, e: Event): int {
    match e
    case Anchor(_, b) => b
    case Flow(_, delta) => x + delta
  }

  /** The running balance after the events of `s`, starting from `x`. */
  function Fold(x: int, s: seq<Event>): int
    decreases |s|
  {
    if s == [] then x else Step(Fold(x, s[..|s| - 1]), s[|s| - 1])
  }

  /** `balances_by_datetime`: after every event, its day and the running balance from 0. */
  function Records(s: seq<Event>): (r: seq<(Option<int>, int)>)
    ensures |r| == |s|
    decreases |s|
  {
    if s == [] then [] else Records(s[..|s| - 1]) + [(DayOf(s[|s| - 1]), Fold(0, s))]
  }

  /** The `for _, row in all_events.iterrows()` loop over `cur_balance`. */
  method RunningBalances(events: seq<Event>) returns (recs: seq<(Option<int>, int)>)
    ensures recs == Records(events)
    ensures |recs| == |events|
    ensures forall i {:trigger events[i]} :: 0 <= i < |events| ==>
              recs[i].0 == DayOf(events[i])
              && recs[i].1 == Step(if i == 0 then 0 else recs[i - 1].1, events[i])
  {
    var curBalance := 0;
    recs := [];
    for i := 0 to |events|
      invariant recs == Records(events[..i])
      invariant curBalance == Fold(0, events[..i])
    {
      var e := events[i];
      assert events[..i + 1][..i] == events[..i];
      match e {
        case Anchor(_, b) => curBalance := b;
        case Flow(_, delta) => curBalance := curBalance + delta;
      }
      recs := recs + [(DayOf(e), curBalance)];
    }
    assert events[..|events|] == events;
    RecordsAt(events);
  }

  /** Record i carries event i's day and the balance after applying event i to record i - 1. */
  lemma RecordsAt(s: seq<Event>)
    ensures forall i {:trigger s[i]} :: 0 <= i < |s| ==>
              Records(s)[i].0 == DayOf(s[i])
              && Records(s)[i].1 == Step(if i == 0 then 0 else Records(s)[i - 1].1, s[i])
  {
    forall i | 0 <= i < |s| {
      RecordStep(s, i);
    }
  }

  lemma RecordStep(s: seq<Event>, i: int)
    requires 0 <= i < |s|
    ensures Records(s)[i].0 == DayOf(s[i])
    ensures Records(s)[i].1 == Step(if i == 0 then 0 else Records(s)[i - 1].1, s[i])
  {
    RecordValue(s, i);
    var q := s[..i + 1];
    assert q[..|q| - 1] == s[..i] && q[|q| - 1] == s[i];
    assert Fold(0, q) == Step(Fold(0, s[..i]), s[i]);
    if i > 0 {
      RecordValue(s, i - 1);
      assert s[..i - 1 + 1] == s[..i];
    } else {
      assert s[..i] == [];
    }
  }

  lemma {:induction false} RecordValue(s: seq<Event>, i: int)
    requires 0 <= i < |s|
    ensures Records(s)[i] == (DayOf(s[i]), Fold(0, s[..i + 1]))
    decreases |s|
  {
    var p := s[..|s| - 1];
    if i == |s| - 1 {
      assert s[..i + 1] == s;
    } else {
      RecordValue(p, i);
      assert p[..i + 1] == s[..i + 1];
    }
  }

  lemma {:induction false} FoldConcat(x: int, a: seq<Event>, b: seq<Event>)
    ensures Fold(x, a + b) == Fold(Fold(x, a), b)
    decreases |b|
  {
    if b == [] {
      assert a + b == a;
    } else {
      assert (a + b)[..|a + b| - 1] == a + b[..|b| - 1];
      FoldConcat(x, a, b[..|b| - 1]);
    }
  }

  /** The sum of the flow deltas of `s`; anchors add nothing. */
  function SumDeltas(s: seq<Event>): int {
    if s == [] then 0
    else (if s[0].Flow? then s[0].delta else 0) + SumDeltas(s[1..])
  }

  lemma {:induction false} SumDeltasConcat(a: seq<Event>, b: seq<Event>)
    ensures SumDeltas(a + b) == SumDeltas(a) + SumDeltas(b)
  {
    if a == [] {
      assert a + b == b;
    } else {
      assert (a + b)[0] == a[0] && (a + b)[1..] == a[1..] + b;
      SumDeltasConcat(a[1..], b);
    }
  }

  predicate AllFlows(s: seq<Event>) { forall i :: 0 <= i < |s| ==> s[i].Flow? }
  predicate AllAnchors(s: seq<Event>) { forall i :: 0 <= i < |s| ==> s[i].Anchor? }

  /** Flows alone only accumulate: the balance grows by the sum of their deltas. */
  lemma {:induction false} FoldFlows(x: int, f: seq<Event>)
    requires AllFlows(f)
    ensures Fold(x, f) == x + SumDeltas(f)
    decreases |f|
  {
    if f != [] {
      var p := f[..|f| - 1];
      FoldFlows(x, p);
      assert f == p + [f[|f| - 1]];
      SumDeltasConcat(p, [f[|f| - 1]]);
      assert [f[|f| - 1]][1..] == [];
    }
  }

  /** A block of anchors followed by flows: the last anchor, if any, replaces the balance, then the flows add up. */
  lemma FoldBlock(x: int, a: seq<Event>, f: seq<Event>)
    requires AllAnchors(a) && AllFlows(f)
    ensures Fold(x, a + f) == (if a == [] then x else a[|a| - 1].balance) + SumDeltas(f)
  {
    FoldConcat(x, a, f);
    FoldFlows(Fold(x, a), f);
  }

  // ----- groupby(day).last(), Series.update and ffill -----

  /** `groupby(datetime.dt.normalize()).last()`: per day, the last value recorded; NaT days are dropped. */
  function LastPerDay(recs: seq<(Option<int>, int)>): map<int, int>
    decreases |recs|
  {
    if recs == [] then map[]
    else
      var m := LastPerDay(recs[..|recs| - 1]);
      var (d, v) := recs[|recs| - 1];
      if d.Some? then m[d.value := v] else m
  }

  /** `Series(index=date_range).update(by_day)`: the value of each day of `[lo, lo + n)`, NaN when none. */
  function UpdateSeries(lo: int, n: nat, m: map<int, int>): seq<Option<int>> {
    seq(n, k requires 0 <= k < n => if lo + k in m then Some(m[lo + k]) else None)
  }

  /** `Series.ffill()`: every NaN takes the nearest earlier value; leading NaNs stay. */
  function ForwardFill(s: seq<Option<int>>): (r: seq<Option<int>>)
    ensures |r| == |s|
    decreases |s|
  {
    if s == [] then []
    else
      var p := ForwardFill(s[..|s| - 1]);
      var last := s[|s| - 1];
      p + [if last.Some? then last else if p == [] then None else p[|p| - 1]]
  }

  /** Each filled value is the day's own value, else the previous filled value, else NaN on the first day. */
  lemma {:induction false} ForwardFillAt(s: seq<Option<int>>, k: int)
    requires 0 <= k < |s|
    ensures ForwardFill(s)[k] == if s[k].Some? then s[k] else if k == 0 then None else ForwardFill(s)[k - 1]
    decreases |s|
  {
    var q := s[..|s| - 1];
    var p := ForwardFill(q);
    assert ForwardFill(s)[..|s| - 1] == p;
    if k < |s| - 1 {
      ForwardFillAt(q, k);
      assert q[k] == s[k];
    }
  }

  /** `df.groupby('event_date')['収支'].sum()`: per dated day, the sum of the flow deltas on it. */
  function DailyFlowTotals(s: seq<Event>): map<int, int> {
    if s == [] then map[]
    else
      var m := DailyFlowTotals(s[1..]);
      match s[0]
      case Flow(Some(d), delta) => m[d := (if d in m then m[d] else 0) + delta]
      case _ => m
  }

  /** `Series(0, index=date_range).update(daily_income)`: the total of each day, 0 when none. */
  function UpdateFlows(lo: int, n: nat, m: map<int, int>): seq<int> {
    seq(n, k requires 0 <= k < n => if lo + k in m then m[lo + k] else 0)
  }

  /** The balance column of one account over the `n` days from `lo`. */
  function BalanceColumn(events: seq<Event>, lo: int, n: nat): seq<Option<int>> {
    ForwardFill(UpdateSeries(lo, n, LastPerDay(Records(SortEvents(events)))))
  }

  /** The flow column of one account over the `n` days from `lo`. */
  function FlowColumn(flows: seq<Event>, lo: int, n: nat): seq<int> {
    UpdateFlows(lo, n, DailyFlowTotals(flows))
  }

  // ----- the reference definition, day by day -----

  /** No dated event lies before `lo`. */
  ghost predicate AllFrom(s: seq<Event>, lo: int) {
    forall e :: e in s && DayOf(e).Some? ==> DayOf(e).value >= lo
  }

  /** The balance of the last anchor dated `d`, in input order. */
  function LastAnchorOn(s: seq<Event>, d: int): Option<int> {
    var a := Filter(s, AnchorsOn(d));
    if a == [] then None else
    match a[|a| - 1]
    case Anchor(_, b) => Some(b)
    case Flow(_, _) => None
  }

  /** The sum of the flow deltas dated `d`. */
  function FlowTotal(s: seq<Event>, d: int): int {
    SumDeltas(Filter(s, FlowsOn(d)))
  }

  /** The balance at the end of day `d`: the day's last anchor, else the previous day's balance (0 at the start), plus the day's flows. */
  function ClosingBalance(s: seq<Event>, lo: int, d: int): int
    requires d >= lo
    decreases d - lo
  {
    var carried := if d == lo then 0 else ClosingBalance(s, lo, d - 1);
    match LastAnchorOn(s, d)
    case Some(a) => a + FlowTotal(s, d)
    case None => carried + FlowTotal(s, d)
  }

  /** The reconstructed balance of day `d`: unknown until the first event, the closing balance from then on. */
  function BalanceOn(s: seq<Event>, lo: int, d: int): Option<int>
    requires d >= lo
  {
    if Filter(s, UpTo(d)) == [] then None else Some(ClosingBalance(s, lo, d))
  }

  // ----- the pipeline computes the reference -----

  lemma SortedPrefix(s: seq<Event>)
    requires Sorted(s) && s != []
    ensures Sorted(s[..|s| - 1])
  {
  }

  lemma {:induction false} FilterAll(s: seq<Event>, p: Selector)
    requires forall e :: e in s ==> Holds(p, e)
    ensures Filter(s, p) == s
  {
    if s != [] {
      assert s[0] in s;
      FilterAll(s[1..], p);
      assert s == [s[0]] + s[1..];
    }
  }

  lemma RecordsSnoc(p: seq<Event>, x: Event)
    ensures Records(p + [x]) == Records(p) + [(DayOf(x), Fold(0, p + [x]))]
  {
    assert (p + [x])[..|p|] == p;
  }

  lemma LastPerDaySnoc(rs: seq<(Option<int>, int)>, d: Option<int>, v: int)
    ensures LastPerDay(rs + [(d, v)]) == if d.Some? then LastPerDay(rs)[d.value := v] else LastPerDay(rs)
  {
    assert (rs + [(d, v)])[..|rs|] == rs;
  }

  /** When the last event of a sorted stream is dated `d`, every event of the stream is dated up to `d`. */
  lemma LastDayCoversAll(s: seq<Event>, d: int)
    requires Sorted(s) && s != [] && DayOf(s[|s| - 1]) == Some(d)
    ensures Filter(s, UpTo(d)) == s
  {
    forall e | e in s ensures Holds(UpTo(d), e) {
      var k :| 0 <= k < |s| && s[k] == e;
      if k < |s| - 1 {
        assert !Before(s[|s| - 1], s[k]);
      }
    }
    FilterAll(s, UpTo(d));
  }

  /** An event sorted after one dated `d`, and not dated `d` itself, is undated or later than `d`. */
  lemma LaterNotUpTo(p: seq<Event>, x: Event, d: int)
    requires Sorted(p + [x]) && Filter(p, On(d)) != [] && DayOf(x) != Some(d)
    ensures !Holds(UpTo(d), x)
  {
    var s := p + [x];
    var e := Filter(p, On(d))[0];
    assert e in Filter(p, On(d));
    var k :| 0 <= k < |p| && p[k] == e;
    assert s[k] == e && s[|s| - 1] == x;
    assert !Before(s[|s| - 1], s[k]);
  }

  /**
   * In a sorted stream, the last record of a day is the running balance over
   * every event up to and including that day; the days that have a record are
   * exactly the days that have an event.
   */
  lemma {:induction false} LastPerDaySorted(s: seq<Event>, d: int)
    requires Sorted(s)
    ensures d in LastPerDay(Records(s)) <==> Filter(s, On(d)) != []
    ensures d in LastPerDay(Records(s)) ==> LastPerDay(Records(s))[d] == Fold(0, Filter(s, UpTo(d)))
    decreases |s|
  {
    if s != [] {
      var p, x := s[..|s| - 1], s[|s| - 1];
      assert s == p + [x];
      SortedPrefix(s);
      LastPerDaySorted(p, d);
      RecordsSnoc(p, x);
      LastPerDaySnoc(Records(p), DayOf(x), Fold(0, s));
      FilterConcat(p, [x], On(d));
      FilterConcat(p, [x], UpTo(d));
      FilterSingleton(x, On(d));
      FilterSingleton(x, UpTo(d));
      if DayOf(x) == Some(d) {
        LastDayCoversAll(s, d);
      } else if Filter(p, On(d)) != [] {
        LaterNotUpTo(p, x, d);
        assert Filter(s, UpTo(d)) == Filter(p, UpTo(d)) + [];
        assert Filter(s, UpTo(d)) == Filter(p, UpTo(d));
        assert d in LastPerDay(Records(p));
        assert LastPerDay(Records(s))[d] == LastPerDay(Records(p))[d];
      }
    }
  }

  lemma FilterAnchorsAreAnchors(s: seq<Event>, d: int)
    ensures AllAnchors(Filter(s, AnchorsOn(d)))
    ensures AllFlows(Filter(s, FlowsOn(d)))
  {
    var a := Filter(s, AnchorsOn(d));
    var f := Filter(s, FlowsOn(d));
    forall i | 0 <= i < |a| ensures a[i].Anchor? { assert a[i] in a; }
    forall i | 0 <= i < |f| ensures f[i].Flow? { assert f[i] in f; }
  }

  /** Nothing of a stream that starts at `lo` is dated before `lo`. */
  lemma NothingBefore(events: seq<Event>, lo: int)
    requires AllFrom(events, lo)
    ensures Filter(SortEvents(events), UpTo(lo - 1)) == []
  {
    var s := SortEvents(events);
    forall e | e in s ensures !Holds(UpTo(lo - 1), e) {
      assert e in multiset(s);
      assert e in events;
    }
    FilterNone(s, UpTo(lo - 1));
  }

  /** Running over day `d` of the sorted stream: its last anchor, if any, replaces the balance, then its flows add up. */
  lemma DayBlock(events: seq<Event>, d: int)
    ensures Fold(0, Filter(SortEvents(events), UpTo(d)))
            == (match LastAnchorOn(events, d)
                case Some(b) => b
                case None => Fold(0, Filter(SortEvents(events), UpTo(d - 1))))
               + FlowTotal(events, d)
  {
    var s := SortEvents(events);
    SplitUpTo(s, d);
    SplitDay(s, d);
    SortStable(events, AnchorsOn(d));
    SortStable(events, FlowsOn(d));
    FilterAnchorsAreAnchors(events, d);
    var before := Filter(s, UpTo(d - 1));
    var a := Filter(events, AnchorsOn(d));
    var f := Filter(events, FlowsOn(d));
    assert Filter(s, UpTo(d)) == before + (a + f);
    FoldConcat(0, before, a + f);
    FoldBlock(Fold(0, before), a, f);
  }

  /** The running balance over the sorted events up to day `d` is the reference closing balance of `d`. */
  lemma {:induction false} FoldIsClosingBalance(events: seq<Event>, lo: int, d: int)
    requires AllFrom(events, lo) && d >= lo
    ensures Fold(0, Filter(SortEvents(events), UpTo(d))) == ClosingBalance(events, lo, d)
    decreases d - lo
  {
    DayBlock(events, d);
    if d == lo {
      NothingBefore(events, lo);
    } else {
      FoldIsClosingBalance(events, lo, d - 1);
    }
  }

  /** A day without events carries the previous day's reconstructed balance. */
  lemma CarryForward(events: seq<Event>, lo: int, d: int)
    requires d > lo && Filter(events, On(d)) == []
    ensures BalanceOn(events, lo, d) == BalanceOn(events, lo, d - 1)
  {
    forall e | e in events ensures !Holds(On(d), e) {
      assert e !in Filter(events, On(d));
    }
    FilterNone(events, AnchorsOn(d));
    FilterNone(events, FlowsOn(d));
    assert Filter(events, UpTo(d)) == [] <==> Filter(events, UpTo(d - 1)) == [] by {
      if Filter(events, UpTo(d)) != [] {
        var e := Filter(events, UpTo(d))[0];
        assert e in Filter(events, UpTo(d));
        assert e in Filter(events, UpTo(d - 1));
      }
      if Filter(events, UpTo(d - 1)) != [] {
        var e := Filter(events, UpTo(d - 1))[0];
        assert e in Filter(events, UpTo(d - 1));
        assert e in Filter(events, UpTo(d));
      }
    }
  }

  /** Sorting keeps the days that have events. */
  lemma SameDays(s: seq<Event>, events: seq<Event>, d: int)
    requires multiset(s) == multiset(events)
    ensures Filter(s, On(d)) != [] <==> Filter(events, On(d)) != []
  {
    if Filter(s, On(d)) != [] {
      var e := Filter(s, On(d))[0];
      assert e in Filter(s, On(d));
      assert e in multiset(s);
      assert e in Filter(events, On(d));
    }
    if Filter(events, On(d)) != [] {
      var e := Filter(events, On(d))[0];
      assert e in Filter(events, On(d));
      assert e in multiset(events);
      assert e in Filter(s, On(d));
    }
  }

  lemma OnIsUpTo(s: seq<Event>, d: int)
    requires Filter(s, On(d)) != []
    ensures Filter(s, UpTo(d)) != []
  {
    var e := Filter(s, On(d))[0];
    assert e in Filter(s, On(d));
    assert e in Filter(s, UpTo(d));
  }

  /** Before the first day with an event nothing is dated. */
  lemma FirstDayEmpty(s: seq<Event>, lo: int)
    requires AllFrom(s, lo) && Filter(s, On(lo)) == []
    ensures Filter(s, UpTo(lo)) == []
  {
    forall e | e in s ensures !Holds(UpTo(lo), e) {
      assert !(e in Filter(s, On(lo)));
    }
    FilterNone(s, UpTo(lo));
  }

  /** A day with events has a last record, and it is the reference balance of that day. */
  lemma DayWithEvents(events: seq<Event>, lo: int, d: int)
    requires AllFrom(events, lo) && d >= lo && Filter(events, On(d)) != []
    ensures d in LastPerDay(Records(SortEvents(events)))
    ensures BalanceOn(events, lo, d) == Some(LastPerDay(Records(SortEvents(events)))[d])
  {
    var s := SortEvents(events);
    LastPerDaySorted(s, d);
    SameDays(s, events, d);
    FoldIsClosingBalance(events, lo, d);
    OnIsUpTo(events, d);
  }

  /** A day without events has no record. */
  lemma DayWithoutEvents(events: seq<Event>, d: int)
    requires Filter(events, On(d)) == []
    ensures d !in LastPerDay(Records(SortEvents(events)))
  {
    var s := SortEvents(events);
    LastPerDaySorted(s, d);
    SameDays(s, events, d);
  }

  /** A forward fill agrees with any sequence that follows the fill recurrence over the same values. */
  lemma {:induction false} FillAgrees(u: seq<Option<int>>, ref: seq<Option<int>>, k: int)
    requires |u| == |ref| && 0 <= k < |u|
    requires forall j {:trigger u[j]} :: 0 <= j < |u| ==>
               ref[j] == if u[j].Some? then u[j] else if j == 0 then None else ref[j - 1]
    ensures ForwardFill(u)[k] == ref[k]
    decreases k
  {
    ForwardFillAt(u, k);
    assert u[k] == u[k];
    if k > 0 && u[k].None? {
      FillAgrees(u, ref, k - 1);
    }
  }

  lemma UpdateSeriesAt(lo: int, n: nat, m: map<int, int>, k: nat)
    requires k < n
    ensures |UpdateSeries(lo, n, m)| == n
    ensures UpdateSeries(lo, n, m)[k] == if lo + k in m then Some(m[lo + k]) else None
  {
  }

  /** The updated series holds a value exactly on the days with events, and that value is the reference balance. */
  lemma SeriesDay(events: seq<Event>, lo: int, n: nat, k: nat)
    requires AllFrom(events, lo) && k < n
    ensures UpdateSeries(lo, n, LastPerDay(Records(SortEvents(events))))[k].Some?
            <==> Filter(events, On(lo + k)) != []
    ensures UpdateSeries(lo, n, LastPerDay(Records(SortEvents(events))))[k].Some?
            ==> UpdateSeries(lo, n, LastPerDay(Records(SortEvents(events))))[k] == BalanceOn(events, lo, lo + k)
  {
    UpdateSeriesAt(lo, n, LastPerDay(Records(SortEvents(events))), k);
    if Filter(events, On(lo + k)) != [] {
      DayWithEvents(events, lo, lo + k);
    } else {
      DayWithoutEvents(events, lo + k);
    }
  }

  /** The reference balance of a day with value `v` on the days with events follows the fill recurrence. */
  lemma BalanceDay(events: seq<Event>, lo: int, k: nat, v: Option<int>)
    requires AllFrom(events, lo)
    requires v.Some? <==> Filter(events, On(lo + k)) != []
    requires v.Some? ==> v == BalanceOn(events, lo, lo + k)
    ensures BalanceOn(events, lo, lo + k)
            == if v.Some? then v else if k == 0 then None else BalanceOn(events, lo, lo + k - 1)
  {
    if v.None? {
      if k == 0 {
        FirstDayEmpty(events, lo);
      } else {
        CarryForward(events, lo, lo + k);
      }
    }
  }

  /** The reference balance of each of the `n` days from `lo`. */
  function ReferenceColumn(events: seq<Event>, lo: int, n: nat): (r: seq<Option<int>>)
    ensures |r| == n
  {
    seq(n, j requires 0 <= j < n => BalanceOn(events, lo, lo + j))
  }

  lemma ReferenceStep(events: seq<Event>, lo: int, n: nat, ref: seq<Option<int>>, j: nat, v: Option<int>)
    requires AllFrom(events, lo) && j < n
    requires ref == ReferenceColumn(events, lo, n)
    requires v.Some? <==> Filter(events, On(lo + j)) != []
    requires v.Some? ==> v == BalanceOn(events, lo, lo + j)
    ensures ref[j] == if v.Some? then v else if j == 0 then None else ref[j - 1]
  {
    assert ref[j] == BalanceOn(events, lo, lo + j);
    assert j > 0 ==> ref[j - 1] == BalanceOn(events, lo, lo + j - 1);
    BalanceDay(events, lo, j, v);
  }

  /** The reference column follows the fill recurrence over the updated series. */
  lemma ReferenceFollowsFill(events: seq<Event>, lo: int, n: nat, u: seq<Option<int>>, ref: seq<Option<int>>)
    requires AllFrom(events, lo)
    requires u == UpdateSeries(lo, n, LastPerDay(Records(SortEvents(events))))
    requires ref == ReferenceColumn(events, lo, n)
    ensures |u| == |ref| == n
    ensures forall j {:trigger u[j]} :: 0 <= j < n ==>
              ref[j] == if u[j].Some? then u[j] else if j == 0 then None else ref[j - 1]
  {
    forall j | 0 <= j < n
      ensures ref[j] == if u[j].Some? then u[j] else if j == 0 then None else ref[j - 1]
    {
      SeriesDay(events, lo, n, j);
      ReferenceStep(events, lo, n, ref, j, u[j]);
    }
  }

  /**
   * The balance column is the reference: for every day of the range, empty
   * before the account's first event and the closing balance from then on.
   */
  lemma BalanceColumnIsReference(events: seq<Event>, lo: int, n: nat)
    requires AllFrom(events, lo)
    ensures BalanceColumn(events, lo, n) == ReferenceColumn(events, lo, n)
  {
    var u := UpdateSeries(lo, n, LastPerDay(Records(SortEvents(events))));
    var col := BalanceColumn(events, lo, n);
    var ref := ReferenceColumn(events, lo, n);
    ReferenceFollowsFill(events, lo, n, u, ref);
    forall k | 0 <= k < n ensures col[k] == ref[k] {
      FillAgrees(u, ref, k);
    }
  }

  /** Day `k` of the balance column is the reference balance of day `lo + k`. */
  lemma BalanceColumnAt(events: seq<Event>, lo: int, n: nat, k: nat)
    requires AllFrom(events, lo) && k < n
    ensures |BalanceColumn(events, lo, n)| == n
    ensures BalanceColumn(events, lo, n)[k] == BalanceOn(events, lo, lo + k)
  {
    BalanceColumnIsReference(events, lo, n);
    assert ReferenceColumn(events, lo, n)[k] == BalanceOn(events, lo, lo + k);
  }

  /**
   * Anchor precedence: on a day with an anchor, the reconstructed balance is
   * the day's last anchor plus that day's flows, whatever came before.
   */
  lemma AnchorPrecedence(events: seq<Event>, lo: int, n: nat, k: nat, a: int)
    requires AllFrom(events, lo) && k < n
    requires LastAnchorOn(events, lo + k) == Some(a)
    ensures BalanceColumn(events, lo, n)[k] == Some(a + FlowTotal(events, lo + k))
  {
    var v := Some(a + FlowTotal(events, lo + k));
    assert BalanceOn(events, lo, lo + k) == v by {
      AnchoredBalance(events, lo, lo + k, a);
    }
    BalanceColumnAt(events, lo, n, k);
  }

  lemma AnchoredBalance(events: seq<Event>, lo: int, d: int, a: int)
    requires d >= lo && LastAnchorOn(events, d) == Some(a)
    ensures BalanceOn(events, lo, d) == Some(a + FlowTotal(events, d))
  {
    AnchorIsDated(events, d);
  }

  lemma AnchorIsDated(events: seq<Event>, d: int)
    requires LastAnchorOn(events, d).Some?
    ensures Filter(events, UpTo(d)) != []
  {
    var an := Filter(events, AnchorsOn(d));
    assert an[|an| - 1] in an;
    assert an[|an| - 1] in Filter(events, UpTo(d));
  }

  /** No back-fill: the balance is unset exactly on the days before the account's first dated event. */
  lemma NoBackfill(events: seq<Event>, lo: int, n: nat, k: nat)
    requires AllFrom(events, lo) && k < n
    ensures BalanceColumn(events, lo, n)[k].None? <==> Filter(events, UpTo(lo + k)) == []
  {
    BalanceColumnAt(events, lo, n, k);
  }

  /** No event is dated `d`. */
  predicate NoEventOn(events: seq<Event>, d: int) {
    Filter(events, On(d)) == []
  }

  /** No event is dated in the days `(a, b]`. */
  predicate QuietDays(events: seq<Event>, a: int, b: int)
    decreases b - a
  {
    b <= a || (Filter(events, On(b)) == [] && QuietDays(events, a, b - 1))
  }

  lemma {:induction false} QuietDaysFromForall(events: seq<Event>, a: int, b: int)
    requires forall d :: a < d <= b ==> NoEventOn(events, d)
    ensures QuietDays(events, a, b)
    decreases b - a
  {
    if a < b {
      assert NoEventOn(events, b);
      QuietDaysFromForall(events, a, b - 1);
    }
  }

  /** Across days without events the reference balance stays at the last known value. */
  lemma {:induction false} BalanceAcrossGap(events: seq<Event>, lo: int, d0: int, d: int)
    requires lo <= d0 <= d && QuietDays(events, d0, d)
    ensures BalanceOn(events, lo, d) == BalanceOn(events, lo, d0)
    decreases d - d0
  {
    if d0 < d {
      BalanceAcrossGap(events, lo, d0, d - 1);
      CarryForward(events, lo, d);
    }
  }

  /** Forward fill: across days without events the balance column stays at the last known value. */
  lemma CarriedAcrossGap(events: seq<Event>, lo: int, n: nat, i: nat, k: nat)
    requires AllFrom(events, lo) && i <= k < n
    requires forall d :: lo + i < d <= lo + k ==> NoEventOn(events, d)
    ensures BalanceColumn(events, lo, n)[k] == BalanceColumn(events, lo, n)[i]
  {
    GapBalances(events, lo, i, k);
    SameBalanceSameCell(events, lo, n, i, k);
  }

  lemma GapBalances(events: seq<Event>, lo: int, i: nat, k: nat)
    requires i <= k
    requires forall d :: lo + i < d <= lo + k ==> NoEventOn(events, d)
    ensures BalanceOn(events, lo, lo + k) == BalanceOn(events, lo, lo + i)
  {
    QuietDaysFromForall(events, lo + i, lo + k);
    BalanceAcrossGap(events, lo, lo + i, lo + k);
  }

  lemma SameBalanceSameCell(events: seq<Event>, lo: int, n: nat, i: nat, k: nat)
    requires AllFrom(events, lo) && i < n && k < n
    requires BalanceOn(events, lo, lo + k) == BalanceOn(events, lo, lo + i)
    ensures BalanceColumn(events, lo, n)[k] == BalanceColumn(events, lo, n)[i]
  {
    BalanceColumnAt(events, lo, n, k);
    BalanceColumnAt(events, lo, n, i);
  }

  /** The per-day flow totals are the reference flow total of each day, 0 for days without flows. */
  lemma {:induction false} DailyFlowTotalsAt(s: seq<Event>, d: int)
    ensures d in DailyFlowTotals(s) ==> DailyFlowTotals(s)[d] == FlowTotal(s, d)
    ensures d !in DailyFlowTotals(s) ==> FlowTotal(s, d) == 0
  {
    if s != [] {
      DailyFlowTotalsAt(s[1..], d);
      assert s == [s[0]] + s[1..];
      FilterConcat([s[0]], s[1..], FlowsOn(d));
      FilterSingleton(s[0], FlowsOn(d));
      SumDeltasConcat(Filter([s[0]], FlowsOn(d)), Filter(s[1..], FlowsOn(d)));
      assert [s[0]][1..] == [];
    }
  }

  lemma FlowColumnIsReference(flows: seq<Event>, lo: int, n: nat)
    ensures |FlowColumn(flows, lo, n)| == n
    ensures forall k :: 0 <= k < n ==> FlowColumn(flows, lo, n)[k] == FlowTotal(flows, lo + k)
  {
    forall k | 0 <= k < n ensures FlowColumn(flows, lo, n)[k] == FlowTotal(flows, lo + k) {
      DailyFlowTotalsAt(flows, lo + k);
    }
  }
}
