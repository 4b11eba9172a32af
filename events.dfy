/**
 * The per-account event stream of src/make_asset_timeline.py: flow events
 * (signed deltas on a settlement day, possibly NaT) and balance anchors
 * (absolute balances on a snapshot day), the order `sort_values` puts them
 * in, and the selections the reconstruction takes of them.
 */
module Events {
  import opened Wrappers

  /** A row of `all_events`: `is_balance_event` 0 (a flow of `収支` delta) or 1 (an anchor of `balance`). */
  datatype Event = Flow(flowDay: Option<int>, delta: int) | Anchor(anchorDay: int, balance: int)

  /** `event_date` as a day number; None is NaT. */
  function DayOf(e: Event): Option<int> {
    match e
    case Flow(d, _) => d
    case Anchor(d, _) => Some(d)
  }

  /**
   * The strict order of `sort_values(['event_date', 'is_balance_event'],
   * ascending=[True, False])`: earlier days first, NaT last, and on the same
   * day anchors before flows.
   */
  predicate Before(a: Event, b: Event) {
    DayOf(a).Some?
    && (DayOf(b).None? || DayOf(a).value < DayOf(b).value
        || (DayOf(a).value == DayOf(b).value && a.Anchor? && b.Flow?))
  }

  predicate Sorted(s: seq<Event>) {
    forall i, j :: 0 <= i < j < |s| ==> !Before(s[j], s[i])
  }

  /** Places `x` after the elements that sort strictly before it and ahead of its equals, which keeps the sort stable. */
  function Insert(x: Event, s: seq<Event>): (r: seq<Event>)
    ensures multiset(r) == multiset(s) + multiset{x}
  {
    if s == [] then [x]
    else if Before(s[0], x) then
      assert s == [s[0]] + s[1..];
      [s[0]] + Insert(x, s[1..])
    else
      [x] + s
  }

  lemma SortedTail(s: seq<Event>)
    requires Sorted(s) && s != []
    ensures Sorted(s[1..])
    ensures forall e :: e in s[1..] ==> !Before(e, s[0])
  {
    forall e | e in s[1..] ensures !Before(e, s[0]) {
      var k :| 0 <= k < |s[1..]| && s[1..][k] == e;
      assert s[k + 1] == e;
    }
  }

  lemma SortedCons(x: Event, t: seq<Event>)
    requires Sorted(t)
    requires forall e :: e in t ==> !Before(e, x)
    ensures Sorted([x] + t)
  {
    var s := [x] + t;
    forall i, j | 0 <= i < j < |s| ensures !Before(s[j], s[i]) {
      assert s[j] == t[j - 1];
      if i > 0 {
        assert s[i] == t[i - 1];
      }
    }
  }

  lemma {:induction false} InsertSorted(x: Event, s: seq<Event>)
    requires Sorted(s)
    ensures Sorted(Insert(x, s))
  {
    if s == [] {
    } else if Before(s[0], x) {
      SortedTail(s);
      InsertSorted(x, s[1..]);
      var rest := Insert(x, s[1..]);
      forall e | e in rest ensures !Before(e, s[0]) {
        assert e in multiset(rest);
        assert e == x || e in s[1..];
      }
      SortedCons(s[0], rest);
    } else {
      forall e | e in s ensures !Before(e, x) {
        var k :| 0 <= k < |s| && s[k] == e;
        if k > 0 {
          assert !Before(s[k], s[0]);
        }
      }
      SortedCons(x, s);
    }
  }

  /** The stable sort pandas performs on `all_events`. */
  function SortEvents(s: seq<Event>): (r: seq<Event>)
    ensures Sorted(r)
    ensures multiset(r) == multiset(s)
  {
    if s == [] then []
    else
      assert s == [s[0]] + s[1..];
      InsertSorted(s[0], SortEvents(s[1..]));
      Insert(s[0], SortEvents(s[1..]))
  }

  /** The selections the reconstruction makes of an event stream. */
  datatype Selector =
    | Dated            // a real `event_date` (not NaT)
    | UpTo(day: int)   // dated on or before `day`
    | On(day: int)     // dated `day`
    | AnchorsOn(day: int)
    | FlowsOn(day: int)
    | Undated          // `event_date` is NaT

  predicate Holds(p: Selector, e: Event) {
    match p
    case Dated => DayOf(e).Some?
    case UpTo(d) => DayOf(e).Some? && DayOf(e).value <= d
    case On(d) => DayOf(e) == Some(d)
    case AnchorsOn(d) => e.Anchor? && e.anchorDay == d
    case FlowsOn(d) => e.Flow? && e.flowDay == Some(d)
    case Undated => DayOf(e).None?
  }

  /** The events of `s` that `p` selects, in their order in `s`. */
  function Filter(s: seq<Event>, p: Selector): (r: seq<Event>)
    ensures |r| <= |s|
    ensures forall e {:trigger e in r} :: e in r <==> e in s && Holds(p, e)
  {
    if s == [] then []
    else
      assert s == [s[0]] + s[1..];
      (if Holds(p, s[0]) then [s[0]] else []) + Filter(s[1..], p)
  }

  lemma {:induction false} FilterNone(s: seq<Event>, p: Selector)
    requires forall e :: e in s ==> !Holds(p, e)
    ensures Filter(s, p) == []
  {
    if s != [] {
      assert s[0] in s;
      FilterNone(s[1..], p);
    }
  }

  lemma {:induction false} FilterConcat(a: seq<Event>, b: seq<Event>, p: Selector)
    ensures Filter(a + b, p) == Filter(a, p) + Filter(b, p)
  {
    if a == [] {
      assert a + b == b;
    } else {
      var head := if Holds(p, a[0]) then [a[0]] else [];
      assert (a + b)[0] == a[0] && (a + b)[1..] == a[1..] + b;
      FilterConcat(a[1..], b, p);
      calc {
        Filter(a + b, p);
        head + Filter(a[1..] + b, p);
        head + (Filter(a[1..], p) + Filter(b, p));
        (head + Filter(a[1..], p)) + Filter(b, p);
        Filter(a, p) + Filter(b, p);
      }
    }
  }

  /** Selections whose members share one sort key: one day and one kind, or NaT. */
  predicate SameKey(p: Selector) {
    p.AnchorsOn? || p.FlowsOn? || p.Undated?
  }

  /** No member of a same-key selection sorts before another. */
  lemma SameKeyUnordered(p: Selector, a: Event, b: Event)
    requires SameKey(p) && Holds(p, a) && Holds(p, b)
    ensures !Before(a, b)
  {
  }

  lemma FilterSingleton(y: Event, p: Selector)
    ensures Filter([y], p) == if Holds(p, y) then [y] else []
  {
    assert [y][1..] == [];
  }

  lemma {:induction false} InsertStable(x: Event, s: seq<Event>, p: Selector)
    requires SameKey(p)
    ensures Filter(Insert(x, s), p) == (if Holds(p, x) then [x] else []) + Filter(s, p)
  {
    if s == [] {
      FilterSingleton(x, p);
      assert Filter(Insert(x, s), p) == (if Holds(p, x) then [x] else []) + [];
    } else if Before(s[0], x) {
      InsertStable(x, s[1..], p);
      InsertPassing(x, s, p);
    } else {
      assert Insert(x, s) == [x] + s;
      FilterConcat([x], s, p);
      FilterSingleton(x, p);
    }
  }

  /** Moving past a head that sorts before `x`: a same-key selection cannot hold of both. */
  lemma PassHead(y: Event, x: Event, rest: seq<Event>, t: seq<Event>, p: Selector)
    requires SameKey(p) && Before(y, x)
    requires Filter(rest, p) == (if Holds(p, x) then [x] else []) + Filter(t, p)
    ensures Filter([y] + rest, p) == (if Holds(p, x) then [x] else []) + Filter([y] + t, p)
  {
    FilterConcat([y], rest, p);
    FilterConcat([y], t, p);
    FilterSingleton(y, p);
    if Holds(p, x) && Holds(p, y) {
      SameKeyUnordered(p, y, x);
    }
    var f := Filter(t, p);
    if Holds(p, y) {
      assert [y] + ([] + f) == [] + ([y] + f);
    } else if Holds(p, x) {
      assert [] + ([x] + f) == [x] + ([] + f);
    } else {
      assert [] + ([] + f) == [] + ([] + f);
    }
  }

  /** Inserting past a head that sorts first leaves the head's contribution and the same selection behind it. */
  lemma InsertPassing(x: Event, s: seq<Event>, p: Selector)
    requires SameKey(p) && s != [] && Before(s[0], x)
    requires Filter(Insert(x, s[1..]), p) == (if Holds(p, x) then [x] else []) + Filter(s[1..], p)
    ensures Filter(Insert(x, s), p) == (if Holds(p, x) then [x] else []) + Filter(s, p)
  {
    assert s == [s[0]] + s[1..];
    assert Insert(x, s) == [s[0]] + Insert(x, s[1..]);
    PassHead(s[0], x, Insert(x, s[1..]), s[1..], p);
  }

  /** Sorting keeps, within one sort key, the input order. */
  lemma {:induction false} SortStable(s: seq<Event>, p: Selector)
    requires SameKey(p)
    ensures Filter(SortEvents(s), p) == Filter(s, p)
  {
    if s != [] {
      assert s == [s[0]] + s[1..];
      SortStable(s[1..], p);
      InsertStable(s[0], SortEvents(s[1..]), p);
    }
  }

  /** Rows whose `event_date` is NaT keep their input order through the sort. */
  lemma UndatedInInputOrder(s: seq<Event>)
    ensures Filter(SortEvents(s), Undated) == Filter(s, Undated)
  {
    SortStable(s, Undated);
  }

  /** In a sorted stream nothing after the head sorts before it, so a selection of later-sorting events loses nothing by skipping the head. */
  lemma NoneBefore(s: seq<Event>, q: Selector)
    requires Sorted(s) && s != []
    requires forall e :: Holds(q, e) ==> Before(e, s[0])
    ensures Filter(s[1..], q) == []
  {
    SortedTail(s);
    FilterNone(s[1..], q);
  }

  /** Regrouping a head split in two: `h == ha + hf` moves past `a` when one of `hf` and `a` is empty. */
  lemma Regroup(h: seq<Event>, ha: seq<Event>, hf: seq<Event>, a: seq<Event>, f: seq<Event>)
    requires h == ha + hf
    requires hf == [] || a == []
    ensures h + (a + f) == (ha + a) + (hf + f)
  {
  }

  /** One step of `SplitUpTo`: an event dated `d` heads a stream with nothing earlier behind it. */
  lemma UpToHead(x: Event, t: seq<Event>, d: int)
    requires Filter(t, UpTo(d)) == Filter(t, UpTo(d - 1)) + Filter(t, On(d))
    requires Holds(On(d), x) ==> Filter(t, UpTo(d - 1)) == []
    ensures Filter([x] + t, UpTo(d)) == Filter([x] + t, UpTo(d - 1)) + Filter([x] + t, On(d))
  {
    FilterConcat([x], t, UpTo(d));
    FilterConcat([x], t, UpTo(d - 1));
    FilterConcat([x], t, On(d));
    FilterSingleton(x, UpTo(d));
    FilterSingleton(x, UpTo(d - 1));
    FilterSingleton(x, On(d));
    Regroup(Filter([x], UpTo(d)), Filter([x], UpTo(d - 1)), Filter([x], On(d)),
            Filter(t, UpTo(d - 1)), Filter(t, On(d)));
  }

  /** Days up to `d` are the days up to `d - 1` followed by day `d`. */
  lemma {:induction false} SplitUpTo(s: seq<Event>, d: int)
    requires Sorted(s)
    ensures Filter(s, UpTo(d)) == Filter(s, UpTo(d - 1)) + Filter(s, On(d))
  {
    if s != [] {
      assert s == [s[0]] + s[1..];
      SortedTail(s);
      SplitUpTo(s[1..], d);
      if Holds(On(d), s[0]) {
        NoneBefore(s, UpTo(d - 1));
      }
      UpToHead(s[0], s[1..], d);
    }
  }

  /** One step of `SplitDay`: a flow dated `d` heads a stream with no anchor of that day behind it. */
  lemma DayHead(x: Event, t: seq<Event>, d: int)
    requires Filter(t, On(d)) == Filter(t, AnchorsOn(d)) + Filter(t, FlowsOn(d))
    requires Holds(FlowsOn(d), x) ==> Filter(t, AnchorsOn(d)) == []
    ensures Filter([x] + t, On(d)) == Filter([x] + t, AnchorsOn(d)) + Filter([x] + t, FlowsOn(d))
  {
    FilterConcat([x], t, On(d));
    FilterConcat([x], t, AnchorsOn(d));
    FilterConcat([x], t, FlowsOn(d));
    FilterSingleton(x, On(d));
    FilterSingleton(x, AnchorsOn(d));
    FilterSingleton(x, FlowsOn(d));
    Regroup(Filter([x], On(d)), Filter([x], AnchorsOn(d)), Filter([x], FlowsOn(d)),
            Filter(t, AnchorsOn(d)), Filter(t, FlowsOn(d)));
  }

  /** A day's events are its anchors followed by its flows. */
  lemma {:induction false} SplitDay(s: seq<Event>, d: int)
    requires Sorted(s)
    ensures Filter(s, On(d)) == Filter(s, AnchorsOn(d)) + Filter(s, FlowsOn(d))
  {
    if s != [] {
      assert s == [s[0]] + s[1..];
      SortedTail(s);
      SplitDay(s[1..], d);
      if Holds(FlowsOn(d), s[0]) {
        NoneBefore(s, AnchorsOn(d));
      }
      DayHead(s[0], s[1..], d);
    }
  }
}
