/**
 * The outer part of `generate_final_balance_df` (src/make_asset_timeline.py):
 * the global day range over all settled flows and all balance snapshots, the
 * per-account event streams cut out of the two frames, and the loop over the
 * account registry that puts one flow column and one balance column per
 * account beside the date column.
 */
module Aggregate {
  import opened Wrappers
  import opened Billing
  import opened Events
  import opened Timeline

  /**
   * A row of `data2` (the transfer rows followed by the ledger rows, both
   * already resolved): `type`, `amount` (None when `to_numeric` cannot read
   * it), `withdrawal_date` as a day number (None for NaT) and `withdrawal_account`.
   */
  datatype FlowRow = FlowRow(kind: string, amount: Option<int>, withdrawalDay: Option<int>, withdrawalAccount: string)

  /** A row of `data1`, the balance snapshots: `日付` as a day number, `資産` and `金額`. */
  datatype BalanceRow = BalanceRow(day: int, asset: string, amount: int)

  /** `収支`: the amount (0 when it did not parse) for an income, its negation for anything else. */
  function Delta(r: FlowRow): int {
    if r.kind == Income then r.amount.GetOr(0) else -r.amount.GetOr(0)
  }

  // ----- the global day range -----

  /** `data1['日付'].min()` and `.max()`; None (NaT) for an empty frame. */
  function AnchorSpan(anchors: seq<BalanceRow>): (r: Option<(int, int)>)
    ensures r.Some? <==> anchors != []
    ensures r.Some? ==> r.value.0 <= r.value.1
    ensures r.Some? ==> forall i :: 0 <= i < |anchors| ==> r.value.0 <= anchors[i].day <= r.value.1
    ensures r.Some? ==> (exists a :: a in anchors && a.day == r.value.0)
                        && (exists a :: a in anchors && a.day == r.value.1)
  {
    if anchors == [] then None
    else
      var d := anchors[0].day;
      assert anchors[0] in anchors;
      match AnchorSpan(anchors[1..])
      case None => Some((d, d))
      case Some((l, h)) =>
        assert forall i :: 1 <= i < |anchors| ==> anchors[i] == anchors[1..][i - 1];
        Some((if d < l then d else l, if d > h then d else h))
  }

  /** `data2['withdrawal_date'].min()` and `.max()`, which skip NaT; None (NaT) when no row is dated. */
  function FlowSpan(flows: seq<FlowRow>): (r: Option<(int, int)>)
    ensures r.Some? <==> exists f :: f in flows && f.withdrawalDay.Some?
    ensures r.Some? ==> r.value.0 <= r.value.1
    ensures r.Some? ==> forall i :: 0 <= i < |flows| && flows[i].withdrawalDay.Some? ==>
                          r.value.0 <= flows[i].withdrawalDay.value <= r.value.1
    ensures r.Some? ==> (exists f :: f in flows && f.withdrawalDay == Some(r.value.0))
                        && (exists f :: f in flows && f.withdrawalDay == Some(r.value.1))
  {
    if flows == [] then None
    else
      var rest := FlowSpan(flows[1..]);
      assert flows[0] in flows;
      assert forall i :: 1 <= i < |flows| ==> flows[i] == flows[1..][i - 1];
      match flows[0].withdrawalDay
      case None =>
        assert forall f :: f in flows && f.withdrawalDay.Some? ==> f in flows[1..];
        rest
      case Some(d) =>
        match rest
        case None => Some((d, d))
        case Some((l, h)) => Some((if d < l then d else l, if d > h then d else h))
  }

  /**
   * `min(data1 min, data2 min)` to `max(data1 max, data2 max)`. Python's
   * `min` and `max` keep their first argument unless the second compares
   * strictly smaller (larger), and every comparison with NaT is false, so
   * no dated flow makes the anchors' span the range and no anchor makes the
   * start NaT, on which `pd.date_range` raises.
   */
  function GlobalRange(flows: seq<FlowRow>, anchors: seq<BalanceRow>): (r: Option<(int, int)>)
    ensures r.Some? <==> anchors != []
    ensures r.Some? ==> r.value.0 <= r.value.1
    ensures r.Some? ==> forall i :: 0 <= i < |anchors| ==> r.value.0 <= anchors[i].day <= r.value.1
    ensures r.Some? ==> forall i :: 0 <= i < |flows| && flows[i].withdrawalDay.Some? ==>
                          r.value.0 <= flows[i].withdrawalDay.value <= r.value.1
    ensures r.Some? ==> (exists a :: a in anchors && a.day == r.value.0)
                        || (exists f :: f in flows && f.withdrawalDay == Some(r.value.0))
    ensures r.Some? ==> (exists a :: a in anchors && a.day == r.value.1)
                        || (exists f :: f in flows && f.withdrawalDay == Some(r.value.1))
  {
    match AnchorSpan(anchors)
    case None => None
    case Some((a0, a1)) =>
      match FlowSpan(flows)
      case None => Some((a0, a1))
      case Some((f0, f1)) => Some((if f0 < a0 then f0 else a0, if f1 > a1 then f1 else a1))
  }

  // ----- one account's events -----

  /** `df`: the flows settled on `account`, in row order, as events of delta `収支` on the settlement day. */
  function FlowEvents(flows: seq<FlowRow>, account: string): (r: seq<Event>)
    ensures |r| <= |flows|
    ensures forall e :: e in r ==> e.Flow?
    ensures forall i :: 0 <= i < |flows| && flows[i].withdrawalAccount == account ==>
              Flow(flows[i].withdrawalDay, Delta(flows[i])) in r
    ensures forall e :: e in r ==> exists i :: 0 <= i < |flows| && flows[i].withdrawalAccount == account
                                             && e == Flow(flows[i].withdrawalDay, Delta(flows[i]))
  {
    if flows == [] then []
    else
      var rest := FlowEvents(flows[1..], account);
      assert forall i :: 1 <= i < |flows| ==> flows[i] == flows[1..][i - 1];
      if flows[0].withdrawalAccount == account then [Flow(flows[0].withdrawalDay, Delta(flows[0]))] + rest
      else rest
  }

  /** `balance_df`: the snapshots of `account`, in row order, as anchors. */
  function AnchorEvents(anchors: seq<BalanceRow>, account: string): (r: seq<Event>)
    ensures |r| <= |anchors|
    ensures forall e :: e in r ==> e.Anchor?
    ensures forall i :: 0 <= i < |anchors| && anchors[i].asset == account ==>
              Anchor(anchors[i].day, anchors[i].amount) in r
    ensures forall e :: e in r ==> exists i :: 0 <= i < |anchors| && anchors[i].asset == account
                                             && e == Anchor(anchors[i].day, anchors[i].amount)
  {
    if anchors == [] then []
    else
      var rest := AnchorEvents(anchors[1..], account);
      assert forall i :: 1 <= i < |anchors| ==> anchors[i] == anchors[1..][i - 1];
      if anchors[0].asset == account then [Anchor(anchors[0].day, anchors[0].amount)] + rest
      else rest
  }

  // ----- the event streams against the rows they come from -----

  /** The sum of `収支` over the rows settled on `account` on day `d`, read straight off the frame. */
  function RowTotal(flows: seq<FlowRow>, account: string, d: int): int {
    if flows == [] then 0
    else (if flows[0].withdrawalAccount == account && flows[0].withdrawalDay == Some(d) then Delta(flows[0]) else 0)
         + RowTotal(flows[1..], account, d)
  }

  /** Each day's flow total of an account's events sums its rows settled that day, each row counted once. */
  lemma {:induction false} FlowTotalOfRows(flows: seq<FlowRow>, account: string, d: int)
    ensures FlowTotal(FlowEvents(flows, account), d) == RowTotal(flows, account, d)
  {
    if flows != [] {
      var rest := FlowEvents(flows[1..], account);
      FlowTotalOfRows(flows[1..], account, d);
      if flows[0].withdrawalAccount == account {
        var e := Flow(flows[0].withdrawalDay, Delta(flows[0]));
        assert FlowEvents(flows, account) == [e] + rest;
        FilterConcat([e], rest, FlowsOn(d));
        FilterSingleton(e, FlowsOn(d));
        SumDeltasConcat(Filter([e], FlowsOn(d)), Filter(rest, FlowsOn(d)));
        assert SumDeltas([e]) == Delta(flows[0]) by {
          assert [e][1..] == [];
        }
      }
    }
  }

  /** The balance of the last row (the highest index) of `account` dated `d`, read straight off the frame. */
  function LastSnapshot(anchors: seq<BalanceRow>, account: string, d: int): Option<int>
    decreases |anchors|
  {
    if anchors == [] then None
    else
      var x := anchors[|anchors| - 1];
      if x.asset == account && x.day == d then Some(x.amount)
      else LastSnapshot(anchors[..|anchors| - 1], account, d)
  }

  /** The anchors of a frame are those of all its rows but the last, then the last row's. */
  lemma {:induction false} AnchorEventsSnoc(anchors: seq<BalanceRow>, account: string)
    requires anchors != []
    ensures var x := anchors[|anchors| - 1];
            AnchorEvents(anchors, account)
            == AnchorEvents(anchors[..|anchors| - 1], account)
               + (if x.asset == account then [Anchor(x.day, x.amount)] else [])
    decreases |anchors|
  {
    var x := anchors[|anchors| - 1];
    var tail := if x.asset == account then [Anchor(x.day, x.amount)] else [];
    var p := anchors[..|anchors| - 1];
    if |anchors| == 1 {
      assert p == [] && anchors[1..] == [];
    } else {
      var q := anchors[1..];
      AnchorEventsSnoc(q, account);
      assert q[..|q| - 1] == p[1..] && q[|q| - 1] == x && p[0] == anchors[0];
      var head := if anchors[0].asset == account then [Anchor(anchors[0].day, anchors[0].amount)] else [];
      var mid := AnchorEvents(p[1..], account);
      assert AnchorEvents(q, account) == mid + tail;
      assert AnchorEvents(anchors, account) == head + (mid + tail);
      assert AnchorEvents(p, account) == head + mid;
      assert head + (mid + tail) == (head + mid) + tail;
    }
  }

  /** The last snapshot of a day, as the reconstruction sees it, is that account's last row dated that day. */
  lemma {:induction false} LastAnchorOfRows(anchors: seq<BalanceRow>, account: string, d: int)
    ensures LastAnchorOn(AnchorEvents(anchors, account), d) == LastSnapshot(anchors, account, d)
    decreases |anchors|
  {
    if anchors != [] {
      var p := anchors[..|anchors| - 1];
      var x := anchors[|anchors| - 1];
      var tail := if x.asset == account then [Anchor(x.day, x.amount)] else [];
      AnchorEventsSnoc(anchors, account);
      FilterConcat(AnchorEvents(p, account), tail, AnchorsOn(d));
      LastAnchorOfRows(p, account, d);
      var fp := Filter(AnchorEvents(p, account), AnchorsOn(d));
      if tail != [] {
        assert tail == [Anchor(x.day, x.amount)];
        FilterSingleton(Anchor(x.day, x.amount), AnchorsOn(d));
      }
      if x.asset == account && x.day == d {
        assert Filter(tail, AnchorsOn(d)) == [Anchor(d, x.amount)];
      } else {
        assert Filter(tail, AnchorsOn(d)) == [];
        assert fp + [] == fp;
      }
    }
  }

  /** `all_events` before sorting: the flows, then the anchors. */
  function AccountEvents(flows: seq<FlowRow>, anchors: seq<BalanceRow>, account: string): seq<Event> {
    FlowEvents(flows, account) + AnchorEvents(anchors, account)
  }

  /** Every dated flow event of an account comes from a dated row of that account with the same day. */
  lemma {:induction false} FlowEventsFrom(flows: seq<FlowRow>, account: string, lo: int)
    requires forall i :: 0 <= i < |flows| && flows[i].withdrawalDay.Some? ==> flows[i].withdrawalDay.value >= lo
    ensures AllFrom(FlowEvents(flows, account), lo)
  {
    if flows != [] {
      assert forall i :: 1 <= i < |flows| ==> flows[i] == flows[1..][i - 1];
      FlowEventsFrom(flows[1..], account, lo);
    }
  }

  lemma {:induction false} AnchorEventsFrom(anchors: seq<BalanceRow>, account: string, lo: int)
    requires forall i :: 0 <= i < |anchors| ==> anchors[i].day >= lo
    ensures AllFrom(AnchorEvents(anchors, account), lo)
  {
    if anchors != [] {
      assert forall i :: 1 <= i < |anchors| ==> anchors[i] == anchors[1..][i - 1];
      AnchorEventsFrom(anchors[1..], account, lo);
    }
  }

  /** The global range starts no later than any account's first dated event. */
  lemma AccountEventsFrom(flows: seq<FlowRow>, anchors: seq<BalanceRow>, account: string, lo: int, hi: int)
    requires GlobalRange(flows, anchors) == Some((lo, hi))
    ensures AllFrom(AccountEvents(flows, anchors, account), lo)
  {
    FlowEventsFrom(flows, account, lo);
    AnchorEventsFrom(anchors, account, lo);
  }

  /** Anchors add nothing to a day's flow total. */
  lemma FlowTotalOfFlows(f: seq<Event>, a: seq<Event>, d: int)
    requires forall e :: e in a ==> e.Anchor?
    ensures FlowTotal(f + a, d) == FlowTotal(f, d)
  {
    FilterConcat(f, a, FlowsOn(d));
    FilterNone(a, FlowsOn(d));
    assert Filter(f, FlowsOn(d)) + [] == Filter(f, FlowsOn(d));
  }

  // ----- the final frame -----

  /** The two columns `{account}_収支` and `{account}_残高`. */
  datatype Column = Column(account: string, flow: seq<int>, balance: seq<Option<int>>)

  /** `final_df`: the `date` column (every day from `first` to `last`) and the account columns in registry order. */
  datatype Table = Table(first: int, last: int, columns: seq<Column>)

  /** `c` holds, for each of the `n` days from `lo`, the day's flow total and the reconstructed balance of `events`. */
  ghost predicate IsReferenceColumn(c: Column, account: string, events: seq<Event>, lo: int, n: nat) {
    c.account == account && |c.flow| == n && |c.balance| == n
    && (forall k :: 0 <= k < n ==> c.flow[k] == FlowTotal(events, lo + k))
    && (forall k :: 0 <= k < n ==> c.balance[k] == BalanceOn(events, lo, lo + k))
  }

  /** The two columns of `account` over the `n` days from `lo`. */
  function ColumnFor(account: string, flows: seq<FlowRow>, anchors: seq<BalanceRow>, lo: int, n: nat): Column {
    Column(account, FlowColumn(FlowEvents(flows, account), lo, n),
           BalanceColumn(AccountEvents(flows, anchors, account), lo, n))
  }

  /** The body of the account loop: one account's events, their running balances and the two columns. */
  method AccountTimeline(account: string, flows: seq<FlowRow>, anchors: seq<BalanceRow>, lo: int, n: nat)
    returns (c: Column)
    ensures c == ColumnFor(account, flows, anchors, lo, n)
  {
    var df := FlowEvents(flows, account);
    var events := df + AnchorEvents(anchors, account);
    var recs := RunningBalances(SortEvents(events));
    var balance := ForwardFill(UpdateSeries(lo, n, LastPerDay(recs)));
    var flow := UpdateFlows(lo, n, DailyFlowTotals(df));
    c := Column(account, flow, balance);
  }

  /** When no event of the account lies before `lo`, its columns are its reference columns. */
  lemma ColumnForIsReference(account: string, flows: seq<FlowRow>, anchors: seq<BalanceRow>, lo: int, n: nat)
    requires AllFrom(AccountEvents(flows, anchors, account), lo)
    ensures IsReferenceColumn(ColumnFor(account, flows, anchors, lo, n), account,
                              AccountEvents(flows, anchors, account), lo, n)
  {
    ColumnsOfAccount(ColumnFor(account, flows, anchors, lo, n), account,
                     FlowEvents(flows, account), AnchorEvents(anchors, account), lo, n);
  }

  /** The two columns built from an account's flows `f` and anchors `a` are the reference columns of its events. */
  lemma ColumnsOfAccount(c: Column, account: string, f: seq<Event>, a: seq<Event>, lo: int, n: nat)
    requires forall e :: e in a ==> e.Anchor?
    requires c == Column(account, FlowColumn(f, lo, n), BalanceColumn(f + a, lo, n))
    requires AllFrom(f + a, lo)
    ensures IsReferenceColumn(c, account, f + a, lo, n)
  {
    FlowPart(f, a, lo, n, c.flow);
    BalancePart(f + a, lo, n, c.balance);
  }

  /** The flow column of an account's flows is the flow total of each day of its events. */
  lemma FlowPart(f: seq<Event>, a: seq<Event>, lo: int, n: nat, flow: seq<int>)
    requires forall e :: e in a ==> e.Anchor?
    requires flow == FlowColumn(f, lo, n)
    ensures |flow| == n
    ensures forall k :: 0 <= k < n ==> flow[k] == FlowTotal(f + a, lo + k)
  {
    FlowColumnIsReference(f, lo, n);
    forall k | 0 <= k < n ensures flow[k] == FlowTotal(f + a, lo + k) {
      FlowTotalOfFlows(f, a, lo + k);
    }
  }

  /** The balance column of an account's events is the reference balance of each day. */
  lemma BalancePart(events: seq<Event>, lo: int, n: nat, balance: seq<Option<int>>)
    requires AllFrom(events, lo)
    requires balance == BalanceColumn(events, lo, n)
    ensures |balance| == n
    ensures forall k :: 0 <= k < n ==> balance[k] == BalanceOn(events, lo, lo + k)
  {
    BalanceColumnIsReference(events, lo, n);
    forall k | 0 <= k < n ensures balance[k] == BalanceOn(events, lo, lo + k) {
      assert ReferenceColumn(events, lo, n)[k] == BalanceOn(events, lo, lo + k);
    }
  }

  /** The columns of the accounts `accs`, in order. */
  function Columns(accs: seq<string>, flows: seq<FlowRow>, anchors: seq<BalanceRow>, lo: int, n: nat): (r: seq<Column>)
    ensures |r| == |accs|
    decreases |accs|
  {
    if accs == [] then []
    else Columns(accs[..|accs| - 1], flows, anchors, lo, n) + [ColumnFor(accs[|accs| - 1], flows, anchors, lo, n)]
  }

  lemma {:induction false} ColumnsAt(accs: seq<string>, flows: seq<FlowRow>, anchors: seq<BalanceRow>, lo: int, n: nat, j: int)
    requires 0 <= j < |accs|
    ensures Columns(accs, flows, anchors, lo, n)[j] == ColumnFor(accs[j], flows, anchors, lo, n)
    decreases |accs|
  {
    if j < |accs| - 1 {
      ColumnsAt(accs[..|accs| - 1], flows, anchors, lo, n, j);
    }
  }

  /** One column of the loop's result is the reference column of its account. */
  lemma ColumnIsReferenceAt(accounts: seq<string>, flows: seq<FlowRow>, anchors: seq<BalanceRow>,
                            lo: int, hi: int, n: nat, cols: seq<Column>, j: int)
    requires GlobalRange(flows, anchors) == Some((lo, hi)) && n == hi - lo + 1 && 0 <= j < |accounts|
    requires cols == Columns(accounts, flows, anchors, lo, n)
    ensures IsReferenceColumn(cols[j], accounts[j], AccountEvents(flows, anchors, accounts[j]), lo, n)
  {
    ColumnsAt(accounts, flows, anchors, lo, n, j);
    AccountEventsFrom(flows, anchors, accounts[j], lo, hi);
    ColumnForIsReference(accounts[j], flows, anchors, lo, n);
  }

  /** `final_df`: the date column spans the global range and the account columns are those of the registry, in order. */
  ghost predicate IsFinalTable(t: Table, accounts: seq<string>, flows: seq<FlowRow>, anchors: seq<BalanceRow>) {
    t.first <= t.last
    && GlobalRange(flows, anchors) == Some((t.first, t.last))
    && t.columns == Columns(accounts, flows, anchors, t.first, t.last - t.first + 1)
  }

  /**
   * Every column of the final table is the reference column of its account:
   * each day's flow total, and the balance reconstructed from the account's
   * anchors and flows, empty before its first event.
   */
  lemma FinalTableIsReference(t: Table, accounts: seq<string>, flows: seq<FlowRow>, anchors: seq<BalanceRow>, i: int)
    requires IsFinalTable(t, accounts, flows, anchors) && 0 <= i < |accounts|
    ensures |t.columns| == |accounts|
    ensures IsReferenceColumn(t.columns[i], accounts[i], AccountEvents(flows, anchors, accounts[i]),
                              t.first, t.last - t.first + 1)
  {
    ColumnIsReferenceAt(accounts, flows, anchors, t.first, t.last, t.last - t.first + 1, t.columns, i);
  }

  /** `for account in accounts.keys()`: the two columns of each registry account, merged in registry order. */
  method AccountColumns(accounts: seq<string>, flows: seq<FlowRow>, anchors: seq<BalanceRow>, lo: int, n: nat)
    returns (cols: seq<Column>)
    ensures cols == Columns(accounts, flows, anchors, lo, n)
  {
    cols := [];
    for i := 0 to |accounts|
      invariant cols == Columns(accounts[..i], flows, anchors, lo, n)
    {
      var c := AccountTimeline(accounts[i], flows, anchors, lo, n);
      assert accounts[..i + 1][..i] == accounts[..i];
      cols := cols + [c];
    }
    assert accounts[..|accounts|] == accounts;
  }

  /**
   * `generate_final_balance_df` after the files are read: None where the
   * range cannot be built (no snapshot at all), otherwise the final table.
   */
  method GenerateFinalBalance(accounts: seq<string>, flows: seq<FlowRow>, anchors: seq<BalanceRow>)
    returns (r: Option<Table>)
    ensures r.Some? <==> anchors != []
    ensures r.Some? ==> IsFinalTable(r.value, accounts, flows, anchors)
  {
    var range := GlobalRange(flows, anchors);
    if range.None? {
      return None;
    }
    var lo, hi := range.value.0, range.value.1;
    var cols := AccountColumns(accounts, flows, anchors, lo, hi - lo + 1);
    r := Some(Table(lo, hi, cols));
  }

  // ----- an account of the registry without events -----

  /**
   * Lines 71-72 as written: `pd.DataFrame([], columns=[...])` has an
   * object-typed `datetime` column, and `.dt.normalize()` on it raises, so
   * the day grouping yields nothing for an empty record list.
   */
  function DayGroupsAsWritten(recs: seq<(Option<int>, int)>): Option<map<int, int>> {
    if recs == [] then None else Some(LastPerDay(recs))
  }

  /** In the code as written, the day grouping of an account raises exactly when the account has no flow and no snapshot. */
  lemma EmptyAccountAsWritten(flows: seq<FlowRow>, anchors: seq<BalanceRow>, account: string)
    ensures DayGroupsAsWritten(Records(SortEvents(AccountEvents(flows, anchors, account)))).None?
            <==> AccountEvents(flows, anchors, account) == []
  {
    var events := AccountEvents(flows, anchors, account);
    var sorted := SortEvents(events);
    assert |sorted| == |multiset(sorted)| == |multiset(events)| == |events|;
    assert |Records(sorted)| == |sorted|;
  }

  /**
   * `generate_final_balance_df` as written raises: `pd.date_range` on NaT,
   * or the day grouping of some registry account.
   */
  ghost predicate RaisesAsWritten(accounts: seq<string>, flows: seq<FlowRow>, anchors: seq<BalanceRow>) {
    GlobalRange(flows, anchors).None?
    || exists i :: 0 <= i < |accounts|
                   && DayGroupsAsWritten(Records(SortEvents(AccountEvents(flows, anchors, accounts[i])))).None?
  }

  /** The frame as written raises exactly when there is no snapshot or some registry account has no event at all. */
  lemma RaisesAsWrittenExactly(accounts: seq<string>, flows: seq<FlowRow>, anchors: seq<BalanceRow>)
    ensures RaisesAsWritten(accounts, flows, anchors)
            <==> anchors == [] || exists i :: 0 <= i < |accounts| && AccountEvents(flows, anchors, accounts[i]) == []
  {
    forall i | 0 <= i < |accounts|
      ensures DayGroupsAsWritten(Records(SortEvents(AccountEvents(flows, anchors, accounts[i])))).None?
              <==> AccountEvents(flows, anchors, accounts[i]) == []
    {
      EmptyAccountAsWritten(flows, anchors, accounts[i]);
    }
  }

  /** A concrete frame: snapshots of "Bank" only, and "Cash" in the registry. */
  lemma EmptyAccountExample()
    ensures AccountEvents([], [BalanceRow(1, "Bank", 0)], "Cash") == []
    ensures GlobalRange([], [BalanceRow(1, "Bank", 0)]) == Some((1, 1))
    ensures DayGroupsAsWritten(Records(SortEvents(AccountEvents([], [BalanceRow(1, "Bank", 0)], "Cash")))) == None
  {
    assert AnchorEvents([BalanceRow(1, "Bank", 0)][1..], "Cash") == [];
  }

  /** With the grouping of an empty list taken as empty, such an account gets flow 0 and no balance on every day. */
  lemma EmptyAccountTimeline(flows: seq<FlowRow>, anchors: seq<BalanceRow>, account: string, lo: int, n: nat)
    requires AccountEvents(flows, anchors, account) == []
    ensures |BalanceColumn(AccountEvents(flows, anchors, account), lo, n)| == n
    ensures forall k :: 0 <= k < n ==> BalanceColumn(AccountEvents(flows, anchors, account), lo, n)[k] == None
    ensures forall k :: 0 <= k < n ==> FlowColumn(FlowEvents(flows, account), lo, n)[k] == 0
  {
    var events: seq<Event> := [];
    assert FlowEvents(flows, account) == [] by {
      assert |AccountEvents(flows, anchors, account)| == |FlowEvents(flows, account)| + |AnchorEvents(anchors, account)|;
    }
    BalanceColumnIsReference(events, lo, n);
    FlowColumnIsReference(events, lo, n);
    forall k | 0 <= k < n ensures BalanceColumn(events, lo, n)[k] == None {
      assert ReferenceColumn(events, lo, n)[k] == BalanceOn(events, lo, lo + k);
      assert Filter(events, UpTo(lo + k)) == [];
    }
    forall k | 0 <= k < n ensures FlowColumn(events, lo, n)[k] == 0 {
      assert Filter(events, FlowsOn(lo + k)) == [];
    }
  }

  // ----- the two-account scenario -----

  /** The global range of the scenario frame is days 1 to 5. */
  lemma CashRange()
    ensures GlobalRange([FlowRow(Expense, Some(200), Some(3), "Cash")],
                        [BalanceRow(1, "Cash", 1000), BalanceRow(5, "Bank", 0)]) == Some((1, 5))
  {
    var flows := [FlowRow(Expense, Some(200), Some(3), "Cash")];
    var anchors := [BalanceRow(1, "Cash", 1000), BalanceRow(5, "Bank", 0)];
    assert FlowSpan(flows) == Some((3, 3)) by {
      assert flows[1..] == [];
    }
    assert AnchorSpan(anchors) == Some((1, 5)) by {
      assert anchors[1..][1..] == [];
      assert AnchorSpan(anchors[1..]) == Some((5, 5));
    }
  }

  /** The events of "Cash" in the scenario frame, and their sorted order. */
  lemma CashEvents()
    ensures AccountEvents([FlowRow(Expense, Some(200), Some(3), "Cash")],
                          [BalanceRow(1, "Cash", 1000), BalanceRow(5, "Bank", 0)], "Cash")
            == [Flow(Some(3), -200), Anchor(1, 1000)]
    ensures SortEvents([Flow(Some(3), -200), Anchor(1, 1000)]) == [Anchor(1, 1000), Flow(Some(3), -200)]
  {
    var flows := [FlowRow(Expense, Some(200), Some(3), "Cash")];
    var anchors := [BalanceRow(1, "Cash", 1000), BalanceRow(5, "Bank", 0)];
    assert flows[1..] == [];
    assert anchors[1..][1..] == [];
    assert AnchorEvents(anchors[1..], "Cash") == [];
    var events := [Flow(Some(3), -200), Anchor(1, 1000)];
    assert events[1..] == [Anchor(1, 1000)];
    assert SortEvents(events[1..]) == [Anchor(1, 1000)] by {
      assert events[1..][1..] == [];
    }
    assert [Anchor(1, 1000)][1..] == [];
  }

  /** Anchor 1000 on day 1 and a flow of -200 on day 3, over days 1 to 5. */
  lemma CashColumn()
    ensures ForwardFill(UpdateSeries(1, 5, LastPerDay(Records([Anchor(1, 1000), Flow(Some(3), -200)]))))
            == [Some(1000), Some(1000), Some(800), Some(800), Some(800)]
  {
    var sorted := [Anchor(1, 1000), Flow(Some(3), -200)];
    var recs: seq<(Option<int>, int)> := [(Some(1), 1000), (Some(3), 800)];
    assert Records(sorted) == recs by {
      assert sorted[..1] == [Anchor(1, 1000)];
      assert sorted[..1][..0] == [];
      assert Fold(0, sorted[..1]) == 1000;
      assert Fold(0, sorted) == 800;
    }
    assert LastPerDay(recs) == map[1 := 1000, 3 := 800] by {
      assert recs[..1] == [(Some(1), 1000)];
      assert recs[..1][..0] == [];
    }
    var u := UpdateSeries(1, 5, map[1 := 1000, 3 := 800]);
    assert u == [Some(1000), None, Some(800), None, None];
    ForwardFillAt(u, 0);
    ForwardFillAt(u, 1);
    ForwardFillAt(u, 2);
    ForwardFillAt(u, 3);
    ForwardFillAt(u, 4);
  }

  /** The scenario end to end: range days 1 to 5, and "Cash" reads 1000, 1000, 800, 800, 800. */
  lemma CashScenario()
    ensures var flows := [FlowRow(Expense, Some(200), Some(3), "Cash")];
            var anchors := [BalanceRow(1, "Cash", 1000), BalanceRow(5, "Bank", 0)];
            GlobalRange(flows, anchors) == Some((1, 5))
            && BalanceColumn(AccountEvents(flows, anchors, "Cash"), 1, 5)
               == [Some(1000), Some(1000), Some(800), Some(800), Some(800)]
  {
    CashRange();
    CashEvents();
    CashColumn();
  }
}
