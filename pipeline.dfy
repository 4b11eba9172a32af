/**
 * The hand-off between the stages: the resolved transfer rows, written to
 * CSV and read back by `generate_final_balance_df`, become flow rows of the
 * timeline, settled on their withdrawal account and day.
 */
module Pipeline {
  import opened Wrappers
  import opened Calendar
  import opened Billing
  import opened Transfer
  import opened Aggregate

  /** A resolved row as the timeline reads it back: `type`, `amount`, `withdrawal_date` as its ordinal, `withdrawal_account`. */
  function FlowRowOf(r: ResolvedRecord): FlowRow
    requires Valid(r.withdrawalDate)
  {
    FlowRow(r.record.kind, r.record.amount, Some(ToOrdinal(r.withdrawalDate)), r.withdrawalAccount)
  }

  /** The resolved outflow and inflow of transfer `i`, with the rows they came from. */
  lemma ResolvedPair(ts: seq<TransferRow>, settings: CardSettings, i: int)
    requires AllTransfersDated(ts) && 0 <= i < |ts|
    requires ProcessTransfers(ts, settings).Success?
    ensures var rs := ProcessTransfers(ts, settings).value;
            var rows := TransformTransferData(ts);
            |rs| == 2 * |ts|
            && rs[2 * i].record == rows[2 * i] && rs[2 * i + 1].record == rows[2 * i + 1]
            && (rs[2 * i].withdrawalDate, rs[2 * i].withdrawalAccount)
               == CalculateWithdrawalInfo(ts[i].fromAccount, ts[i].date, settings).value
            && (rs[2 * i + 1].withdrawalDate, rs[2 * i + 1].withdrawalAccount)
               == CalculateWithdrawalInfo(ts[i].toAccount, ts[i].date, settings).value
  {
    ExpandedDated(ts);
    var rows := TransformTransferData(ts);
    assert ProcessTransfers(ts, settings) == AddCreditWithdrawalInfo(rows, settings);
    var rs := ProcessTransfers(ts, settings).value;
    assert rs[2 * i] == ResolveRecord(rows[2 * i], settings).value;
    assert rs[2 * i + 1] == ResolveRecord(rows[2 * i + 1], settings).value;
  }

  /** A resolved row read back as a flow row: settled where the resolver says, with the signed amount of its kind. */
  lemma SettledFlow(r: ResolvedRecord, account: string, tx: Date, settings: CardSettings)
    requires Valid(tx) && CalculateWithdrawalInfo(account, tx, settings).Success?
    requires (r.withdrawalDate, r.withdrawalAccount) == CalculateWithdrawalInfo(account, tx, settings).value
    ensures Valid(r.withdrawalDate)
    ensures FlowRowOf(r).withdrawalAccount == CalculateWithdrawalInfo(account, tx, settings).value.1
    ensures Delta(FlowRowOf(r)) == if r.record.kind == Income then r.record.amount.GetOr(0) else -r.record.amount.GetOr(0)
  {
  }

  /**
   * Transfer symmetry on the timeline: the two flow rows of a transfer carry
   * opposite deltas (the amount, 0 when it did not parse), the outflow on the
   * source's settlement account and the inflow on the destination's.
   */
  lemma TransferFlowsCancel(ts: seq<TransferRow>, settings: CardSettings, i: int)
    requires AllTransfersDated(ts) && 0 <= i < |ts|
    requires ProcessTransfers(ts, settings).Success?
    ensures var rs := ProcessTransfers(ts, settings).value;
            |rs| == 2 * |ts| && Valid(rs[2 * i].withdrawalDate) && Valid(rs[2 * i + 1].withdrawalDate)
            && Delta(FlowRowOf(rs[2 * i])) == -ts[i].amount.GetOr(0)
            && Delta(FlowRowOf(rs[2 * i + 1])) == ts[i].amount.GetOr(0)
            && FlowRowOf(rs[2 * i]).withdrawalAccount
               == CalculateWithdrawalInfo(ts[i].fromAccount, ts[i].date, settings).value.1
            && FlowRowOf(rs[2 * i + 1]).withdrawalAccount
               == CalculateWithdrawalInfo(ts[i].toAccount, ts[i].date, settings).value.1
  {
    var rs := ProcessTransfers(ts, settings).value;
    ResolvedPair(ts, settings, i);
    ExpandedPair(ts, i);
    assert CalculateWithdrawalInfo(ts[i].fromAccount, ts[i].date, settings).Success?;
    assert CalculateWithdrawalInfo(ts[i].toAccount, ts[i].date, settings).Success?;
    SettledFlow(rs[2 * i], ts[i].fromAccount, ts[i].date, settings);
    SettledFlow(rs[2 * i + 1], ts[i].toAccount, ts[i].date, settings);
  }

  /** Between two accounts without card settings, both halves settle on the transfer's own day and accounts. */
  lemma PlainTransferSameDay(ts: seq<TransferRow>, settings: CardSettings, i: int)
    requires AllTransfersDated(ts) && 0 <= i < |ts|
    requires ts[i].fromAccount !in settings && ts[i].toAccount !in settings
    requires ProcessTransfers(ts, settings).Success?
    ensures var rs := ProcessTransfers(ts, settings).value;
            |rs| == 2 * |ts| && Valid(rs[2 * i].withdrawalDate) && Valid(rs[2 * i + 1].withdrawalDate)
            && FlowRowOf(rs[2 * i]).withdrawalDay == FlowRowOf(rs[2 * i + 1]).withdrawalDay
               == Some(ToOrdinal(ts[i].date))
            && FlowRowOf(rs[2 * i]).withdrawalAccount == ts[i].fromAccount
            && FlowRowOf(rs[2 * i + 1]).withdrawalAccount == ts[i].toAccount
  {
    ResolvedPair(ts, settings, i);
  }
}
