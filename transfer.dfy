/**
 * The transfer expander `transform_transfer_data` of src/transfer.py: every
 * transfer between two accounts becomes an expense on the source account and
 * an income on the destination account, which then go through the billing
 * resolver like any other ledger row.
 */
module Transfer {
  import opened Wrappers
  import opened Calendar
  import opened Billing

  const TransferLabel: string := "振替"

  /** One row of the transfer CSV: 日付, 金額, 出金, 入金 and メモ (None for an empty cell, read by pandas as NaN). */
  datatype TransferRow = TransferRow(date: Date, amount: Option<int>, fromAccount: string, toAccount: string, memo: Option<string>)

  /** How an f-string prints the memo cell: an empty cell is the float NaN and prints as "nan". */
  function MemoText(memo: Option<string>): string {
    match memo
    case Some(s) => s
    case None => "nan"
  }

  /** `f'振替: {to_account}へ。{memo}'`. */
  function OutflowMemo(t: TransferRow): string {
    "振替: " + t.toAccount + "へ。" + MemoText(t.memo)
  }

  /** `f'振替: {from_account}から。{memo}'`. */
  function InflowMemo(t: TransferRow): string {
    "振替: " + t.fromAccount + "から。" + MemoText(t.memo)
  }

  /** A ledger row of category and payment method 振替, with empty subcategory, place and tag. */
  predicate IsTransferRecord(r: Record, t: TransferRow) {
    r.date == t.date && r.amount == t.amount
    && r.category == TransferLabel && r.paymentMethod == TransferLabel
    && r.subcategory == "" && r.place == "" && r.tag == ""
  }

  /** `transform_row`: the outflow record, then the inflow record. */
  function TransformRow(t: TransferRow): (r: seq<Record>)
    ensures |r| == 2
    ensures IsTransferRecord(r[0], t) && r[0].kind == Expense && r[0].account == t.fromAccount
    ensures IsTransferRecord(r[1], t) && r[1].kind == Income && r[1].account == t.toAccount
    ensures r[0].memo == OutflowMemo(t) && r[1].memo == InflowMemo(t)
  {
    [ Record(t.date, Expense, TransferLabel, "", t.amount, "", OutflowMemo(t), TransferLabel, t.fromAccount, ""),
      Record(t.date, Income, TransferLabel, "", t.amount, "", InflowMemo(t), TransferLabel, t.toAccount, "") ]
  }

  /** `transform_transfer_data`: apply `transform_row` to every transfer and flatten the pairs in order. */
  function TransformTransferData(ts: seq<TransferRow>): (r: seq<Record>)
    ensures |r| == 2 * |ts|
    ensures forall i :: 0 <= i < |ts| ==> r[2 * i..2 * i + 2] == TransformRow(ts[i])
  {
    if ts == [] then []
    else
      var rest := TransformTransferData(ts[1..]);
      assert forall i :: 1 <= i < |ts| ==> ts[i] == ts[1..][i - 1];
      TransformRow(ts[0]) + rest
  }

  /** Each transfer contributes one expense and one income of the same amount, on its two accounts. */
  lemma {:induction false} ExpandedPair(ts: seq<TransferRow>, i: int)
    requires 0 <= i < |ts|
    ensures var r := TransformTransferData(ts);
            r[2 * i].kind == Expense && r[2 * i].account == ts[i].fromAccount
            && r[2 * i + 1].kind == Income && r[2 * i + 1].account == ts[i].toAccount
            && r[2 * i].amount == r[2 * i + 1].amount == ts[i].amount
            && r[2 * i].date == r[2 * i + 1].date == ts[i].date
  {
    var r := TransformTransferData(ts);
    assert r[2 * i..2 * i + 2] == TransformRow(ts[i]);
    assert r[2 * i] == r[2 * i..2 * i + 2][0] && r[2 * i + 1] == r[2 * i..2 * i + 2][1];
  }

  predicate AllTransfersDated(ts: seq<TransferRow>) {
    forall i :: 0 <= i < |ts| ==> Valid(ts[i].date)
  }

  /**
   * `process_transfer_csv` without the file handling: expand the transfers, then
   * resolve every expanded row. The outflow settles as a charge on the source
   * account would, the inflow as a deposit on the destination would.
   */
  function ProcessTransfers(ts: seq<TransferRow>, settings: CardSettings): (r: Result<seq<ResolvedRecord>, Error>)
    requires AllTransfersDated(ts)
    ensures ts == [] ==> r == Failure(EmptyFrame)
    ensures r.Success? <==>
              ts != [] && forall i :: 0 <= i < |ts| ==>
                CalculateWithdrawalInfo(ts[i].fromAccount, ts[i].date, settings).Success?
                && CalculateWithdrawalInfo(ts[i].toAccount, ts[i].date, settings).Success?
    ensures r.Success? ==>
              |r.value| == 2 * |ts|
              && forall i :: 0 <= i < |ts| ==>
                   (r.value[2 * i].withdrawalDate, r.value[2 * i].withdrawalAccount)
                   == CalculateWithdrawalInfo(ts[i].fromAccount, ts[i].date, settings).value
                   && (r.value[2 * i + 1].withdrawalDate, r.value[2 * i + 1].withdrawalAccount)
                      == CalculateWithdrawalInfo(ts[i].toAccount, ts[i].date, settings).value
  {
    ProcessTransfersFacts(ts, settings);
    AddCreditWithdrawalInfo(TransformTransferData(ts), settings)
  }

  lemma ExpandedDated(ts: seq<TransferRow>)
    requires AllTransfersDated(ts)
    ensures AllDated(TransformTransferData(ts))
  {
    var rows := TransformTransferData(ts);
    forall k | 0 <= k < |rows| ensures Valid(rows[k].date) {
      ExpandedPair(ts, k / 2);
    }
  }

  lemma PairResolution(ts: seq<TransferRow>, settings: CardSettings, i: int)
    requires AllTransfersDated(ts) && 0 <= i < |ts|
    ensures AllDated(TransformTransferData(ts))
    ensures var rows := TransformTransferData(ts);
            var out := ResolveRecord(rows[2 * i], settings);
            var inn := ResolveRecord(rows[2 * i + 1], settings);
            (out.Success? <==> CalculateWithdrawalInfo(ts[i].fromAccount, ts[i].date, settings).Success?)
            && (inn.Success? <==> CalculateWithdrawalInfo(ts[i].toAccount, ts[i].date, settings).Success?)
            && (out.Success? ==> (out.value.withdrawalDate, out.value.withdrawalAccount)
                                 == CalculateWithdrawalInfo(ts[i].fromAccount, ts[i].date, settings).value)
            && (inn.Success? ==> (inn.value.withdrawalDate, inn.value.withdrawalAccount)
                                 == CalculateWithdrawalInfo(ts[i].toAccount, ts[i].date, settings).value)
  {
    ExpandedDated(ts);
    ExpandedPair(ts, i);
  }

  /** Both halves of every transfer resolve exactly when the expanded frame does. */
  lemma ProcessTransfersSucceeds(ts: seq<TransferRow>, settings: CardSettings)
    requires AllTransfersDated(ts)
    ensures AllDated(TransformTransferData(ts))
    ensures AddCreditWithdrawalInfo(TransformTransferData(ts), settings).Success? <==>
              ts != [] && forall i :: 0 <= i < |ts| ==>
                CalculateWithdrawalInfo(ts[i].fromAccount, ts[i].date, settings).Success?
                && CalculateWithdrawalInfo(ts[i].toAccount, ts[i].date, settings).Success?
  {
    ExpandedDated(ts);
    if AddCreditWithdrawalInfo(TransformTransferData(ts), settings).Success? {
      PairsFromRows(ts, settings);
    }
    if ts != [] && forall i :: 0 <= i < |ts| ==>
         CalculateWithdrawalInfo(ts[i].fromAccount, ts[i].date, settings).Success?
         && CalculateWithdrawalInfo(ts[i].toAccount, ts[i].date, settings).Success?
    {
      RowsFromPairs(ts, settings);
    }
  }

  /** When every expanded row resolves, both accounts of every transfer do. */
  lemma PairsFromRows(ts: seq<TransferRow>, settings: CardSettings)
    requires AllTransfersDated(ts) && AllDated(TransformTransferData(ts))
    requires forall k :: 0 <= k < |TransformTransferData(ts)| ==>
               ResolveRecord(TransformTransferData(ts)[k], settings).Success?
    ensures forall i :: 0 <= i < |ts| ==>
              CalculateWithdrawalInfo(ts[i].fromAccount, ts[i].date, settings).Success?
              && CalculateWithdrawalInfo(ts[i].toAccount, ts[i].date, settings).Success?
  {
    var rows := TransformTransferData(ts);
    forall i | 0 <= i < |ts|
      ensures CalculateWithdrawalInfo(ts[i].fromAccount, ts[i].date, settings).Success?
      ensures CalculateWithdrawalInfo(ts[i].toAccount, ts[i].date, settings).Success?
    {
      PairResolution(ts, settings, i);
      assert ResolveRecord(rows[2 * i], settings).Success?;
      assert ResolveRecord(rows[2 * i + 1], settings).Success?;
    }
  }

  /** When both accounts of every transfer resolve, every expanded row does. */
  lemma RowsFromPairs(ts: seq<TransferRow>, settings: CardSettings)
    requires AllTransfersDated(ts)
    requires forall i :: 0 <= i < |ts| ==>
               CalculateWithdrawalInfo(ts[i].fromAccount, ts[i].date, settings).Success?
               && CalculateWithdrawalInfo(ts[i].toAccount, ts[i].date, settings).Success?
    ensures AllDated(TransformTransferData(ts))
    ensures forall k :: 0 <= k < |TransformTransferData(ts)| ==>
              ResolveRecord(TransformTransferData(ts)[k], settings).Success?
  {
    ExpandedDated(ts);
    var rows := TransformTransferData(ts);
    forall k | 0 <= k < |rows| ensures ResolveRecord(rows[k], settings).Success? {
      var i := k / 2;
      assert k == 2 * i || k == 2 * i + 1;
      PairResolution(ts, settings, i);
    }
  }

  lemma ProcessTransfersFacts(ts: seq<TransferRow>, settings: CardSettings)
    requires AllTransfersDated(ts)
    ensures AllDated(TransformTransferData(ts))
    ensures var r := AddCreditWithdrawalInfo(TransformTransferData(ts), settings);
            (ts == [] ==> r == Failure(EmptyFrame))
            && (r.Success? <==>
              ts != [] && forall i :: 0 <= i < |ts| ==>
                CalculateWithdrawalInfo(ts[i].fromAccount, ts[i].date, settings).Success?
                && CalculateWithdrawalInfo(ts[i].toAccount, ts[i].date, settings).Success?)
            && (r.Success? ==>
              |r.value| == 2 * |ts|
              && forall i :: 0 <= i < |ts| ==>
                   (r.value[2 * i].withdrawalDate, r.value[2 * i].withdrawalAccount)
                   == CalculateWithdrawalInfo(ts[i].fromAccount, ts[i].date, settings).value
                   && (r.value[2 * i + 1].withdrawalDate, r.value[2 * i + 1].withdrawalAccount)
                      == CalculateWithdrawalInfo(ts[i].toAccount, ts[i].date, settings).value)
  {
    ProcessTransfersSucceeds(ts, settings);
    var rows := TransformTransferData(ts);
    var r := AddCreditWithdrawalInfo(rows, settings);
    if r.Success? {
      forall i | 0 <= i < |ts|
        ensures (r.value[2 * i].withdrawalDate, r.value[2 * i].withdrawalAccount)
                == CalculateWithdrawalInfo(ts[i].fromAccount, ts[i].date, settings).value
        ensures (r.value[2 * i + 1].withdrawalDate, r.value[2 * i + 1].withdrawalAccount)
                == CalculateWithdrawalInfo(ts[i].toAccount, ts[i].date, settings).value
      {
        PairResolution(ts, settings, i);
        assert r.value[2 * i] == ResolveRecord(rows[2 * i], settings).value;
        assert r.value[2 * i + 1] == ResolveRecord(rows[2 * i + 1], settings).value;
      }
    }
  }
}
