/**
 * The billing-cycle resolver `add_credit_withdrawal_info` (with its inner
 * `get_next_weekday` and `calculate_withdrawal_info`). The repository carries
 * it twice, in src/insert_csv2db.py and src/add_card_info.py, with the same
 * body; this module is the one model of both.
 */
module Billing {
  import opened Wrappers
  import opened Calendar

  /** `closing_day` value meaning "the last day of the month". */
  const EndOfMonth: int := -1

  /** One entry of `card_settings`. */
  datatype CardConfig = CardConfig(
    closingDay: int,
    paymentOffsetMonths: int,
    paymentDay: int,
    withdrawalAccount: string)

  /** `card_settings`: card account name to its billing rules. */
  type CardSettings = map<string, CardConfig>

  /**
   * The two ways the resolver raises: `datetime.date(...)` raised `ValueError`
   * (the computed year, month and day are not a date), or the frame has no
   * rows, where `df.apply` returns a copy of the frame's own columns and the
   * assignment to the two new columns raises `ValueError` for the mismatch.
   */
  datatype Error = InvalidDate | EmptyFrame

  /** The two values of the ledger's `type` column. */
  const Income: string := "収入"
  const Expense: string := "支出"

  /** One row of the household-ledger frame (the columns of the CSV after renaming). */
  datatype Record = Record(
    date: Date,
    kind: string,
    category: string,
    subcategory: string,
    amount: Option<int>,
    place: string,
    memo: string,
    paymentMethod: string,
    account: string,
    tag: string)

  /** A row after the two columns `withdrawal_date` and `withdrawal_account` were added. */
  datatype ResolvedRecord = ResolvedRecord(record: Record, withdrawalDate: Date, withdrawalAccount: string)

  /** How many days the weekend roll-forward adds: two from Saturday, one from Sunday. */
  function RollDays(d: Date): int
    requires Valid(d)
  {
    if Weekday(d) == 5 then 2 else if Weekday(d) == 6 then 1 else 0
  }

  /**
   * `get_next_weekday(year, month, day)` as a value: `ValueError` unless the
   * triple is a date, otherwise the first weekday on or after it.
   */
  function NextWeekday(year: int, month: int, day: int): (r: Result<Date, Error>)
    ensures r.Success? <==> Valid(Date(year, month, day))
    ensures r.Success? ==>
              Valid(r.value) && !IsWeekend(r.value)
              && LessEq(Date(year, month, day), r.value)
              && ToOrdinal(r.value) == ToOrdinal(Date(year, month, day)) + RollDays(Date(year, month, day))
    ensures r.Success? && !IsWeekend(Date(year, month, day)) ==> r.value == Date(year, month, day)
  {
    var d := Date(year, month, day);
    if !Valid(d) then Failure(InvalidDate)
    else if Weekday(d) == 5 then
      SaturdayRoll(d);
      Success(NextDay(NextDay(d)))
    else if Weekday(d) == 6 then
      SundayNext(d);
      Success(NextDay(d))
    else Success(d)
  }

  /** A Saturday is not the last representable date, and its next day is a Sunday. */
  lemma SaturdayNext(d: Date)
    requires Valid(d) && Weekday(d) == 5
    ensures d != LastDate && Weekday(NextDay(d)) == 6
  {
    LastDateIsFriday();
  }

  /** A Sunday is not the last representable date, and its next day is a Monday. */
  lemma SundayNext(d: Date)
    requires Valid(d) && Weekday(d) == 6
    ensures d != LastDate && Weekday(NextDay(d)) == 0
  {
    LastDateIsFriday();
  }

  /** Two days on from a Saturday is a Monday, two ordinals later. */
  lemma SaturdayRoll(d: Date)
    requires Valid(d) && Weekday(d) == 5
    ensures d != LastDate && NextDay(d) != LastDate
    ensures var m := NextDay(NextDay(d));
            Valid(m) && Weekday(m) == 0 && Less(d, m) && ToOrdinal(m) == ToOrdinal(d) + 2
  {
    SaturdayNext(d);
    SundayNext(NextDay(d));
  }

  /** `dt` is one of the days the roll-forward loop visits from `start`. */
  predicate Rolling(start: Date, dt: Date)
    requires Valid(start)
  {
    dt == start
    || (Weekday(start) >= 5 && start != LastDate && dt == NextDay(start))
    || (Weekday(start) == 5 && start != LastDate && NextDay(start) != LastDate && dt == NextDay(NextDay(start)))
  }

  /** A weekend day the loop visits has a next day, which the loop visits too, on a later weekday number or a Monday. */
  lemma RollStep(start: Date, dt: Date)
    requires Valid(start) && Rolling(start, dt) && Valid(dt) && Weekday(dt) >= 5
    ensures dt != LastDate && Rolling(start, NextDay(dt))
    ensures Weekday(NextDay(dt)) >= 5 ==> Weekday(NextDay(dt)) > Weekday(dt)
  {
    if dt == start {
      if Weekday(start) == 5 {
        SaturdayNext(start);
      } else {
        SundayNext(start);
      }
    } else {
      RollStepLater(start, dt);
    }
  }

  /** Past the start, the loop is only still on a weekend on the Sunday after a Saturday start. */
  lemma RollStepLater(start: Date, dt: Date)
    requires Valid(start) && Rolling(start, dt) && Valid(dt) && Weekday(dt) >= 5 && dt != start
    ensures Weekday(start) == 5 && dt == NextDay(start) && Weekday(dt) == 6
    ensures dt != LastDate && Rolling(start, NextDay(dt))
    ensures Weekday(NextDay(dt)) == 0
  {
    if Weekday(start) == 5 {
      SaturdayNext(start);
      SundayNext(NextDay(start));
    } else {
      SundayNext(start);
    }
  }

  /** The first weekday the loop reaches is the value of `NextWeekday`. */
  lemma RollDone(start: Date, dt: Date)
    requires Valid(start) && Rolling(start, dt) && Valid(dt) && Weekday(dt) < 5
    ensures NextWeekday(start.year, start.month, start.day) == Success(dt)
  {
    if Weekday(start) == 5 {
      SaturdayNext(start);
      SundayNext(NextDay(start));
    } else if Weekday(start) == 6 {
      SundayNext(start);
    }
  }

  /** `get_next_weekday`: build the date, then step one day at a time while it is a Saturday or Sunday. */
  method GetNextWeekday(year: int, month: int, day: int) returns (r: Result<Date, Error>)
    ensures r == NextWeekday(year, month, day)
  {
    var start := Date(year, month, day);
    if !Valid(start) {
      return Failure(InvalidDate);
    }
    var dt := start;
    while Weekday(dt) >= 5
      invariant Valid(dt) && Rolling(start, dt)
      decreases if Weekday(dt) >= 5 then 7 - Weekday(dt) else 0
    {
      RollStep(start, dt);
      dt := NextDay(dt);
    }
    RollDone(start, dt);
    r := Success(dt);
  }

  /** The closing day in force for a transaction's month: the sentinel stands for that month's length. */
  function EffectiveClosingDay(tx: Date, closingDay: int): int
    requires Valid(tx)
  {
    if closingDay == EndOfMonth then DaysInMonth(tx.year, tx.month) else closingDay
  }

  /** The transaction falls after this month's closing day, so it is billed in the next cycle. */
  predicate RollsOver(tx: Date, closingDay: int)
    requires Valid(tx)
  {
    tx.day > EffectiveClosingDay(tx, closingDay)
  }

  /**
   * The closing date of the billing cycle that contains `tx`: this month's
   * closing day, or, when `tx` is past it, the next month's closing day clamped
   * to that month's length. `datetime.date` raises when the configured day is
   * not a day of the transaction's month, or when the next month is beyond 9999.
   */
  function ClosingDate(tx: Date, closingDay: int): (r: Result<Date, Error>)
    requires Valid(tx)
    ensures r.Failure? <==>
              !(1 <= EffectiveClosingDay(tx, closingDay) <= DaysInMonth(tx.year, tx.month))
              || (RollsOver(tx, closingDay) && tx.year == MaxYear && tx.month == 12)
    ensures r.Success? ==> Valid(r.value) && LessEq(tx, r.value)
    ensures r.Success? ==>
              MonthIndex(r.value.year, r.value.month)
              == MonthIndex(tx.year, tx.month) + (if RollsOver(tx, closingDay) then 1 else 0)
    ensures r.Success? ==>
              r.value.day == Min(EffectiveClosingDay(tx, closingDay), DaysInMonth(r.value.year, r.value.month))
  {
    var cd := EffectiveClosingDay(tx, closingDay);
    var closing := Date(tx.year, tx.month, cd);
    if !Valid(closing) then Failure(InvalidDate)
    else if Less(closing, tx) then
      var (ny, nm) := AddMonths(tx.year, tx.month, 1);
      var next := Date(ny, nm, Min(cd, DaysInMonth(ny, nm)));
      if Valid(next) then Success(next) else Failure(InvalidDate)
    else Success(closing)
  }

  /**
   * The payment date before the weekend rule: `payment_offset_months` after
   * the closing month, on `payment_day` clamped to that month's length. The
   * clamp makes it a date as soon as the day is positive and the year in range.
   */
  function RawPaymentDate(closing: Date, paymentOffset: int, paymentDay: int): (r: Date)
    requires Valid(closing)
    ensures 1 <= r.month <= 12
    ensures MonthIndex(r.year, r.month) == MonthIndex(closing.year, closing.month) + paymentOffset
    ensures r.day <= paymentDay && (r.day == paymentDay || r.day == DaysInMonth(r.year, r.month))
    ensures Valid(r) <==> paymentDay >= 1 && MinYear <= r.year <= MaxYear
  {
    var (py, pm) := AddMonths(closing.year, closing.month, paymentOffset);
    Date(py, pm, Min(paymentDay, DaysInMonth(py, pm)))
  }

  /**
   * `calculate_withdrawal_info`: the settlement date and settlement account of
   * a transaction on `account` dated `tx`. Accounts without card settings pass
   * through unchanged; card accounts settle on the first weekday on or after
   * the raw payment date of their cycle, into the configured withdrawal account.
   */
  function CalculateWithdrawalInfo(account: string, tx: Date, settings: CardSettings): (r: Result<(Date, string), Error>)
    requires Valid(tx)
    ensures account !in settings ==> r == Success((tx, account))
    ensures account in settings ==>
              var c := settings[account];
              var closing := ClosingDate(tx, c.closingDay);
              (r.Success? <==> closing.Success? && Valid(RawPaymentDate(closing.value, c.paymentOffsetMonths, c.paymentDay)))
              && (r.Success? ==>
                    var raw := RawPaymentDate(closing.value, c.paymentOffsetMonths, c.paymentDay);
                    r.value.1 == c.withdrawalAccount
                    && Valid(r.value.0) && !IsWeekend(r.value.0) && LessEq(raw, r.value.0)
                    && ToOrdinal(r.value.0) == ToOrdinal(raw) + RollDays(raw))
  {
    if account in settings then
      var c := settings[account];
      match ClosingDate(tx, c.closingDay)
      case Failure(e) => Failure(e)
      case Success(closing) =>
        var raw := RawPaymentDate(closing, c.paymentOffsetMonths, c.paymentDay);
        match NextWeekday(raw.year, raw.month, raw.day)
        case Failure(e) => Failure(e)
        case Success(payment) => Success((payment, c.withdrawalAccount))
    else
      Success((tx, account))
  }

  /** The resolver applied to one ledger row. */
  function ResolveRecord(rec: Record, settings: CardSettings): (r: Result<ResolvedRecord, Error>)
    requires Valid(rec.date)
    ensures r.Success? <==> CalculateWithdrawalInfo(rec.account, rec.date, settings).Success?
    ensures r.Success? ==>
              r.value.record == rec
              && (r.value.withdrawalDate, r.value.withdrawalAccount)
                 == CalculateWithdrawalInfo(rec.account, rec.date, settings).value
  {
    match CalculateWithdrawalInfo(rec.account, rec.date, settings)
    case Failure(e) => Failure(e)
    case Success((d, a)) => Success(ResolvedRecord(rec, d, a))
  }

  predicate AllDated(rows: seq<Record>) {
    forall i :: 0 <= i < |rows| ==> Valid(rows[i].date)
  }

  /** `df.apply` of the resolver to every row, in order; the first row that raises aborts the whole frame. */
  function ResolveRows(rows: seq<Record>, settings: CardSettings): (r: Result<seq<ResolvedRecord>, Error>)
    requires AllDated(rows)
    ensures r.Success? <==> forall i :: 0 <= i < |rows| ==> ResolveRecord(rows[i], settings).Success?
    ensures r.Success? ==>
              |r.value| == |rows|
              && forall i :: 0 <= i < |rows| ==> r.value[i] == ResolveRecord(rows[i], settings).value
  {
    if rows == [] then Success([])
    else
      match ResolveRecord(rows[0], settings)
      case Failure(e) => Failure(e)
      case Success(first) =>
        match ResolveRows(rows[1..], settings)
        case Failure(e) => Failure(e)
        case Success(rest) =>
          assert forall i :: 1 <= i < |rows| ==> rows[i] == rows[1..][i - 1];
          Success([first] + rest)
  }

  /**
   * `add_credit_withdrawal_info`: the resolved frame, which exists exactly
   * when the frame has rows and every row resolves; an empty frame raises at
   * the column assignment.
   */
  function AddCreditWithdrawalInfo(rows: seq<Record>, settings: CardSettings): (r: Result<seq<ResolvedRecord>, Error>)
    requires AllDated(rows)
    ensures r.Success? <==> rows != [] && forall i :: 0 <= i < |rows| ==> ResolveRecord(rows[i], settings).Success?
    ensures r.Success? ==>
              |r.value| == |rows|
              && forall i :: 0 <= i < |rows| ==> r.value[i] == ResolveRecord(rows[i], settings).value
    ensures rows == [] ==> r == Failure(EmptyFrame)
  {
    if rows == [] then Failure(EmptyFrame) else ResolveRows(rows, settings)
  }

  // ----- properties of the resolver -----

  /** With the end-of-month sentinel the cycle closes on the transaction month's last day and never rolls over. */
  lemma EndOfMonthClosing(tx: Date)
    requires Valid(tx)
    ensures !RollsOver(tx, EndOfMonth)
    ensures ClosingDate(tx, EndOfMonth) == Success(Date(tx.year, tx.month, DaysInMonth(tx.year, tx.month)))
  {
  }

  /**
   * A transaction after a fixed closing day is billed against the next
   * month's closing day (December carrying into January), clamped to that
   * month's length.
   */
  lemma RolloverUsesNextMonth(tx: Date, closingDay: int)
    requires Valid(tx) && 1 <= closingDay <= DaysInMonth(tx.year, tx.month) && tx.day > closingDay
    requires tx.year < MaxYear || tx.month < 12
    ensures var next := if tx.month == 12 then (tx.year + 1, 1) else (tx.year, tx.month + 1);
            ClosingDate(tx, closingDay)
            == Success(Date(next.0, next.1, Min(closingDay, DaysInMonth(next.0, next.1))))
  {
    var r := ClosingDate(tx, closingDay);
    var next := if tx.month == 12 then (tx.year + 1, 1) else (tx.year, tx.month + 1);
    assert r.value.year == next.0 && r.value.month == next.1;
  }

  /**
   * With an offset of at least one month the settlement date is strictly later
   * than the transaction: the closing date is not before the transaction and
   * the payment falls in a later month, and the weekend roll only moves forward.
   */
  lemma PaymentAfterTransaction(account: string, tx: Date, settings: CardSettings)
    requires Valid(tx) && account in settings && settings[account].paymentOffsetMonths >= 1
    requires CalculateWithdrawalInfo(account, tx, settings).Success?
    ensures Less(tx, CalculateWithdrawalInfo(account, tx, settings).value.0)
  {
    var c := settings[account];
    var closing := ClosingDate(tx, c.closingDay).value;
    var raw := RawPaymentDate(closing, c.paymentOffsetMonths, c.paymentDay);
    assert MonthIndex(raw.year, raw.month) > MonthIndex(tx.year, tx.month);
    assert Less(tx, raw);
  }

  /** With a zero offset the settlement still falls on or after the cycle's closing month. */
  lemma SameMonthSettlement(account: string, tx: Date, settings: CardSettings)
    requires Valid(tx) && account in settings && settings[account].paymentOffsetMonths == 0
    requires CalculateWithdrawalInfo(account, tx, settings).Success?
    ensures var closing := ClosingDate(tx, settings[account].closingDay).value;
            var pay := CalculateWithdrawalInfo(account, tx, settings).value.0;
            LessEq(Date(closing.year, closing.month, 1), pay)
  {
  }

  /**
   * The leap-year scenario: end-of-month closing, payment on the 10th of the
   * next month. A purchase on 2024-02-29 closes that day, is due on
   * 2024-03-10, a Sunday, and settles on Monday 2024-03-11.
   */
  lemma LeapDayScenario()
    ensures CalculateWithdrawalInfo("Card", Date(2024, 2, 29), map["Card" := CardConfig(EndOfMonth, 1, 10, "BankA")])
            == Success((Date(2024, 3, 11), "BankA"))
  {
    var tx := Date(2024, 2, 29);
    assert DaysInMonth(2024, 2) == 29;
    assert ClosingDate(tx, EndOfMonth) == Success(tx) by {
      EndOfMonthClosing(tx);
    }
    assert RawPaymentDate(tx, 1, 10) == Date(2024, 3, 10);
    assert NextWeekday(2024, 3, 10) == Success(Date(2024, 3, 11)) by {
      SundayTenthOfMarch();
    }
  }

  lemma SundayTenthOfMarch()
    ensures Weekday(Date(2024, 3, 10)) == 6
    ensures NextDay(Date(2024, 3, 10)) == Date(2024, 3, 11)
  {
  }
}
