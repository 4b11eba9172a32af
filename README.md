# Household-ledger asset timeline: a Dafny model of its core

The repository is a household-ledger pipeline. It resolves each expense or
income row of a ledger to the day and account on which it actually moves
money, and it rewrites transfers between accounts as pairs of ledger rows.
From the settled rows and from periodic balance snapshots, it reconstructs a
day-by-day balance timeline for every account in the registry.

This project models that core and proves what it computes:

- **Calendar** (`calendar.dfy`): the parts of Python's `datetime` and
  `calendar` that the resolver uses:
  - dates valid for years 1 to 9999;
  - the 4/100/400 leap rule and `monthrange` month lengths;
  - proleptic ordinals, with `weekday()` Monday = 0;
  - adding one day;
  - the `(m - 1) // 12` and `(m - 1) % 12 + 1` month arithmetic.
- **Billing** (`billing.dfy`): the billing-cycle resolver
  `add_credit_withdrawal_info` with its inner `get_next_weekday` and
  `calculate_withdrawal_info`.
  - A row on an account without card settings keeps its date and account.
  - A row on a card account settles on the first weekday on or after that
    card's payment day. The payment day falls in the month that is
    `payment_offset_months` after the cycle's closing date, clamped to the
    month's length. The closing date is this month's closing day, or the next
    month's when the transaction is later. `-1` stands for the last day of the
    month.
  - The settlement goes into the card's withdrawal account.
  - An impossible date (a `ValueError` of `datetime.date`) aborts the whole
    frame.
  - A frame with no rows also raises. `df.apply` returns a copy of the frame's
    own columns, and assigning that copy to the two new columns fails.
  - The source carries this resolver twice, in `src/insert_csv2db.py` and
    `src/add_card_info.py`. The bodies are identical, so it is modelled once.
- **Transfer** (`transfer.dfy`): `transform_transfer_data`. Each transfer
  becomes an expense of category `振替` on the source account and an income on
  the destination account, with the same date and amount and the formatted
  memos. The expanded rows then go through the resolver (`process_transfer_csv`
  without its files).
- **Events** (`events.dfy`): an account's event stream, with flows
  (`is_balance_event` 0) and snapshots, called anchors (`is_balance_event` 1).
  - The two-key sort is proved sorted, a permutation and stable: days
    ascending, NaT last, and anchors before flows on the same day.
  - The selections used by the reconstruction are modelled as filters.
- **Timeline** (`timeline.dfy`): one account's reconstruction.
  - It consists of:
    - the running-balance loop: an anchor resets the balance, a flow adds its
      delta;
    - the per-day last value;
    - `Series.update` over the date range;
    - `ffill`;
    - the per-day flow totals.
  - The balance column is proved equal to a day-by-day reference definition:
    - on a day with a snapshot, the day's last snapshot plus that day's flows;
    - on any other day, the previous day's balance plus the day's flows;
    - unknown (NaN) before the account's first dated event.
- **Aggregate** (`aggregate.dfy`): `generate_final_balance_df` after its
  files are read.
  - The global day range is the `min`/`max` of the snapshot dates and the
    settled flow dates, with pandas' NaT rules.
  - Each account's flows and snapshots are cut out of the two frames.
  - The loop over the account registry builds one flow column and one balance
    column per account. Every column of the final table is proved to be its
    account's reference column.
- **Pipeline** (`pipeline.dfy`): resolved transfer rows read back as flows of
  the timeline. The two rows of a transfer carry opposite deltas, each on its
  settlement account.

Dates below the calendar layer are day numbers (proleptic ordinals); a NaT
date is `None`. Amounts are integers. An amount that `pd.to_numeric` cannot
read counts as 0, as `fillna(0)` makes it.

## Model

| member | source | states |
|---|---|---|
| Calendar.DaysInMonth | src/insert_csv2db.py:75 | a month has 28 to 31 days, and has 29 exactly when it is February of a leap year |
| Calendar.WeekdayAnchors | src/insert_csv2db.py:59 | `weekday()` numbering: 0001-01-01 is a Monday (0) and 2000-01-01 a Saturday (5) |
| Calendar.NextDay | src/insert_csv2db.py:60 | adding one day gives a valid, strictly later date whose ordinal is one more and whose weekday is the next one modulo 7 |
| Calendar.AddMonths | src/insert_csv2db.py:79-81 | the year/month carry arithmetic yields a month in 1..12 exactly `offset` months later |
| Calendar.MonthLengthIsOrdinalGap | src/insert_csv2db.py:82 | `monthrange`'s length of a month is the number of days from its first day to the first day of the next month |
| Calendar.FebruaryLengths | src/insert_csv2db.py:75 | the leap rule on 2024, 2023, 2000 and 1900 |
| Calendar.LastDateIsFriday | src/insert_csv2db.py:59-60 | the last representable date is a Friday, so the weekend roll never steps past it |
| Billing.NextWeekday | src/insert_csv2db.py:56-61 | fails exactly when the triple is not a date; otherwise the result is a weekday on or after it, two days later from a Saturday and one from a Sunday, and the date itself when it is a weekday |
| Billing.GetNextWeekday | src/insert_csv2db.py:56-61 | the `while` loop stepping one day at a time returns exactly `NextWeekday` (the loop is proved to stop) |
| Billing.ClosingDate | src/insert_csv2db.py:73-84 | fails exactly when the effective closing day is not a day of the transaction's month, or the cycle rolls past December 9999; otherwise a date not before the transaction, in the same month or, when the transaction is past the closing day, the next month, on the closing day clamped to that month's length |
| Billing.EndOfMonthClosing | src/insert_csv2db.py:74-78 | with `-1` the cycle closes on the last day of the transaction's month and never rolls over |
| Billing.RolloverUsesNextMonth | src/insert_csv2db.py:78-84 | past a fixed closing day, the closing date moves to the next month (December carrying into January of the next year), on the closing day clamped to that month's length |
| Billing.RawPaymentDate | src/insert_csv2db.py:86-91 | the payment month is `payment_offset_months` after the closing month; the day is `payment_day`, or that month's last day when it is shorter; it is a date exactly when the day is positive and the year in range |
| Billing.CalculateWithdrawalInfo | src/insert_csv2db.py:63-96 | non-card accounts pass through unchanged; a card account succeeds exactly when its closing date and raw payment date exist, and then settles into its withdrawal account on a weekday on or after the raw payment date, moved by the weekend roll only |
| Billing.ResolveRecord | src/insert_csv2db.py:94-98 | a row keeps all its columns and gains exactly the date and account the resolver computes for its account and date, failing exactly when the resolver fails |
| Billing.ResolveRows | src/insert_csv2db.py:98 | `df.apply` resolves exactly when every row resolves, row by row in order, to the same number of rows |
| Billing.AddCreditWithdrawalInfo | src/insert_csv2db.py:54-99 | the frame resolves exactly when it has rows and every row resolves, row by row in order; an empty frame raises at the column assignment |
| Billing.PaymentAfterTransaction | src/insert_csv2db.py:77-92 | with a payment offset of at least one month, the settlement date is strictly after the transaction date |
| Billing.SameMonthSettlement | src/insert_csv2db.py:86-92 | with a zero offset, the settlement falls on or after the first day of the closing month |
| Billing.LeapDayScenario | src/insert_csv2db.py:63-94 | end-of-month closing, due on the 10th of the next month: a purchase on 2024-02-29 settles on Monday 2024-03-11, since the 10th is a Sunday |
| Transfer.TransformRow | src/transfer.py:18-52 | a transfer becomes an expense on the source account then an income on the destination, both of category and payment method `振替`, with the transfer's date and amount, empty subcategory, place and tag, and the two memo texts |
| Transfer.TransformTransferData | src/transfer.py:54-59 | the flattened frame has two rows per transfer, rows 2i and 2i+1 being transfer i's pair, in order |
| Transfer.ExpandedPair | src/transfer.py:27-56 | row 2i is an expense on the source and row 2i+1 an income on the destination, of the same amount and date as transfer i |
| Transfer.ProcessTransfers | src/transfer.py:84-89 | an empty transfer frame raises; otherwise the expanded frame resolves exactly when the resolver succeeds for both accounts of every transfer, and then the outflow settles as the source account's charge and the inflow as the destination's |
| Transfer.ProcessTransfersSucceeds | src/transfer.py:89 | resolving the expanded rows succeeds exactly when there is a transfer and every transfer's two accounts resolve on its date |
| Events.Insert | src/make_asset_timeline.py:53-56 | inserting one event into the sorted stream keeps every event: the result is the input multiset plus that event |
| Events.SortEvents | src/make_asset_timeline.py:53-56 | the merged events come out sorted by day ascending, NaT last and anchors before flows on a day, as a permutation of the input |
| Events.UndatedInInputOrder | src/make_asset_timeline.py:56 | events whose date is NaT keep their input order through the sort |
| Events.SortStable | src/make_asset_timeline.py:56 | the sort is stable: the events of any one key (a day's anchors, a day's flows, the undated) keep their input order |
| Events.FilterConcat | src/make_asset_timeline.py:53-55 | selecting from the concatenated flow and anchor frames is selecting from each in turn |
| Events.SplitUpTo | src/make_asset_timeline.py:56 | in a sorted stream, the events up to day d are those up to day d-1 followed by those of day d |
| Events.SplitDay | src/make_asset_timeline.py:56 | in a sorted stream, day d's events are its anchors followed by its flows |
| Timeline.RunningBalances | src/make_asset_timeline.py:60-68 | the loop records, per event, its day and the balance after it: an anchor sets the balance, a flow adds its delta to the previous one (0 at the start) |
| Timeline.RecordValue | src/make_asset_timeline.py:60-68 | record i is event i's day with the balance folded over the first i+1 events |
| Timeline.FoldBlock | src/make_asset_timeline.py:64-67 | folding anchors then flows gives the last anchor's balance (else the starting balance) plus the sum of the flow deltas |
| Timeline.LastPerDaySorted | src/make_asset_timeline.py:71-72 | a day is a key of the per-day grouping exactly when some event is dated that day, and its value is the balance after all events up to that day |
| Timeline.ForwardFillAt | src/make_asset_timeline.py:75 | a filled day keeps its own value, else takes the previous filled day's, and the first day stays NaN when it has none |
| Timeline.DailyFlowTotalsAt | src/make_asset_timeline.py:79 | the per-day sum of flow deltas is the flow total of that day, and a day absent from it has total 0 |
| Timeline.FlowColumnIsReference | src/make_asset_timeline.py:78-80 | the flow column holds, for every day of the range, the sum of that day's flow deltas (0 when none) |
| Timeline.BalanceColumnIsReference | src/make_asset_timeline.py:60-75 | the balance column equals the day-by-day reference column of the account's events |
| Timeline.BalanceColumnAt | src/make_asset_timeline.py:71-75 | each day's balance cell is the reference balance of that day |
| Timeline.AnchorPrecedence | src/make_asset_timeline.py:56-67 | on a day with a snapshot, the balance is the day's last snapshot plus the day's flows, earlier history notwithstanding |
| Timeline.NoBackfill | src/make_asset_timeline.py:73-75 | a day's balance is NaN exactly when no dated event of the account lies on or before it |
| Timeline.CarriedAcrossGap | src/make_asset_timeline.py:75 | across days without events, the balance is carried unchanged |
| Timeline.CarryForward | src/make_asset_timeline.py:75 | a day without events has the previous day's balance |
| Aggregate.AnchorSpan | src/make_asset_timeline.py:28-29 | the snapshots' min and max exist exactly when there is a snapshot, bound every snapshot date and are attained |
| Aggregate.FlowSpan | src/make_asset_timeline.py:28-29 | the settled flows' min and max skip NaT, exist exactly when some flow is dated, bound every dated flow and are attained |
| Aggregate.GlobalRange | src/make_asset_timeline.py:28-30 | the range exists exactly when there is a snapshot; it is ordered, contains every snapshot date and every dated flow, and starts and ends on such a date |
| Aggregate.FlowEvents | src/make_asset_timeline.py:39-43 | the account's events from the flow frame are flows; each row settled on the account appears, with its settlement day and signed amount, and nothing else does |
| Aggregate.FlowTotalOfRows | src/make_asset_timeline.py:39-42 | each day's flow total of the account's events is the sum of `収支` over the rows settled on the account that day, each row counted once |
| Aggregate.AnchorEvents | src/make_asset_timeline.py:46-50 | the account's events from the snapshot frame are anchors; each snapshot of the account appears, with its day and balance, and nothing else does |
| Aggregate.LastAnchorOfRows | src/make_asset_timeline.py:46-56 | the last snapshot of a day, as the reconstruction reads it, is the balance of the account's highest-index snapshot row dated that day, none when there is none |
| Aggregate.AccountEventsFrom | src/make_asset_timeline.py:28-56 | no dated event of any account lies before the start of the global range |
| Aggregate.AccountTimeline | src/make_asset_timeline.py:38-86 | the loop body builds exactly the account's flow column and balance column |
| Aggregate.ColumnForIsReference | src/make_asset_timeline.py:53-80 | when no event lies before the range, the account's two columns are its reference flow totals and reference balances |
| Aggregate.AccountColumns | src/make_asset_timeline.py:37-87 | the loop over the registry produces one column pair per account, in registry order |
| Aggregate.ColumnIsReferenceAt | src/make_asset_timeline.py:37-87 | column j of the loop's result is account j's reference column over the global range |
| Aggregate.GenerateFinalBalance | src/make_asset_timeline.py:27-87 | a table exists exactly when there is a snapshot, and then it spans the global range and holds the registry's columns in order |
| Aggregate.FinalTableIsReference | src/make_asset_timeline.py:27-87 | every column of the final table is its account's reference column: flow totals, and balances reconstructed from snapshots and flows, NaN before its first event |
| Aggregate.EmptyAccountAsWritten | src/make_asset_timeline.py:71-72 | in the code as written, an account's day grouping raises exactly when the account has no flow and no snapshot |
| Aggregate.RaisesAsWrittenExactly | src/make_asset_timeline.py:28-72 | the frame as written raises exactly when there is no snapshot at all or some registry account has no event |
| Aggregate.EmptyAccountExample | src/make_asset_timeline.py:37-72 | a frame with a snapshot of "Bank" only, with "Cash" in the registry, has a range and still raises on "Cash" |
| Aggregate.EmptyAccountTimeline | src/make_asset_timeline.py:71-80 | with the empty grouping taken as empty, an account without events gets flow 0 and NaN balance on every day |
| Aggregate.CashScenario | src/make_asset_timeline.py:27-87 | snapshot 1000 on day 1 and a 200 expense settled on day 3, range days 1 to 5: the balances read 1000, 1000, 800, 800, 800 |
| Pipeline.TransferFlowsCancel | src/transfer.py:27-51 | read back as flows, transfer i's two rows carry opposite deltas (its amount, 0 when unreadable), the outflow on the source's settlement account and the inflow on the destination's |
| Pipeline.PlainTransferSameDay | src/insert_csv2db.py:95-96 | between two accounts without card settings, both halves of a transfer settle on its own day and accounts |
| Pipeline.ResolvedPair | src/transfer.py:84-89 | transfer i's resolved rows are its expanded rows with the settlement of the source and of the destination |

## Left out

- Reading and writing CSV and JSON files, the database insertion, the
  webhook, the Google Apps Script and the command-line entry points. I/O is
  replaced by parameters: the ledger rows, the transfer rows, the card
  settings, the snapshot and flow frames, and the account registry.
- Time zones: the timestamps are localised to Asia/Tokyo and normalised to
  midnight. The model works on whole days. Times of day, and the `ambiguous`
  and `nonexistent` handling of the localisation, are not modelled.
- Floating point: amounts are integers. An unreadable amount is `None`, and it
  counts as 0 in a delta. A snapshot whose balance is NaN is not modelled.
  In the source such a snapshot has three effects. It makes every later running
  balance NaN until the next snapshot (`cur_balance += 収支` keeps NaN).
  `groupby(...).last()` skips the NaN records of a day. `Series.update` skips
  NaN values.
- Parsing: the model takes already-parsed values. This covers dates the CSV
  reader cannot parse (apart from a NaT settlement date, which is modelled)
  and an `amount` that is a string.
- The order among several snapshots of one account on the same day: the
  source sorts `balance_df` by date alone with pandas' default (unstable) sort
  first, and the model keeps their input order.
- The pandas `merge(..., how='left')` on the date column is modelled as
  placing the account's columns beside the date column. The date column is
  the same range, so the rows line up one to one. Column naming
  (`{account}_収支`, `{account}_残高`) is not modelled.
- A transfer CSV without a `メモ` column (`row.get` returning `''`) is not
  modelled. An empty memo cell is modelled: it is NaN and prints as `nan`.
- Calendar.Weekday: its own contract gives only the range 0..6; the numbering
  is pinned down by `Calendar.WeekdayAnchors` and `Calendar.NextDay`.
- Calendar.ToOrdinal: it has no contract of its own; the ordinal numbering is
  stated by `Calendar.NextDay` (the next day's ordinal is one more) and
  `Calendar.MonthLengthIsOrdinalGap`.
- Billing.EffectiveClosingDay: it has no contract of its own; the `-1`
  sentinel is stated by `Billing.EndOfMonthClosing` and `Billing.ClosingDate`.
- Transfer.OutflowMemo: it has no contract of its own; the outflow memo text
  is stated by `Transfer.TransformRow`.
- Transfer.InflowMemo: it has no contract of its own; the inflow memo text is
  stated by `Transfer.TransformRow`.
- Timeline.Records: its own contract gives only the length; each record is
  stated by `Timeline.RecordValue` and `Timeline.RunningBalances`.
- Timeline.LastPerDay: it has no contract of its own; its keys and values are
  stated by `Timeline.LastPerDaySorted`.
- Timeline.UpdateSeries: it has no contract of its own; its cells are read
  off by the helper `Timeline.UpdateSeriesAt`, and what they mean is stated
  by `Timeline.BalanceColumnAt`.
- Timeline.ForwardFill: its own contract gives only the length; the fill rule
  is stated by `Timeline.ForwardFillAt`.
- Timeline.DailyFlowTotals: it has no contract of its own; its keys and
  values are stated by `Timeline.DailyFlowTotalsAt`.
- Timeline.UpdateFlows: it has no contract of its own; its cells are stated
  by `Timeline.FlowColumnIsReference`.
- Timeline.BalanceColumn: it has no contract of its own; it is stated by
  `Timeline.BalanceColumnIsReference` and `Timeline.BalanceColumnAt`.
- Timeline.FlowColumn: it has no contract of its own; it is stated by
  `Timeline.FlowColumnIsReference`.
- Aggregate.AccountEvents: it has no contract of its own; its parts are
  stated by `Aggregate.FlowEvents` and `Aggregate.AnchorEvents`, and the
  concatenation by `Events.FilterConcat`.
- Aggregate.ColumnFor: it has no contract of its own; its two columns are
  stated by `Aggregate.ColumnForIsReference` and `Aggregate.AccountTimeline`.
- Aggregate.Columns: its own contract gives only the length; each column is
  stated by `Aggregate.ColumnIsReferenceAt` and `Aggregate.AccountColumns`.
- Aggregate.DayGroupsAsWritten: it has no contract of its own; when it
  raises is stated by `Aggregate.EmptyAccountAsWritten`.
- Aggregate.GenerateFinalBalance: builds the table with the corrected grouping
  of an account without events (flow 0, no balance). As written, the source
  also raises when some registry account has no flow and no snapshot; that
  behaviour is stated by `Aggregate.RaisesAsWrittenExactly` and the Findings
  row.
- Aggregate.Delta: it has no contract of its own; the sign convention is
  stated by `Pipeline.TransferFlowsCancel`.
- Timeline.ReferenceColumn: its own contract gives only the length; its cells
  are stated by `Timeline.BalanceColumnIsReference` and the day lemmas.

## Findings

| source | as written | input that shows it | evidently intended | confidence | as-written member | corrected member |
|---|---|---|---|---|---|---|
| src/make_asset_timeline.py:71-72 | for an account with no events, `pd.DataFrame([], columns=['datetime', 'balance'])` has an object-typed `datetime` column, and `.dt.normalize()` on it raises, stopping the whole frame | a registry with "Cash" and "Bank", one snapshot of "Bank" on day 1 and no flow or snapshot of "Cash" | the account gets flow 0 and an all-NaN balance column, as for any day before an account's first event | medium, not executed | Aggregate.EmptyAccountAsWritten | Aggregate.EmptyAccountTimeline |
