/** The intern's earnings history: the three totals, the status colour and caption, and the paid-on column. */
module InternEarnings {
  import opened Optional
  import opened Seqs
  import opened Badge

  /** One earning; `amount` is in cents, `paidAt` is null until the payout happens. */
  datatype Earning = Earning(
    id: string,
    businessName: string,
    taskId: string,
    amount: int,
    status: string,
    completedAt: string,
    paidAt: Option<string>)

  function AmountOf(e: Earning): int { e.amount }
  predicate IsPaid(e: Earning) { e.status == "paid" }
  predicate IsUnpaid(e: Earning) { e.status != "paid" }

  /** "Total Earnings". */
  function TotalEarnings(earnings: seq<Earning>): int {
    Sum(earnings, AmountOf)
  }

  /** "Paid Out". */
  function PaidEarnings(earnings: seq<Earning>): int {
    Sum(Filter(earnings, IsPaid), AmountOf)
  }

  /** "Pending": everything not yet paid, whether approved, under review or anything else. */
  function PendingEarnings(earnings: seq<Earning>): int {
    Sum(Filter(earnings, IsUnpaid), AmountOf)
  }

  function StatusColor(status: string): Variant {
    if status == "paid" then Success
    else if status == "approved" then Info
    else if status == "pending" then Warning
    else Secondary
  }

  function StatusLabel(status: string): string {
    if status == "paid" then "Paid"
    else if status == "approved" then "Approved"
    else if status == "pending" then "Under Review"
    else status
  }

  /** The paid-on column: a dash while `paidAt` is falsy (null or the empty string), else the date. */
  datatype PaidCell = Dash | PaidOn(date: string)

  function PaidCellOf(paidAt: Option<string>): PaidCell {
    if paidAt.Some? && paidAt.value != "" then PaidOn(paidAt.value) else Dash
  }

  /** Paid and pending split the total between them. */
  lemma TotalIsPaidPlusPending(earnings: seq<Earning>)
    ensures TotalEarnings(earnings) == PaidEarnings(earnings) + PendingEarnings(earnings)
  {
    SumPartition(earnings, AmountOf, IsPaid, IsUnpaid);
  }

  /** The colour is the neutral one exactly for the statuses the caption leaves as they are. */
  lemma ColorAndLabelAgree(status: string)
    ensures StatusColor(status) == Secondary <==> StatusLabel(status) == status
    ensures StatusLabel("pending") == "Under Review"
  {
  }

  /** The paid-on column shows the dash exactly when there is no payout date. */
  lemma DashIffUnpaid(paidAt: Option<string>)
    ensures PaidCellOf(paidAt) == Dash <==> paidAt.None? || paidAt.value == ""
    ensures paidAt.Some? && paidAt.value != "" ==> PaidCellOf(paidAt).date == paidAt.value
  {
  }
}
