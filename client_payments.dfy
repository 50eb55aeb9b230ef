/**
 * The client's payment history: the three summary totals, search and status filter,
 * status badges and icons, and the signed amount column. Amounts are signed integer cents:
 * payments are negative, refunds positive.
 */
module ClientPayments {
  import opened Optional
  import opened Seqs
  import opened Text
  import opened Money
  import opened Badge

  datatype Payment = Payment(
    id: string,
    kind: string,
    description: string,
    amount: int,
    status: string,
    date: string,
    paymentMethod: string,
    reference: string)

  predicate IsCompletedPayment(p: Payment) { p.kind == "payment" && p.status == "completed" }
  predicate IsCompletedRefund(p: Payment) { p.kind == "refund" && p.status == "completed" }
  predicate IsPending(p: Payment) { p.status == "pending" }

  function AbsAmount(p: Payment): int { Abs(p.amount) }
  function AmountOf(p: Payment): int { p.amount }

  /** The "Total Spent" figure. */
  function TotalSpent(payments: seq<Payment>): int {
    Sum(Filter(payments, IsCompletedPayment), AbsAmount)
  }

  /** The "Refunds" figure: refund amounts as recorded, not their absolute values. */
  function TotalRefunds(payments: seq<Payment>): int {
    Sum(Filter(payments, IsCompletedRefund), AmountOf)
  }

  /** The "Pending" figure, over payments and refunds alike. */
  function PendingPayments(payments: seq<Payment>): int {
    Sum(Filter(payments, IsPending), AbsAmount)
  }

  predicate Shown(p: Payment, term: string, statusFilter: string) {
    (ContainsIgnoringCase(p.description, term) || ContainsIgnoringCase(p.reference, term))
    && (statusFilter == "all" || p.status == statusFilter)
  }

  function FilteredPayments(payments: seq<Payment>, term: string, statusFilter: string): seq<Payment> {
    Filter(payments, p => Shown(p, term, statusFilter))
  }

  function StatusBadgeOf(status: string): StatusBadge {
    if status == "completed" then StatusBadge(Success, "Completed")
    else if status == "pending" then StatusBadge(Warning, "Pending")
    else if status == "failed" then StatusBadge(Danger, "Failed")
    else StatusBadge(Secondary, status)
  }

  datatype Icon = CheckCircle | Clock | AlertCircle
  datatype Tint = Green | Yellow | Red | Gray

  function StatusIconOf(status: string): (Icon, Tint) {
    if status == "completed" then (CheckCircle, Green)
    else if status == "pending" then (Clock, Yellow)
    else if status == "failed" then (AlertCircle, Red)
    else (Clock, Gray)
  }

  /** The amount column: a `+` before money received, then `$` and the magnitude with two
      decimals; received amounts are printed green. */
  datatype AmountCell = AmountCell(text: string, green: bool)

  function AmountCellOf(amount: int): AmountCell {
    AmountCell((if amount > 0 then "+" else "") + "$" + FormatCents(Abs(amount)), amount > 0)
  }

  /** Reads an amount back from its cell text: a bare `$` marks a payment (or zero). */
  function ParseAmountText(text: string): Option<int> {
    if |text| >= 2 && text[..2] == "+$" then
      match ParseCents(text[2..])
      case Some(c) => if c > 0 then Some(c) else None
      case None => None
    else if |text| >= 1 && text[0] == '$' then
      match ParseCents(text[1..])
      case Some(c) => Some(0 - c as int)
      case None => None
    else None
  }

  /** "Total Spent" counts only completed payments, each by its magnitude, and is never negative. */
  lemma TotalSpentCountsCompletedPayments(payments: seq<Payment>)
    ensures TotalSpent(payments) == Sum(payments, p => if IsCompletedPayment(p) then Abs(p.amount) else 0)
    ensures TotalSpent(payments) >= 0
  {
    SumFilterIsConditionalSum(payments, AbsAmount, IsCompletedPayment, p => if IsCompletedPayment(p) then Abs(p.amount) else 0);
    SumNonNegative(Filter(payments, IsCompletedPayment), AbsAmount);
  }

  /** "Refunds" counts only completed refunds, with their recorded sign. */
  lemma TotalRefundsCountsCompletedRefunds(payments: seq<Payment>)
    ensures TotalRefunds(payments) == Sum(payments, p => if IsCompletedRefund(p) then p.amount else 0)
  {
    SumFilterIsConditionalSum(payments, AmountOf, IsCompletedRefund, p => if IsCompletedRefund(p) then p.amount else 0);
  }

  /** "Pending" counts every pending entry whatever its kind, by magnitude; a pending entry is never
      part of "Total Spent" or "Refunds". */
  lemma PendingIsSeparate(payments: seq<Payment>)
    ensures PendingPayments(payments) == Sum(payments, p => if IsPending(p) then Abs(p.amount) else 0)
    ensures forall p :: IsPending(p) ==> !IsCompletedPayment(p) && !IsCompletedRefund(p)
  {
    SumFilterIsConditionalSum(payments, AbsAmount, IsPending, p => if IsPending(p) then Abs(p.amount) else 0);
  }

  /** The shown entries are the matching entries, in their original order. */
  lemma FilteredIsOrderedSelection(payments: seq<Payment>, term: string, statusFilter: string)
    ensures IsSubsequence(FilteredPayments(payments, term, statusFilter), payments)
    ensures forall i :: 0 <= i < |payments| ==>
              (payments[i] in FilteredPayments(payments, term, statusFilter) <==> Shown(payments[i], term, statusFilter))
    ensures |FilteredPayments(payments, term, statusFilter)| ==
            |set i | 0 <= i < |payments| && Shown(payments[i], term, statusFilter)|
  {
    FilterIsSubsequence(payments, p => Shown(p, term, statusFilter));
    FilterCountIsPositions(payments, p => Shown(p, term, statusFilter));
    assert Positions(payments, p => Shown(p, term, statusFilter)) ==
           set i | 0 <= i < |payments| && Shown(payments[i], term, statusFilter);
  }

  /** The three named statuses get fixed captions; any other status is shown as it is. */
  lemma BadgeShowsUnknownStatusVerbatim(status: string)
    ensures status != "completed" && status != "pending" && status != "failed" ==>
              StatusBadgeOf(status) == StatusBadge(Secondary, status)
    ensures StatusBadgeOf(status).variant == Secondary <==>
              status != "completed" && status != "pending" && status != "failed"
  {
  }

  /** Icon and badge agree: the grey clock appears exactly for the statuses with a secondary badge. */
  lemma IconMatchesBadge(status: string)
    ensures StatusIconOf(status).1 == Gray <==> StatusBadgeOf(status).variant == Secondary
  {
  }

  /** The cell starts with `+` exactly for money received, and its text determines the amount. */
  lemma AmountCellRoundTrip(amount: int)
    ensures (AmountCellOf(amount).text[0] == '+') <==> amount > 0
    ensures AmountCellOf(amount).green <==> amount > 0
    ensures ParseAmountText(AmountCellOf(amount).text) == Some(amount)
  {
    var text := AmountCellOf(amount).text;
    FormatCentsRoundTrip(Abs(amount));
    if amount > 0 {
      assert text[..2] == "+$" && text[2..] == FormatCents(amount);
    } else {
      assert text[0] == '$' && text[1..] == FormatCents(Abs(amount));
    }
  }
}
