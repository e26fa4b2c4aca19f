/**
 * The revenue summary of one school.  Nothing is stored: every request
 * recomputes the figures from the order and payout collections.
 *
 *  - total orders: the school's orders whose status is exactly "paid";
 *  - total revenue: the sum of their amounts, a missing amount counting 0;
 *  - pending payout: total revenue minus the amounts of the school's payout
 *    requests whose status is "approved" or "paid", clamped at zero.
 *
 * Amounts are exact reals, where the service adds floating-point numbers.
 */
module Revenue {
  import opened Wrappers
  import opened Seqs
  import opened Schemas

  datatype RevenueSummary = RevenueSummary(totalOrders: nat, totalRevenue: real, pendingPayout: real)

  /** The order query: this school, status exactly "paid". */
  predicate IsPaidOrderOf(o: Order, schoolId: string)
  {
    o.schoolId == schoolId && o.status == "paid"
  }

  /** The payout query: this school, status "approved" or "paid". */
  predicate IsSettledPayoutOf(p: PayoutRequest, schoolId: string)
  {
    p.schoolId == schoolId && (p.status == "approved" || p.status == "paid")
  }

  function PaidOrderFilter(schoolId: string): Order -> bool
  {
    (o: Order) => IsPaidOrderOf(o, schoolId)
  }

  function SettledPayoutFilter(schoolId: string): PayoutRequest -> bool
  {
    (p: PayoutRequest) => IsSettledPayoutOf(p, schoolId)
  }

  /** A document's amount, 0 when the field is missing. */
  function AmountOrZero(a: Option<real>): real
  {
    match a
    case Some(v) => v
    case None => 0.0
  }

  function OrderAmount(o: Order): real
  {
    AmountOrZero(o.amount)
  }

  function PayoutAmount(p: PayoutRequest): real
  {
    AmountOrZero(p.amount)
  }

  function PaidOrders(schoolId: string, orders: seq<Order>): seq<Order>
  {
    Filter(orders, PaidOrderFilter(schoolId))
  }

  function SettledPayouts(schoolId: string, payouts: seq<PayoutRequest>): seq<PayoutRequest>
  {
    Filter(payouts, SettledPayoutFilter(schoolId))
  }

  function PaidOut(schoolId: string, payouts: seq<PayoutRequest>): real
  {
    Sum(SettledPayouts(schoolId, payouts), PayoutAmount)
  }

  /** The figures the revenue endpoint returns for `schoolId`. */
  function Summary(schoolId: string, orders: seq<Order>, payouts: seq<PayoutRequest>): (r: RevenueSummary)
    ensures r.pendingPayout >= 0.0
    ensures r.pendingPayout >= r.totalRevenue - PaidOut(schoolId, payouts)
    ensures r.pendingPayout == 0.0 || r.pendingPayout == r.totalRevenue - PaidOut(schoolId, payouts)
  {
    var paid := PaidOrders(schoolId, orders);
    var totalRevenue := Sum(paid, OrderAmount);
    var paidOut := PaidOut(schoolId, payouts);
    var pending := if 0.0 > totalRevenue - paidOut then 0.0 else totalRevenue - paidOut;
    RevenueSummary(|paid|, totalRevenue, pending)
  }

  /** total_orders counts exactly the school's "paid" orders, each as often as it is stored. */
  lemma TotalOrdersCountsPaidOrders(schoolId: string, orders: seq<Order>, payouts: seq<PayoutRequest>, o: Order)
    ensures Summary(schoolId, orders, payouts).totalOrders == |PaidOrders(schoolId, orders)|
    ensures multiset(PaidOrders(schoolId, orders))[o]
            == if o.schoolId == schoolId && o.status == "paid" then multiset(orders)[o] else 0
  {
    FilterMultiplicity(orders, PaidOrderFilter(schoolId), o);
  }

  /**
   * A school with no paid orders has no orders and no revenue, whatever the
   * payout requests; nothing is pending when its approved or paid requests
   * have no negative amount.
   */
  lemma NoPaidOrders(schoolId: string, orders: seq<Order>, payouts: seq<PayoutRequest>)
    requires forall i :: 0 <= i < |orders| ==> !IsPaidOrderOf(orders[i], schoolId)
    ensures Summary(schoolId, orders, payouts).totalOrders == 0
    ensures Summary(schoolId, orders, payouts).totalRevenue == 0.0
    ensures (forall i :: 0 <= i < |SettledPayouts(schoolId, payouts)| ==>
               PayoutAmount(SettledPayouts(schoolId, payouts)[i]) >= 0.0) ==>
            Summary(schoolId, orders, payouts).pendingPayout == 0.0
  {
    FilterNone(orders, PaidOrderFilter(schoolId));
    var settled := SettledPayouts(schoolId, payouts);
    if forall i :: 0 <= i < |settled| ==> PayoutAmount(settled[i]) >= 0.0 {
      SumNonNegative(settled, PayoutAmount);
    }
  }

  /**
   * Appending one order: it adds one order and its amount when it is a paid
   * order of the school, and changes nothing otherwise.
   */
  lemma AppendOrder(schoolId: string, orders: seq<Order>, payouts: seq<PayoutRequest>, o: Order)
    ensures var before := Summary(schoolId, orders, payouts);
            var after := Summary(schoolId, orders + [o], payouts);
            if IsPaidOrderOf(o, schoolId) then
              after.totalOrders == before.totalOrders + 1 &&
              after.totalRevenue == before.totalRevenue + AmountOrZero(o.amount)
            else
              after == before
  {
    var p := PaidOrderFilter(schoolId);
    FilterAppend(orders, [o], p);
    assert Filter([o], p) == if p(o) then [o] else [];
    SumAppend(Filter(orders, p), Filter([o], p), OrderAmount);
  }

  /**
   * Appending one payout request: the order figures stay; the amount paid
   * out grows by its amount when it is an approved or paid request of the
   * school, and nothing changes otherwise.
   */
  lemma AppendPayout(schoolId: string, orders: seq<Order>, payouts: seq<PayoutRequest>, p: PayoutRequest)
    ensures PaidOut(schoolId, payouts + [p])
            == PaidOut(schoolId, payouts) + (if IsSettledPayoutOf(p, schoolId) then AmountOrZero(p.amount) else 0.0)
    ensures var before := Summary(schoolId, orders, payouts);
            var after := Summary(schoolId, orders, payouts + [p]);
            after.totalOrders == before.totalOrders && after.totalRevenue == before.totalRevenue &&
            (!IsSettledPayoutOf(p, schoolId) ==> after == before)
  {
    var q := SettledPayoutFilter(schoolId);
    FilterAppend(payouts, [p], q);
    assert Filter([p], q) == if q(p) then [p] else [];
    SumAppend(Filter(payouts, q), Filter([p], q), PayoutAmount);
  }

  /** An order that is not a paid order of the school can be removed from anywhere. */
  lemma IrrelevantOrderIgnored(schoolId: string, before: seq<Order>, after: seq<Order>,
                               o: Order, payouts: seq<PayoutRequest>)
    requires !IsPaidOrderOf(o, schoolId)
    ensures Summary(schoolId, before + [o] + after, payouts) == Summary(schoolId, before + after, payouts)
  {
    var p := PaidOrderFilter(schoolId);
    FilterAppend(before + [o], after, p);
    FilterAppend(before, [o], p);
    FilterAppend(before, after, p);
    assert [o][1..] == [];
    assert Filter([o], p) == [];
    assert PaidOrders(schoolId, before + [o] + after) == PaidOrders(schoolId, before + after);
  }

  /** A payout request that is not approved or paid for the school can be removed from anywhere. */
  lemma IrrelevantPayoutIgnored(schoolId: string, orders: seq<Order>, before: seq<PayoutRequest>,
                                after: seq<PayoutRequest>, p: PayoutRequest)
    requires !IsSettledPayoutOf(p, schoolId)
    ensures Summary(schoolId, orders, before + [p] + after) == Summary(schoolId, orders, before + after)
  {
    var q := SettledPayoutFilter(schoolId);
    FilterAppend(before + [p], after, q);
    FilterAppend(before, [p], q);
    FilterAppend(before, after, q);
    assert [p][1..] == [];
    assert Filter([p], q) == [];
    assert SettledPayouts(schoolId, before + [p] + after) == SettledPayouts(schoolId, before + after);
  }

  /** Only the school's paid orders and its approved or paid payout requests matter. */
  lemma OnlyMatchingRecordsMatter(schoolId: string, orders: seq<Order>, payouts: seq<PayoutRequest>)
    ensures Summary(schoolId, orders, payouts)
            == Summary(schoolId, PaidOrders(schoolId, orders), SettledPayouts(schoolId, payouts))
  {
    FilterNarrow(orders, PaidOrderFilter(schoolId), PaidOrderFilter(schoolId));
    FilterNarrow(payouts, SettledPayoutFilter(schoolId), SettledPayoutFilter(schoolId));
  }

  /** The summary does not depend on the order in which the database returns documents. */
  lemma SummaryIgnoresDocumentOrder(schoolId: string, orders1: seq<Order>, orders2: seq<Order>,
                                    payouts1: seq<PayoutRequest>, payouts2: seq<PayoutRequest>)
    requires multiset(orders1) == multiset(orders2)
    requires multiset(payouts1) == multiset(payouts2)
    ensures Summary(schoolId, orders1, payouts1) == Summary(schoolId, orders2, payouts2)
  {
    var paid1, paid2 := PaidOrders(schoolId, orders1), PaidOrders(schoolId, orders2);
    FilterPermutation(orders1, orders2, PaidOrderFilter(schoolId));
    assert |paid1| == |multiset(paid1)| == |multiset(paid2)| == |paid2|;
    SumPermutation(paid1, paid2, OrderAmount);
    FilterPermutation(payouts1, payouts2, SettledPayoutFilter(schoolId));
    SumPermutation(SettledPayouts(schoolId, payouts1), SettledPayouts(schoolId, payouts2), PayoutAmount);
  }

  /**
   * With valid records (amounts present and not negative) the revenue is not
   * negative and the pending payout never exceeds it.
   */
  lemma PendingWithinRevenue(schoolId: string, orders: seq<Order>, payouts: seq<PayoutRequest>)
    requires forall i :: 0 <= i < |orders| ==> ValidOrder(orders[i])
    requires forall i :: 0 <= i < |payouts| ==> ValidPayout(payouts[i])
    ensures var r := Summary(schoolId, orders, payouts);
            0.0 <= r.totalRevenue && 0.0 <= r.pendingPayout <= r.totalRevenue
  {
    var paid := PaidOrders(schoolId, orders);
    forall i | 0 <= i < |paid|
      ensures OrderAmount(paid[i]) >= 0.0
    {
      assert paid[i] in orders;
    }
    SumNonNegative(paid, OrderAmount);
    var settled := SettledPayouts(schoolId, payouts);
    forall i | 0 <= i < |settled|
      ensures PayoutAmount(settled[i]) >= 0.0
    {
      assert settled[i] in payouts;
    }
    SumNonNegative(settled, PayoutAmount);
  }

  /**
   * Orders [paid 100, paid 50, pending 30] and payout requests
   * [approved 40, pending 20] give 2 orders, revenue 150 and 110 pending.
   */
  lemma WorkedExample()
    ensures var orders := [Order("S", "1", Some(100.0), "paid", None),
                           Order("S", "2", Some(50.0), "paid", None),
                           Order("S", "3", Some(30.0), "pending", None)];
            var payouts := [PayoutRequest("S", Some(40.0), "B", "H", "N", "I", "approved"),
                            PayoutRequest("S", Some(20.0), "B", "H", "N", "I", "pending")];
            Summary("S", orders, payouts) == RevenueSummary(2, 150.0, 110.0)
  {
    var orders := [Order("S", "1", Some(100.0), "paid", None),
                   Order("S", "2", Some(50.0), "paid", None),
                   Order("S", "3", Some(30.0), "pending", None)];
    var payouts := [PayoutRequest("S", Some(40.0), "B", "H", "N", "I", "approved"),
                    PayoutRequest("S", Some(20.0), "B", "H", "N", "I", "pending")];
    AppendOrder("S", [], payouts, orders[0]);
    assert [] + [orders[0]] == orders[..1];
    AppendOrder("S", orders[..1], payouts, orders[1]);
    assert orders[..1] + [orders[1]] == orders[..2];
    AppendOrder("S", orders[..2], payouts, orders[2]);
    assert orders[..2] + [orders[2]] == orders;
    AppendPayout("S", orders, [], payouts[0]);
    assert [] + [payouts[0]] == payouts[..1];
    AppendPayout("S", orders, payouts[..1], payouts[1]);
    assert payouts[..1] + [payouts[1]] == payouts;
  }
}
