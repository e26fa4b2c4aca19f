/**
 * The three collections' record shapes, the constraints the validation
 * layer enforces on them, and the defaults it fills in when a request
 * leaves a field out.
 *
 * An `amount` is `Some(v)` when the document carries the field and `None`
 * when it does not; the validation layer demands it, but the revenue
 * computation reads stored documents and counts a missing amount as 0.
 * Status fields are free strings: the values "paid", "pending",
 * "cancelled", "approved" and "rejected" are conventions, never checked.
 */
module Schemas {
  import opened Wrappers

  datatype School = School(
    name: string,
    email: string,
    password: string,
    address: Option<string>,
    phone: Option<string>)

  datatype Order = Order(
    schoolId: string,
    orderNumber: string,
    amount: Option<real>,
    status: string,
    items: Option<seq<string>>)

  datatype PayoutRequest = PayoutRequest(
    schoolId: string,
    amount: Option<real>,
    bankName: string,
    accountHolder: string,
    accountNumber: string,
    ifsc: string,
    status: string)

  const MinPasswordLength: nat := 6
  const DefaultOrderStatus := "paid"
  const DefaultPayoutStatus := "pending"

  /** The password is at least six characters long (email syntax is not modelled). */
  predicate ValidSchool(s: School)
  {
    |s.password| >= MinPasswordLength
  }

  /** An amount is present and not negative. */
  predicate ValidAmount(a: Option<real>)
  {
    a.Some? && a.value >= 0.0
  }

  predicate ValidOrder(o: Order)
  {
    ValidAmount(o.amount)
  }

  predicate ValidPayout(p: PayoutRequest)
  {
    ValidAmount(p.amount)
  }

  /** A school built from a request body; address and phone default to absent. */
  function NewSchool(name: string, email: string, password: string,
                     address: Option<string>, phone: Option<string>): (s: School)
    ensures s.name == name && s.email == email && s.password == password
    ensures s.address == address && s.phone == phone
    ensures ValidSchool(s) <==> |password| >= 6
  {
    School(name, email, password, address, phone)
  }

  /** An order built from a request body; a missing status becomes "paid". */
  function NewOrder(schoolId: string, orderNumber: string, amount: real,
                    status: Option<string>, items: Option<seq<string>>): (o: Order)
    ensures o.schoolId == schoolId && o.orderNumber == orderNumber && o.items == items
    ensures o.amount == Some(amount)
    ensures status.None? ==> o.status == "paid"
    ensures status.Some? ==> o.status == status.value
    ensures ValidOrder(o) <==> amount >= 0.0
  {
    Order(schoolId, orderNumber, Some(amount),
          match status case Some(st) => st case None => DefaultOrderStatus,
          items)
  }

  /** A payout request built from a request body; a missing status becomes "pending". */
  function NewPayoutRequest(schoolId: string, amount: real, bankName: string,
                            accountHolder: string, accountNumber: string, ifsc: string,
                            status: Option<string>): (p: PayoutRequest)
    ensures p.schoolId == schoolId && p.amount == Some(amount)
    ensures p.bankName == bankName && p.accountHolder == accountHolder
    ensures p.accountNumber == accountNumber && p.ifsc == ifsc
    ensures status.None? ==> p.status == "pending"
    ensures status.Some? ==> p.status == status.value
    ensures ValidPayout(p) <==> amount >= 0.0
  {
    PayoutRequest(schoolId, Some(amount), bankName, accountHolder, accountNumber, ifsc,
                  match status case Some(st) => st case None => DefaultPayoutStatus)
  }

  /** Validity never looks at a status: any string is accepted. */
  lemma StatusUnconstrained(o: Order, p: PayoutRequest, st: string)
    ensures ValidOrder(o.(status := st)) == ValidOrder(o)
    ensures ValidPayout(p.(status := st)) == ValidPayout(p)
  {
  }

  /** Address, phone and items may be absent in a valid record. */
  lemma OptionalFieldsMayBeAbsent(s: School, o: Order)
    ensures ValidSchool(s.(address := None, phone := None)) == ValidSchool(s)
    ensures ValidOrder(o.(items := None)) == ValidOrder(o)
  {
  }
}
