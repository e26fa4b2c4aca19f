/**
 * The HTTP handlers over an in-memory picture of the three collections.
 * The read-only handlers (login, listing, revenue) are functions of the
 * collections' contents; the handlers that insert a document are methods
 * of `Store`, whose fields are the `school`, `order` and `payoutrequest`
 * collections.  Identifiers the database generates for new documents are
 * passed in as parameters.
 */
module Handlers {
  import opened Wrappers
  import opened Seqs
  import opened Schemas
  import Revenue

  datatype HttpError = HttpError(status: nat, detail: string)

  datatype Result<T> = Ok(value: T) | Err(error: HttpError)

  const EmailAlreadyRegistered := HttpError(400, "Email already registered")
  const InvalidCredentials := HttpError(401, "Invalid credentials")
  const SchoolNotFound := HttpError(404, "School not found")
  /** The validation layer's rejection of a request body. */
  const Unprocessable := HttpError(422, "Unprocessable Entity")
  /** A stored document that fails the schema when a list response is built. */
  const InternalError := HttpError(500, "Internal Server Error")

  /**
   * A stored school's `_id`: a 12-byte object id, kept as its lower-case hex
   * text, or a plain string written by some other means.
   */
  datatype DocId = ObjectIdKey(hex: string) | RawKey(text: string)

  datatype SchoolDoc = SchoolDoc(id: DocId, school: School)

  datatype LoginResponse = LoginResponse(schoolId: string, name: string, email: string)

  datatype OrderCreated = OrderCreated(id: string)

  datatype PayoutCreated = PayoutCreated(requestId: string, status: string)

  predicate IsHexDigit(c: char)
  {
    '0' <= c <= '9' || 'a' <= c <= 'f' || 'A' <= c <= 'F'
  }

  predicate IsLowerHexDigit(c: char)
  {
    '0' <= c <= '9' || 'a' <= c <= 'f'
  }

  /** Text the object-id library accepts: 24 hex digits in either case. */
  predicate IsObjectIdText(s: string)
  {
    |s| == 24 && forall i :: 0 <= i < |s| ==> IsHexDigit(s[i])
  }

  /** The text the library prints for an object id: 24 lower-case hex digits. */
  predicate IsCanonicalObjectId(s: string)
  {
    |s| == 24 && forall i :: 0 <= i < |s| ==> IsLowerHexDigit(s[i])
  }

  function LowerHexDigit(c: char): (d: char)
    requires IsHexDigit(c)
    ensures IsLowerHexDigit(d)
    ensures IsLowerHexDigit(c) ==> d == c
    ensures 'A' <= c <= 'F' ==> d as int == c as int + 32
  {
    if 'A' <= c <= 'F' then (c as int - 'A' as int + 'a' as int) as char else c
  }

  /** The object id that valid id text denotes; upper and lower case denote the same id. */
  function ParseObjectId(s: string): (id: DocId)
    requires IsObjectIdText(s)
    ensures id.ObjectIdKey? && IsCanonicalObjectId(id.hex)
    ensures |id.hex| == |s| && forall i :: 0 <= i < |s| ==> id.hex[i] == LowerHexDigit(s[i])
    ensures IsCanonicalObjectId(s) ==> id == ObjectIdKey(s)
  {
    ObjectIdKey(seq(|s|, i requires 0 <= i < |s| => LowerHexDigit(s[i])))
  }

  /** The string form of a stored `_id`. */
  function IdText(id: DocId): string
  {
    match id
    case ObjectIdKey(h) => h
    case RawKey(t) => t
  }

  predicate HasId(schools: seq<SchoolDoc>, id: DocId)
  {
    exists i :: 0 <= i < |schools| && schools[i].id == id
  }

  predicate EmailRegistered(schools: seq<SchoolDoc>, email: string)
  {
    exists i :: 0 <= i < |schools| && schools[i].school.email == email
  }

  predicate HasCredentials(d: SchoolDoc, email: string, password: string)
  {
    d.school.email == email && d.school.password == password
  }

  /** No two schools share an `_id`. */
  predicate DistinctIds(schools: seq<SchoolDoc>)
  {
    forall i, j :: 0 <= i < j < |schools| ==> schools[i].id != schools[j].id
  }

  /** Every object-id `_id` is held as the canonical text the library prints. */
  predicate CanonicalObjectIds(schools: seq<SchoolDoc>)
  {
    forall i :: 0 <= i < |schools| && schools[i].id.ObjectIdKey? ==> IsCanonicalObjectId(schools[i].id.hex)
  }

  /** No two schools share an email. */
  predicate DistinctEmails(schools: seq<SchoolDoc>)
  {
    forall i, j :: 0 <= i < j < |schools| ==> schools[i].school.email != schools[j].school.email
  }

  /**
   * The school lookup of payout creation: by object id when the text is a
   * valid object id, then by the raw string as `_id`.
   */
  predicate SchoolFound(schools: seq<SchoolDoc>, schoolId: string)
  {
    (IsObjectIdText(schoolId) && HasId(schools, ParseObjectId(schoolId))) || HasId(schools, RawKey(schoolId))
  }

  function ResponseFor(d: SchoolDoc): LoginResponse
  {
    LoginResponse(IdText(d.id), d.school.name, d.school.email)
  }

  /**
   * Login: succeeds exactly when some stored school has this email and this
   * password, and answers with that school's id, name and email.
   */
  function Login(schools: seq<SchoolDoc>, email: string, password: string): (r: Result<LoginResponse>)
    ensures r.Ok? <==> exists i :: 0 <= i < |schools| && HasCredentials(schools[i], email, password)
    ensures r.Ok? ==> exists i :: 0 <= i < |schools| && HasCredentials(schools[i], email, password) &&
                                  r.value == ResponseFor(schools[i])
    ensures r.Err? ==> r.error == InvalidCredentials
  {
    match FindFirst(schools, (d: SchoolDoc) => HasCredentials(d, email, password))
    case None => Err(InvalidCredentials)
    case Some(i) => Ok(ResponseFor(schools[i]))
  }

  /** When emails are distinct, login with a school's credentials answers with that school. */
  lemma LoginFindsAccount(schools: seq<SchoolDoc>, i: nat)
    requires DistinctEmails(schools)
    requires i < |schools|
    ensures Login(schools, schools[i].school.email, schools[i].school.password) == Ok(ResponseFor(schools[i]))
  {
  }

  /**
   * Listing orders: all of the school's orders, whatever their status, each
   * as often as it is stored; it fails when one of them no longer passes
   * the order schema.
   */
  function ListOrders(orders: seq<Order>, schoolId: string): (r: Result<seq<Order>>)
    ensures r.Ok? <==> forall i :: 0 <= i < |orders| && orders[i].schoolId == schoolId ==> ValidOrder(orders[i])
    ensures r.Ok? ==> forall o :: multiset(r.value)[o] == if o.schoolId == schoolId then multiset(orders)[o] else 0
    ensures r.Err? ==> r.error == InternalError
  {
    var mine := Filter(orders, (o: Order) => o.schoolId == schoolId);
    if forall i :: 0 <= i < |mine| ==> ValidOrder(mine[i]) then
      assert forall o :: multiset(mine)[o] == if o.schoolId == schoolId then multiset(orders)[o] else 0 by {
        forall o
          ensures multiset(mine)[o] == if o.schoolId == schoolId then multiset(orders)[o] else 0
        {
          FilterMultiplicity(orders, (o: Order) => o.schoolId == schoolId, o);
        }
      }
      Ok(mine)
    else
      Err(InternalError)
  }

  /** Listing payout requests: the same as listing orders, over the payout collection. */
  function ListPayouts(payouts: seq<PayoutRequest>, schoolId: string): (r: Result<seq<PayoutRequest>>)
    ensures r.Ok? <==> forall i :: 0 <= i < |payouts| && payouts[i].schoolId == schoolId ==> ValidPayout(payouts[i])
    ensures r.Ok? ==> forall p :: multiset(r.value)[p] == if p.schoolId == schoolId then multiset(payouts)[p] else 0
    ensures r.Err? ==> r.error == InternalError
  {
    var mine := Filter(payouts, (p: PayoutRequest) => p.schoolId == schoolId);
    if forall i :: 0 <= i < |mine| ==> ValidPayout(mine[i]) then
      assert forall p :: multiset(mine)[p] == if p.schoolId == schoolId then multiset(payouts)[p] else 0 by {
        forall p
          ensures multiset(mine)[p] == if p.schoolId == schoolId then multiset(payouts)[p] else 0
        {
          FilterMultiplicity(payouts, (p: PayoutRequest) => p.schoolId == schoolId, p);
        }
      }
      Ok(mine)
    else
      Err(InternalError)
  }

  /** The revenue of a school is a function of the orders its listing shows. */
  lemma ListedOrdersDetermineRevenue(schoolId: string, orders: seq<Order>, payouts: seq<PayoutRequest>)
    ensures ListOrders(orders, schoolId).Ok? ==>
              Revenue.Summary(schoolId, ListOrders(orders, schoolId).value, payouts)
              == Revenue.Summary(schoolId, orders, payouts)
  {
    FilterNarrow(orders, Revenue.PaidOrderFilter(schoolId), (o: Order) => o.schoolId == schoolId);
  }

  class Store {
    var schools: seq<SchoolDoc>
    var orders: seq<Order>
    var payouts: seq<PayoutRequest>

    /** `_id`s are unique and object ids canonical, and signup keeps emails unique. */
    ghost predicate Valid()
      reads this
    {
      DistinctIds(schools) && CanonicalObjectIds(schools) && DistinctEmails(schools)
    }

    /** The collections as the service finds them at startup. */
    constructor (schools: seq<SchoolDoc>, orders: seq<Order>, payouts: seq<PayoutRequest>)
      requires DistinctIds(schools) && CanonicalObjectIds(schools) && DistinctEmails(schools)
      ensures Valid()
      ensures this.schools == schools && this.orders == orders && this.payouts == payouts
    {
      this.schools := schools;
      this.orders := orders;
      this.payouts := payouts;
    }

    /**
     * Signup: a body that fails the schema is rejected with 422, an email
     * already held by a school with 400, both leaving the store as it was;
     * otherwise the school is appended under the new id, and both login and
     * the payout school lookup then find it.
     */
    method Signup(school: School, newId: string) returns (r: Result<LoginResponse>)
      requires Valid()
      requires IsCanonicalObjectId(newId) && !HasId(schools, ObjectIdKey(newId))
      modifies this
      ensures Valid()
      ensures orders == old(orders) && payouts == old(payouts)
      ensures !ValidSchool(school) ==> r == Err(Unprocessable) && schools == old(schools)
      ensures ValidSchool(school) && EmailRegistered(old(schools), school.email) ==>
                r == Err(EmailAlreadyRegistered) && schools == old(schools)
      ensures ValidSchool(school) && !EmailRegistered(old(schools), school.email) ==>
                r == Ok(LoginResponse(newId, school.name, school.email)) &&
                schools == old(schools) + [SchoolDoc(ObjectIdKey(newId), school)]
      ensures r.Ok? ==> Login(schools, school.email, school.password) == r
      ensures r.Ok? ==> SchoolFound(schools, r.value.schoolId)
    {
      if !ValidSchool(school) {
        return Err(Unprocessable);
      }
      var existing := FindFirst(schools, (d: SchoolDoc) => d.school.email == school.email);
      if existing.Some? {
        return Err(EmailAlreadyRegistered);
      }
      var doc := SchoolDoc(ObjectIdKey(newId), school);
      schools := schools + [doc];
      r := Ok(LoginResponse(newId, school.name, school.email));
      LoginFindsAccount(schools, |schools| - 1);
      assert HasId(schools, ParseObjectId(newId)) by {
        assert schools[|schools| - 1].id == ObjectIdKey(newId);
      }
    }

    /** Order creation appends any order that passes the schema; the school is not checked. */
    method CreateOrder(order: Order, newId: string) returns (r: Result<OrderCreated>)
      requires Valid()
      modifies this
      ensures Valid()
      ensures schools == old(schools) && payouts == old(payouts)
      ensures ValidOrder(order) ==> r == Ok(OrderCreated(newId)) && orders == old(orders) + [order]
      ensures !ValidOrder(order) ==> r == Err(Unprocessable) && orders == old(orders)
    {
      if !ValidOrder(order) {
        return Err(Unprocessable);
      }
      orders := orders + [order];
      r := Ok(OrderCreated(newId));
    }

    /** The two-step school lookup of payout creation. */
    method LookupSchool(schoolId: string) returns (found: bool)
      ensures found == SchoolFound(schools, schoolId)
    {
      var hit: Option<nat> := None;
      if IsObjectIdText(schoolId) {
        var key := ParseObjectId(schoolId);
        hit := FindFirst(schools, (d: SchoolDoc) => d.id == key);
      }
      if hit.None? {
        hit := FindFirst(schools, (d: SchoolDoc) => d.id == RawKey(schoolId));
      }
      found := hit.Some?;
    }

    /**
     * Payout creation: a body that fails the schema is rejected with 422 and
     * an unknown school with 404, both appending nothing; otherwise the
     * request is appended exactly as sent, with the caller's status, and the
     * response reports status "pending" whatever that status was.
     */
    method CreatePayout(req: PayoutRequest, newId: string) returns (r: Result<PayoutCreated>)
      requires Valid()
      modifies this
      ensures Valid()
      ensures schools == old(schools) && orders == old(orders)
      ensures !ValidPayout(req) ==> r == Err(Unprocessable) && payouts == old(payouts)
      ensures ValidPayout(req) && !SchoolFound(schools, req.schoolId) ==>
                r == Err(SchoolNotFound) && payouts == old(payouts)
      ensures ValidPayout(req) && SchoolFound(schools, req.schoolId) ==>
                r == Ok(PayoutCreated(newId, "pending")) && payouts == old(payouts) + [req]
    {
      if !ValidPayout(req) {
        return Err(Unprocessable);
      }
      var found := LookupSchool(req.schoolId);
      if !found {
        return Err(SchoolNotFound);
      }
      payouts := payouts + [req];
      r := Ok(PayoutCreated(newId, "pending"));
    }

    /**
     * Payout creation as its response describes it: the request is stored
     * with status "pending", so creating it never changes any school's
     * revenue summary.
     */
    method CreatePayoutAsPending(req: PayoutRequest, newId: string) returns (r: Result<PayoutCreated>)
      requires Valid()
      modifies this
      ensures Valid()
      ensures schools == old(schools) && orders == old(orders)
      ensures !ValidPayout(req) ==> r == Err(Unprocessable) && payouts == old(payouts)
      ensures ValidPayout(req) && !SchoolFound(schools, req.schoolId) ==>
                r == Err(SchoolNotFound) && payouts == old(payouts)
      ensures ValidPayout(req) && SchoolFound(schools, req.schoolId) ==>
                r == Ok(PayoutCreated(newId, "pending")) &&
                payouts == old(payouts) + [req.(status := DefaultPayoutStatus)]
      ensures forall schoolId :: Revenue.Summary(schoolId, orders, payouts)
                                 == Revenue.Summary(schoolId, old(orders), old(payouts))
    {
      if !ValidPayout(req) {
        return Err(Unprocessable);
      }
      var found := LookupSchool(req.schoolId);
      if !found {
        return Err(SchoolNotFound);
      }
      var stored := req.(status := DefaultPayoutStatus);
      forall schoolId
        ensures Revenue.Summary(schoolId, orders, payouts + [stored])
                == Revenue.Summary(schoolId, orders, payouts)
      {
        PendingRequestLeavesSummary(schoolId, orders, payouts, stored);
      }
      payouts := payouts + [stored];
      r := Ok(PayoutCreated(newId, "pending"));
    }
  }

  /** A request stored as "pending" leaves every revenue summary as it was. */
  lemma PendingRequestLeavesSummary(schoolId: string, orders: seq<Order>, payouts: seq<PayoutRequest>,
                                    p: PayoutRequest)
    requires p.status == "pending"
    ensures Revenue.Summary(schoolId, orders, payouts + [p]) == Revenue.Summary(schoolId, orders, payouts)
  {
    Revenue.AppendPayout(schoolId, orders, payouts, p);
  }

  /**
   * Payout creation as written: a request sent with status "paid" is stored
   * as "paid", so a school with 100 of paid orders and nothing paid out has
   * 100 pending before and 0 pending right after its own request for 100,
   * while the response says "pending".
   */
  lemma CallerStatusSettlesAtCreation()
    ensures var orders := [Order("S", "1", Some(100.0), "paid", None)];
            var req := PayoutRequest("S", Some(100.0), "B", "H", "N", "I", "paid");
            Revenue.Summary("S", orders, []).pendingPayout == 100.0 &&
            Revenue.Summary("S", orders, [] + [req]).pendingPayout == 0.0
  {
  }

  /**
   * The same scenario through the handlers: a store with one school and a
   * paid order of 100; the school's own payout request for 100, sent with
   * status "paid", is accepted with the answer "pending" and takes its
   * pending payout from 100 to 0.
   */
  method CallerStatusScenario() returns (before: real, answer: Result<PayoutCreated>, after: real)
    ensures before == 100.0
    ensures answer.Ok? && answer.value.status == "pending"
    ensures after == 0.0
  {
    var schoolId := "000000000000000000000001";
    var school := SchoolDoc(ObjectIdKey(schoolId), School("S", "s@example.org", "secret1", None, None));
    var order := Order(schoolId, "1", Some(100.0), "paid", None);
    var store := new Store([school], [order], []);
    before := Revenue.Summary(schoolId, store.orders, store.payouts).pendingPayout;
    Revenue.AppendOrder(schoolId, [], [], order);
    assert [] + [order] == [order];
    assert IsCanonicalObjectId(schoolId);
    assert SchoolFound(store.schools, schoolId) by {
      assert store.schools[0].id == ParseObjectId(schoolId);
    }
    var req := PayoutRequest(schoolId, Some(100.0), "B", "H", "N", "I", "paid");
    answer := store.CreatePayout(req, "000000000000000000000002");
    Revenue.AppendPayout(schoolId, [order], [], req);
    after := Revenue.Summary(schoolId, store.orders, store.payouts).pendingPayout;
  }
}
