# School portal backend: revenue reconciliation and handlers

A Dafny model of a small school-portal backend. Schools sign up and log in.
Orders and payout requests are recorded per school. A revenue endpoint
reconciles the two on every call:

- total orders: the school's orders whose status is exactly `"paid"`;
- total revenue: the sum of their amounts;
- pending payout: revenue minus the school's `"approved"`/`"paid"` payout
  requests, clamped at zero.

The database is pictured in memory as three sequences: the `school`, `order`
and `payoutrequest` collections.

Modules:

- `Wrappers` (`wrappers.dfy`): `Option`.
- `Seqs` (`seqs.dfy`): the query shapes the handlers use. These are filter,
  find-one and sum of a field. Lemmas cover concatenation and reordering.
- `Schemas` (`schemas.dfy`): the `School`, `Order` and `PayoutRequest`
  records, their validity predicates, and constructors that apply the
  defaults (`"paid"` for orders, `"pending"` for payout requests).
- `Revenue` (`revenue.dfy`): the revenue summary as a pure function, with its
  lemmas.
- `Handlers` (`handlers.dfy`): the HTTP handlers. Login and the two listings
  are functions of the collections' contents. Signup, order creation and
  payout creation are methods of the class `Store`, whose fields are the three
  collections.

Modelling choices:

- Amounts are exact `real`s, not floats.
- A stored amount is `Option<real>`. `None` is a document with no amount
  field, which the revenue query counts as 0. The validation layer requires
  the field to be present.
- Status fields are free strings. The schema lists the usual values only as
  descriptions and never checks them.
- A request body that fails its schema is answered with 422 before the
  handler runs. The model writes this as an error result of the handler, not
  as a precondition.
- The listing handlers rebuild every stored document through its schema. A
  document that no longer passes (a missing or negative amount) makes the
  response fail, and the model returns a 500 error in that case.
- A stored school `_id` is either an object id, kept as 24 lower-case hex
  digits, or a raw string. Payout creation first tries the caller's text as
  an object id, accepting either case, and then tries it as a raw `_id`.
- The database generates a fresh id for each inserted document. The model
  takes that id as a parameter. For signup it must be a canonical object id
  that no school has yet.

## Model

| member | source | states |
|---|---|---|
| `Schemas.NewSchool` | schemas.py:45-51 | Address and phone default to absent. A school is valid exactly when its password has at least 6 characters. |
| `Schemas.NewOrder` | schemas.py:53-59 | A missing status becomes `"paid"` and a given status is kept as sent. The amount is present. The order is valid exactly when the amount is at least 0. |
| `Schemas.NewPayoutRequest` | schemas.py:61-69 | A missing status becomes `"pending"` and a given status is kept. The request is valid exactly when the amount is at least 0. |
| `Schemas.StatusUnconstrained` | schemas.py:53-69 | Changing an order's or a payout request's status to any string never changes its validity. |
| `Schemas.OptionalFieldsMayBeAbsent` | schemas.py:45-59 | A school without address and phone, or an order without items, is valid exactly when the full record is. |
| `Revenue.Summary` | main.py:103-114 | The pending payout is never negative. It is at least revenue minus paid-out. It is either 0 or exactly revenue minus paid-out, so it equals max(revenue - paid-out, 0). |
| `Revenue.TotalOrdersCountsPaidOrders` | main.py:107-109 | Total orders is the number of paid orders. An order occurs among them exactly as often as it is stored when its school matches and its status is `"paid"`, and never otherwise. |
| `Revenue.NoPaidOrders` | main.py:107-113 | With no paid order of the school, there are 0 orders and 0 revenue, whatever the payout requests. Nothing is pending when none of the school's approved or paid requests has a negative amount. A missing amount counts as 0. |
| `Revenue.AppendOrder` | main.py:107-108 | A further paid order of the school adds one order and its amount, a missing amount adding 0. Any other order changes nothing. |
| `Revenue.AppendPayout` | main.py:111-113 | A further payout request adds its amount to paid-out exactly when it is the school's and `"approved"` or `"paid"`. Order figures never change, and any other request changes nothing. |
| `Revenue.IrrelevantOrderIgnored` | main.py:107 | An order of another school, or with any status other than `"paid"`, can be removed from any position without changing the summary. |
| `Revenue.IrrelevantPayoutIgnored` | main.py:111 | A payout request of another school, or `"pending"`/`"rejected"`/any other status, can be removed from any position without changing the summary. |
| `Revenue.OnlyMatchingRecordsMatter` | main.py:107-112 | The summary over the whole collections equals the summary over just the two query results. |
| `Revenue.SummaryIgnoresDocumentOrder` | main.py:107-113 | Collections holding the same documents in any order give the same summary. |
| `Revenue.PendingWithinRevenue` | main.py:113 | When all orders and payout requests are valid (amounts present and at least 0), revenue is at least 0 and the pending payout lies between 0 and revenue. |
| `Revenue.WorkedExample` | main.py:103-114 | Orders [paid 100, paid 50, pending 30] and payout requests [approved 40, pending 20] give 2 orders, revenue 150 and 110 pending. |
| `Handlers.ParseObjectId` | main.py:135 | Valid object-id text denotes the object id with the same 24 hex digits, each upper-case letter lowered (code point plus 32) and every other digit kept. So texts that differ only in letter case denote the same id, and canonical text denotes itself. |
| `Handlers.Login` | main.py:73-80 | Login succeeds if and only if some stored school has exactly that email and that password, and then answers with that school's id text, name and email. Otherwise it fails with 401 "Invalid credentials". |
| `Handlers.LoginFindsAccount` | main.py:77-80 | When emails are distinct, logging in with a stored school's credentials answers with that very school. |
| `Handlers.ListOrders` | main.py:90-96 | The listing holds every order of the school, whatever its status, as often as it is stored, and nothing else. It fails with 500 exactly when one of those orders fails the order schema. |
| `Handlers.ListPayouts` | main.py:123-128 | The same as the order listing, over the payout collection and its schema. |
| `Handlers.ListedOrdersDetermineRevenue` | main.py:94-107 | When the order listing succeeds, the revenue summary computed from the orders it returns equals the one computed from the whole collection. |
| `Handlers.Store.constructor` | main.py:8 | The store starts from the collections found at startup, and its invariant holds: unique `_id`s, every object id held as 24 lower-case hex digits, and unique emails. |
| `Handlers.Store.Signup` | main.py:64-71 | A body failing the schema gets 422. An email already held gets 400. In both cases nothing changes. Otherwise exactly that school is appended under the new id, and the answer echoes id, name and email. Login with the same email and password then returns that answer, and the payout lookup finds the returned id. Email uniqueness is preserved, and orders and payouts are untouched. |
| `Handlers.Store.CreateOrder` | main.py:98-101 | A valid order is appended unconditionally, without checking the school, and its new id is returned. An invalid one gets 422 and nothing changes. |
| `Handlers.Store.LookupSchool` | main.py:135-138 | The result is true exactly when the text is valid object-id text naming a stored school's object id, or some school's `_id` is that raw string. |
| `Handlers.Store.CreatePayout` | main.py:130-142 | A body failing the schema gets 422. An unknown school gets 404. In both cases nothing is appended. Otherwise the request is appended exactly as sent, including the caller's status, and the answer is the new id with status `"pending"`. Schools and orders are untouched. |
| `Handlers.Store.CreatePayoutAsPending` | main.py:130-142 | The corrected creation has the same error paths. It stores the request with status `"pending"`, and no school's revenue summary changes. |
| `Handlers.PendingRequestLeavesSummary` | main.py:111-113 | Appending a payout request whose status is `"pending"` leaves every school's summary unchanged. |
| `Handlers.CallerStatusSettlesAtCreation` | main.py:141-142 | A school has 100 of paid orders and 100 pending. After a request for 100 sent with status `"paid"` is stored as sent, it has 0 pending. |
| `Handlers.CallerStatusScenario` | main.py:130-142 | The same case goes through `Store.CreatePayout` on a store with one school and one paid order of 100. Pending is 100 before the request. The request for 100 sent as `"paid"` gets the answer `"pending"`. Pending is 0 afterwards. |

## Findings

| source | as written | input that shows it | evidently intended | confidence | as-written member | corrected member |
|---|---|---|---|---|---|---|
| main.py:141-142 | Payout creation stores the request with whatever `status` the caller sent, while the response says `"pending"`. | An existing school with 100 of paid orders sends a request for 100 with status `"paid"`. Its pending payout drops from 100 to 0 at once, without any approval. | New requests are stored as `"pending"`, as the response reports, so that only an approval moves money out of pending. | medium, not executed | `Handlers.CallerStatusScenario` (through `Handlers.Store.CreatePayout`; see also `Handlers.CallerStatusSettlesAtCreation`) | `Handlers.Store.CreatePayoutAsPending` (with `Handlers.PendingRequestLeavesSummary`) |

`Handlers.Store.CreatePayout` models the code as written. The corrected
method sits beside it.

## Left out

- The "database not configured" 500 answers when no connection exists (main.py:75, 92, 105, 126, 132). The model always has its store.
- Signup tests the database handle's truth value (main.py:67). What that does belongs to the database library, which is not part of this model. The model takes the email lookup to run.
- The database module (`db`, `create_document`, `get_documents`) is not part of this model. Inserting a document is appending the validated record. Any extra fields the module might add are not modelled, and the new id is a parameter.
- Email syntax checking and normalisation by the email validator are not modelled. `ValidSchool` checks only the password length.
- The object-id library is modelled only for text input: 24 hex digits, case-insensitive. That is the only kind of input the handler passes it.
- `Handlers.Login`: the database may return any matching school, so the contract promises "some school with those credentials". With distinct emails that is the one school, by `Handlers.LoginFindsAccount`.
- The field-level detail of a 422 answer is one fixed error value.
- Stored documents always have a status and the other string fields. Only a missing amount is representable.
- The document `_id` that the listings strip is not kept for orders and payout requests.
- Floating-point sums and the float conversions in the revenue handler are exact real arithmetic here.
- Concurrent requests are not modelled. Every handler runs alone against the store.
- `Revenue.PendingWithinRevenue` also needs valid orders, not only valid payout requests. A negative order amount would make the revenue negative while the pending payout stays 0.
- The `/` and `/test` endpoints, the application and CORS setup, and server startup (main.py:11-50, 144-147): no logic to model.
- The `User` and `Product` schemas (schemas.py:19-39): no endpoint uses them.
