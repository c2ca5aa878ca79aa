# MessEase order/payment model

A Dafny model of the business core of the MessEase canteen backend. The backend is a small
HTTP API over a document store. It lists and adds menu items, accepts orders and records
payments. The model covers:

- the four record schemas (`User`, `Menuitem`, `Order`, `Payment`). These are their closed
  enumerations, `ge=0` bounds, defaults and optional fields. Request-body validation is a
  function from a JSON object to a record or a 422 error.
- `serialize_doc`, the rewrite applied to every listed document. The store's `_id` becomes a
  text `id`, and datetimes become UTC ISO text.
- every endpoint that touches the store, as a pure transition
  `(store or its absence, request, runtime, env) -> (response, store afterwards)`. These are
  `GET /menu` with its availability filter, `POST /menu`, `GET /orders`, `POST /order` with
  its subtotal check, `GET /payments`, and `POST /payment` with its `paid_at` stamping and
  its best-effort "mark the order paid" side effect.
- a state machine over all endpoints (`EndpointLaws.Step`, `EndpointLaws.Run`), with
  invariants of every step and of every sequence of steps.

Modules: `Wrappers` (Option, Result), `Documents` (values, documents, `SerializeDoc`,
filters), `Schemas` (records and validation), `Pricing` (the recomputed subtotal),
`DocumentStore` (collections, fresh identifiers, find), `Endpoints` (the handlers),
`EndpointLaws` (the state machine and its properties).

Library behaviour the handlers rely on is passed in as the fields of `Endpoints.Runtime`:
`str()` of an ObjectId, UTC ISO formatting, `ObjectId(text)` parsing, datetime parsing, and
`round(x, 2)`. `round` is deliberately uninterpreted. Acceptance of an order is stated as
`round2(recomputed) == round2(claimed)`, and no IEEE rounding is reproduced. The clock readings
and whether the store applied the order update are passed in as `Endpoints.Env`.

Where the system's documented behaviour and its code differ, the model follows the code:

- The documented order life cycle has no transition out of `cancelled`. The code's order update has no
  status guard, so a succeeded payment that names a cancelled order marks it `paid`
  (`EndpointLaws.CancelledOrderCanBecomePaid`).
- FastAPI validates the body before the handler's `db is None` guard runs. So an invalid body
  gets 422 even when the store is absent. Only a valid body gets 503
  (`EndpointLaws.AbsentStoreRefuses`). The same holds for query parameters, which the model
  takes as already parsed (see "Left out").
- `create_order` multiplies whatever the line dictionaries hold. A non-numeric `qty` or
  `unit_price` makes Python raise, and the request fails with 500 before anything is stored
  (`Endpoints.ServerError`).

`GET /menu` without `available_only` uses its default of true, so it is
`EndpointLaws.GetMenu(true)`.

The dumped form of each record (`model_dump`, the stored document before `_id` is added) is
given by `Schemas.DumpUser`, `Schemas.DumpMenuItem`, `Schemas.DumpOrder` and
`Schemas.DumpPayment`. These carry no contract of their own: what they promise is stated by
the round-trip lemmas below, which validate each dump back to its record.

## Model

| member | source | states |
|---|---|---|
| Documents.SerializeDoc | main.py:23-30 | the result has no `_id`; if the input had `_id`, the result's `id` is its text; the key set is the input's with `_id` replaced by `id`; datetime values become their UTC text under the same key; every other kept value is unchanged; no datetime remains |
| Documents.SerializeDocIdempotent | main.py:23-30 | serialising a serialised document changes nothing |
| Schemas.ParseRole | schemas.py:10 | exactly the texts `student` and `admin` are accepted, each as its own role |
| Schemas.ParseOrderStatus | schemas.py:25 | exactly `pending`, `paid`, `cancelled` are accepted, each as its own status |
| Schemas.ParseCurrency | schemas.py:30 | exactly `INR` and `USD` are accepted |
| Schemas.ParseProvider | schemas.py:31 | exactly `stripe`, `cash`, `upi` are accepted |
| Schemas.ParsePaymentStatus | schemas.py:32 | exactly `succeeded`, `failed`, `pending` are accepted |
| Schemas.ReadStr | schemas.py:8-9 | a required text field is accepted exactly when it is present and text, and its value is that text; otherwise the field is named in the error |
| Schemas.ReadOptionalStr | schemas.py:15 | an optional text field is accepted when absent, null or text; it is None exactly when absent or null |
| Schemas.ReadNonNegative | schemas.py:16 | a `float` field with `ge=0` is accepted exactly when it is a number that is at least 0, and its value is that number |
| Schemas.ReadBool | schemas.py:17 | a defaulted bool field takes its default when absent; when present it is accepted exactly when it is a bool |
| Schemas.ReadLiteral | schemas.py:25 | a defaulted enumeration field takes its default when absent; when present it is accepted exactly when it is text the enumeration parses |
| Schemas.ReadOptionalDatetime | schemas.py:33 | an optional datetime is accepted exactly when absent, null, a datetime or parsable text; it is None exactly when absent or null; a datetime is taken as is and text as its parse |
| Schemas.AsDicts | schemas.py:22 | a list is accepted exactly when every element is a dictionary, and the result holds those dictionaries in order |
| Schemas.ReadDicts | schemas.py:22 | a required `List[dict]` field is accepted exactly when it is a list of dictionaries, and its value is those dictionaries; otherwise the field is named in the error |
| Schemas.ValidateUser | schemas.py:7-11 | a user body is accepted exactly when each field is; `role` defaults to student and `is_active` to true; present fields are taken as given |
| Schemas.ValidateMenuItem | schemas.py:13-18 | accepted exactly when each field is; the price is at least 0; `is_available` defaults to true; description and category are none exactly when absent or null, and otherwise the submitted text |
| Schemas.ValidateOrder | schemas.py:20-25 | accepted exactly when each field is; the subtotal is at least 0; `status` defaults to pending; the items are the submitted dictionaries, unconstrained |
| Schemas.ValidatePayment | schemas.py:27-33 | accepted exactly when each field is; the amount is the submitted number and at least 0; currency, provider and status are the submitted values or default to INR, stripe and pending; `paid_at` is none exactly when absent or null, and otherwise the submitted datetime or the parse of the submitted text |
| Schemas.UserRoundTrip | schemas.py:7-11 | validating a dumped user gives it back |
| Schemas.MenuItemRoundTrip | schemas.py:13-18 | validating a dumped valid menu item gives it back |
| Schemas.OrderRoundTrip | schemas.py:20-25 | validating a dumped valid order gives it back, line items included |
| Schemas.PaymentRoundTrip | schemas.py:27-33 | validating a dumped valid payment gives it back |
| Pricing.LineAmount | main.py:90 | with neither key a line adds 0; without `qty` it adds `unit_price`; without `unit_price` it adds 0; with both it adds their product; it fails exactly when a present value is not a number |
| Pricing.Subtotal | main.py:90 | the recomputed subtotal exists exactly when every line's amount does, and is 0 for no lines |
| Pricing.SubtotalOfConcatenation | main.py:90 | the subtotal of two groups of lines is the sum of their subtotals |
| Pricing.SubtotalOfSingleLine | main.py:90 | the subtotal of one line is that line's amount; with the concatenation law this fixes the subtotal of every list |
| Pricing.SumLineAmounts | main.py:90 | the in-order summing loop succeeds exactly when the subtotal exists, and then returns it |
| DocumentStore.NextId | main.py:74 | the identifier the next insert hands out is used by no collection |
| DocumentStore.InsertMenuItem | main.py:74 | exactly one new menu item under a fresh id; the other collections are unchanged |
| DocumentStore.InsertOrder | main.py:93 | exactly one new order under a fresh id, with no update stamp; the other collections are unchanged |
| DocumentStore.InsertPayment | main.py:112 | exactly one new payment under a fresh id; the other collections are unchanged |
| Endpoints.MenuQuery | main.py:66 | with `available_only` a document matches exactly when its `is_available` is true; without it every document matches |
| Endpoints.ListMenu | main.py:62-68 | 503 without a store; otherwise a listing whose every document has a text `id` and no `_id` |
| Endpoints.AddMenuItem | main.py:70-75 | 422 and nothing changes for an invalid body; 503 without a store; otherwise 201 with the new id, and exactly that item is added |
| Endpoints.ListOrders | main.py:78-83 | 503 without a store; otherwise every listed document has a text `id`, no `_id` and no raw datetime (a stamped `updated_at` is UTC text) |
| Endpoints.CreateOrder | main.py:85-94 | 422 for an invalid body; 503 without a store; 500 for a non-numeric line; 400 "Subtotal mismatch" with the store unchanged when the rounded sums differ; otherwise 201 with the id and the order's status, and exactly one new order |
| Endpoints.ListPayments | main.py:97-102 | 503 without a store; otherwise every listed document has a text `id`, no `_id` and no raw datetime |
| Endpoints.StampPaidAt | main.py:109-111 | only `paid_at` may change; a succeeded payment always ends with a `paid_at`; a supplied `paid_at` is kept; a new one is `now` |
| Endpoints.MarkOrderPaid | main.py:114-118 | the referenced order becomes paid with `updated_at` set when the update can happen; every other order, and every order when it cannot, is unchanged |
| Endpoints.CreatePayment | main.py:104-119 | 422 for an invalid body; 503 without a store; otherwise 201 with the new id, exactly one stamped payment added, menu unchanged, the referenced order marked paid when the update can happen, all other orders unchanged |
| EndpointLaws.Step | main.py:62-119 | a connected store stays connected; a GET leaves the store as it was; the next identifier never moves backwards, and a 201 moves it strictly forward |
| EndpointLaws.Run | main.py:62-119 | over any sequence of requests the store stays connected exactly when it was, and the next identifier never moves backwards |
| EndpointLaws.AbsentStoreRefuses | main.py:64-107 | without a store nothing is written, and every modelled request (query parameters already parsed) gets 503 when its body is valid and 422 otherwise |
| EndpointLaws.StepKeepsRecordsValid | schemas.py:13-33 | if every stored record satisfies its schema's bounds, it still does after any request |
| EndpointLaws.RunKeepsRecordsValid | schemas.py:13-33 | the same across any sequence of requests |
| EndpointLaws.StepOnlyAddsOrMarksPaid | main.py:104-119 | no request removes or changes a menu item or payment, and an order changes at most by being marked paid |
| EndpointLaws.OrdersOnlyMoveToPaid | main.py:115-116 | across any sequence of requests an order keeps every submitted field but its status, and its status is its old one or paid; `updated_at` may be stamped |
| EndpointLaws.PaidStaysPaid | main.py:115-116 | once paid, an order stays paid |
| EndpointLaws.ListMenuShowsExactlyMatching | main.py:66-68 | a stored item is listed exactly when `available_only` is off or the item is available |
| EndpointLaws.ListMenuListsOnlyMatching | main.py:66-68 | every listed document is a stored item, as presented, that the filter admits: available when `available_only` is on |
| EndpointLaws.AddedMenuItemListedIffAvailable | main.py:62-75 | a newly added item is listed under the default filter exactly when its body left `is_available` out or set it true |
| EndpointLaws.SucceededPaymentMarksOrderPaid | main.py:112-116 | a succeeded payment naming the id returned for a new order marks that order paid, given that ObjectId reads back its own text and the store applies the update |
| EndpointLaws.CancelledOrderCanBecomePaid | main.py:115-116 | a succeeded payment marks even a cancelled order paid |
| EndpointLaws.PaymentWithoutOrderStillRecorded | main.py:112-119 | when the order update cannot happen (unparsable id, missing order, store error), the payment is still recorded with 201 and no order changes |
| EndpointLaws.SubtotalScenario | main.py:90-94 | two at 10 claimed as 20 is accepted as pending; claimed as 21 it is refused with the store unchanged |

## Left out

- FastAPI routing, CORS middleware, uvicorn start-up and `PORT` parsing: framework plumbing.
- `GET /`, `GET /test` and `GET /schema` with the `SCHEMAS` registry: fixed text and introspection over library calls.
- `User` has no endpoint. Only its schema and validation are modelled.
- database.py is not part of this model. An insert is a map insert under a fresh identifier. A stored document is the dumped record plus `_id`. Any further fields that `create_document` may add are not modelled.
- DocumentStore.FindMenu: the store's `find` with an equality filter. It is the abstraction of `get_documents`, and database.py is not part of this model, so it carries no contract. What a listing holds is stated by `EndpointLaws.ListMenuShowsExactlyMatching` (every matching item is listed) and `EndpointLaws.ListMenuListsOnlyMatching` (nothing else is).
- Query parameters are taken as already parsed. An unparsable `limit` or `available_only` gets FastAPI's 422 before the handler's 503 guard runs; `EndpointLaws.Request` cannot express such a request.
- The `limit` parameter and store ordering: listings are sets of documents, not truncated or ordered lists.
- Floating point: money is exact `real`, and the line sum is exact. `round(x, 2)` is the uninterpreted `Runtime.round2`.
- `str()`, `isoformat`, `ObjectId(text)` and datetime text parsing are opaque functions in `Runtime`. Naive versus aware datetimes are not distinguished.
- Schemas.ReadNonNegative: pydantic's lax coercion of numeric text and bools to `float` is not modelled; such inputs are refused.
- Schemas.ReadBool: pydantic's lax coercion of numbers and text such as "true" to `bool` is not modelled; such inputs are refused.
- Schemas.ReadOptionalDatetime: pydantic's reading of numbers as Unix times is not modelled; numbers are refused.
- Schemas.ValidateUser: the 422 detail names only the first refused field, where pydantic lists every refused field. The same holds for the other validators.
- Store exceptions during an insert, which would surface as 500, are not modelled. A store error during the order update is the `Env.updateDelivered` flag.
- Endpoints.ListOrders: states the shape of each listed document, not which documents are listed. The listing is every stored order by construction.
- Endpoints.ListPayments: states the shape of each listed document, not which documents are listed, for the same reason.
- Concurrent requests: the code has no synchronisation, so a payment and an order update from different requests are not interleaved here.
