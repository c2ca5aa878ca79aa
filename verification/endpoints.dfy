/** The HTTP handlers of the canteen API as pure transitions from a store (or
    its absence) and a request to a response and the store afterwards. */
module Endpoints {
  import opened Wrappers
  import opened Documents
  import opened Schemas
  import opened Pricing
  import opened DocumentStore

  /** Library functions the handlers call, taken as given. */
  datatype Runtime = Runtime(
    text: Value -> string,                     // Python's str(), applied to the stored _id
    isoUtc: Instant -> string,                 // astimezone(timezone.utc).isoformat()
    objectId: string -> Option<Id>,            // ObjectId(text); None where it raises InvalidId
    parseDatetime: string -> Option<Instant>,  // the schema layer's reading of datetime text
    round2: real -> real)                      // round(x, 2)

  /** What a payment handler observes besides its body: the clock read when
      stamping `paid_at`, the clock read for the order update, and whether the
      store carried out that update (a store error there is swallowed). */
  datatype Env = Env(paidClock: Instant, updateClock: Instant, updateDelivered: bool)

  datatype Response =
    | Created(body: Doc)
    | Listing(docs: set<Doc>)
    | Error(code: int, detail: string)
  {
    function Status(): int {
      match this
      case Created(_) => 201
      case Listing(_) => 200
      case Error(code, _) => code
    }
  }

  const Unavailable: Response := Error(503, "Database not available")
  const SubtotalMismatch: Response := Error(400, "Subtotal mismatch")
  /** An exception the handler does not catch (summing a non-numeric line). */
  const ServerError: Response := Error(500, "Internal Server Error")

  function Unprocessable(e: ValidationError): Response {
    Error(422, e.field)
  }

  /** The response, and the store afterwards (None when it is not connected). */
  datatype Transition = Transition(response: Response, db: Option<Db>)

  /** A stored document as a response shows it. */
  function Present(doc: Doc, rt: Runtime): Doc {
    SerializeDoc(doc, rt.text, rt.isoUtc)
  }

  /** The body of a 201 response: the new document's id as text. */
  function IdBody(id: Id, rt: Runtime): Doc {
    map[PublicIdKey := Str(rt.text(Oid(id)))]
  }

  // ---------------------------------------------------------------------------
  // Menu
  // ---------------------------------------------------------------------------

  /** The filter `GET /menu` passes to the store. */
  function MenuQuery(availableOnly: bool): (f: Filter)
    ensures forall d :: Matches(d, f) <==> (availableOnly ==> "is_available" in d && d["is_available"] == Bool(true))
  {
    if availableOnly then map["is_available" := Bool(true)] else map[]
  }

  function ListMenu(db: Option<Db>, availableOnly: bool, rt: Runtime): (r: Response)
    ensures db.None? ==> r == Unavailable
    ensures db.Some? ==> r.Listing?
    ensures db.Some? ==> forall d: Doc :: d in r.docs ==>
      PublicIdKey in d && d[PublicIdKey].Str? && StoreIdKey !in d
  {
    match db
    case None => Unavailable
    case Some(s) =>
      var found := FindMenu(s, MenuQuery(availableOnly));
      Listing(set id | id in found && id in s.menu :: Present(MenuDoc(id, s.menu[id]), rt))
  }

  function AddMenuItem(db: Option<Db>, body: Doc, rt: Runtime): (t: Transition)
    ensures ValidateMenuItem(body).Failure? ==>
      t == Transition(Unprocessable(ValidateMenuItem(body).error), db)
    ensures ValidateMenuItem(body).Success? && db.None? ==> t == Transition(Unavailable, None)
    ensures ValidateMenuItem(body).Success? && db.Some? ==>
      && t.db.Some?
      && t.response == Created(IdBody(NextId(db.value), rt))
      && Added(db.value.menu, t.db.value.menu, NextId(db.value), ValidateMenuItem(body).value)
      && t.db.value.orders == db.value.orders
      && t.db.value.payments == db.value.payments
  {
    match ValidateMenuItem(body)
    case Failure(e) => Transition(Unprocessable(e), db)
    case Success(item) =>
      match db
      case None => Transition(Unavailable, None)
      case Some(s) => Transition(Created(IdBody(NextId(s), rt)), Some(InsertMenuItem(s, item)))
  }

  // ---------------------------------------------------------------------------
  // Orders
  // ---------------------------------------------------------------------------

  function ListOrders(db: Option<Db>, rt: Runtime): (r: Response)
    ensures db.None? ==> r == Unavailable
    ensures db.Some? ==> r.Listing?
    ensures db.Some? ==> forall d: Doc :: d in r.docs ==>
      PublicIdKey in d && d[PublicIdKey].Str? && StoreIdKey !in d && forall k: string :: k in d ==> !d[k].Time?
  {
    match db
    case None => Unavailable
    case Some(s) =>
      Listing(set id | id in s.orders :: Present(OrderDoc(id, s.orders[id]), rt))
  }

  /** `create_order`: reject a claimed subtotal that does not round to the
      recomputed one; otherwise store the order as submitted. */
  function CreateOrder(db: Option<Db>, body: Doc, rt: Runtime): (t: Transition)
    ensures ValidateOrder(body).Failure? ==>
      t == Transition(Unprocessable(ValidateOrder(body).error), db)
    ensures ValidateOrder(body).Success? && db.None? ==> t == Transition(Unavailable, None)
    ensures ValidateOrder(body).Success? && db.Some? && Subtotal(ValidateOrder(body).value.items).None? ==>
      t == Transition(ServerError, db)
    ensures ValidateOrder(body).Success? && db.Some? && Subtotal(ValidateOrder(body).value.items).Some? ==>
      var o := ValidateOrder(body).value;
      (rt.round2(Subtotal(o.items).value) != rt.round2(o.subtotal) ==> t == Transition(SubtotalMismatch, db))
    ensures ValidateOrder(body).Success? && db.Some? && Subtotal(ValidateOrder(body).value.items).Some? ==>
      var o := ValidateOrder(body).value;
      var s := db.value;
      (rt.round2(Subtotal(o.items).value) == rt.round2(o.subtotal) ==>
        && t.db.Some?
        && t.response == Created(IdBody(NextId(s), rt)[ "status" := Str(o.status.Text())])
        && Added(s.orders, t.db.value.orders, NextId(s), StoredOrder(o, None))
        && t.db.value.menu == s.menu
        && t.db.value.payments == s.payments)
  {
    match ValidateOrder(body)
    case Failure(e) => Transition(Unprocessable(e), db)
    case Success(o) =>
      match db
      case None => Transition(Unavailable, None)
      case Some(s) =>
        match Subtotal(o.items)
        case None => Transition(ServerError, db)
        case Some(expected) =>
          if rt.round2(expected) != rt.round2(o.subtotal) then Transition(SubtotalMismatch, db)
          else
            var body' := IdBody(NextId(s), rt)["status" := Str(o.status.Text())];
            Transition(Created(body'), Some(InsertOrder(s, o)))
  }

  // ---------------------------------------------------------------------------
  // Payments
  // ---------------------------------------------------------------------------

  function ListPayments(db: Option<Db>, rt: Runtime): (r: Response)
    ensures db.None? ==> r == Unavailable
    ensures db.Some? ==> r.Listing?
    ensures db.Some? ==> forall d: Doc :: d in r.docs ==>
      PublicIdKey in d && d[PublicIdKey].Str? && StoreIdKey !in d && forall k: string :: k in d ==> !d[k].Time?
  {
    match db
    case None => Unavailable
    case Some(s) => Listing(set id | id in s.payments :: Present(PaymentDoc(id, s.payments[id]), rt))
  }

  /** The payment as persisted: a succeeded payment without `paid_at` is stamped `now`. */
  function StampPaidAt(p: Payment, now: Instant): (q: Payment)
    ensures q == p.(paidAt := q.paidAt)
    ensures p.status == Succeeded ==> q.paidAt.Some?
    ensures p.paidAt.Some? || p.status != Succeeded ==> q == p
    ensures q.paidAt != p.paidAt ==> q.paidAt == Some(now)
  {
    if p.status == Succeeded && p.paidAt.None? then p.(paidAt := Some(now)) else p
  }

  /** The order the side effect of `p` marks paid, if any: the payment
      succeeded, its `order_id` parses, the store applied the update, and an
      order with that id exists. */
  predicate Marks(s: Db, p: Payment, rt: Runtime, env: Env, k: Id) {
    && p.status == Succeeded
    && env.updateDelivered
    && rt.objectId(p.orderId) == Some(k)
    && k in s.orders
  }

  /** `$set: {status: "paid", updated_at: now}` on one stored order. */
  function MarkPaid(so: StoredOrder, now: Instant): StoredOrder {
    StoredOrder(so.order.(status := Paid), Some(now))
  }

  /** The best-effort order update; every failure leaves the store as it was. */
  function MarkOrderPaid(s: Db, p: Payment, rt: Runtime, env: Env): (r: Db)
    ensures r.menu == s.menu && r.payments == s.payments
    ensures r.orders.Keys == s.orders.Keys && r.nextId == s.nextId
    ensures forall k :: k in s.orders && Marks(s, p, rt, env, k) ==> r.orders[k] == MarkPaid(s.orders[k], env.updateClock)
    ensures forall k :: k in s.orders && !Marks(s, p, rt, env, k) ==> r.orders[k] == s.orders[k]
  {
    if p.status == Succeeded && env.updateDelivered then
      match rt.objectId(p.orderId)
      case None => s
      case Some(k) =>
        if k in s.orders then s.(orders := s.orders[k := MarkPaid(s.orders[k], env.updateClock)]) else s
    else s
  }

  /** `create_payment`: stamp, persist, then try to mark the referenced order paid. */
  function CreatePayment(db: Option<Db>, body: Doc, rt: Runtime, env: Env): (t: Transition)
    ensures ValidatePayment(body, rt.parseDatetime).Failure? ==>
      t == Transition(Unprocessable(ValidatePayment(body, rt.parseDatetime).error), db)
    ensures ValidatePayment(body, rt.parseDatetime).Success? && db.None? ==> t == Transition(Unavailable, None)
    ensures ValidatePayment(body, rt.parseDatetime).Success? && db.Some? ==>
      var p := ValidatePayment(body, rt.parseDatetime).value;
      var s := db.value;
      && t.db.Some?
      && t.response == Created(IdBody(NextId(s), rt))
      && Added(s.payments, t.db.value.payments, NextId(s), StampPaidAt(p, env.paidClock))
      && t.db.value.menu == s.menu
      && t.db.value.orders.Keys == s.orders.Keys
      && (forall k :: k in s.orders && Marks(s, p, rt, env, k) ==>
            t.db.value.orders[k] == MarkPaid(s.orders[k], env.updateClock))
      && (forall k :: k in s.orders && !Marks(s, p, rt, env, k) ==>
            t.db.value.orders[k] == s.orders[k])
  {
    match ValidatePayment(body, rt.parseDatetime)
    case Failure(e) => Transition(Unprocessable(e), db)
    case Success(p) =>
      match db
      case None => Transition(Unavailable, None)
      case Some(s) =>
        var recorded := InsertPayment(s, StampPaidAt(p, env.paidClock));
        Transition(Created(IdBody(NextId(s), rt)), Some(MarkOrderPaid(recorded, p, rt, env)))
  }
}
