/** The API as one state machine over the store, and what holds of every step
    and of every sequence of steps. */
module EndpointLaws {
  import opened Wrappers
  import opened Documents
  import opened Schemas
  import opened DocumentStore
  import opened Endpoints

  datatype Request =
    | GetMenu(availableOnly: bool)
    | PostMenu(body: Doc)
    | GetOrders
    | PostOrder(body: Doc)
    | GetPayments
    | PostPayment(body: Doc)

  /** One request together with what its handler observes besides the request. */
  datatype Call = Call(req: Request, env: Env)

  /** Dispatches a request to its handler. */
  function Step(db: Option<Db>, req: Request, rt: Runtime, env: Env): (t: Transition)
    ensures t.db.Some? <==> db.Some?
    ensures req.GetMenu? || req.GetOrders? || req.GetPayments? ==> t.db == db
    ensures t.db.Some? && db.Some? ==> t.db.value.nextId >= db.value.nextId
    ensures t.response.Created? && db.Some? ==> t.db.Some? && t.db.value.nextId > db.value.nextId
  {
    match req
    case GetMenu(availableOnly) => Transition(ListMenu(db, availableOnly, rt), db)
    case PostMenu(body) => AddMenuItem(db, body, rt)
    case GetOrders => Transition(ListOrders(db, rt), db)
    case PostOrder(body) => CreateOrder(db, body, rt)
    case GetPayments => Transition(ListPayments(db, rt), db)
    case PostPayment(body) => CreatePayment(db, body, rt, env)
  }

  /** The store after serving `calls` in order; a connected store stays connected. */
  function Run(db: Option<Db>, calls: seq<Call>, rt: Runtime): (r: Option<Db>)
    ensures r.Some? <==> db.Some?
    ensures r.Some? && db.Some? ==> r.value.nextId >= db.value.nextId
    decreases |calls|
  {
    if |calls| == 0 then db
    else Run(Step(db, calls[0].req, rt, calls[0].env).db, calls[1..], rt)
  }

  /** Whether the request's body passes its schema (a GET has no body). */
  predicate BodyAccepted(req: Request, rt: Runtime) {
    match req
    case PostMenu(body) => ValidateMenuItem(body).Success?
    case PostOrder(body) => ValidateOrder(body).Success?
    case PostPayment(body) => ValidatePayment(body, rt.parseDatetime).Success?
    case _ => true
  }

  /** Without a store every request is refused: 503 when its body is acceptable,
      422 otherwise (the body is validated before the handler runs). */
  lemma AbsentStoreRefuses(req: Request, rt: Runtime, env: Env)
    ensures Step(None, req, rt, env).db.None?
    ensures Step(None, req, rt, env).response.Status() == if BodyAccepted(req, rt) then 503 else 422
  {
  }

  // ---------------------------------------------------------------------------
  // Invariants of every step
  // ---------------------------------------------------------------------------

  /** Every stored record satisfies its schema's bounds. */
  predicate AllValid(s: Db) {
    && (forall k :: k in s.menu ==> s.menu[k].Valid())
    && (forall k :: k in s.orders ==> s.orders[k].order.Valid())
    && (forall k :: k in s.payments ==> s.payments[k].Valid())
  }

  lemma StepKeepsRecordsValid(s: Db, req: Request, rt: Runtime, env: Env)
    requires AllValid(s)
    ensures Step(Some(s), req, rt, env).db.Some?
    ensures AllValid(Step(Some(s), req, rt, env).db.value)
  {
  }

  /** A stored order either stays as it is or is marked paid at `now`. */
  predicate OrderMayBecome(before: StoredOrder, after: StoredOrder, now: Instant) {
    after == before || after == MarkPaid(before, now)
  }

  /** Nothing stored is removed; menu items and payments never change; an order
      changes at most by being marked paid at `now`. */
  predicate Evolves(s: Db, s': Db, now: Instant) {
    && (forall k :: k in s.menu ==> k in s'.menu && s'.menu[k] == s.menu[k])
    && (forall k :: k in s.payments ==> k in s'.payments && s'.payments[k] == s.payments[k])
    && (forall k :: k in s.orders ==> k in s'.orders && OrderMayBecome(s.orders[k], s'.orders[k], now))
  }

  lemma StepOnlyAddsOrMarksPaid(s: Db, req: Request, rt: Runtime, env: Env)
    ensures Step(Some(s), req, rt, env).db.Some?
    ensures Evolves(s, Step(Some(s), req, rt, env).db.value, env.updateClock)
  {
  }

  /** Across any sequence of requests a stored order keeps every field but its
      status and `updated_at`, and its status either stays or has become paid. */
  lemma {:induction false} OrdersOnlyMoveToPaid(s: Db, calls: seq<Call>, rt: Runtime, k: Id)
    requires k in s.orders
    ensures Run(Some(s), calls, rt).Some?
    ensures k in Run(Some(s), calls, rt).value.orders
    ensures Run(Some(s), calls, rt).value.orders[k].order.(status := s.orders[k].order.status) == s.orders[k].order
    ensures Run(Some(s), calls, rt).value.orders[k].order.status in {s.orders[k].order.status, Paid}
    decreases |calls|
  {
    if |calls| > 0 {
      var t := Step(Some(s), calls[0].req, rt, calls[0].env);
      StepOnlyAddsOrMarksPaid(s, calls[0].req, rt, calls[0].env);
      OrdersOnlyMoveToPaid(t.db.value, calls[1..], rt, k);
    }
  }

  /** Once paid, an order stays paid whatever requests follow. */
  lemma PaidStaysPaid(s: Db, calls: seq<Call>, rt: Runtime, k: Id)
    requires k in s.orders && s.orders[k].order.status == Paid
    ensures Run(Some(s), calls, rt).Some? && k in Run(Some(s), calls, rt).value.orders
    ensures Run(Some(s), calls, rt).value.orders[k].order.status == Paid
  {
    OrdersOnlyMoveToPaid(s, calls, rt, k);
  }

  /** Stored records stay within their schemas' bounds whatever requests follow. */
  lemma {:induction false} RunKeepsRecordsValid(s: Db, calls: seq<Call>, rt: Runtime)
    requires AllValid(s)
    ensures Run(Some(s), calls, rt).Some? && AllValid(Run(Some(s), calls, rt).value)
    decreases |calls|
  {
    if |calls| > 0 {
      StepKeepsRecordsValid(s, calls[0].req, rt, calls[0].env);
      RunKeepsRecordsValid(Step(Some(s), calls[0].req, rt, calls[0].env).db.value, calls[1..], rt);
    }
  }

  // ---------------------------------------------------------------------------
  // Listings
  // ---------------------------------------------------------------------------

  /** A presented menu item shows its availability unchanged. */
  lemma PresentedAvailability(id: Id, m: MenuItem, rt: Runtime)
    ensures "is_available" in MenuDoc(id, m) && MenuDoc(id, m)["is_available"] == Bool(m.isAvailable)
    ensures "is_available" in Present(MenuDoc(id, m), rt)
    ensures Present(MenuDoc(id, m), rt)["is_available"] == Bool(m.isAvailable)
  {
  }

  /** `GET /menu` lists a stored item exactly when the filter lets it through:
      always without `available_only`, only if available with it. */
  lemma ListMenuShowsExactlyMatching(s: Db, availableOnly: bool, rt: Runtime, id: Id)
    requires id in s.menu
    ensures ListMenu(Some(s), availableOnly, rt).Listing?
    ensures Present(MenuDoc(id, s.menu[id]), rt) in ListMenu(Some(s), availableOnly, rt).docs
        <==> (availableOnly ==> s.menu[id].isAvailable)
  {
    var m := s.menu[id];
    var d := Present(MenuDoc(id, m), rt);
    var docs := ListMenu(Some(s), availableOnly, rt).docs;
    PresentedAvailability(id, m, rt);
    if availableOnly && d in docs {
      var id' :| id' in FindMenu(s, MenuQuery(availableOnly)) && id' in s.menu
                 && Present(MenuDoc(id', s.menu[id']), rt) == d;
      PresentedAvailability(id', s.menu[id'], rt);
    }
    if availableOnly ==> m.isAvailable {
      PresentedAvailability(id, m, rt);
      assert id in FindMenu(s, MenuQuery(availableOnly));
    }
  }

  /** `GET /menu` lists nothing else: every listed document is a stored item,
      presented, that the filter lets through. */
  lemma ListMenuListsOnlyMatching(s: Db, availableOnly: bool, rt: Runtime)
    ensures ListMenu(Some(s), availableOnly, rt).Listing?
    ensures forall d :: d in ListMenu(Some(s), availableOnly, rt).docs ==>
      exists id :: id in s.menu && (availableOnly ==> s.menu[id].isAvailable) && d == Present(MenuDoc(id, s.menu[id]), rt)
  {
    forall d | d in ListMenu(Some(s), availableOnly, rt).docs
      ensures exists id :: id in s.menu && (availableOnly ==> s.menu[id].isAvailable) && d == Present(MenuDoc(id, s.menu[id]), rt)
    {
      var id :| id in FindMenu(s, MenuQuery(availableOnly)) && id in s.menu && d == Present(MenuDoc(id, s.menu[id]), rt);
      assert "is_available" in MenuDoc(id, s.menu[id]);
    }
  }

  /** A menu item just added appears under the default filter exactly when it is
      available, which it is unless the body said otherwise. */
  lemma AddedMenuItemListedIffAvailable(s: Db, body: Doc, rt: Runtime)
    requires ValidateMenuItem(body).Success?
    ensures AddMenuItem(Some(s), body, rt).db.Some?
    ensures var t := AddMenuItem(Some(s), body, rt);
            var m := ValidateMenuItem(body).value;
            (Present(MenuDoc(NextId(s), m), rt) in ListMenu(t.db, true, rt).docs
             <==> ("is_available" !in body || body["is_available"] == Bool(true)))
  {
    var t := AddMenuItem(Some(s), body, rt);
    ListMenuShowsExactlyMatching(t.db.value, true, rt, NextId(s));
  }

  // ---------------------------------------------------------------------------
  // Orders and payments together
  // ---------------------------------------------------------------------------

  /** A succeeded payment naming the id an order creation returned marks that
      order paid, given that ObjectId reads back the text it prints. */
  lemma SucceededPaymentMarksOrderPaid(s: Db, orderBody: Doc, paymentBody: Doc, rt: Runtime, env: Env)
    requires CreateOrder(Some(s), orderBody, rt).response.Created?
    requires ValidatePayment(paymentBody, rt.parseDatetime).Success?
    requires ValidatePayment(paymentBody, rt.parseDatetime).value.status == Succeeded
    requires ValidatePayment(paymentBody, rt.parseDatetime).value.orderId == rt.text(Oid(NextId(s)))
    requires rt.objectId(rt.text(Oid(NextId(s)))) == Some(NextId(s))
    requires env.updateDelivered
    ensures CreateOrder(Some(s), orderBody, rt).response.body[PublicIdKey] == Str(rt.text(Oid(NextId(s))))
    ensures var t1 := CreateOrder(Some(s), orderBody, rt);
            var t2 := CreatePayment(t1.db, paymentBody, rt, env);
            && t2.response.Created?
            && t2.db.Some? && NextId(s) in t2.db.value.orders
            && t2.db.value.orders[NextId(s)].order.status == Paid
  {
  }

  /** The code marks a cancelled order paid too: no status guards the update. */
  lemma CancelledOrderCanBecomePaid(s: Db, k: Id, body: Doc, rt: Runtime, env: Env)
    requires k in s.orders && s.orders[k].order.status == Cancelled
    requires ValidatePayment(body, rt.parseDatetime).Success?
    requires ValidatePayment(body, rt.parseDatetime).value.status == Succeeded
    requires rt.objectId(ValidatePayment(body, rt.parseDatetime).value.orderId) == Some(k)
    requires env.updateDelivered
    ensures CreatePayment(Some(s), body, rt, env).db.Some?
    ensures k in CreatePayment(Some(s), body, rt, env).db.value.orders
    ensures CreatePayment(Some(s), body, rt, env).db.value.orders[k].order.status == Paid
  {
  }

  /** A payment whose order update cannot happen is still recorded and answered
      with 201, and no order changes. */
  lemma PaymentWithoutOrderStillRecorded(s: Db, body: Doc, rt: Runtime, env: Env)
    requires ValidatePayment(body, rt.parseDatetime).Success?
    requires var p := ValidatePayment(body, rt.parseDatetime).value;
             rt.objectId(p.orderId).None? || rt.objectId(p.orderId).value !in s.orders || !env.updateDelivered
    ensures var t := CreatePayment(Some(s), body, rt, env);
            && t.response.Status() == 201
            && t.db.Some?
            && t.db.value.orders == s.orders
            && NextId(s) in t.db.value.payments
  {
  }

  /** An order body with one line of two at 10 and the given claimed subtotal. */
  function TwoAtTen(claimed: int): Doc {
    map["user_email" := Str("student@example.edu"),
        "items" := List([Object(map["qty" := Int(2), "unit_price" := Int(10)])]),
        "subtotal" := Int(claimed)]
  }

  /** Two at 10 claimed as 20 is accepted as a pending order; claimed as 21 it is
      refused, for any rounding that tells 20 from 21. */
  lemma SubtotalScenario(s: Db, rt: Runtime)
    requires rt.round2(20.0) != rt.round2(21.0)
    ensures CreateOrder(Some(s), TwoAtTen(20), rt).response == Created(IdBody(NextId(s), rt)["status" := Str("pending")])
    ensures CreateOrder(Some(s), TwoAtTen(21), rt) == Transition(SubtotalMismatch, Some(s))
  {
  }
}
