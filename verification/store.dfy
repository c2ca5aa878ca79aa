/** The document store behind the API: one collection per record kind, an
    insert that hands out a fresh identifier, and an equality-filter find. */
module DocumentStore {
  import opened Wrappers
  import opened Documents
  import opened Schemas

  /** An order as its collection holds it: the submitted record, plus the
      `updated_at` stamp the payment side effect sets. */
  datatype StoredOrder = StoredOrder(order: Order, updatedAt: Option<Instant>)

  datatype Store = Store(
    menu: map<Id, MenuItem>,
    orders: map<Id, StoredOrder>,
    payments: map<Id, Payment>,
    nextId: Id)
  {
    /** Every identifier in use was handed out before `nextId`. */
    predicate WellFormed() {
      && (forall id :: id in menu ==> id < nextId)
      && (forall id :: id in orders ==> id < nextId)
      && (forall id :: id in payments ==> id < nextId)
    }
  }

  /** A connected store. */
  type Db = s: Store | s.WellFormed() witness Store(map[], map[], map[], 0)

  /** The identifier the next insert hands out: used by no collection. */
  function NextId(s: Db): (id: Id)
    ensures id !in s.menu && id !in s.orders && id !in s.payments
  {
    s.nextId
  }

  /** `after` is `before` with exactly one new entry `id` holding `v`. */
  predicate Added<T(==)>(before: map<Id, T>, after: map<Id, T>, id: Id, v: T) {
    && id !in before
    && after.Keys == before.Keys + {id}
    && after[id] == v
    && forall k :: k in before ==> after[k] == before[k]
  }

  function InsertMenuItem(s: Db, m: MenuItem): (r: Db)
    ensures Added(s.menu, r.menu, NextId(s), m)
    ensures r.orders == s.orders && r.payments == s.payments
    ensures r.nextId > s.nextId
  {
    s.(menu := s.menu[s.nextId := m], nextId := s.nextId + 1)
  }

  function InsertOrder(s: Db, o: Order): (r: Db)
    ensures Added(s.orders, r.orders, NextId(s), StoredOrder(o, None))
    ensures r.menu == s.menu && r.payments == s.payments
    ensures r.nextId > s.nextId
  {
    s.(orders := s.orders[s.nextId := StoredOrder(o, None)], nextId := s.nextId + 1)
  }

  function InsertPayment(s: Db, p: Payment): (r: Db)
    ensures Added(s.payments, r.payments, NextId(s), p)
    ensures r.menu == s.menu && r.orders == s.orders
    ensures r.nextId > s.nextId
  {
    s.(payments := s.payments[s.nextId := p], nextId := s.nextId + 1)
  }

  // ---------------------------------------------------------------------------
  // Stored documents: the dumped record plus the store's `_id`
  // ---------------------------------------------------------------------------

  function MenuDoc(id: Id, m: MenuItem): Doc {
    DumpMenuItem(m)[StoreIdKey := Oid(id)]
  }

  function OrderDoc(id: Id, so: StoredOrder): Doc {
    var fields := DumpOrder(so.order);
    var stamped := if so.updatedAt.Some? then fields["updated_at" := Time(so.updatedAt.value)] else fields;
    stamped[StoreIdKey := Oid(id)]
  }

  function PaymentDoc(id: Id, p: Payment): Doc {
    DumpPayment(p)[StoreIdKey := Oid(id)]
  }

  /** The store's `find` on the menu collection: the items whose stored
      document matches the equality filter. */
  function FindMenu(s: Db, filter: Filter): set<Id> {
    set id | id in s.menu && Matches(MenuDoc(id, s.menu[id]), filter)
  }
}
