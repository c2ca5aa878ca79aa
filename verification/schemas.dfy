/** The four record kinds of the canteen API, the closed enumerations they use,
    and request-body validation: enumerations checked, lower bounds enforced,
    defaults filled in, optional fields allowed to be absent or null. */
module Schemas {
  import opened Wrappers
  import opened Documents

  // ---------------------------------------------------------------------------
  // Closed enumerations and their wire text
  // ---------------------------------------------------------------------------

  datatype Role = Student | Admin {
    function Text(): string {
      match this
      case Student => "student"
      case Admin => "admin"
    }
  }

  /** Accepts exactly the texts of the roles. */
  function ParseRole(s: string): (r: Option<Role>)
    ensures forall x: Role :: r == Some(x) <==> x.Text() == s
  {
    if s == "student" then Some(Student)
    else if s == "admin" then Some(Admin)
    else None
  }

  datatype OrderStatus = Pending | Paid | Cancelled {
    function Text(): string {
      match this
      case Pending => "pending"
      case Paid => "paid"
      case Cancelled => "cancelled"
    }
  }

  function ParseOrderStatus(s: string): (r: Option<OrderStatus>)
    ensures forall x: OrderStatus :: r == Some(x) <==> x.Text() == s
  {
    if s == "pending" then Some(Pending)
    else if s == "paid" then Some(Paid)
    else if s == "cancelled" then Some(Cancelled)
    else None
  }

  datatype Currency = INR | USD {
    function Text(): string {
      match this
      case INR => "INR"
      case USD => "USD"
    }
  }

  function ParseCurrency(s: string): (r: Option<Currency>)
    ensures forall x: Currency :: r == Some(x) <==> x.Text() == s
  {
    if s == "INR" then Some(INR)
    else if s == "USD" then Some(USD)
    else None
  }

  datatype Provider = Stripe | Cash | Upi {
    function Text(): string {
      match this
      case Stripe => "stripe"
      case Cash => "cash"
      case Upi => "upi"
    }
  }

  function ParseProvider(s: string): (r: Option<Provider>)
    ensures forall x: Provider :: r == Some(x) <==> x.Text() == s
  {
    if s == "stripe" then Some(Stripe)
    else if s == "cash" then Some(Cash)
    else if s == "upi" then Some(Upi)
    else None
  }

  datatype PaymentStatus = Succeeded | Failed | PaymentPending {
    function Text(): string {
      match this
      case Succeeded => "succeeded"
      case Failed => "failed"
      case PaymentPending => "pending"
    }
  }

  function ParsePaymentStatus(s: string): (r: Option<PaymentStatus>)
    ensures forall x: PaymentStatus :: r == Some(x) <==> x.Text() == s
  {
    if s == "succeeded" then Some(Succeeded)
    else if s == "failed" then Some(Failed)
    else if s == "pending" then Some(PaymentPending)
    else None
  }

  // ---------------------------------------------------------------------------
  // Records
  // ---------------------------------------------------------------------------

  datatype User = User(name: string, email: string, role: Role, isActive: bool)

  datatype MenuItem = MenuItem(
    title: string,
    description: Option<string>,
    price: real,
    isAvailable: bool,
    category: Option<string>)
  {
    predicate Valid() { price >= 0.0 }
  }

  /** An order line is a free-form dictionary; by convention it carries
      menuitem_id, title, qty, unit_price and line_total, none of them enforced. */
  type LineItem = map<string, Value>

  datatype Order = Order(
    userEmail: string,
    items: seq<LineItem>,
    subtotal: real,
    status: OrderStatus)
  {
    predicate Valid() { subtotal >= 0.0 }
  }

  datatype Payment = Payment(
    orderId: string,
    amount: real,
    currency: Currency,
    provider: Provider,
    status: PaymentStatus,
    paidAt: Option<Instant>)
  {
    predicate Valid() { amount >= 0.0 }
  }

  // ---------------------------------------------------------------------------
  // Field readers: one per kind of field declaration
  // ---------------------------------------------------------------------------

  /** The field whose value the schema refused. */
  datatype ValidationError = Invalid(field: string)

  /** A required `str` field. */
  function ReadStr(body: Doc, key: string): (r: Result<string, ValidationError>)
    ensures r.Success? <==> key in body && body[key].Str?
    ensures r.Success? ==> body[key] == Str(r.value)
    ensures r.Failure? ==> r.error == Invalid(key)
  {
    if key in body && body[key].Str? then Success(body[key].s) else Failure(Invalid(key))
  }

  /** An `Optional[str]` field defaulting to `None`. */
  function ReadOptionalStr(body: Doc, key: string): (r: Result<Option<string>, ValidationError>)
    ensures r.Success? <==> key !in body || body[key].Null? || body[key].Str?
    ensures r.Success? && r.value.None? <==> key !in body || body[key].Null?
    ensures r.Success? && r.value.Some? ==> key in body && body[key] == Str(r.value.value)
    ensures r.Failure? ==> r.error == Invalid(key)
  {
    if key !in body || body[key].Null? then Success(None)
    else if body[key].Str? then Success(Some(body[key].s))
    else Failure(Invalid(key))
  }

  /** A number as a `float` field takes it: an int or a float. */
  function AsFloat(v: Value): Option<real> {
    match v
    case Int(i) => Some(i as real)
    case Real(x) => Some(x)
    case _ => None
  }

  /** A required `float` field with `ge=0`. */
  function ReadNonNegative(body: Doc, key: string): (r: Result<real, ValidationError>)
    ensures r.Success? <==> key in body && AsFloat(body[key]).Some? && AsFloat(body[key]).value >= 0.0
    ensures r.Success? ==> AsFloat(body[key]) == Some(r.value) && r.value >= 0.0
    ensures r.Failure? ==> r.error == Invalid(key)
  {
    if key in body && AsFloat(body[key]).Some? && AsFloat(body[key]).value >= 0.0 then
      Success(AsFloat(body[key]).value)
    else
      Failure(Invalid(key))
  }

  /** A `bool` field with a default. */
  function ReadBool(body: Doc, key: string, default: bool): (r: Result<bool, ValidationError>)
    ensures key !in body ==> r == Success(default)
    ensures key in body ==> (r.Success? <==> body[key].Bool?)
    ensures key in body && r.Success? ==> body[key] == Bool(r.value)
    ensures r.Failure? ==> r.error == Invalid(key)
  {
    if key !in body then Success(default)
    else if body[key].Bool? then Success(body[key].b)
    else Failure(Invalid(key))
  }

  /** A `Literal[...]` field with a default; `parse` accepts exactly the literals. */
  function ReadLiteral<E>(body: Doc, key: string, default: E, parse: string -> Option<E>): (r: Result<E, ValidationError>)
    ensures key !in body ==> r == Success(default)
    ensures key in body ==> (r.Success? <==> body[key].Str? && parse(body[key].s).Some?)
    ensures key in body && r.Success? ==> parse(body[key].s) == Some(r.value)
    ensures r.Failure? ==> r.error == Invalid(key)
  {
    if key !in body then Success(default)
    else if body[key].Str? && parse(body[key].s).Some? then Success(parse(body[key].s).value)
    else Failure(Invalid(key))
  }

  /** An `Optional[datetime]` field defaulting to `None`: a datetime, or text that
      `parseDatetime` understands. */
  function ReadOptionalDatetime(body: Doc, key: string, parseDatetime: string -> Option<Instant>): (r: Result<Option<Instant>, ValidationError>)
    ensures r.Success? <==>
      key !in body || body[key].Null? || body[key].Time? || (body[key].Str? && parseDatetime(body[key].s).Some?)
    ensures r.Success? && r.value.None? <==> key !in body || body[key].Null?
    ensures key in body && body[key].Time? ==> r == Success(Some(body[key].t))
    ensures key in body && body[key].Str? && r.Success? ==> r.value == parseDatetime(body[key].s)
    ensures r.Failure? ==> r.error == Invalid(key)
  {
    if key !in body || body[key].Null? then Success(None)
    else if body[key].Time? then Success(Some(body[key].t))
    else if body[key].Str? && parseDatetime(body[key].s).Some? then Success(parseDatetime(body[key].s))
    else Failure(Invalid(key))
  }

  /** The dictionaries of a list whose every element is a dictionary. */
  function AsDicts(vs: seq<Value>): (r: Option<seq<LineItem>>)
    ensures r.Some? <==> forall i :: 0 <= i < |vs| ==> vs[i].Object?
    ensures r.Some? ==> |r.value| == |vs| && forall i :: 0 <= i < |vs| ==> r.value[i] == vs[i].fields
  {
    if |vs| == 0 then Some([])
    else if !vs[0].Object? then None
    else match AsDicts(vs[1..])
      case None => None
      case Some(rest) => Some([vs[0].fields] + rest)
  }

  /** A required `List[dict]` field. */
  function ReadDicts(body: Doc, key: string): (r: Result<seq<LineItem>, ValidationError>)
    ensures r.Success? <==> key in body && body[key].List? && AsDicts(body[key].elems).Some?
    ensures r.Success? ==> Some(r.value) == AsDicts(body[key].elems)
    ensures r.Failure? ==> r.error == Invalid(key)
  {
    if key in body && body[key].List? && AsDicts(body[key].elems).Some? then
      Success(AsDicts(body[key].elems).value)
    else
      Failure(Invalid(key))
  }

  // ---------------------------------------------------------------------------
  // Validation of request bodies (the first refused field is reported)
  // ---------------------------------------------------------------------------

  function ValidateUser(body: Doc): (r: Result<User, ValidationError>)
    ensures r.Success? <==>
      && ReadStr(body, "name").Success?
      && ReadStr(body, "email").Success?
      && ReadLiteral(body, "role", Student, ParseRole).Success?
      && ReadBool(body, "is_active", true).Success?
    ensures r.Success? ==> "name" in body && body["name"] == Str(r.value.name)
    ensures r.Success? ==> "email" in body && body["email"] == Str(r.value.email)
    ensures r.Success? && "role" !in body ==> r.value.role == Student
    ensures r.Success? && "role" in body ==> body["role"] == Str(r.value.role.Text())
    ensures r.Success? && "is_active" !in body ==> r.value.isActive
    ensures r.Success? && "is_active" in body ==> body["is_active"] == Bool(r.value.isActive)
  {
    var name :- ReadStr(body, "name");
    var email :- ReadStr(body, "email");
    var role :- ReadLiteral(body, "role", Student, ParseRole);
    var isActive :- ReadBool(body, "is_active", true);
    Success(User(name, email, role, isActive))
  }

  function ValidateMenuItem(body: Doc): (r: Result<MenuItem, ValidationError>)
    ensures r.Success? <==>
      && ReadStr(body, "title").Success?
      && ReadOptionalStr(body, "description").Success?
      && ReadNonNegative(body, "price").Success?
      && ReadBool(body, "is_available", true).Success?
      && ReadOptionalStr(body, "category").Success?
    ensures r.Success? ==> r.value.Valid()
    ensures r.Success? ==> "title" in body && body["title"] == Str(r.value.title)
    ensures r.Success? ==> "price" in body && AsFloat(body["price"]) == Some(r.value.price)
    ensures r.Success? && "is_available" !in body ==> r.value.isAvailable
    ensures r.Success? && "is_available" in body ==> body["is_available"] == Bool(r.value.isAvailable)
    ensures r.Success? ==> (r.value.description.None? <==> "description" !in body || body["description"].Null?)
    ensures r.Success? && r.value.description.Some? ==> body["description"] == Str(r.value.description.value)
    ensures r.Success? ==> (r.value.category.None? <==> "category" !in body || body["category"].Null?)
    ensures r.Success? && r.value.category.Some? ==> body["category"] == Str(r.value.category.value)
  {
    var title :- ReadStr(body, "title");
    var description :- ReadOptionalStr(body, "description");
    var price :- ReadNonNegative(body, "price");
    var isAvailable :- ReadBool(body, "is_available", true);
    var category :- ReadOptionalStr(body, "category");
    Success(MenuItem(title, description, price, isAvailable, category))
  }

  function ValidateOrder(body: Doc): (r: Result<Order, ValidationError>)
    ensures r.Success? <==>
      && ReadStr(body, "user_email").Success?
      && ReadDicts(body, "items").Success?
      && ReadNonNegative(body, "subtotal").Success?
      && ReadLiteral(body, "status", Pending, ParseOrderStatus).Success?
    ensures r.Success? ==> r.value.Valid()
    ensures r.Success? ==> "user_email" in body && body["user_email"] == Str(r.value.userEmail)
    ensures r.Success? ==> "items" in body && body["items"].List? && AsDicts(body["items"].elems) == Some(r.value.items)
    ensures r.Success? ==> "subtotal" in body && AsFloat(body["subtotal"]) == Some(r.value.subtotal)
    ensures r.Success? && "status" !in body ==> r.value.status == Pending
    ensures r.Success? && "status" in body ==> body["status"] == Str(r.value.status.Text())
  {
    var email :- ReadStr(body, "user_email");
    var items :- ReadDicts(body, "items");
    var subtotal :- ReadNonNegative(body, "subtotal");
    var status :- ReadLiteral(body, "status", Pending, ParseOrderStatus);
    Success(Order(email, items, subtotal, status))
  }

  function ValidatePayment(body: Doc, parseDatetime: string -> Option<Instant>): (r: Result<Payment, ValidationError>)
    ensures r.Success? <==>
      && ReadStr(body, "order_id").Success?
      && ReadNonNegative(body, "amount").Success?
      && ReadLiteral(body, "currency", INR, ParseCurrency).Success?
      && ReadLiteral(body, "provider", Stripe, ParseProvider).Success?
      && ReadLiteral(body, "status", PaymentPending, ParsePaymentStatus).Success?
      && ReadOptionalDatetime(body, "paid_at", parseDatetime).Success?
    ensures r.Success? ==> r.value.Valid()
    ensures r.Success? ==> "order_id" in body && body["order_id"] == Str(r.value.orderId)
    ensures r.Success? ==> "amount" in body && AsFloat(body["amount"]) == Some(r.value.amount)
    ensures r.Success? && "currency" !in body ==> r.value.currency == INR
    ensures r.Success? && "currency" in body ==> body["currency"] == Str(r.value.currency.Text())
    ensures r.Success? && "provider" !in body ==> r.value.provider == Stripe
    ensures r.Success? && "provider" in body ==> body["provider"] == Str(r.value.provider.Text())
    ensures r.Success? && "status" !in body ==> r.value.status == PaymentPending
    ensures r.Success? && "status" in body ==> body["status"] == Str(r.value.status.Text())
    ensures r.Success? ==> (r.value.paidAt.None? <==> "paid_at" !in body || body["paid_at"].Null?)
    ensures r.Success? && "paid_at" in body && body["paid_at"].Time? ==> r.value.paidAt == Some(body["paid_at"].t)
    ensures r.Success? && "paid_at" in body && body["paid_at"].Str? ==> r.value.paidAt == parseDatetime(body["paid_at"].s)
  {
    var orderId :- ReadStr(body, "order_id");
    var amount :- ReadNonNegative(body, "amount");
    var currency :- ReadLiteral(body, "currency", INR, ParseCurrency);
    var provider :- ReadLiteral(body, "provider", Stripe, ParseProvider);
    var status :- ReadLiteral(body, "status", PaymentPending, ParsePaymentStatus);
    var paidAt :- ReadOptionalDatetime(body, "paid_at", parseDatetime);
    Success(Payment(orderId, amount, currency, provider, status, paidAt))
  }

  // ---------------------------------------------------------------------------
  // Dumping records back to documents (`model_dump`)
  // ---------------------------------------------------------------------------

  function OptionalText(o: Option<string>): Value {
    match o
    case None => Null
    case Some(s) => Str(s)
  }

  function OptionalTime(o: Option<Instant>): Value {
    match o
    case None => Null
    case Some(t) => Time(t)
  }

  function DictList(items: seq<LineItem>): Value {
    List(seq(|items|, i requires 0 <= i < |items| => Object(items[i])))
  }

  function DumpUser(u: User): Doc {
    map["name" := Str(u.name), "email" := Str(u.email),
        "role" := Str(u.role.Text()), "is_active" := Bool(u.isActive)]
  }

  function DumpMenuItem(m: MenuItem): Doc {
    map["title" := Str(m.title), "description" := OptionalText(m.description),
        "price" := Real(m.price), "is_available" := Bool(m.isAvailable),
        "category" := OptionalText(m.category)]
  }

  function DumpOrder(o: Order): Doc {
    map["user_email" := Str(o.userEmail), "items" := DictList(o.items),
        "subtotal" := Real(o.subtotal), "status" := Str(o.status.Text())]
  }

  function DumpPayment(p: Payment): Doc {
    map["order_id" := Str(p.orderId), "amount" := Real(p.amount),
        "currency" := Str(p.currency.Text()), "provider" := Str(p.provider.Text()),
        "status" := Str(p.status.Text()), "paid_at" := OptionalTime(p.paidAt)]
  }

  /** Validating a dumped user gives the user back. */
  lemma UserRoundTrip(u: User)
    ensures ValidateUser(DumpUser(u)) == Success(u)
  {
  }

  /** Validating a dumped valid menu item gives it back. */
  lemma MenuItemRoundTrip(m: MenuItem)
    requires m.Valid()
    ensures ValidateMenuItem(DumpMenuItem(m)) == Success(m)
  {
  }

  /** Validating a dumped valid order gives it back, line items included. */
  lemma OrderRoundTrip(o: Order)
    requires o.Valid()
    ensures ValidateOrder(DumpOrder(o)) == Success(o)
  {
    var d := DumpOrder(o);
    var items := AsDicts(d["items"].elems);
    assert items.Some? && items.value == o.items;
  }

  /** Validating a dumped valid payment gives it back, whatever text parser is used. */
  lemma PaymentRoundTrip(p: Payment, parseDatetime: string -> Option<Instant>)
    requires p.Valid()
    ensures ValidatePayment(DumpPayment(p), parseDatetime) == Success(p)
  {
  }
}
