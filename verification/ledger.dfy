/** The payment server's order-and-entitlement ledger.

    The server keeps one JSON document with a list of orders and a map from Telegram user id
    to entitlement record. Each HTTP route reads the whole document, changes it, and writes it
    back. Here the document is the immutable value `Db`, and every route is a pure function of
    that value. The clock, the UUID generator, the outcome of the Stripe checkout call and the
    outcome of Stripe signature checking are all explicit parameters. */
module Ledger {
  import opened Optional
  import OrderIds

  /** An entitlement lasts 30 days, counted in seconds from the moment it is granted. */
  const ValidityWindow: int := 30 * 24 * 3600

  const DefaultPlan: string := "premium"
  const DefaultCurrency: string := "usd"

  /** The only Stripe event type that changes the ledger. */
  const CheckoutCompleted: string := "checkout.session.completed"

  /** Path of the demo payment page the server links to when Stripe is not configured. */
  const PayStubPath: string := "/pay_stub/"

  datatype Status = Pending | Paid | Failed

  /** One purchase attempt. The floating-point price is not part of the model. */
  datatype Order = Order(
    id: string,
    telegramId: string,
    plan: string,
    status: Status,
    createdAt: int,
    currency: string)

  /** The entitlement stored under a Telegram user id. */
  datatype UserRecord = UserRecord(premium: bool, plan: string, orderId: string, expiresAt: int)

  datatype Db = Db(orders: seq<Order>, users: map<string, UserRecord>)

  /** Deployment settings read from the environment: SERVER_SECRET, SERVER_URL, and whether
      STRIPE_SECRET is set. */
  datatype Config = Config(serverSecret: string, baseUrl: string, stripeEnabled: bool)

  /** The store after a route has run, together with the route's reply. */
  datatype Transition<R> = Transition(db: Db, reply: R)

  /** Python's `str` applied to a JSON value that is either a string or absent (`None`). */
  function StrOf(v: Option<string>): string {
    match v
    case Some(s) => s
    case None => "None"
  }

  // ---------------------------------------------------------------------------------------
  // First match: every route scans the order list front to back and stops at the first
  // order whose id equals the requested one.

  predicate IsFirst(orders: seq<Order>, id: string, i: int) {
    && 0 <= i < |orders|
    && orders[i].id == id
    && forall j :: 0 <= j < i ==> orders[j].id != id
  }

  predicate NoMatch(orders: seq<Order>, id: string) {
    forall j :: 0 <= j < |orders| ==> orders[j].id != id
  }

  /** Index of the first order with the given id, if any. */
  function FirstMatch(orders: seq<Order>, id: string): (r: Option<nat>)
    ensures r.Some? ==> IsFirst(orders, id, r.value)
    ensures r.None? ==> NoMatch(orders, id)
  {
    if |orders| == 0 then None
    else if orders[0].id == id then Some(0)
    else
      match FirstMatch(orders[1..], id)
      case None => None
      case Some(i) => Some(i + 1)
  }

  lemma IsFirstUnique(orders: seq<Order>, id: string, i: int, k: int)
    requires IsFirst(orders, id, i) && IsFirst(orders, id, k)
    ensures i == k
  {
  }

  /** `FirstMatch` finds exactly the first matching index. */
  lemma FirstMatchComplete(orders: seq<Order>, id: string, i: int)
    requires IsFirst(orders, id, i)
    ensures FirstMatch(orders, id) == Some(i)
  {
    var r := FirstMatch(orders, id);
    if r.Some? {
      IsFirstUnique(orders, id, r.value, i);
    }
  }

  /** Two order lists with the same ids position by position have the same first matches. */
  lemma SameIdsSameMatch(orders: seq<Order>, orders': seq<Order>, id: string)
    requires |orders| == |orders'|
    requires forall j :: 0 <= j < |orders| ==> orders'[j].id == orders[j].id
    ensures FirstMatch(orders', id) == FirstMatch(orders, id)
  {
    match FirstMatch(orders, id)
    case None =>
    case Some(i) =>
      assert IsFirst(orders', id, i);
      FirstMatchComplete(orders', id, i);
  }

  /** Appending an order never changes the first match of an id that was already present. */
  lemma AppendKeepsMatch(orders: seq<Order>, o: Order, id: string)
    requires FirstMatch(orders, id).Some?
    ensures FirstMatch(orders + [o], id) == FirstMatch(orders, id)
  {
    var i := FirstMatch(orders, id).value;
    assert IsFirst(orders + [o], id, i);
    FirstMatchComplete(orders + [o], id, i);
  }

  // ---------------------------------------------------------------------------------------
  // Order creation (POST /create-checkout-session)

  /** What the request's `price` key holds, as far as Python's `float` is concerned: absent
      (the default 3.99 is used), a value `float` accepts, or one it rejects (a non-numeric
      string, `null`, a list, ...). The amount itself is not modelled. */
  datatype PriceField = NoPrice | NumericPrice | NonNumericPrice

  /** The JSON body of a checkout request. Absent keys are `None`; `telegramId` is the value's
      string rendering. */
  datatype CreateRequest = CreateRequest(
    secret: Option<string>,
    telegramId: Option<string>,
    plan: Option<string>,
    currency: Option<string>,
    price: PriceField)

  /** What the Stripe checkout-session call returned. It is consulted only when Stripe is
      configured. */
  datatype SessionResult = SessionCreated(url: string) | SessionError(message: string)

  /** `InvalidPrice` is the server error Flask answers when `float(price)` raises. */
  datatype CreateReply =
    | BadSecret
    | InvalidPrice
    | CheckoutReady(checkoutUrl: string, orderId: string)
    | CheckoutError(message: string)

  /** `o` is the fresh pending order a request made at time `now` describes. */
  predicate PendingOrderFor(o: Order, req: CreateRequest, now: int) {
    && OrderIds.IsOrderId(o.id)
    && o.status == Pending
    && o.createdAt == now
    && o.telegramId == StrOf(req.telegramId)
    && o.plan == req.plan.GetOr(DefaultPlan)
    && o.currency == req.currency.GetOr(DefaultCurrency)
  }

  /** Checks the shared secret, then converts the price, then appends one pending order. Only
      after that does it ask the payment provider for a checkout page. A provider failure
      therefore still leaves the new order in the store, whereas a price that does not convert
      aborts the request before the store is read. */
  function CreateOrder(cfg: Config, db: Db, req: CreateRequest, uuid: OrderIds.UuidHex, now: int,
                       session: SessionResult): (t: Transition<CreateReply>)
    ensures t.reply == BadSecret <==> req.secret != Some(cfg.serverSecret)
    ensures t.reply == InvalidPrice <==>
      req.secret == Some(cfg.serverSecret) && req.price == NonNumericPrice
    ensures t.reply == BadSecret || t.reply == InvalidPrice ==> t.db == db
    ensures t.reply.CheckoutReady? || t.reply.CheckoutError? ==>
      && t.db.users == db.users
      && |t.db.orders| == |db.orders| + 1
      && t.db.orders[..|db.orders|] == db.orders
      && PendingOrderFor(t.db.orders[|db.orders|], req, now)
      && t.db.orders[|db.orders|].id == OrderIds.NewOrderId(uuid)
    ensures t.reply.CheckoutReady? ==> t.reply.orderId == OrderIds.NewOrderId(uuid)
    ensures t.reply.CheckoutReady? && !cfg.stripeEnabled ==>
      t.reply.checkoutUrl == cfg.baseUrl + PayStubPath + t.reply.orderId
    ensures req.secret == Some(cfg.serverSecret) && req.price != NonNumericPrice &&
            cfg.stripeEnabled ==>
      t.reply == (match session
                  case SessionCreated(url) => CheckoutReady(url, OrderIds.NewOrderId(uuid))
                  case SessionError(message) => CheckoutError(message))
    ensures t.reply.CheckoutError? <==>
      && req.secret == Some(cfg.serverSecret) && req.price != NonNumericPrice
      && cfg.stripeEnabled && session.SessionError?
  {
    if req.secret != Some(cfg.serverSecret) then
      Transition(db, BadSecret)
    else if req.price == NonNumericPrice then
      Transition(db, InvalidPrice)
    else
      var order := Order(OrderIds.NewOrderId(uuid), StrOf(req.telegramId),
                         req.plan.GetOr(DefaultPlan), Pending, now,
                         req.currency.GetOr(DefaultCurrency));
      var db' := db.(orders := db.orders + [order]);
      if !cfg.stripeEnabled then
        Transition(db', CheckoutReady(cfg.baseUrl + PayStubPath + order.id, order.id))
      else
        match session
        case SessionCreated(url) => Transition(db', CheckoutReady(url, order.id))
        case SessionError(message) => Transition(db', CheckoutError(message))
  }

  // ---------------------------------------------------------------------------------------
  // Queries (GET /order/<id>, GET /user_status/<telegram_id>): they return a value and no
  // store, so they cannot change it.

  function GetOrder(db: Db, id: string): (r: Option<Order>)
    ensures r.None? <==> NoMatch(db.orders, id)
    ensures r.Some? ==> exists i :: IsFirst(db.orders, id, i) && db.orders[i] == r.value
  {
    match FirstMatch(db.orders, id)
    case None => None
    case Some(i) => Some(db.orders[i])
  }

  /** The route's loop, step by step. */
  method LookupOrder(db: Db, id: string) returns (r: Option<Order>)
    ensures r == GetOrder(db, id)
    ensures r.Some? ==> r.value.id == id && r.value in db.orders
  {
    var k := 0;
    while k < |db.orders|
      invariant 0 <= k <= |db.orders|
      invariant forall j :: 0 <= j < k ==> db.orders[j].id != id
    {
      if db.orders[k].id == id {
        FirstMatchComplete(db.orders, id, k);
        return Some(db.orders[k]);
      }
      k := k + 1;
    }
    return None;
  }

  /** The stored record, or `None` for the empty JSON object. It does no expiry check:
      a record whose `expiresAt` has passed is returned unchanged. */
  function UserStatus(db: Db, telegramId: string): (r: Option<UserRecord>)
    ensures r.None? <==> telegramId !in db.users
    ensures r.Some? ==> r.value == db.users[telegramId]
  {
    if telegramId in db.users then Some(db.users[telegramId]) else None
  }

  // ---------------------------------------------------------------------------------------
  // Settling an order: shared by the simulated and the Stripe webhook.

  /** The entitlement a paid order grants at time `now`. */
  function Grant(o: Order, orderId: string, now: int): UserRecord {
    UserRecord(true, o.plan, orderId, now + ValidityWindow)
  }

  /** `db'` is `db` with order `i` set to `status`. When `grantee` is present, that user
      also gets the order's entitlement, starting at `now`. Nothing else differs. */
  predicate Settled(db: Db, db': Db, i: int, status: Status, grantee: Option<string>, now: int)
    requires 0 <= i < |db.orders|
  {
    && |db'.orders| == |db.orders|
    && db'.orders[i] == db.orders[i].(status := status)
    && (forall j :: 0 <= j < |db.orders| && j != i ==> db'.orders[j] == db.orders[j])
    && db'.users == (match grantee
                     case None => db.users
                     case Some(k) => db.users[k := Grant(db.orders[i], db.orders[i].id, now)])
  }

  function Settle(db: Db, i: int, status: Status, grantee: Option<string>, now: int): (db': Db)
    requires 0 <= i < |db.orders|
    ensures Settled(db, db', i, status, grantee, now)
  {
    var o := db.orders[i];
    var users := match grantee
                 case None => db.users
                 case Some(k) => db.users[k := Grant(o, o.id, now)];
    Db(db.orders[i := o.(status := status)], users)
  }

  // ---------------------------------------------------------------------------------------
  // POST /webhook/simulate

  datatype SimulateReply = Acknowledged | OrderNotFound

  /** Sets the first order with the given id to paid or failed, according to the truthiness of
      the `paid` flag. A paid event also grants the entitlement to the order's own user. There
      is no guard against an order that is already settled. A repeated event grants the
      entitlement again, and a failed event can overwrite a paid one. */
  function SimulateWebhook(db: Db, orderId: Option<string>, paid: bool, now: int)
    : (t: Transition<SimulateReply>)
    ensures t.reply == OrderNotFound <==> orderId.None? || NoMatch(db.orders, orderId.value)
    ensures t.reply == OrderNotFound ==> t.db == db
    ensures t.reply == Acknowledged ==>
      && orderId.Some?
      && exists i :: IsFirst(db.orders, orderId.value, i) &&
           Settled(db, t.db, i, if paid then Paid else Failed,
                   if paid then Some(db.orders[i].telegramId) else None, now)
  {
    if orderId.None? then Transition(db, OrderNotFound)
    else
      match FirstMatch(db.orders, orderId.value)
      case None => Transition(db, OrderNotFound)
      case Some(i) =>
        var o := db.orders[i];
        Transition(Settle(db, i, if paid then Paid else Failed,
                          if paid then Some(o.telegramId) else None, now),
                   Acknowledged)
  }

  // ---------------------------------------------------------------------------------------
  // POST /webhook/stripe

  /** The `metadata` object of a checkout session. */
  datatype Metadata = Metadata(orderId: Option<string>, telegramId: Option<string>)

  /** A Stripe event once its signature has been checked and it has been parsed. */
  datatype Event = Event(kind: string, metadata: Metadata)

  datatype StripeReply = NotConfigured | BadPayload | Received

  /** The event completes a checkout for an order that the store holds. */
  predicate Completes(db: Db, e: Event) {
    && e.kind == CheckoutCompleted
    && e.metadata.orderId.Some?
    && !NoMatch(db.orders, e.metadata.orderId.value)
  }

  /** `event` is `None` when signature verification or parsing failed. A completed checkout
      marks the first order with the metadata's order id as paid. It grants the entitlement
      to the user named in the metadata; when that key is missing, the user is the string
      "None". Every other accepted event is acknowledged and changes nothing. */
  function StripeWebhook(cfg: Config, db: Db, event: Option<Event>, now: int)
    : (t: Transition<StripeReply>)
    ensures t.reply == NotConfigured <==> !cfg.stripeEnabled
    ensures t.reply == BadPayload <==> cfg.stripeEnabled && event.None?
    ensures !(t.reply == Received && Completes(db, event.value)) ==> t.db == db
    ensures t.reply == Received && Completes(db, event.value) ==>
      exists i :: IsFirst(db.orders, event.value.metadata.orderId.value, i) &&
        Settled(db, t.db, i, Paid, Some(StrOf(event.value.metadata.telegramId)), now)
  {
    if !cfg.stripeEnabled then Transition(db, NotConfigured)
    else if event.None? then Transition(db, BadPayload)
    else
      var e := event.value;
      if e.kind != CheckoutCompleted || e.metadata.orderId.None? then Transition(db, Received)
      else
        match FirstMatch(db.orders, e.metadata.orderId.value)
        case None => Transition(db, Received)
        case Some(i) =>
          Transition(Settle(db, i, Paid, Some(StrOf(e.metadata.telegramId)), now), Received)
  }

  // ---------------------------------------------------------------------------------------
  // Sequences of requests and the invariants they keep

  datatype Request =
    | Create(req: CreateRequest, uuid: OrderIds.UuidHex, session: SessionResult)
    | Simulate(orderId: Option<string>, paid: bool)
    | Stripe(event: Option<Event>)

  /** A state-changing request and the clock reading when it arrived. */
  datatype Timed = Timed(now: int, request: Request)

  function Step(cfg: Config, db: Db, r: Timed): Db {
    match r.request
    case Create(req, uuid, session) => CreateOrder(cfg, db, req, uuid, r.now, session).db
    case Simulate(orderId, paid) => SimulateWebhook(db, orderId, paid, r.now).db
    case Stripe(event) => StripeWebhook(cfg, db, event, r.now).db
  }

  /** The store after handling the requests one after another. */
  function Run(cfg: Config, db: Db, trace: seq<Timed>): Db
    decreases |trace|
  {
    if |trace| == 0 then db else Run(cfg, Step(cfg, db, trace[0]), trace[1..])
  }

  /** An order keeps its identity, owner, plan, time and currency. Its status may change, but
      it never goes back to pending. */
  predicate Succeeds(o: Order, o': Order) {
    && o'.id == o.id
    && o'.telegramId == o.telegramId
    && o'.plan == o.plan
    && o'.createdAt == o.createdAt
    && o'.currency == o.currency
    && (o'.status == Pending ==> o.status == Pending)
  }

  /** The orders of `db` are a prefix of those of `db'` up to settlement. No entitlement is
      removed. */
  predicate Evolves(db: Db, db': Db) {
    && |db.orders| <= |db'.orders|
    && (forall i :: 0 <= i < |db.orders| ==> Succeeds(db.orders[i], db'.orders[i]))
    && db.users.Keys <= db'.users.Keys
  }

  /** Every stored entitlement is premium, and the first order carrying its order id exists
      and has its plan. */
  predicate Backed(orders: seq<Order>, u: UserRecord) {
    && u.premium
    && match FirstMatch(orders, u.orderId)
       case None => false
       case Some(i) => orders[i].plan == u.plan
  }

  predicate Consistent(db: Db) {
    forall k :: k in db.users ==> Backed(db.orders, db.users[k])
  }

  lemma SettledEvolves(db: Db, db': Db, i: int, status: Status, grantee: Option<string>, now: int)
    requires 0 <= i < |db.orders|
    requires Settled(db, db', i, status, grantee, now)
    requires status != Pending
    ensures Evolves(db, db')
  {
  }

  lemma SettledPreservesConsistent(db: Db, db': Db, i: int, status: Status, grantee: Option<string>,
                                   now: int)
    requires 0 <= i < |db.orders|
    requires Settled(db, db', i, status, grantee, now)
    requires IsFirst(db.orders, db.orders[i].id, i)
    requires Consistent(db)
    ensures Consistent(db')
  {
    FirstMatchComplete(db.orders, db.orders[i].id, i);
    forall k | k in db'.users
      ensures Backed(db'.orders, db'.users[k])
    {
      SameIdsSameMatch(db.orders, db'.orders, db'.users[k].orderId);
    }
  }

  /** Each request leaves every existing order recognisable and keeps all entitlements. */
  lemma StepEvolves(cfg: Config, db: Db, r: Timed)
    ensures Evolves(db, Step(cfg, db, r))
  {
    match r.request
    case Create(req, uuid, session) =>
    case Simulate(orderId, paid) =>
      var t := SimulateWebhook(db, orderId, paid, r.now);
      if t.reply == Acknowledged {
        var i :| IsFirst(db.orders, orderId.value, i) &&
                 Settled(db, t.db, i, if paid then Paid else Failed,
                         if paid then Some(db.orders[i].telegramId) else None, r.now);
        SettledEvolves(db, t.db, i, if paid then Paid else Failed,
                       if paid then Some(db.orders[i].telegramId) else None, r.now);
      }
    case Stripe(event) =>
      var t := StripeWebhook(cfg, db, event, r.now);
      if t.reply == Received && Completes(db, event.value) {
        var i :| IsFirst(db.orders, event.value.metadata.orderId.value, i) &&
                 Settled(db, t.db, i, Paid, Some(StrOf(event.value.metadata.telegramId)), r.now);
        SettledEvolves(db, t.db, i, Paid, Some(StrOf(event.value.metadata.telegramId)), r.now);
      }
  }

  /** Each request keeps every entitlement backed by an order. */
  lemma StepPreservesConsistent(cfg: Config, db: Db, r: Timed)
    requires Consistent(db)
    ensures Consistent(Step(cfg, db, r))
  {
    match r.request
    case Create(req, uuid, session) =>
      var t := CreateOrder(cfg, db, req, uuid, r.now, session);
      if t.reply.CheckoutReady? || t.reply.CheckoutError? {
        var o := t.db.orders[|db.orders|];
        assert t.db.orders == db.orders + [o];
        forall k | k in t.db.users
          ensures Backed(t.db.orders, t.db.users[k])
        {
          AppendKeepsMatch(db.orders, o, db.users[k].orderId);
        }
      }
    case Simulate(orderId, paid) =>
      var t := SimulateWebhook(db, orderId, paid, r.now);
      if t.reply == Acknowledged {
        var i :| IsFirst(db.orders, orderId.value, i) &&
                 Settled(db, t.db, i, if paid then Paid else Failed,
                         if paid then Some(db.orders[i].telegramId) else None, r.now);
        SettledPreservesConsistent(db, t.db, i, if paid then Paid else Failed,
                                   if paid then Some(db.orders[i].telegramId) else None, r.now);
      }
    case Stripe(event) =>
      var t := StripeWebhook(cfg, db, event, r.now);
      if t.reply == Received && Completes(db, event.value) {
        var i :| IsFirst(db.orders, event.value.metadata.orderId.value, i) &&
                 Settled(db, t.db, i, Paid, Some(StrOf(event.value.metadata.telegramId)), r.now);
        SettledPreservesConsistent(db, t.db, i, Paid,
                                   Some(StrOf(event.value.metadata.telegramId)), r.now);
      }
  }

  lemma EvolvesTransitive(a: Db, b: Db, c: Db)
    requires Evolves(a, b) && Evolves(b, c)
    ensures Evolves(a, c)
  {
  }

  /** Over any sequence of requests, no order is lost or reset to pending, no order changes
      owner or plan, and no entitlement is deleted. */
  lemma {:induction false} RunEvolves(cfg: Config, db: Db, trace: seq<Timed>)
    ensures Evolves(db, Run(cfg, db, trace))
    decreases |trace|
  {
    if |trace| > 0 {
      var db1 := Step(cfg, db, trace[0]);
      StepEvolves(cfg, db, trace[0]);
      RunEvolves(cfg, db1, trace[1..]);
      EvolvesTransitive(db, db1, Run(cfg, db1, trace[1..]));
    }
  }

  /** Starting from the empty store, or from any consistent one, every entitlement the server
      holds stays backed by an existing order with the same plan. */
  lemma {:induction false} RunPreservesConsistent(cfg: Config, db: Db, trace: seq<Timed>)
    requires Consistent(db)
    ensures Consistent(Run(cfg, db, trace))
    decreases |trace|
  {
    if |trace| > 0 {
      StepPreservesConsistent(cfg, db, trace[0]);
      RunPreservesConsistent(cfg, Step(cfg, db, trace[0]), trace[1..]);
    }
  }

  // ---------------------------------------------------------------------------------------
  // Create-then-read

  /** A created order whose id is new can be read back, pending, under that id. */
  lemma CreatedOrderIsFound(cfg: Config, db: Db, req: CreateRequest, uuid: OrderIds.UuidHex,
                            now: int, session: SessionResult)
    requires req.secret == Some(cfg.serverSecret) && req.price != NonNumericPrice
    requires NoMatch(db.orders, OrderIds.NewOrderId(uuid))
    ensures var t := CreateOrder(cfg, db, req, uuid, now, session);
            && GetOrder(t.db, OrderIds.NewOrderId(uuid)) == Some(t.db.orders[|db.orders|])
            && PendingOrderFor(GetOrder(t.db, OrderIds.NewOrderId(uuid)).value, req, now)
  {
    var t := CreateOrder(cfg, db, req, uuid, now, session);
    var id := OrderIds.NewOrderId(uuid);
    assert IsFirst(t.db.orders, id, |db.orders|);
    FirstMatchComplete(t.db.orders, id, |db.orders|);
  }

  /** Creating an order does not change what any other id reads back. If the new id collides
      with an existing one, the older order still wins and the new order cannot be read. */
  lemma CreateKeepsEarlierLookups(cfg: Config, db: Db, req: CreateRequest, uuid: OrderIds.UuidHex,
                                  now: int, session: SessionResult, id: string)
    requires id != OrderIds.NewOrderId(uuid) || !NoMatch(db.orders, id)
    ensures GetOrder(CreateOrder(cfg, db, req, uuid, now, session).db, id) == GetOrder(db, id)
  {
    var t := CreateOrder(cfg, db, req, uuid, now, session);
    if t.reply.CheckoutReady? || t.reply.CheckoutError? {
      var o := t.db.orders[|db.orders|];
      assert t.db.orders == db.orders + [o];
      if NoMatch(db.orders, id) {
        assert NoMatch(t.db.orders, id);
      } else {
        AppendKeepsMatch(db.orders, o, id);
      }
    }
  }

  // ---------------------------------------------------------------------------------------
  // The behaviour a terminal-state guard would have prevented

  /** Re-delivering a paid simulation is not a no-op. It grants the entitlement again, so the
      expiry moves to 30 days after the second delivery. */
  lemma RedeliveredPaymentRefreshesExpiry(db: Db, id: string, now1: int, now2: int)
    requires !NoMatch(db.orders, id)
    ensures var o := GetOrder(db, id).value;
            var db1 := SimulateWebhook(db, Some(id), true, now1).db;
            var db2 := SimulateWebhook(db1, Some(id), true, now2).db;
            && o.telegramId in db2.users
            && db1.users[o.telegramId].expiresAt == now1 + ValidityWindow
            && db2.users[o.telegramId].expiresAt == now2 + ValidityWindow
            && (now1 != now2 ==> db2 != db1)
  {
    var i := FirstMatch(db.orders, id).value;
    var db1 := SimulateWebhook(db, Some(id), true, now1).db;
    SameIdsSameMatch(db.orders, db1.orders, id);
  }

  /** A failed simulation after a paid one turns the order to failed. The entitlement the
      payment granted stays in place. */
  lemma FailureOverwritesPayment(db: Db, id: string, now1: int, now2: int)
    requires !NoMatch(db.orders, id)
    ensures var o := GetOrder(db, id).value;
            var db1 := SimulateWebhook(db, Some(id), true, now1).db;
            var db2 := SimulateWebhook(db1, Some(id), false, now2).db;
            && GetOrder(db1, id).value.status == Paid
            && GetOrder(db2, id).value.status == Failed
            && db2.users == db1.users
            && o.telegramId in db2.users && db2.users[o.telegramId].premium
  {
    var i := FirstMatch(db.orders, id).value;
    var db1 := SimulateWebhook(db, Some(id), true, now1).db;
    SameIdsSameMatch(db.orders, db1.orders, id);
    var db2 := SimulateWebhook(db1, Some(id), false, now2).db;
    SameIdsSameMatch(db1.orders, db2.orders, id);
  }
}
