/** The decision logic of the portal's HTTP API (DataMigrator/server/routes.ts).

    Each handler looks up the caller, fails with 404 when the caller has no user row,
    validates the body (400), applies the role and ownership rule (403), calls the store
    and answers. The session layer in front of every route is reduced to an optional
    caller id: no caller means 401 and no store access.

    Every route is specified by a function of the tables (`...On`), and a handler method
    performs the same steps against a `DatabaseStorage`. Read-only routes are methods
    without a `modifies` clause, so they cannot change the store. */
module Routes {
  import opened Wrappers
  import opened Schema
  import opened Seqs
  import opened Storage
  import opened StorageClass

  /** The JSON payload of a response. */
  datatype Body =
    | Message(message: string)
    | Rejected(message: string, errors: seq<string>)
    | UserJson(user: Option<User>)
    | OrderList(orders: seq<Order>)
    | OrderJson(order: Order)
    | UpdatedOrderJson(updated: Option<Order>)
    | MeasurementJson(measurement: Option<Measurement>)
    | CustomerList(customers: seq<User>)
    | StatsJson(stats: OrderStats)

  datatype Response = Response(status: nat, body: Body)

  const Unauthorized: Response := Response(401, Message("Unauthorized"))
  const UserNotFound: Response := Response(404, Message("User not found"))
  const OrderNotFound: Response := Response(404, Message("Order not found"))
  const Forbidden: Response := Response(403, Message("Forbidden"))
  const AdminRequired: Response := Response(403, Message("Admin access required"))

  function Ok200(b: Body): Response { Response(200, b) }

  /** The caller's user row, when there is a caller and the row exists. */
  function CallerRow(db: Tables, caller: Option<string>): (r: Option<User>)
    ensures r.Some? <==> caller.Some? && HasUser(db.users, caller.value)
    ensures r.Some? ==> r.value in db.users && r.value.id == caller.value
  {
    if caller.None? then None else FindUser(db.users, caller.value)
  }

  /** The ownership rule of the order and measurement routes: an admin may act on any
      customer's data, anyone else only on their own. */
  predicate MayActFor(user: User, customerId: string) {
    IsAdmin(user) || customerId == user.id
  }

  /** What a non-admin submits is rewritten to belong to the caller; an admin's body is
      kept as given. */
  function OwnedOrder(user: User, o: InsertOrder): (r: InsertOrder)
    ensures r.customerId == if IsAdmin(user) then o.customerId else user.id
    ensures r.(customerId := o.customerId) == o
  {
    if !IsAdmin(user) && o.customerId != user.id then o.(customerId := user.id) else o
  }

  function OwnedMeasurement(user: User, m: InsertMeasurement): (r: InsertMeasurement)
    ensures r.customerId == if IsAdmin(user) then m.customerId else user.id
    ensures r.(customerId := m.customerId) == m
  {
    if !IsAdmin(user) && m.customerId != user.id then m.(customerId := user.id) else m
  }

  /** The orders a caller may list: an admin sees every order, anyone else the orders
      filed under their id. An empty id is no filter at all, as in `getOrders`. */
  predicate Visible(user: User, o: Order) {
    IsAdmin(user) || user.id == "" || o.customerId == user.id
  }

  /** The customer whose measurements are asked for: the `customerId` query parameter,
      or the caller when it is missing or empty. */
  function MeasurementTarget(callerId: string, query: Option<string>): (r: string)
    ensures r == callerId || (query == Some(r) && r != "")
    ensures query.Some? && query.value != "" ==> r == query.value
  {
    if Unfiltered(query) then callerId else query.value
  }

  // ---------------------------------------------------------------------------
  // The routes as functions of the tables
  // ---------------------------------------------------------------------------

  /** GET /api/auth/user: the caller's user row as it is, or no user (`UserJson(None)`)
      when there is none; this route has no 404. */
  function AuthUserOn(db: Tables, caller: Option<string>): (r: Response)
    ensures caller.None? ==> r == Unauthorized
    ensures caller.Some? ==> r.status == 200 && r.body.UserJson?
    ensures caller.Some? ==> (r.body.user.Some? <==> HasUser(db.users, caller.value))
    ensures caller.Some? && r.body.user.Some? ==> r.body.user.value in db.users && r.body.user.value.id == caller.value
  {
    if caller.None? then Unauthorized else Ok200(UserJson(FindUser(db.users, caller.value)))
  }

  /** GET /api/orders: an admin lists every order, anyone else their own, newest first. */
  function ListOrdersOn(db: Tables, caller: Option<string>): (r: Response)
    ensures caller.None? ==> r == Unauthorized
    ensures caller.Some? && !HasUser(db.users, caller.value) ==> r == UserNotFound
    ensures r.status == 200 <==> CallerRow(db, caller).Some?
    ensures r.status == 200 ==> r.body.OrderList? && forall o {:trigger o in r.body.orders} ::
      o in r.body.orders <==> o in db.orders && Visible(CallerRow(db, caller).value, o)
    ensures r.status == 200 && WellFormed(db) ==> NewestFirst(r.body.orders, OrderCreated)
  {
    match CallerRow(db, caller)
    case None => if caller.None? then Unauthorized else UserNotFound
    case Some(user) =>
      var filter := if IsAdmin(user) then None else Some(user.id);
      if WellFormed(db) then OrdersForNewestFirst(db.orders, filter); Ok200(OrderList(OrdersFor(db.orders, filter)))
      else Ok200(OrderList(OrdersFor(db.orders, filter)))
  }

  /** POST /api/orders: validate the body, file a non-admin's order under the caller,
      and create it. */
  function CreateOrderRouteOn(db: Tables, caller: Option<string>, body: OrderInput): (r: (Tables, Response))
    ensures caller.None? ==> r == (db, Unauthorized)
    ensures caller.Some? && !HasUser(db.users, caller.value) ==> r == (db, UserNotFound)
    ensures CallerRow(db, caller).Some? && ParseOrder(body).Err? ==>
      r == (db, Response(400, Rejected("Invalid order data", ParseOrder(body).error)))
    ensures r.1.status != 200 ==> r.0 == db
    ensures r.1.status == 200 <==>
      (&& CallerRow(db, caller).Some?
       && ParseOrder(body).Ok?
       && HasUser(db.users, OwnedOrder(CallerRow(db, caller).value, ParseOrder(body).value).customerId))
    ensures r.1.status == 200 ==>
      && r.1.body.OrderJson?
      && r.1.body.order.customerId ==
           (if IsAdmin(CallerRow(db, caller).value) then ParseOrder(body).value.customerId else caller.value)
      && r.0.orders == db.orders + [r.1.body.order]
      && r.0.users == db.users && r.0.measurements == db.measurements
    ensures r.1.status == 200 ==>
      && CreateOrderOn(db, OwnedOrder(CallerRow(db, caller).value, ParseOrder(body).value)).1.Ok?
      && r == (CreateOrderOn(db, OwnedOrder(CallerRow(db, caller).value, ParseOrder(body).value)).0,
               Ok200(OrderJson(CreateOrderOn(db, OwnedOrder(CallerRow(db, caller).value, ParseOrder(body).value)).1.value)))
  {
    match CallerRow(db, caller)
    case None => (db, if caller.None? then Unauthorized else UserNotFound)
    case Some(user) =>
      match ParseOrder(body)
      case Err(errors) => (db, Response(400, Rejected("Invalid order data", errors)))
      case Ok(o) =>
        var t := CreateOrderOn(db, OwnedOrder(user, o));
        match t.1
        case Err(_) => (t.0, Response(500, Message("Failed to create order")))
        case Ok(row) => (t.0, Ok200(OrderJson(row)))
  }

  /** PATCH /api/orders/:id: a missing order is 404 before any ownership check; a
      non-admin may only patch their own orders. */
  function PatchOrderRouteOn(db: Tables, caller: Option<string>, id: RowId, p: OrderPatch): (r: (Tables, Response))
    ensures caller.None? ==> r == (db, Unauthorized)
    ensures caller.Some? && !HasUser(db.users, caller.value) ==> r == (db, UserNotFound)
    ensures CallerRow(db, caller).Some? && !HasOrder(db.orders, id) ==> r == (db, OrderNotFound)
    ensures r.1.status == 403 <==>
      (&& CallerRow(db, caller).Some?
       && HasOrder(db.orders, id)
       && !MayActFor(CallerRow(db, caller).value, FindOrder(db.orders, id).value.customerId))
    ensures r.1.status != 200 ==> r.0 == db
    ensures r.1.status == 200 <==>
      (&& CallerRow(db, caller).Some?
       && HasOrder(db.orders, id)
       && MayActFor(CallerRow(db, caller).value, FindOrder(db.orders, id).value.customerId)
       && UpdateOrderOn(db, id, p).1.Ok?)
    ensures r.1.status == 200 ==>
      && UpdateOrderOn(db, id, p).1.Ok?
      && r == (UpdateOrderOn(db, id, p).0, Ok200(UpdatedOrderJson(UpdateOrderOn(db, id, p).1.value)))
  {
    match CallerRow(db, caller)
    case None => (db, if caller.None? then Unauthorized else UserNotFound)
    case Some(user) =>
      match FindOrder(db.orders, id)
      case None => (db, OrderNotFound)
      case Some(existing) =>
        if !MayActFor(user, existing.customerId) then (db, Forbidden)
        else
          var t := UpdateOrderOn(db, id, p);
          match t.1
          case Err(_) => (t.0, Response(500, Message("Failed to update order")))
          case Ok(updated) => (t.0, Ok200(UpdatedOrderJson(updated)))
  }

  /** GET /api/measurements: the current measurements of the target customer; a
      non-admin may only ask about themselves. */
  function MeasurementsRouteOn(db: Tables, caller: Option<string>, query: Option<string>): (r: Response)
    ensures caller.None? ==> r == Unauthorized
    ensures caller.Some? && !HasUser(db.users, caller.value) ==> r == UserNotFound
    ensures r == Forbidden <==>
      (&& CallerRow(db, caller).Some?
       && !MayActFor(CallerRow(db, caller).value, MeasurementTarget(caller.value, query)))
    ensures r.status == 200 <==>
      (&& CallerRow(db, caller).Some?
       && MayActFor(CallerRow(db, caller).value, MeasurementTarget(caller.value, query)))
    ensures r.status == 200 ==>
      && CallerRow(db, caller).Some?
      && MayActFor(CallerRow(db, caller).value, MeasurementTarget(caller.value, query))
      && r.body == MeasurementJson(LatestFor(db.measurements, MeasurementTarget(caller.value, query)))
  {
    match CallerRow(db, caller)
    case None => if caller.None? then Unauthorized else UserNotFound
    case Some(user) =>
      var target := MeasurementTarget(user.id, query);
      if !MayActFor(user, target) then Forbidden
      else Ok200(MeasurementJson(LatestFor(db.measurements, target)))
  }

  /** POST /api/measurements: validate the body, save a non-admin's measurements under
      the caller, and write them. */
  function SaveMeasurementsRouteOn(db: Tables, caller: Option<string>, body: MeasurementInput): (r: (Tables, Response))
    ensures caller.None? ==> r == (db, Unauthorized)
    ensures caller.Some? && !HasUser(db.users, caller.value) ==> r == (db, UserNotFound)
    ensures CallerRow(db, caller).Some? && ParseMeasurement(body).Err? ==>
      r == (db, Response(400, Rejected("Invalid measurement data", ["customerId"])))
    ensures r.1.status != 200 ==> r.0 == db
    ensures r.1.status == 200 ==>
      && CallerRow(db, caller).Some?
      && ParseMeasurement(body).Ok?
      && r.1.body.MeasurementJson? && r.1.body.measurement.Some?
      && r.1.body.measurement.value.customerId ==
           (if IsAdmin(CallerRow(db, caller).value) then ParseMeasurement(body).value.customerId else caller.value)
      && r.0 == SaveMeasurementsOn(db, OwnedMeasurement(CallerRow(db, caller).value, ParseMeasurement(body).value)).0
    ensures r.1.status == 200 <==>
      (&& CallerRow(db, caller).Some?
       && ParseMeasurement(body).Ok?
       && SaveMeasurementsOn(db, OwnedMeasurement(CallerRow(db, caller).value, ParseMeasurement(body).value)).1.Ok?)
    ensures r.1.status == 200 ==>
      && CallerRow(db, caller).Some?
      && ParseMeasurement(body).Ok?
      && SaveMeasurementsOn(db, OwnedMeasurement(CallerRow(db, caller).value, ParseMeasurement(body).value)).1.Ok?
      && r.1.body == MeasurementJson(Some(
           SaveMeasurementsOn(db, OwnedMeasurement(CallerRow(db, caller).value, ParseMeasurement(body).value)).1.value))
  {
    match CallerRow(db, caller)
    case None => (db, if caller.None? then Unauthorized else UserNotFound)
    case Some(user) =>
      match ParseMeasurement(body)
      case Err(errors) => (db, Response(400, Rejected("Invalid measurement data", errors)))
      case Ok(m) =>
        var t := SaveMeasurementsOn(db, OwnedMeasurement(user, m));
        match t.1
        case Err(_) => (t.0, Response(500, Message("Failed to save measurements")))
        case Ok(row) => (t.0, Ok200(MeasurementJson(Some(row))))
  }

  /** Whether the caller holds the admin role. */
  predicate CallerIsAdmin(db: Tables, caller: Option<string>) {
    CallerRow(db, caller).Some? && IsAdmin(CallerRow(db, caller).value)
  }

  /** GET /api/admin/customers: admins only. */
  function CustomersRouteOn(db: Tables, caller: Option<string>): (r: Response)
    ensures caller.None? ==> r == Unauthorized
    ensures caller.Some? && !CallerIsAdmin(db, caller) ==> r == AdminRequired
    ensures r.status == 200 <==> CallerIsAdmin(db, caller)
    ensures r.status == 200 ==> r.body.CustomerList? && forall u {:trigger u in r.body.customers} ::
      u in r.body.customers <==> u in db.users && IsCustomer(u)
    ensures r.status == 200 ==> r.body == CustomerList(CustomersOf(db.users))
    ensures r.status == 200 && WellFormed(db) ==> NewestFirst(r.body.customers, UserCreated)
  {
    if caller.None? then Unauthorized
    else if !CallerIsAdmin(db, caller) then AdminRequired
    else if WellFormed(db) then CustomersNewestFirst(db.users); Ok200(CustomerList(CustomersOf(db.users)))
    else Ok200(CustomerList(CustomersOf(db.users)))
  }

  /** GET /api/admin/stats: admins only. */
  function StatsRouteOn(db: Tables, caller: Option<string>): (r: Response)
    ensures caller.None? ==> r == Unauthorized
    ensures caller.Some? && !CallerIsAdmin(db, caller) ==> r == AdminRequired
    ensures r.status == 200 <==> CallerIsAdmin(db, caller)
    ensures r.status == 200 ==>
      && r.body.StatsJson?
      && r.body.stats.totalOrders == |db.orders|
      && r.body.stats.pendingFittings <= r.body.stats.totalOrders
    ensures r.status == 200 ==> r.body == StatsJson(StatsOf(db.users, db.orders))
  {
    if caller.None? then Unauthorized
    else if !CallerIsAdmin(db, caller) then AdminRequired
    else Ok200(StatsJson(StatsOf(db.users, db.orders)))
  }

  // ---------------------------------------------------------------------------
  // The handlers, against the store
  // ---------------------------------------------------------------------------

  method GetAuthUser(store: DatabaseStorage, caller: Option<string>) returns (r: Response)
    ensures r == AuthUserOn(store.State(), caller)
  {
    if caller.None? {
      return Unauthorized;
    }
    var user := store.GetUser(caller.value);
    r := Ok200(UserJson(user));
  }

  method GetOrders(store: DatabaseStorage, caller: Option<string>) returns (r: Response)
    ensures r == ListOrdersOn(store.State(), caller)
  {
    if caller.None? {
      return Unauthorized;
    }
    var userId := caller.value;
    var user := store.GetUser(userId);
    if user.None? {
      return UserNotFound;
    }
    var orders;
    if IsAdmin(user.value) {
      orders := store.GetOrders(None);
    } else {
      orders := store.GetOrders(Some(userId));
    }
    r := Ok200(OrderList(orders));
  }

  method PostOrders(store: DatabaseStorage, caller: Option<string>, body: OrderInput) returns (r: Response)
    requires store.Valid()
    modifies store
    ensures store.Valid()
    ensures (store.State(), r) == CreateOrderRouteOn(old(store.State()), caller, body)
  {
    ghost var spec := CreateOrderRouteOn(store.State(), caller, body);
    if caller.None? {
      return Unauthorized;
    }
    var userId := caller.value;
    var user := store.GetUser(userId);
    if user.None? {
      return UserNotFound;
    }
    var parsed := ParseOrder(body);
    if parsed.Err? {
      return Response(400, Rejected("Invalid order data", parsed.error));
    }
    var orderData := parsed.value;
    if !IsAdmin(user.value) && orderData.customerId != userId {
      orderData := orderData.(customerId := userId);
    }
    var created := store.CreateOrder(orderData);
    if created.Err? {
      r := Response(500, Message("Failed to create order"));
    } else {
      r := Ok200(OrderJson(created.value));
    }
    assert (store.State(), r) == spec;
  }

  method PatchOrder(store: DatabaseStorage, caller: Option<string>, id: RowId, updates: OrderPatch) returns (r: Response)
    requires store.Valid()
    modifies store
    ensures store.Valid()
    ensures (store.State(), r) == PatchOrderRouteOn(old(store.State()), caller, id, updates)
  {
    ghost var spec := PatchOrderRouteOn(store.State(), caller, id, updates);
    if caller.None? {
      return Unauthorized;
    }
    var userId := caller.value;
    var user := store.GetUser(userId);
    if user.None? {
      return UserNotFound;
    }
    var existingOrder := store.GetOrder(id);
    if existingOrder.None? {
      return OrderNotFound;
    }
    if !IsAdmin(user.value) && existingOrder.value.customerId != userId {
      return Forbidden;
    }
    var updated := store.UpdateOrder(id, updates);
    if updated.Err? {
      r := Response(500, Message("Failed to update order"));
    } else {
      r := Ok200(UpdatedOrderJson(updated.value));
    }
    assert (store.State(), r) == spec;
  }

  method GetMeasurements(store: DatabaseStorage, caller: Option<string>, query: Option<string>) returns (r: Response)
    ensures r == MeasurementsRouteOn(store.State(), caller, query)
  {
    if caller.None? {
      return Unauthorized;
    }
    var userId := caller.value;
    var customerId := if Unfiltered(query) then userId else query.value;
    var user := store.GetUser(userId);
    if user.None? {
      return UserNotFound;
    }
    if !IsAdmin(user.value) && customerId != userId {
      return Forbidden;
    }
    var measurements := store.GetMeasurements(customerId);
    r := Ok200(MeasurementJson(measurements));
  }

  method PostMeasurements(store: DatabaseStorage, caller: Option<string>, body: MeasurementInput) returns (r: Response)
    requires store.Valid()
    modifies store
    ensures store.Valid()
    ensures (store.State(), r) == SaveMeasurementsRouteOn(old(store.State()), caller, body)
  {
    ghost var spec := SaveMeasurementsRouteOn(store.State(), caller, body);
    if caller.None? {
      return Unauthorized;
    }
    var userId := caller.value;
    var user := store.GetUser(userId);
    if user.None? {
      return UserNotFound;
    }
    var parsed := ParseMeasurement(body);
    if parsed.Err? {
      return Response(400, Rejected("Invalid measurement data", parsed.error));
    }
    var measurementData := parsed.value;
    if !IsAdmin(user.value) && measurementData.customerId != userId {
      measurementData := measurementData.(customerId := userId);
    }
    var saved := store.CreateOrUpdateMeasurements(measurementData);
    if saved.Err? {
      r := Response(500, Message("Failed to save measurements"));
    } else {
      r := Ok200(MeasurementJson(Some(saved.value)));
    }
    assert (store.State(), r) == spec;
  }

  method GetAdminCustomers(store: DatabaseStorage, caller: Option<string>) returns (r: Response)
    ensures r == CustomersRouteOn(store.State(), caller)
  {
    if caller.None? {
      return Unauthorized;
    }
    var user := store.GetUser(caller.value);
    if user.None? || !IsAdmin(user.value) {
      return AdminRequired;
    }
    var customers := store.GetCustomers();
    r := Ok200(CustomerList(customers));
  }

  method GetAdminStats(store: DatabaseStorage, caller: Option<string>) returns (r: Response)
    ensures r == StatsRouteOn(store.State(), caller)
  {
    if caller.None? {
      return Unauthorized;
    }
    var user := store.GetUser(caller.value);
    if user.None? || !IsAdmin(user.value) {
      return AdminRequired;
    }
    var stats := store.GetOrderStats();
    r := Ok200(StatsJson(stats));
  }
}
