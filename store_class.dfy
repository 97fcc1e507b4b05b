module StorageClass {
  import opened Wrappers
  import opened Schema
  import opened Seqs
  import opened Storage

  // ---------------------------------------------------------------------------
  // The storage class
  // ---------------------------------------------------------------------------

  class DatabaseStorage {
    var users: seq<User>
    var orders: seq<Order>
    var measurements: seq<Measurement>
    /** The last timestamp handed out. */
    var clock: Timestamp
    /** The next row id to hand out. */
    var nextId: RowId

    function State(): Tables
      reads this
    {
      Tables(users, orders, measurements, clock, nextId)
    }

    ghost predicate Valid()
      reads this
    {
      WellFormed(State())
    }

    constructor ()
      ensures Valid() && State() == EmptyTables
    {
      users, orders, measurements := [], [], [];
      clock, nextId := 0, 0;
    }

    function GetUser(id: string): Option<User>
      reads this
    {
      FindUser(users, id)
    }

    function GetOrder(id: RowId): Option<Order>
      reads this
    {
      FindOrder(orders, id)
    }

    function GetOrders(customerId: Option<string>): seq<Order>
      reads this
    {
      OrdersFor(orders, customerId)
    }

    function GetMeasurements(customerId: string): Option<Measurement>
      reads this
    {
      LatestFor(measurements, customerId)
    }

    function GetCustomers(): seq<User>
      reads this
    {
      CustomersOf(users)
    }

    function GetOrderStats(): OrderStats
      reads this
    {
      StatsOf(users, orders)
    }

    method UpsertUser(u: UpsertUser) returns (r: Result<User, StoreError>)
      requires Valid()
      modifies this
      ensures Valid()
      ensures (State(), r) == UpsertUserOn(old(State()), u)
    {
      ghost var spec := UpsertUserOn(State(), u);
      UpsertUserKeepsWellFormed(State(), u);
      if EmailTaken(users, u) {
        return Err(UniqueViolation);
      }
      var now := clock + 1;
      var existing := FindUser(users, u.id);
      if existing.Some? {
        users := OverwriteUsers(users, u, now);
        r := Ok(OverwriteUser(existing.value, u, now));
      } else {
        r := Ok(NewUser(u, now));
        users := users + [r.value];
      }
      clock := now;
      assert State() == spec.0;
    }

    method CreateOrder(o: InsertOrder) returns (r: Result<Order, StoreError>)
      requires Valid()
      modifies this
      ensures Valid()
      ensures (State(), r) == CreateOrderOn(old(State()), o)
    {
      ghost var spec := CreateOrderOn(State(), o);
      CreateOrderKeepsWellFormed(State(), o);
      if !HasUser(users, o.customerId) {
        return Err(ForeignKeyViolation);
      }
      var row := NewOrder(nextId, o, clock + 1);
      orders := orders + [row];
      clock, nextId := clock + 1, nextId + 1;
      r := Ok(row);
      assert State() == spec.0;
    }

    method UpdateOrder(id: RowId, p: OrderPatch) returns (r: Result<Option<Order>, StoreError>)
      requires Valid()
      modifies this
      ensures Valid()
      ensures (State(), r) == UpdateOrderOn(old(State()), id, p)
    {
      ghost var spec := UpdateOrderOn(State(), id, p);
      UpdateOrderKeepsWellFormed(State(), id, p);
      var existing := FindOrder(orders, id);
      if existing.None? {
        return Ok(None);
      }
      if p.customerId.Given? && !HasUser(users, p.customerId.value) {
        return Err(ForeignKeyViolation);
      }
      var now := clock + 1;
      orders := PatchOrders(orders, id, p, now);
      clock := now;
      r := Ok(Some(ApplyPatch(existing.value, p, now)));
      assert State() == spec.0;
    }

    method DeleteOrder(id: RowId)
      requires Valid()
      modifies this
      ensures Valid()
      ensures State() == DeleteOrderOn(old(State()), id)
    {
      ghost var spec := DeleteOrderOn(State(), id);
      DeleteOrderKeepsWellFormed(State(), id);
      orders := Filter(orders, OtherThan(id));
      assert State() == spec;
    }

    method CreateOrUpdateMeasurements(m: InsertMeasurement) returns (r: Result<Measurement, StoreError>)
      requires Valid()
      modifies this
      ensures Valid()
      ensures (State(), r) == SaveMeasurementsOn(old(State()), m)
    {
      ghost var spec := SaveMeasurementsOn(State(), m);
      SaveMeasurementsKeepsWellFormed(State(), m);
      var existing := LatestFor(measurements, m.customerId);
      var now := clock + 1;
      if existing.Some? {
        measurements := RewriteRows(measurements, existing.value.id, m, now);
        clock := now;
        assert State() == spec.0;
        return Ok(RewriteMeasurement(existing.value, m, now));
      }
      if !HasUser(users, m.customerId) {
        return Err(ForeignKeyViolation);
      }
      r := Ok(NewMeasurement(nextId, m, now));
      measurements := measurements + [r.value];
      clock, nextId := now, nextId + 1;
      assert State() == spec.0;
    }
  }
}
