/** The table layer of the portal (DataMigrator/server/storage.ts): three tables held in
    insertion order, a clock that ticks once per write that stamps a row, and a supply of fresh
    row ids.

    Every operation of `DatabaseStorage` is specified by a function on the value of the
    tables (`Tables`); the class's methods perform the same steps on its fields and are
    proved to end in the state and result that function gives. */
module Storage {
  import opened Wrappers
  import opened Schema
  import opened Seqs

  /** The database errors an operation can raise: a broken `references users.id`
      constraint, or a second user with the same (non-null) email. */
  datatype StoreError = ForeignKeyViolation | UniqueViolation

  /** The aggregate the admin dashboard shows. */
  datatype OrderStats = OrderStats(totalOrders: nat, activeCustomers: nat, pendingFittings: nat)

  function UserKey(u: User): string { u.id }
  function OrderKey(o: Order): RowId { o.id }
  function UserCreated(u: User): int { u.createdAt }
  function OrderCreated(o: Order): int { o.createdAt }
  function OrderIdKey(o: Order): int { o.id }

  // ---------------------------------------------------------------------------
  // Row predicates used as WHERE clauses
  // ---------------------------------------------------------------------------

  function OwnedBy(customerId: string): Order -> bool {
    (o: Order) => o.customerId == customerId
  }

  function OtherThan(id: RowId): Order -> bool {
    (o: Order) => o.id != id
  }

  function MeasuredFor(customerId: string): Measurement -> bool {
    (m: Measurement) => m.customerId == customerId
  }

  predicate IsFitting(o: Order) {
    o.status == Some(FittingScheduled)
  }

  /** JavaScript truthiness of the optional filter of `getOrders`: no id, or the empty
      string, means no filter at all. */
  predicate Unfiltered(customerId: Option<string>) {
    customerId.None? || customerId.value == ""
  }

  predicate HasUser(us: seq<User>, id: string) {
    exists i :: 0 <= i < |us| && us[i].id == id
  }

  predicate HasOrder(os: seq<Order>, id: RowId) {
    exists i :: 0 <= i < |os| && os[i].id == id
  }

  predicate HasMeasurements(ms: seq<Measurement>, customerId: string) {
    exists i :: 0 <= i < |ms| && ms[i].customerId == customerId
  }

  /** An upsert would give a non-null email to a second user. */
  predicate EmailTaken(us: seq<User>, u: UpsertUser) {
    && u.email.Given? && u.email.value.Some?
    && exists i :: 0 <= i < |us| && us[i].id != u.id && us[i].email == u.email.value
  }

  // ---------------------------------------------------------------------------
  // Table invariants
  // ---------------------------------------------------------------------------

  // The three predicates below name single facts of the table invariants that follow,
  // for the lemmas about listings. The invariants spell the same facts out inline,
  // grouped into one pairwise and one per-row quantifier per table, because that form
  // keeps the proofs that every write preserves them small.

  predicate UsersByCreation(us: seq<User>) {
    forall i, j :: 0 <= i < j < |us| ==> us[i].createdAt < us[j].createdAt
  }

  predicate OrdersByCreation(os: seq<Order>) {
    forall i, j :: 0 <= i < j < |os| ==> os[i].createdAt < os[j].createdAt
  }

  /** No customer has two measurement rows. */
  predicate OneRowPerCustomer(ms: seq<Measurement>) {
    forall i, j :: 0 <= i < j < |ms| ==> ms[i].customerId != ms[j].customerId
  }

  /** One row per id, one user per non-null email, rows in order of creation, and
      `createdAt <= updatedAt <= clock` on every row. */
  predicate UsersWellFormed(us: seq<User>, clock: Timestamp) {
    && (forall i, j :: 0 <= i < j < |us| ==>
          && us[i].id != us[j].id
          && (us[i].email.Some? ==> us[i].email != us[j].email)
          && us[i].createdAt < us[j].createdAt)
    && (forall i :: 0 <= i < |us| ==> us[i].createdAt <= us[i].updatedAt <= clock)
  }

  /** Rows in order of creation and of id (so ids are unique), every id already handed
      out, and `createdAt <= updatedAt <= clock` on every row. */
  predicate OrdersWellFormed(os: seq<Order>, clock: Timestamp, nextId: RowId) {
    && (forall i, j :: 0 <= i < j < |os| ==> os[i].createdAt < os[j].createdAt && os[i].id < os[j].id)
    && (forall i :: 0 <= i < |os| ==> os[i].id < nextId && os[i].createdAt <= os[i].updatedAt <= clock)
  }

  /** Rows in order of id, one row per customer, every id already handed out, and
      `createdAt <= updatedAt <= clock` on every row. */
  predicate MeasurementsWellFormed(ms: seq<Measurement>, clock: Timestamp, nextId: RowId) {
    && (forall i, j :: 0 <= i < j < |ms| ==> ms[i].id < ms[j].id && ms[i].customerId != ms[j].customerId)
    && (forall i :: 0 <= i < |ms| ==> ms[i].id < nextId && ms[i].createdAt <= ms[i].updatedAt <= clock)
  }

  // ---------------------------------------------------------------------------
  // The state of the store as a value
  // ---------------------------------------------------------------------------

  /** The three tables, the last timestamp handed out and the next row id. */
  datatype Tables = Tables(
    users: seq<User>,
    orders: seq<Order>,
    measurements: seq<Measurement>,
    clock: Timestamp,
    nextId: RowId)

  const EmptyTables: Tables := Tables([], [], [], 0, 0)

  predicate WellFormed(db: Tables) {
    && UsersWellFormed(db.users, db.clock)
    && OrdersWellFormed(db.orders, db.clock, db.nextId)
    && MeasurementsWellFormed(db.measurements, db.clock, db.nextId)
  }

  // ---------------------------------------------------------------------------
  // Queries
  // ---------------------------------------------------------------------------

  /** `getUser`: the user with this id, if any. */
  function FindUser(us: seq<User>, id: string): (r: Option<User>)
    ensures r.Some? <==> HasUser(us, id)
    ensures r.Some? ==> r.value in us && r.value.id == id
  {
    match IndexOf(us, UserKey, id)
    case Some(i) => Some(us[i])
    case None => None
  }

  /** `getOrder`: the order with this id, if any. */
  function FindOrder(os: seq<Order>, id: RowId): (r: Option<Order>)
    ensures r.Some? <==> HasOrder(os, id)
    ensures r.Some? ==> r.value in os && r.value.id == id
  {
    match IndexOf(os, OrderKey, id)
    case Some(i) => Some(os[i])
    case None => None
  }

  /** `getOrders`: all orders, or those of one customer, newest first. */
  function OrdersFor(os: seq<Order>, customerId: Option<string>): (r: seq<Order>)
    ensures forall o {:trigger o in r} {:trigger o in os} ::
      o in r <==> o in os && (Unfiltered(customerId) || o.customerId == customerId.value)
    ensures Unfiltered(customerId) ==> |r| == |os|
  {
    var rows := if Unfiltered(customerId) then os else Filter(os, OwnedBy(customerId.value));
    ReverseKeepsMembers(rows);
    Reverse(rows)
  }

  /** The listing is sorted by creation time, newest first. */
  lemma {:induction false} OrdersForNewestFirst(os: seq<Order>, customerId: Option<string>)
    requires OrdersByCreation(os)
    ensures NewestFirst(OrdersFor(os, customerId), OrderCreated)
  {
    assert StrictlyIncreasing(os, OrderCreated);
    if !Unfiltered(customerId) {
      FilterKeepsIncreasing(os, OwnedBy(customerId.value), OrderCreated);
      ReverseNewestFirst(Filter(os, OwnedBy(customerId.value)), OrderCreated);
    } else {
      ReverseNewestFirst(os, OrderCreated);
    }
  }

  /** `getMeasurements`: the row of `customerId` with the largest update time, if there
      is one. Among rows with equal update times the earlier one in the table is taken. */
  function LatestFor(ms: seq<Measurement>, customerId: string): (r: Option<Measurement>)
    ensures r.Some? <==> HasMeasurements(ms, customerId)
    ensures r.Some? ==> r.value in ms && r.value.customerId == customerId
    ensures r.Some? ==> forall i :: 0 <= i < |ms| && ms[i].customerId == customerId ==>
      ms[i].updatedAt <= r.value.updatedAt
  {
    if ms == [] then None
    else
      var rest := LatestFor(ms[1..], customerId);
      assert forall i :: 0 <= i < |ms| - 1 ==> ms[1..][i] == ms[i + 1];
      if ms[0].customerId != customerId then rest
      else if rest.Some? && rest.value.updatedAt > ms[0].updatedAt then rest
      else Some(ms[0])
  }

  /** The number of measurement rows of one customer. */
  function RowCount(ms: seq<Measurement>, customerId: string): nat {
    |Filter(ms, MeasuredFor(customerId))|
  }

  /** With one row per customer, the current row is the customer's only row. */
  lemma {:induction false} LatestIsOnlyRow(ms: seq<Measurement>, customerId: string)
    requires OneRowPerCustomer(ms)
    ensures RowCount(ms, customerId) <= 1
    ensures forall i :: 0 <= i < |ms| && ms[i].customerId == customerId ==>
      LatestFor(ms, customerId) == Some(ms[i])
  {
    if ms != [] {
      var tail := ms[1..];
      assert forall i :: 0 <= i < |tail| ==> tail[i] == ms[i + 1];
      if ms[0].customerId == customerId {
        FilterNone(tail, MeasuredFor(customerId));
      } else {
        LatestIsOnlyRow(tail, customerId);
      }
      forall i | 0 <= i < |ms| && ms[i].customerId == customerId
        ensures LatestFor(ms, customerId) == Some(ms[i])
      {
        var l := LatestFor(ms, customerId).value;
        var j :| 0 <= j < |ms| && ms[j] == l;
      }
    }
  }

  /** `getCustomers`: the users whose role is "customer", newest first. */
  function CustomersOf(us: seq<User>): (r: seq<User>)
    ensures forall u {:trigger u in r} {:trigger u in us} :: u in r <==> u in us && IsCustomer(u)
  {
    var rows := Filter(us, IsCustomer);
    ReverseKeepsMembers(rows);
    Reverse(rows)
  }

  lemma {:induction false} CustomersNewestFirst(us: seq<User>)
    requires UsersByCreation(us)
    ensures NewestFirst(CustomersOf(us), UserCreated)
  {
    assert StrictlyIncreasing(us, UserCreated);
    FilterKeepsIncreasing(us, IsCustomer, UserCreated);
    ReverseNewestFirst(Filter(us, IsCustomer), UserCreated);
  }

  /** `getOrderStats`: how many orders, how many customers, and how many orders await
      a fitting. */
  function StatsOf(us: seq<User>, os: seq<Order>): (r: OrderStats)
    ensures r.totalOrders == |os|
    ensures r.activeCustomers == Count(us, IsCustomer) && r.pendingFittings == Count(os, IsFitting)
    ensures r.pendingFittings <= r.totalOrders && r.activeCustomers <= |us|
    ensures r.pendingFittings == 0 <==> forall i :: 0 <= i < |os| ==> !IsFitting(os[i])
    ensures r.activeCustomers == 0 <==> forall i :: 0 <= i < |us| ==> !IsCustomer(us[i])
  {
    var fittings := Filter(os, IsFitting);
    var customers := Filter(us, IsCustomer);
    assert fittings != [] ==> fittings[0] in fittings;
    assert customers != [] ==> customers[0] in customers;
    assert forall i :: 0 <= i < |os| ==> os[i] in os;
    assert forall i :: 0 <= i < |us| ==> us[i] in us;
    FilterCount(os, IsFitting);
    FilterCount(us, IsCustomer);
    OrderStats(|os|, |customers|, |fittings|)
  }

  // ---------------------------------------------------------------------------
  // UPDATE ... WHERE id = ? applied to a whole table
  // ---------------------------------------------------------------------------

  function OverwriteUsers(us: seq<User>, u: UpsertUser, now: Timestamp): (r: seq<User>)
    ensures |r| == |us|
    ensures forall i {:trigger r[i]} :: 0 <= i < |us| ==>
      r[i] == if us[i].id == u.id then OverwriteUser(us[i], u, now) else us[i]
  {
    seq(|us|, i requires 0 <= i < |us| => if us[i].id == u.id then OverwriteUser(us[i], u, now) else us[i])
  }

  function PatchOrders(os: seq<Order>, id: RowId, p: OrderPatch, now: Timestamp): (r: seq<Order>)
    ensures |r| == |os|
    ensures forall i {:trigger r[i]} :: 0 <= i < |os| ==>
      r[i] == if os[i].id == id then ApplyPatch(os[i], p, now) else os[i]
  {
    seq(|os|, i requires 0 <= i < |os| => if os[i].id == id then ApplyPatch(os[i], p, now) else os[i])
  }

  function RewriteRows(ms: seq<Measurement>, id: RowId, m: InsertMeasurement, now: Timestamp): (r: seq<Measurement>)
    ensures |r| == |ms|
    ensures forall i {:trigger r[i]} :: 0 <= i < |ms| ==>
      r[i] == if ms[i].id == id then RewriteMeasurement(ms[i], m, now) else ms[i]
  {
    seq(|ms|, i requires 0 <= i < |ms| => if ms[i].id == id then RewriteMeasurement(ms[i], m, now) else ms[i])
  }

  // ---------------------------------------------------------------------------
  // Writes, as functions of the tables
  // ---------------------------------------------------------------------------

  /** `upsertUser`: insert the user, or on an id collision overwrite the supplied columns
      and refresh the update time. A second user with the same email is refused. */
  function UpsertUserOn(db: Tables, u: UpsertUser): (r: (Tables, Result<User, StoreError>))
    ensures r.1.Err? <==> EmailTaken(db.users, u)
    ensures r.1.Err? ==> r.1.error == UniqueViolation && r.0 == db
    ensures r.1.Ok? ==> r.1.value.id == u.id && r.0.clock == db.clock + 1 && r.1.value.updatedAt == r.0.clock
    ensures r.1.Ok? && !HasUser(db.users, u.id) ==>
      r.1.value == NewUser(u, r.0.clock) && r.0.users == db.users + [r.1.value]
    ensures r.1.Ok? && HasUser(db.users, u.id) ==>
      && r.1.value == OverwriteUser(FindUser(db.users, u.id).value, u, r.0.clock)
      && r.0.users == OverwriteUsers(db.users, u, r.0.clock)
      && |r.0.users| == |db.users|
      && forall i :: 0 <= i < |db.users| && db.users[i].id != u.id ==> r.0.users[i] == db.users[i]
    ensures r.0.orders == db.orders && r.0.measurements == db.measurements && r.0.nextId == db.nextId
  {
    if EmailTaken(db.users, u) then (db, Err(UniqueViolation))
    else
      var now := db.clock + 1;
      match FindUser(db.users, u.id)
      case Some(prev) => (db.(users := OverwriteUsers(db.users, u, now), clock := now), Ok(OverwriteUser(prev, u, now)))
      case None => (db.(users := db.users + [NewUser(u, now)], clock := now), Ok(NewUser(u, now)))
  }

  /** `createOrder`: insert the order with a fresh id, the current time and the column
      defaults; an order for a user who does not exist is refused. */
  function CreateOrderOn(db: Tables, o: InsertOrder): (r: (Tables, Result<Order, StoreError>))
    ensures r.1.Err? <==> !HasUser(db.users, o.customerId)
    ensures r.1.Err? ==> r.1.error == ForeignKeyViolation && r.0 == db
    ensures r.1.Ok? ==>
      && r.1.value == NewOrder(db.nextId, o, db.clock + 1)
      && r.0.orders == db.orders + [r.1.value]
      && r.0.clock == db.clock + 1 && r.0.nextId == db.nextId + 1
    ensures r.0.users == db.users && r.0.measurements == db.measurements
  {
    if !HasUser(db.users, o.customerId) then (db, Err(ForeignKeyViolation))
    else
      var row := NewOrder(db.nextId, o, db.clock + 1);
      (db.(orders := db.orders + [row], clock := db.clock + 1, nextId := db.nextId + 1), Ok(row))
  }

  /** `updateOrder`: apply the patch to the order with this id and refresh its update
      time. An absent id changes nothing and yields no row; a patch naming an owner who
      does not exist is refused. */
  function UpdateOrderOn(db: Tables, id: RowId, p: OrderPatch): (r: (Tables, Result<Option<Order>, StoreError>))
    ensures r.1 == Ok(None) <==> !HasOrder(db.orders, id)
    ensures r.1.Err? <==> HasOrder(db.orders, id) && p.customerId.Given? && !HasUser(db.users, p.customerId.value)
    ensures r.1.Err? ==> r.1.error == ForeignKeyViolation
    ensures (r.1.Err? || r.1 == Ok(None)) ==> r.0 == db
    ensures r.1.Ok? && r.1.value.Some? ==>
      && r.0.clock == db.clock + 1
      && r.1.value.value == ApplyPatch(FindOrder(db.orders, id).value, p, r.0.clock)
      && |r.0.orders| == |db.orders|
      && forall i :: 0 <= i < |db.orders| && db.orders[i].id != id ==> r.0.orders[i] == db.orders[i]
    ensures r.0.users == db.users && r.0.measurements == db.measurements && r.0.nextId == db.nextId
  {
    if !HasOrder(db.orders, id) then (db, Ok(None))
    else if p.customerId.Given? && !HasUser(db.users, p.customerId.value) then (db, Err(ForeignKeyViolation))
    else
      var now := db.clock + 1;
      (db.(orders := PatchOrders(db.orders, id, p, now), clock := now),
       Ok(Some(ApplyPatch(FindOrder(db.orders, id).value, p, now))))
  }

  /** `deleteOrder`: remove every order with this id; an absent id is not an error. */
  function DeleteOrderOn(db: Tables, id: RowId): (r: Tables)
    ensures forall o {:trigger o in r.orders} {:trigger o in db.orders} ::
      o in r.orders <==> o in db.orders && o.id != id
    ensures !HasOrder(r.orders, id)
    ensures r.users == db.users && r.measurements == db.measurements
    ensures r.clock == db.clock && r.nextId == db.nextId
  {
    db.(orders := Filter(db.orders, OtherThan(id)))
  }

  /** `createOrUpdateMeasurements`: overwrite the customer's current row in place, or
      insert a first one when there is none. */
  function SaveMeasurementsOn(db: Tables, m: InsertMeasurement): (r: (Tables, Result<Measurement, StoreError>))
    ensures r.1.Err? <==> !HasMeasurements(db.measurements, m.customerId) && !HasUser(db.users, m.customerId)
    ensures r.1.Err? ==> r.1.error == ForeignKeyViolation && r.0 == db
    ensures r.1.Ok? ==> r.1.value.customerId == m.customerId && r.0.clock == db.clock + 1 && r.1.value.updatedAt == r.0.clock
    ensures HasMeasurements(db.measurements, m.customerId) ==>
      && r.1.value == RewriteMeasurement(LatestFor(db.measurements, m.customerId).value, m, r.0.clock)
      && r.0.measurements == RewriteRows(db.measurements, r.1.value.id, m, r.0.clock)
      && r.0.nextId == db.nextId
    ensures !HasMeasurements(db.measurements, m.customerId) && r.1.Ok? ==>
      && r.1.value == NewMeasurement(db.nextId, m, r.0.clock)
      && r.0.measurements == db.measurements + [r.1.value]
      && r.0.nextId == db.nextId + 1
    ensures r.0.users == db.users && r.0.orders == db.orders
  {
    var now := db.clock + 1;
    match LatestFor(db.measurements, m.customerId)
    case Some(e) =>
      (db.(measurements := RewriteRows(db.measurements, e.id, m, now), clock := now), Ok(RewriteMeasurement(e, m, now)))
    case None =>
      if !HasUser(db.users, m.customerId) then (db, Err(ForeignKeyViolation))
      else
        var row := NewMeasurement(db.nextId, m, now);
        (db.(measurements := db.measurements + [row], clock := now, nextId := db.nextId + 1), Ok(row))
  }

  // ---------------------------------------------------------------------------
  // Helpers for the invariants
  // ---------------------------------------------------------------------------

  lemma {:induction false} UpsertExistingKeepsUsers(us: seq<User>, u: UpsertUser, clock: Timestamp)
    requires UsersWellFormed(us, clock) && !EmailTaken(us, u)
    ensures UsersWellFormed(OverwriteUsers(us, u, clock + 1), clock + 1)
  {
    var r := OverwriteUsers(us, u, clock + 1);
    forall i, j | 0 <= i < j < |r| && r[i].email.Some? ensures r[i].email != r[j].email {
      if us[i].id == u.id && u.email.Given? {
        assert us[j].id != u.id;
      } else if us[j].id == u.id && u.email.Given? {
        assert us[i].id != u.id;
        if u.email.value.Some? {
          assert r[i] == us[i];
        }
      }
    }
    forall i, j | 0 <= i < j < |r| ensures r[i].createdAt < r[j].createdAt {
      assert us[i].createdAt < us[j].createdAt;
    }
  }

  lemma {:induction false} UpsertNewKeepsUsers(us: seq<User>, u: UpsertUser, clock: Timestamp)
    requires UsersWellFormed(us, clock) && !EmailTaken(us, u) && !HasUser(us, u.id)
    ensures UsersWellFormed(us + [NewUser(u, clock + 1)], clock + 1)
  {
    var n := NewUser(u, clock + 1);
    var r := us + [n];
    forall i | 0 <= i < |us| ensures r[i] == us[i] && us[i].id != u.id && us[i].createdAt < n.createdAt {
    }
    forall i, j | 0 <= i < j < |r| && r[i].email.Some? ensures r[i].email != r[j].email {
      if j == |us| && u.email.Given? && u.email.value.Some? {
        assert us[i].id != u.id;
      }
    }
    forall i, j | 0 <= i < j < |r| ensures r[i].createdAt < r[j].createdAt {
    }
  }

  lemma {:induction false} CreateKeepsOrders(os: seq<Order>, row: Order, clock: Timestamp, nextId: RowId)
    requires OrdersWellFormed(os, clock, nextId)
    requires row.id == nextId && row.createdAt == clock + 1 && row.updatedAt == clock + 1
    ensures OrdersWellFormed(os + [row], clock + 1, nextId + 1)
  {
    var r := os + [row];
    forall i | 0 <= i < |os| ensures r[i] == os[i] && os[i].createdAt < row.createdAt && os[i].id < row.id {
    }
    forall i, j | 0 <= i < j < |r| ensures r[i].createdAt < r[j].createdAt && r[i].id < r[j].id {
      if j < |os| {
        assert os[i].createdAt < os[j].createdAt;
        assert os[i].id < os[j].id;
      }
    }
  }

  lemma {:induction false} PatchKeepsOrders(os: seq<Order>, id: RowId, p: OrderPatch, clock: Timestamp, nextId: RowId)
    requires OrdersWellFormed(os, clock, nextId)
    ensures OrdersWellFormed(PatchOrders(os, id, p, clock + 1), clock + 1, nextId)
  {
    var r := PatchOrders(os, id, p, clock + 1);
    forall i, j | 0 <= i < j < |r| ensures r[i].createdAt < r[j].createdAt && r[i].id < r[j].id {
      assert os[i].createdAt < os[j].createdAt;
      assert os[i].id < os[j].id;
    }
  }

  /** Deleting by id keeps the order table well formed. */
  lemma {:induction false} DeleteKeepsOrders(os: seq<Order>, id: RowId, clock: Timestamp, nextId: RowId)
    requires OrdersWellFormed(os, clock, nextId)
    ensures OrdersWellFormed(Filter(os, OtherThan(id)), clock, nextId)
  {
    var r := Filter(os, OtherThan(id));
    assert StrictlyIncreasing(os, OrderCreated) && StrictlyIncreasing(os, OrderIdKey);
    FilterKeepsIncreasing(os, OtherThan(id), OrderCreated);
    FilterKeepsIncreasing(os, OtherThan(id), OrderIdKey);
    assert StrictlyIncreasing(r, OrderCreated) && StrictlyIncreasing(r, OrderIdKey);
    forall k | 0 <= k < |r|
      ensures r[k].id < nextId && r[k].createdAt <= r[k].updatedAt <= clock
    {
      assert r[k] in r;
      var j :| 0 <= j < |os| && os[j] == r[k];
    }
  }

  lemma {:induction false} RewriteKeepsMeasurements(
    ms: seq<Measurement>, ke: nat, m: InsertMeasurement, clock: Timestamp, nextId: RowId)
    requires MeasurementsWellFormed(ms, clock, nextId)
    requires 0 <= ke < |ms| && ms[ke].customerId == m.customerId
    ensures MeasurementsWellFormed(RewriteRows(ms, ms[ke].id, m, clock + 1), clock + 1, nextId)
  {
    var r := RewriteRows(ms, ms[ke].id, m, clock + 1);
    forall i | 0 <= i < |ms| ensures r[i].id == ms[i].id && r[i].customerId == ms[i].customerId {
      if i != ke {
        assert ms[i].id != ms[ke].id by {
          if i < ke { assert ms[i].id < ms[ke].id; } else { assert ms[ke].id < ms[i].id; }
        }
      }
    }
    forall i, j | 0 <= i < j < |r| ensures r[i].id < r[j].id && r[i].customerId != r[j].customerId {
      assert ms[i].id < ms[j].id;
      assert ms[i].customerId != ms[j].customerId;
    }
  }

  lemma {:induction false} InsertKeepsMeasurements(
    ms: seq<Measurement>, row: Measurement, clock: Timestamp, nextId: RowId)
    requires MeasurementsWellFormed(ms, clock, nextId)
    requires !HasMeasurements(ms, row.customerId)
    requires row.id == nextId && row.createdAt == clock + 1 && row.updatedAt == clock + 1
    ensures MeasurementsWellFormed(ms + [row], clock + 1, nextId + 1)
  {
    var r := ms + [row];
    forall i | 0 <= i < |ms| ensures r[i] == ms[i] && ms[i].customerId != row.customerId && ms[i].id < row.id {
    }
    forall i, j | 0 <= i < j < |r| ensures r[i].id < r[j].id && r[i].customerId != r[j].customerId {
      if j < |ms| {
        assert ms[i].id < ms[j].id;
        assert ms[i].customerId != ms[j].customerId;
      }
    }
  }

  /** Rewriting rows in place, where every rewritten row already belongs to the
      written customer, leaves every customer's row count as it was. */
  lemma {:induction false} RewriteKeepsRowCount(
    ms: seq<Measurement>, id: RowId, m: InsertMeasurement, now: Timestamp, c: string)
    requires forall i :: 0 <= i < |ms| && ms[i].id == id ==> ms[i].customerId == m.customerId
    ensures RowCount(RewriteRows(ms, id, m, now), c) == RowCount(ms, c)
  {
    if ms != [] {
      var r := RewriteRows(ms, id, m, now);
      assert r[1..] == RewriteRows(ms[1..], id, m, now);
      assert r[0].customerId == ms[0].customerId;
      forall i | 0 <= i < |ms[1..]| && ms[1..][i].id == id ensures ms[1..][i].customerId == m.customerId {
        assert ms[1..][i] == ms[i + 1];
      }
      RewriteKeepsRowCount(ms[1..], id, m, now, c);
    }
  }

  /** Ids that agree position by position make the lookup by id find the same position. */
  lemma {:induction false} SameIdsSameIndex(os: seq<Order>, os': seq<Order>, id: RowId)
    requires |os| == |os'| && forall i :: 0 <= i < |os| ==> os[i].id == os'[i].id
    ensures IndexOf(os, OrderKey, id) == IndexOf(os', OrderKey, id)
  {
    var a, b := IndexOf(os, OrderKey, id), IndexOf(os', OrderKey, id);
    if a.Some? {
      assert OrderKey(os'[a.value]) == id;
    }
    if b.Some? {
      assert OrderKey(os[b.value]) == id;
    }
  }

  lemma {:induction false} SameIdsSameUserIndex(us: seq<User>, us': seq<User>, id: string)
    requires |us| == |us'| && forall i :: 0 <= i < |us| ==> us[i].id == us'[i].id
    ensures IndexOf(us, UserKey, id) == IndexOf(us', UserKey, id)
  {
    var a, b := IndexOf(us, UserKey, id), IndexOf(us', UserKey, id);
    if a.Some? {
      assert UserKey(us'[a.value]) == id;
    }
    if b.Some? {
      assert UserKey(us[b.value]) == id;
    }
  }

  // ---------------------------------------------------------------------------
  // Every write keeps the tables well formed
  // ---------------------------------------------------------------------------

  lemma {:induction false} OverwriteKeepsWellFormed(db: Tables, u: UpsertUser)
    requires WellFormed(db) && !EmailTaken(db.users, u) && HasUser(db.users, u.id)
    ensures WellFormed(UpsertUserOn(db, u).0)
  {
    UpsertExistingKeepsUsers(db.users, u, db.clock);
    assert UpsertUserOn(db, u).0 == db.(users := OverwriteUsers(db.users, u, db.clock + 1), clock := db.clock + 1);
  }

  lemma {:induction false} InsertUserKeepsWellFormed(db: Tables, u: UpsertUser)
    requires WellFormed(db) && !EmailTaken(db.users, u) && !HasUser(db.users, u.id)
    ensures WellFormed(UpsertUserOn(db, u).0)
  {
    UpsertNewKeepsUsers(db.users, u, db.clock);
    assert UpsertUserOn(db, u).0 == db.(users := db.users + [NewUser(u, db.clock + 1)], clock := db.clock + 1);
  }

  lemma {:induction false} UpsertUserKeepsWellFormed(db: Tables, u: UpsertUser)
    requires WellFormed(db)
    ensures WellFormed(UpsertUserOn(db, u).0)
  {
    if !EmailTaken(db.users, u) {
      if HasUser(db.users, u.id) {
        OverwriteKeepsWellFormed(db, u);
      } else {
        InsertUserKeepsWellFormed(db, u);
      }
    }
  }

  lemma {:induction false} CreateOrderKeepsWellFormed(db: Tables, o: InsertOrder)
    requires WellFormed(db)
    ensures WellFormed(CreateOrderOn(db, o).0)
  {
    if HasUser(db.users, o.customerId) {
      CreateKeepsOrders(db.orders, NewOrder(db.nextId, o, db.clock + 1), db.clock, db.nextId);
    }
  }

  lemma {:induction false} UpdateOrderKeepsWellFormed(db: Tables, id: RowId, p: OrderPatch)
    requires WellFormed(db)
    ensures WellFormed(UpdateOrderOn(db, id, p).0)
  {
    PatchKeepsOrders(db.orders, id, p, db.clock, db.nextId);
  }

  lemma {:induction false} DeleteOrderKeepsWellFormed(db: Tables, id: RowId)
    requires WellFormed(db)
    ensures WellFormed(DeleteOrderOn(db, id))
  {
    DeleteKeepsOrders(db.orders, id, db.clock, db.nextId);
  }

  lemma {:induction false} RewriteKeepsWellFormed(db: Tables, m: InsertMeasurement)
    requires WellFormed(db) && HasMeasurements(db.measurements, m.customerId)
    ensures WellFormed(SaveMeasurementsOn(db, m).0)
  {
    var e := LatestFor(db.measurements, m.customerId).value;
    var ke :| 0 <= ke < |db.measurements| && db.measurements[ke] == e;
    RewriteKeepsMeasurements(db.measurements, ke, m, db.clock, db.nextId);
    assert SaveMeasurementsOn(db, m).0 ==
      db.(measurements := RewriteRows(db.measurements, e.id, m, db.clock + 1), clock := db.clock + 1);
  }

  lemma {:induction false} FirstMeasurementsKeepWellFormed(db: Tables, m: InsertMeasurement)
    requires WellFormed(db) && !HasMeasurements(db.measurements, m.customerId) && HasUser(db.users, m.customerId)
    ensures WellFormed(SaveMeasurementsOn(db, m).0)
  {
    var row := NewMeasurement(db.nextId, m, db.clock + 1);
    InsertKeepsMeasurements(db.measurements, row, db.clock, db.nextId);
    assert SaveMeasurementsOn(db, m).0 ==
      db.(measurements := db.measurements + [row], clock := db.clock + 1, nextId := db.nextId + 1);
  }

  lemma {:induction false} SaveMeasurementsKeepsWellFormed(db: Tables, m: InsertMeasurement)
    requires WellFormed(db)
    ensures WellFormed(SaveMeasurementsOn(db, m).0)
  {
    if HasMeasurements(db.measurements, m.customerId) {
      RewriteKeepsWellFormed(db, m);
    } else if HasUser(db.users, m.customerId) {
      FirstMeasurementsKeepWellFormed(db, m);
    }
  }

  // ---------------------------------------------------------------------------
  // What a read sees after a write
  // ---------------------------------------------------------------------------

  /** After an upsert the user is found under its id with the written columns, and
      there is still exactly one user with that id. */
  lemma {:induction false} UpsertedUserIsFound(db: Tables, u: UpsertUser)
    requires WellFormed(db)
    ensures UpsertUserOn(db, u).1.Ok? ==> FindUser(UpsertUserOn(db, u).0.users, u.id) == Some(UpsertUserOn(db, u).1.value)
    ensures forall i, j :: 0 <= i < j < |UpsertUserOn(db, u).0.users| ==>
      UpsertUserOn(db, u).0.users[i].id != UpsertUserOn(db, u).0.users[j].id
  {
    UpsertUserKeepsWellFormed(db, u);
    if !EmailTaken(db.users, u) {
      var us', now := UpsertUserOn(db, u).0.users, db.clock + 1;
      if HasUser(db.users, u.id) {
        SameIdsSameUserIndex(db.users, us', u.id);
        var i := IndexOf(db.users, UserKey, u.id).value;
        assert us'[i] == OverwriteUser(db.users[i], u, now);
      } else {
        assert us'[|db.users|].id == u.id;
      }
    }
  }

  /** A newly created order heads the listing of all orders and the listing of its
      customer's orders. */
  lemma {:induction false} CreatedOrderListedFirst(db: Tables, o: InsertOrder)
    requires CreateOrderOn(db, o).1.Ok?
    ensures OrdersFor(CreateOrderOn(db, o).0.orders, None)[0] == CreateOrderOn(db, o).1.value
    ensures OrdersFor(CreateOrderOn(db, o).0.orders, Some(o.customerId)) != []
         && OrdersFor(CreateOrderOn(db, o).0.orders, Some(o.customerId))[0] == CreateOrderOn(db, o).1.value
  {
    var row := CreateOrderOn(db, o).1.value;
    var os' := db.orders + [row];
    assert Reverse(os')[0] == row;
    FilterAppend(db.orders, row, OwnedBy(o.customerId));
    var f := Filter(db.orders, OwnedBy(o.customerId)) + [row];
    assert Reverse(f)[0] == f[|f| - 1] == row;
  }

  /** Creating an order adds one to the total, adds one to the pending fittings exactly
      when the new order awaits a fitting, and leaves the customer count alone. */
  lemma {:induction false} CreatedOrderCounts(db: Tables, o: InsertOrder)
    requires CreateOrderOn(db, o).1.Ok?
    ensures StatsOf(CreateOrderOn(db, o).0.users, CreateOrderOn(db, o).0.orders) ==
      StatsOf(db.users, db.orders).(
        totalOrders := |db.orders| + 1,
        pendingFittings := StatsOf(db.users, db.orders).pendingFittings
          + (if IsFitting(CreateOrderOn(db, o).1.value) then 1 else 0))
  {
    FilterAppend(db.orders, CreateOrderOn(db, o).1.value, IsFitting);
  }

  /** Patching by id leaves the patched row where the lookup by id finds it. */
  lemma {:induction false} PatchedOrderFound(os: seq<Order>, id: RowId, p: OrderPatch, now: Timestamp)
    requires HasOrder(os, id)
    ensures FindOrder(PatchOrders(os, id, p, now), id) == Some(ApplyPatch(FindOrder(os, id).value, p, now))
  {
    var os' := PatchOrders(os, id, p, now);
    SameIdsSameIndex(os, os', id);
    var i := IndexOf(os, OrderKey, id).value;
    assert os'[i] == ApplyPatch(os[i], p, now);
  }

  /** After an update the lookup by id returns the patched row, whose update time is
      later than its creation time. */
  lemma {:induction false} UpdatedOrderIsFound(db: Tables, id: RowId, p: OrderPatch)
    requires WellFormed(db)
    requires UpdateOrderOn(db, id, p).1.Ok? && UpdateOrderOn(db, id, p).1.value.Some?
    ensures FindOrder(UpdateOrderOn(db, id, p).0.orders, id) == UpdateOrderOn(db, id, p).1.value
    ensures UpdateOrderOn(db, id, p).1.value.value.createdAt < UpdateOrderOn(db, id, p).1.value.value.updatedAt
  {
    PatchedOrderFound(db.orders, id, p, db.clock + 1);
    var o := FindOrder(db.orders, id).value;
    var i :| 0 <= i < |db.orders| && db.orders[i] == o;
  }

  /** Deleting an id that is not in the table changes nothing. */
  lemma {:induction false} DeleteAbsentIsNoop(db: Tables, id: RowId)
    requires !HasOrder(db.orders, id)
    ensures DeleteOrderOn(db, id) == db
  {
    FilterAll(db.orders, OtherThan(id));
  }

  /** Deleting twice is deleting once. */
  lemma {:induction false} DeleteIsIdempotent(db: Tables, id: RowId)
    ensures DeleteOrderOn(DeleteOrderOn(db, id), id) == DeleteOrderOn(db, id)
  {
    DeleteAbsentIsNoop(DeleteOrderOn(db, id), id);
  }

  /** Rewriting a customer's row in place leaves it that customer's current row, and the
      customer's row count as it was. */
  lemma {:induction false} RewrittenRowIsCurrent(
    ms: seq<Measurement>, ke: nat, m: InsertMeasurement, clock: Timestamp, nextId: RowId)
    requires MeasurementsWellFormed(ms, clock, nextId)
    requires 0 <= ke < |ms| && ms[ke].customerId == m.customerId
    ensures LatestFor(RewriteRows(ms, ms[ke].id, m, clock + 1), m.customerId) == Some(RewriteMeasurement(ms[ke], m, clock + 1))
    ensures RowCount(RewriteRows(ms, ms[ke].id, m, clock + 1), m.customerId) == RowCount(ms, m.customerId)
  {
    var ms' := RewriteRows(ms, ms[ke].id, m, clock + 1);
    RewriteKeepsMeasurements(ms, ke, m, clock, nextId);
    forall i | 0 <= i < |ms| && ms[i].id == ms[ke].id ensures i == ke {
    }
    RewriteKeepsRowCount(ms, ms[ke].id, m, clock + 1, m.customerId);
    assert ms'[ke] == RewriteMeasurement(ms[ke], m, clock + 1);
    LatestIsOnlyRow(ms', m.customerId);
  }

  /** A customer's first row is that customer's current row, and the only one. */
  lemma {:induction false} InsertedRowIsCurrent(ms: seq<Measurement>, row: Measurement)
    requires !HasMeasurements(ms, row.customerId)
    ensures LatestFor(ms + [row], row.customerId) == Some(row)
    ensures RowCount(ms + [row], row.customerId) == 1
  {
    var ms' := ms + [row];
    assert ms'[|ms|] == row;
    FilterAppend(ms, row, MeasuredFor(row.customerId));
    FilterNone(ms, MeasuredFor(row.customerId));
    var l := LatestFor(ms', row.customerId).value;
    var j :| 0 <= j < |ms'| && ms'[j] == l;
  }

  lemma {:induction false} RewrittenMeasurementsAreCurrent(db: Tables, m: InsertMeasurement)
    requires WellFormed(db) && HasMeasurements(db.measurements, m.customerId)
    ensures LatestFor(SaveMeasurementsOn(db, m).0.measurements, m.customerId) == Some(SaveMeasurementsOn(db, m).1.value)
    ensures RowCount(SaveMeasurementsOn(db, m).0.measurements, m.customerId) == RowCount(db.measurements, m.customerId)
  {
    var ms := db.measurements;
    var e := LatestFor(ms, m.customerId).value;
    var ke :| 0 <= ke < |ms| && ms[ke] == e;
    RewrittenRowIsCurrent(ms, ke, m, db.clock, db.nextId);
    assert SaveMeasurementsOn(db, m) == (db.(measurements := RewriteRows(ms, e.id, m, db.clock + 1), clock := db.clock + 1),
      Ok(RewriteMeasurement(e, m, db.clock + 1)));
  }

  lemma {:induction false} FirstMeasurementsAreCurrent(db: Tables, m: InsertMeasurement)
    requires !HasMeasurements(db.measurements, m.customerId) && HasUser(db.users, m.customerId)
    ensures LatestFor(SaveMeasurementsOn(db, m).0.measurements, m.customerId) == Some(SaveMeasurementsOn(db, m).1.value)
    ensures RowCount(SaveMeasurementsOn(db, m).0.measurements, m.customerId) == 1
  {
    var row := NewMeasurement(db.nextId, m, db.clock + 1);
    InsertedRowIsCurrent(db.measurements, row);
    assert SaveMeasurementsOn(db, m) ==
      (db.(measurements := db.measurements + [row], clock := db.clock + 1, nextId := db.nextId + 1), Ok(row));
  }

  /** After a save the customer's current measurements are the written row; an update
      in place leaves the customer's row count as it was, an insert makes it one. */
  lemma {:induction false} SavedMeasurementsAreCurrent(db: Tables, m: InsertMeasurement)
    requires WellFormed(db) && SaveMeasurementsOn(db, m).1.Ok?
    ensures LatestFor(SaveMeasurementsOn(db, m).0.measurements, m.customerId) == Some(SaveMeasurementsOn(db, m).1.value)
    ensures RowCount(SaveMeasurementsOn(db, m).0.measurements, m.customerId) ==
      if HasMeasurements(db.measurements, m.customerId) then RowCount(db.measurements, m.customerId) else 1
  {
    if HasMeasurements(db.measurements, m.customerId) {
      RewrittenMeasurementsAreCurrent(db, m);
    } else {
      FirstMeasurementsAreCurrent(db, m);
    }
  }
}
