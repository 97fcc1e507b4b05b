/** The persisted entities of the tailoring portal, their column defaults, and the
    insert shapes that validate request bodies (DataMigrator/shared/schema.ts). */
module Schema {
  import opened Wrappers

  /** A point in time, read from the store's clock. */
  type Timestamp = nat

  /** A decimal column (price, a body dimension) in hundredths of its unit. */
  type Decimal = int

  /** A server-generated row id (a `gen_random_uuid()` value). */
  type RowId = nat

  // ---------------------------------------------------------------------------
  // The three closed enumerations
  // ---------------------------------------------------------------------------

  datatype OrderStatus = Pending | Confirmed | InProgress | FittingScheduled | Completed | Cancelled
  datatype Priority = Low | Medium | High | Urgent
  datatype ServiceType = Formal | Wedding | Casual | Alterations | Consultation

  const OrderStatusNames: seq<string> :=
    ["pending", "confirmed", "in_progress", "fitting_scheduled", "completed", "cancelled"]
  const PriorityNames: seq<string> := ["low", "medium", "high", "urgent"]
  const ServiceTypeNames: seq<string> := ["formal", "wedding", "casual", "alterations", "consultation"]

  /** The database label of an order status. */
  function StatusName(s: OrderStatus): (n: string)
    ensures n in OrderStatusNames
  {
    match s
    case Pending => "pending"
    case Confirmed => "confirmed"
    case InProgress => "in_progress"
    case FittingScheduled => "fitting_scheduled"
    case Completed => "completed"
    case Cancelled => "cancelled"
  }

  /** Reads an order status label; only the six labels of the enumeration are accepted. */
  function ParseStatus(name: string): (r: Option<OrderStatus>)
    ensures r.Some? <==> name in OrderStatusNames
    ensures r.Some? ==> StatusName(r.value) == name
  {
    if name == "pending" then Some(Pending)
    else if name == "confirmed" then Some(Confirmed)
    else if name == "in_progress" then Some(InProgress)
    else if name == "fitting_scheduled" then Some(FittingScheduled)
    else if name == "completed" then Some(Completed)
    else if name == "cancelled" then Some(Cancelled)
    else None
  }

  function PriorityName(p: Priority): (n: string)
    ensures n in PriorityNames
  {
    match p
    case Low => "low"
    case Medium => "medium"
    case High => "high"
    case Urgent => "urgent"
  }

  /** Reads a priority label; only the four labels of the enumeration are accepted. */
  function ParsePriority(name: string): (r: Option<Priority>)
    ensures r.Some? <==> name in PriorityNames
    ensures r.Some? ==> PriorityName(r.value) == name
  {
    if name == "low" then Some(Low)
    else if name == "medium" then Some(Medium)
    else if name == "high" then Some(High)
    else if name == "urgent" then Some(Urgent)
    else None
  }

  function ServiceTypeName(s: ServiceType): (n: string)
    ensures n in ServiceTypeNames
  {
    match s
    case Formal => "formal"
    case Wedding => "wedding"
    case Casual => "casual"
    case Alterations => "alterations"
    case Consultation => "consultation"
  }

  /** Reads a service type label; only the five labels of the enumeration are accepted. */
  function ParseServiceType(name: string): (r: Option<ServiceType>)
    ensures r.Some? <==> name in ServiceTypeNames
    ensures r.Some? ==> ServiceTypeName(r.value) == name
  {
    if name == "formal" then Some(Formal)
    else if name == "wedding" then Some(Wedding)
    else if name == "casual" then Some(Casual)
    else if name == "alterations" then Some(Alterations)
    else if name == "consultation" then Some(Consultation)
    else None
  }

  /** Every label names exactly one member: printing a member and reading it back is the identity. */
  lemma EnumLabelsRoundTrip(s: OrderStatus, p: Priority, t: ServiceType)
    ensures ParseStatus(StatusName(s)) == Some(s)
    ensures ParsePriority(PriorityName(p)) == Some(p)
    ensures ParseServiceType(ServiceTypeName(t)) == Some(t)
  {
  }

  // ---------------------------------------------------------------------------
  // Users
  // ---------------------------------------------------------------------------

  const CustomerRole: string := "customer"
  const AdminRole: string := "admin"

  /** A row of `users`. The role is a nullable free string; only "admin" and
      "customer" mean anything to the application. */
  datatype User = User(
    id: string,
    email: Option<string>,
    firstName: Option<string>,
    lastName: Option<string>,
    profileImageUrl: Option<string>,
    role: Option<string>,
    createdAt: Timestamp,
    updatedAt: Timestamp)

  predicate IsAdmin(u: User) { u.role == Some(AdminRole) }
  predicate IsCustomer(u: User) { u.role == Some(CustomerRole) }

  /** The payload of an upsert: the id and whichever profile columns the caller supplies. */
  datatype UpsertUser = UpsertUser(
    id: string,
    email: Field<Option<string>>,
    firstName: Field<Option<string>>,
    lastName: Field<Option<string>>,
    profileImageUrl: Field<Option<string>>,
    role: Field<Option<string>>)

  /** The row an upsert inserts for a new id: left-out columns take their defaults. */
  function NewUser(u: UpsertUser, now: Timestamp): (r: User)
    ensures r.id == u.id && r.createdAt == now && r.updatedAt == now
    ensures u.role.Omitted? ==> IsCustomer(r)
    ensures u.role.Given? ==> r.role == u.role.value
    ensures u.email.Given? ==> r.email == u.email.value
    ensures u.firstName.Given? ==> r.firstName == u.firstName.value
    ensures u.lastName.Given? ==> r.lastName == u.lastName.value
    ensures u.profileImageUrl.Given? ==> r.profileImageUrl == u.profileImageUrl.value
    ensures u.email.Omitted? ==> r.email.None?
    ensures u.firstName.Omitted? ==> r.firstName.None?
    ensures u.lastName.Omitted? ==> r.lastName.None?
    ensures u.profileImageUrl.Omitted? ==> r.profileImageUrl.None?
  {
    User(u.id, u.email.Or(None), u.firstName.Or(None), u.lastName.Or(None),
         u.profileImageUrl.Or(None), u.role.Or(Some(CustomerRole)), now, now)
  }

  /** The row an upsert leaves for an existing id: supplied columns are overwritten,
      the others kept, and the update time is refreshed. */
  function OverwriteUser(prev: User, u: UpsertUser, now: Timestamp): (r: User)
    requires prev.id == u.id
    ensures r.id == prev.id && r.createdAt == prev.createdAt && r.updatedAt == now
    ensures r.email == u.email.Or(prev.email) && r.role == u.role.Or(prev.role)
    ensures r.firstName == u.firstName.Or(prev.firstName) && r.lastName == u.lastName.Or(prev.lastName)
    ensures r.profileImageUrl == u.profileImageUrl.Or(prev.profileImageUrl)
  {
    prev.(email := u.email.Or(prev.email), firstName := u.firstName.Or(prev.firstName),
         lastName := u.lastName.Or(prev.lastName),
         profileImageUrl := u.profileImageUrl.Or(prev.profileImageUrl),
         role := u.role.Or(prev.role), updatedAt := now)
  }

  /** A request body for the user insert shape, server-managed keys included. */
  datatype UserInput = UserInput(
    id: Field<Option<string>>,
    email: Field<Option<string>>,
    firstName: Field<Option<string>>,
    lastName: Field<Option<string>>,
    profileImageUrl: Field<Option<string>>,
    role: Field<Option<string>>,
    createdAt: Field<Option<Timestamp>>,
    updatedAt: Field<Option<Timestamp>>)

  /** The user insert shape: every column of `users` except id, createdAt and updatedAt. */
  datatype InsertUser = InsertUser(
    email: Field<Option<string>>,
    firstName: Field<Option<string>>,
    lastName: Field<Option<string>>,
    profileImageUrl: Field<Option<string>>,
    role: Field<Option<string>>)

  /** Validation against the user insert shape: it has no required column, so it never
      fails; the server-managed keys are dropped. */
  function ParseUser(b: UserInput): (r: Result<InsertUser, seq<string>>)
    ensures r.Ok?
    ensures r.value.email == b.email && r.value.role == b.role
    ensures r.value.firstName == b.firstName && r.value.lastName == b.lastName
    ensures r.value.profileImageUrl == b.profileImageUrl
  {
    Ok(InsertUser(b.email, b.firstName, b.lastName, b.profileImageUrl, b.role))
  }

  // ---------------------------------------------------------------------------
  // Orders
  // ---------------------------------------------------------------------------

  /** A row of `orders`. */
  datatype Order = Order(
    id: RowId,
    customerId: string,
    title: string,
    description: Option<string>,
    serviceType: ServiceType,
    status: Option<OrderStatus>,
    priority: Option<Priority>,
    price: Option<Decimal>,
    dueDate: Option<Timestamp>,
    createdAt: Timestamp,
    updatedAt: Timestamp)

  /** A request body for the order insert shape, after JSON parsing: every key may be
      left out or null, enum columns arrive as labels, and the server-managed keys may
      be present. */
  datatype OrderInput = OrderInput(
    id: Field<Option<string>>,
    customerId: Field<Option<string>>,
    title: Field<Option<string>>,
    description: Field<Option<string>>,
    serviceType: Field<Option<string>>,
    status: Field<Option<string>>,
    priority: Field<Option<string>>,
    price: Field<Option<Decimal>>,
    dueDate: Field<Option<Timestamp>>,
    createdAt: Field<Option<Timestamp>>,
    updatedAt: Field<Option<Timestamp>>)

  /** The order insert shape (a validated body). */
  datatype InsertOrder = InsertOrder(
    customerId: string,
    title: string,
    description: Field<Option<string>>,
    serviceType: ServiceType,
    status: Field<Option<OrderStatus>>,
    priority: Field<Option<Priority>>,
    price: Field<Option<Decimal>>,
    dueDate: Field<Option<Timestamp>>)

  /** A partial order insert shape: the body of an order update. */
  datatype OrderPatch = OrderPatch(
    customerId: Field<string>,
    title: Field<string>,
    description: Field<Option<string>>,
    serviceType: Field<ServiceType>,
    status: Field<Option<OrderStatus>>,
    priority: Field<Option<Priority>>,
    price: Field<Option<Decimal>>,
    dueDate: Field<Option<Timestamp>>)

  /** A not-null column: the key is given and not null. */
  predicate Supplied<T>(f: Field<Option<T>>) {
    f.Given? && f.value.Some?
  }

  predicate ServiceTypeAccepted(f: Field<Option<string>>) {
    Supplied(f) && ParseServiceType(f.value.value).Some?
  }

  /** A nullable enum column with a default: left out, null, or a label of the enumeration. */
  predicate StatusAccepted(f: Field<Option<string>>) {
    f.Omitted? || f.value.None? || ParseStatus(f.value.value).Some?
  }

  predicate PriorityAccepted(f: Field<Option<string>>) {
    f.Omitted? || f.value.None? || ParsePriority(f.value.value).Some?
  }

  function StatusColumn(f: Field<Option<string>>): Field<Option<OrderStatus>>
    requires StatusAccepted(f)
  {
    if f.Omitted? then Omitted
    else if f.value.None? then Given(None)
    else Given(ParseStatus(f.value.value))
  }

  function PriorityColumn(f: Field<Option<string>>): Field<Option<Priority>>
    requires PriorityAccepted(f)
  {
    if f.Omitted? then Omitted
    else if f.value.None? then Given(None)
    else Given(ParsePriority(f.value.value))
  }

  /** What the order insert shape demands: customerId, title and serviceType present,
      serviceType, status and priority members of their enumerations. */
  predicate OrderAccepted(b: OrderInput) {
    && Supplied(b.customerId)
    && Supplied(b.title)
    && ServiceTypeAccepted(b.serviceType)
    && StatusAccepted(b.status)
    && PriorityAccepted(b.priority)
  }

  /** The keys a body is rejected for, in the shape's key order. */
  function OrderErrors(b: OrderInput): seq<string> {
    (if Supplied(b.customerId) then [] else ["customerId"])
    + (if Supplied(b.title) then [] else ["title"])
    + (if ServiceTypeAccepted(b.serviceType) then [] else ["serviceType"])
    + (if StatusAccepted(b.status) then [] else ["status"])
    + (if PriorityAccepted(b.priority) then [] else ["priority"])
  }

  /** Validation of a body against the order insert shape. Unknown and server-managed
      keys are dropped; a rejection names every offending key. */
  function ParseOrder(b: OrderInput): (r: Result<InsertOrder, seq<string>>)
    ensures r.Ok? <==> OrderAccepted(b)
    ensures r.Ok? ==>
      && r.value.customerId == b.customerId.value.value
      && r.value.title == b.title.value.value
      && ServiceTypeName(r.value.serviceType) == b.serviceType.value.value
      && r.value.description == b.description
      && r.value.price == b.price
      && r.value.dueDate == b.dueDate
      && (r.value.status.Omitted? <==> b.status.Omitted?)
      && (r.value.priority.Omitted? <==> b.priority.Omitted?)
      && (b.status == Given(None) ==> r.value.status == Given(None))
      && (b.priority == Given(None) ==> r.value.priority == Given(None))
      && (Supplied(b.status) ==>
            Supplied(r.value.status) && StatusName(r.value.status.value.value) == b.status.value.value)
      && (Supplied(b.priority) ==>
            Supplied(r.value.priority) && PriorityName(r.value.priority.value.value) == b.priority.value.value)
    ensures r.Err? ==>
      && r.error != []
      && ("customerId" in r.error <==> !Supplied(b.customerId))
      && ("title" in r.error <==> !Supplied(b.title))
      && ("serviceType" in r.error <==> !ServiceTypeAccepted(b.serviceType))
      && ("status" in r.error <==> !StatusAccepted(b.status))
      && ("priority" in r.error <==> !PriorityAccepted(b.priority))
  {
    var errors := OrderErrors(b);
    if errors == [] then
      Ok(InsertOrder(b.customerId.value.value, b.title.value.value, b.description,
                     ParseServiceType(b.serviceType.value.value).value,
                     StatusColumn(b.status), PriorityColumn(b.priority), b.price, b.dueDate))
    else
      Err(errors)
  }

  /** The row an insert produces: fresh id and timestamps, supplied columns, and the
      defaults (status pending, priority medium) for what was left out. */
  function NewOrder(id: RowId, o: InsertOrder, now: Timestamp): (r: Order)
    ensures r.id == id && r.createdAt == now && r.updatedAt == now
    ensures r.customerId == o.customerId && r.title == o.title && r.serviceType == o.serviceType
    ensures o.status.Omitted? ==> r.status == Some(Pending)
    ensures o.priority.Omitted? ==> r.priority == Some(Medium)
    ensures o.status.Given? ==> r.status == o.status.value
    ensures o.priority.Given? ==> r.priority == o.priority.value
    ensures o.description.Given? ==> r.description == o.description.value
    ensures o.price.Given? ==> r.price == o.price.value
    ensures o.dueDate.Given? ==> r.dueDate == o.dueDate.value
    ensures o.description.Omitted? ==> r.description.None?
    ensures o.price.Omitted? ==> r.price.None?
    ensures o.dueDate.Omitted? ==> r.dueDate.None?
  {
    Order(id, o.customerId, o.title, o.description.Or(None), o.serviceType,
          o.status.Or(Some(Pending)), o.priority.Or(Some(Medium)),
          o.price.Or(None), o.dueDate.Or(None), now, now)
  }

  /** A body with no status or priority that validates yields a row that is pending
      and of medium priority. */
  lemma OrderDefaults(b: OrderInput, id: RowId, now: Timestamp)
    requires OrderAccepted(b) && b.status.Omitted? && b.priority.Omitted?
    ensures var r := NewOrder(id, ParseOrder(b).value, now);
      r.status == Some(Pending) && r.priority == Some(Medium)
  {
  }

  /** An empty body is rejected for exactly the three required keys, in key order. */
  lemma EmptyOrderRejected()
    ensures var empty := OrderInput(Omitted, Omitted, Omitted, Omitted, Omitted, Omitted,
                                    Omitted, Omitted, Omitted, Omitted, Omitted);
      ParseOrder(empty) == Err(["customerId", "title", "serviceType"])
  {
    var empty := OrderInput(Omitted, Omitted, Omitted, Omitted, Omitted, Omitted,
                            Omitted, Omitted, Omitted, Omitted, Omitted);
    assert OrderErrors(empty) == ["customerId"] + ["title"] + ["serviceType"] + [] + [];
    assert ["customerId"] + ["title"] + ["serviceType"] + [] + [] == ["customerId", "title", "serviceType"];
  }

  /** An update: the given columns of the patch replace the row's, everything else
      (the id and creation time in particular) is kept, and the update time is refreshed. */
  function ApplyPatch(o: Order, p: OrderPatch, now: Timestamp): (r: Order)
    ensures r.id == o.id && r.createdAt == o.createdAt && r.updatedAt == now
    ensures r.customerId == p.customerId.Or(o.customerId) && r.title == p.title.Or(o.title)
    ensures r.serviceType == p.serviceType.Or(o.serviceType) && r.status == p.status.Or(o.status)
    ensures r.priority == p.priority.Or(o.priority) && r.description == p.description.Or(o.description)
    ensures r.price == p.price.Or(o.price) && r.dueDate == p.dueDate.Or(o.dueDate)
  {
    o.(customerId := p.customerId.Or(o.customerId), title := p.title.Or(o.title),
       description := p.description.Or(o.description), serviceType := p.serviceType.Or(o.serviceType),
       status := p.status.Or(o.status), priority := p.priority.Or(o.priority),
       price := p.price.Or(o.price), dueDate := p.dueDate.Or(o.dueDate), updatedAt := now)
  }

  const EmptyPatch: OrderPatch :=
    OrderPatch(Omitted, Omitted, Omitted, Omitted, Omitted, Omitted, Omitted, Omitted)

  /** An empty patch still refreshes the update time and changes nothing else. */
  lemma EmptyPatchTouchesOnly(o: Order, now: Timestamp)
    ensures ApplyPatch(o, EmptyPatch, now) == o.(updatedAt := now)
  {
  }

  // ---------------------------------------------------------------------------
  // Measurements
  // ---------------------------------------------------------------------------

  /** The twelve body dimensions of a measurement row. */
  datatype Dimension =
    Chest | Waist | Shoulder | SleeveLength | Neck | Bicep
  | Inseam | Outseam | Hip | Thigh | Calf | Ankle

  /** One value per dimension. */
  datatype Dims<T> = Dims(
    chest: T, waist: T, shoulder: T, sleeveLength: T, neck: T, bicep: T,
    inseam: T, outseam: T, hip: T, thigh: T, calf: T, ankle: T)

  function Dim<T>(d: Dims<T>, k: Dimension): T {
    match k
    case Chest => d.chest
    case Waist => d.waist
    case Shoulder => d.shoulder
    case SleeveLength => d.sleeveLength
    case Neck => d.neck
    case Bicep => d.bicep
    case Inseam => d.inseam
    case Outseam => d.outseam
    case Hip => d.hip
    case Thigh => d.thigh
    case Calf => d.calf
    case Ankle => d.ankle
  }

  const NoDims: Dims<Option<Decimal>> :=
    Dims(None, None, None, None, None, None, None, None, None, None, None, None)

  /** Writes the given dimensions over `base` and keeps the others. */
  function OverlayDims(base: Dims<Option<Decimal>>, upd: Dims<Field<Option<Decimal>>>): (r: Dims<Option<Decimal>>)
    ensures forall k {:trigger Dim(r, k)} :: Dim(r, k) == Dim(upd, k).Or(Dim(base, k))
  {
    Dims(upd.chest.Or(base.chest), upd.waist.Or(base.waist), upd.shoulder.Or(base.shoulder),
         upd.sleeveLength.Or(base.sleeveLength), upd.neck.Or(base.neck), upd.bicep.Or(base.bicep),
         upd.inseam.Or(base.inseam), upd.outseam.Or(base.outseam), upd.hip.Or(base.hip),
         upd.thigh.Or(base.thigh), upd.calf.Or(base.calf), upd.ankle.Or(base.ankle))
  }

  /** A row of `measurements`. */
  datatype Measurement = Measurement(
    id: RowId,
    customerId: string,
    dims: Dims<Option<Decimal>>,
    notes: Option<string>,
    createdAt: Timestamp,
    updatedAt: Timestamp)

  /** A request body for the measurement insert shape, after JSON parsing. */
  datatype MeasurementInput = MeasurementInput(
    id: Field<Option<string>>,
    customerId: Field<Option<string>>,
    dims: Dims<Field<Option<Decimal>>>,
    notes: Field<Option<string>>,
    createdAt: Field<Option<Timestamp>>,
    updatedAt: Field<Option<Timestamp>>)

  /** The measurement insert shape (a validated body). */
  datatype InsertMeasurement = InsertMeasurement(
    customerId: string,
    dims: Dims<Field<Option<Decimal>>>,
    notes: Field<Option<string>>)

  /** Validation of a body against the measurement insert shape: customerId is the only
      required key; every dimension and the notes are optional and nullable. */
  function ParseMeasurement(b: MeasurementInput): (r: Result<InsertMeasurement, seq<string>>)
    ensures r.Ok? <==> Supplied(b.customerId)
    ensures r.Ok? ==>
      r.value.customerId == b.customerId.value.value && r.value.dims == b.dims && r.value.notes == b.notes
    ensures r.Err? ==> r.error == ["customerId"]
  {
    if Supplied(b.customerId) then Ok(InsertMeasurement(b.customerId.value.value, b.dims, b.notes))
    else Err(["customerId"])
  }

  /** The row an insert produces: left-out dimensions and notes are null. */
  function NewMeasurement(id: RowId, m: InsertMeasurement, now: Timestamp): (r: Measurement)
    ensures r.id == id && r.customerId == m.customerId && r.createdAt == now && r.updatedAt == now
    ensures forall k {:trigger Dim(r.dims, k)} :: Dim(r.dims, k) == (if Dim(m.dims, k).Given? then Dim(m.dims, k).value else None)
    ensures r.notes == m.notes.Or(None)
  {
    Measurement(id, m.customerId, OverlayDims(NoDims, m.dims), m.notes.Or(None), now, now)
  }

  /** The row an update in place produces: the id, owner and creation time are kept,
      the given columns written, the others kept, and the update time refreshed. */
  function RewriteMeasurement(row: Measurement, m: InsertMeasurement, now: Timestamp): (r: Measurement)
    ensures r.id == row.id && r.customerId == m.customerId && r.createdAt == row.createdAt
    ensures r.updatedAt == now
    ensures forall k {:trigger Dim(r.dims, k)} :: Dim(r.dims, k) == Dim(m.dims, k).Or(Dim(row.dims, k))
    ensures r.notes == m.notes.Or(row.notes)
  {
    row.(customerId := m.customerId, dims := OverlayDims(row.dims, m.dims),
         notes := m.notes.Or(row.notes), updatedAt := now)
  }

  // ---------------------------------------------------------------------------
  // The insert shapes never carry server-managed columns
  // ---------------------------------------------------------------------------

  /** Whatever a body says about id, createdAt and updatedAt, validation gives the same
      result: those columns are always assigned by the server. */
  lemma ServerFieldsIgnored(
    ob: OrderInput, mb: MeasurementInput, ub: UserInput,
    id: Field<Option<string>>, created: Field<Option<Timestamp>>, updated: Field<Option<Timestamp>>)
    ensures ParseOrder(ob.(id := id, createdAt := created, updatedAt := updated)) == ParseOrder(ob)
    ensures ParseMeasurement(mb.(id := id, createdAt := created, updatedAt := updated)) == ParseMeasurement(mb)
    ensures ParseUser(ub.(id := id, createdAt := created, updatedAt := updated)) == ParseUser(ub)
  {
  }
}
