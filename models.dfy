/** The seven document kinds of the tracking backend
    (wildlife_tracking_backend/src/db/models.py).

    Each Pydantic model becomes a datatype with one constructor whose
    parameters are the model's fields. A field the model declares with
    `Field(...)` is required: its parameter has no default. A field with a
    default keeps it as a default-value expression. `Literal[...]` fields
    become enumerations. The `default_factory=datetime.utcnow` timestamps
    cannot read a clock here: the creation time is a required argument and
    `updatedAt` defaults to it. */
module Models {
  import opened Wrappers
  import opened GeoJson

  /** A point in time, in whole seconds (the source's naive UTC datetime). */
  type Timestamp = int

  const Minute: int := 60
  const Hour: int := 60 * Minute

  datatype Role = Admin | Researcher | Ranger | Viewer
  datatype Sex = Male | Female | Unknown
  datatype DeviceStatus = Active | Inactive | Maintenance | Retired
  datatype AlertType = GeofenceBreach | Inactivity | LowBattery | Custom
  datatype AlertStatus = Open | Acknowledged | Resolved

  /** The string each literal is stored as. */
  function RoleName(r: Role): string {
    match r
    case Admin => "admin"
    case Researcher => "researcher"
    case Ranger => "ranger"
    case Viewer => "viewer"
  }

  function SexName(x: Sex): string {
    match x
    case Male => "male"
    case Female => "female"
    case Unknown => "unknown"
  }

  function DeviceStatusName(x: DeviceStatus): string {
    match x
    case Active => "active"
    case Inactive => "inactive"
    case Maintenance => "maintenance"
    case Retired => "retired"
  }

  function AlertTypeName(x: AlertType): string {
    match x
    case GeofenceBreach => "geofence_breach"
    case Inactivity => "inactivity"
    case LowBattery => "low_battery"
    case Custom => "custom"
  }

  function AlertStatusName(x: AlertStatus): string {
    match x
    case Open => "open"
    case Acknowledged => "acknowledged"
    case Resolved => "resolved"
  }

  /** Each enumeration stores each of its members under its own value. */
  lemma EnumValuesDistinct(r1: Role, r2: Role, x1: Sex, x2: Sex, d1: DeviceStatus, d2: DeviceStatus,
                           t1: AlertType, t2: AlertType, a1: AlertStatus, a2: AlertStatus)
    ensures RoleName(r1) == RoleName(r2) ==> r1 == r2
    ensures SexName(x1) == SexName(x2) ==> x1 == x2
    ensures DeviceStatusName(d1) == DeviceStatusName(d2) ==> d1 == d2
    ensures AlertTypeName(t1) == AlertTypeName(t2) ==> t1 == t2
    ensures AlertStatusName(a1) == AlertStatusName(a2) ==> a1 == a2
  {
  }

  /** Free-form dictionaries (`extra`, `metadata`) hold string values only here. */
  type Dict = map<string, string>

  datatype User = User(
    id: Option<string> := None,
    email: string,
    name: string,
    role: Role := Viewer,
    createdAt: Timestamp,
    updatedAt: Timestamp := createdAt)

  datatype Animal = Animal(
    id: Option<string> := None,
    species: string,
    tagId: string,
    sex: Option<Sex> := Some(Unknown),
    ageYears: Option<real> := None,
    name: Option<string> := None,
    createdAt: Timestamp,
    updatedAt: Timestamp := createdAt)

  datatype Device = Device(
    id: Option<string> := None,
    deviceId: string,
    animalId: Option<string> := None,
    status: DeviceStatus := Active,
    batteryLevel: Option<real> := None,
    lastSeenAt: Option<Timestamp> := None,
    createdAt: Timestamp,
    updatedAt: Timestamp := createdAt)

  datatype TelemetryPoint = TelemetryPoint(
    id: Option<string> := None,
    animalId: Option<string> := None,
    deviceId: Option<string> := None,
    timestamp: Timestamp,
    location: Geometry,
    speedKmh: Option<real> := None,
    heartRateBpm: Option<real> := None,
    temperatureC: Option<real> := None,
    extra: Option<Dict> := None)

  datatype Geofence = Geofence(
    id: Option<string> := None,
    name: string,
    description: Option<string> := None,
    active: bool := true,
    geometry: Geometry,
    createdBy: Option<string> := None,
    createdAt: Timestamp,
    updatedAt: Timestamp := createdAt)

  datatype Alert = Alert(
    id: Option<string> := None,
    animalId: Option<string> := None,
    kind: AlertType := Custom,
    message: string,
    status: AlertStatus := Open,
    createdAt: Timestamp,
    updatedAt: Timestamp := createdAt,
    metadata: Option<Dict> := None)

  datatype Sighting = Sighting(
    id: Option<string> := None,
    species: string,
    reporterId: Option<string> := None,
    timestamp: Timestamp,
    location: Geometry,
    notes: Option<string> := None,
    mediaUrls: Option<seq<string>> := None,
    confidence: Option<real> := None)

  /** A document as written to the store: one of the seven kinds. */
  datatype Doc =
    | UserDoc(user: User)
    | AnimalDoc(animal: Animal)
    | DeviceDoc(device: Device)
    | TelemetryDoc(point: TelemetryPoint)
    | GeofenceDoc(geofence: Geofence)
    | AlertDoc(alert: Alert)
    | SightingDoc(sighting: Sighting)

  /** The natural keys the sample-data workflow filters on. */
  datatype Field = EmailField | NameField | TagIdField | DeviceIdField

  /** The value of field `f` in document `d`, if it has one: the email of
      a user, the tag_id of an animal, the device_id of a device or of a
      telemetry point, the name of a user, an animal or a geofence. */
  function StringField(d: Doc, f: Field): Option<string> {
    match f
    case EmailField => if d.UserDoc? then Some(d.user.email) else None
    case TagIdField => if d.AnimalDoc? then Some(d.animal.tagId) else None
    case DeviceIdField =>
      if d.DeviceDoc? then Some(d.device.deviceId)
      else if d.TelemetryDoc? then d.point.deviceId
      else None
    case NameField =>
      if d.UserDoc? then Some(d.user.name)
      else if d.AnimalDoc? then d.animal.name
      else if d.GeofenceDoc? then Some(d.geofence.name)
      else None
  }

  /** Which documents carry which string field: email on users; tag_id on
      animals; device_id on devices, and on telemetry points that name one;
      name on users and geofences, and on animals that have one. */
  lemma StringFieldDefined(d: Doc, f: Field)
    ensures StringField(d, f).Some? <==>
      || (f == EmailField && d.UserDoc?)
      || (f == TagIdField && d.AnimalDoc?)
      || (f == DeviceIdField && (d.DeviceDoc? || (d.TelemetryDoc? && d.point.deviceId.Some?)))
      || (f == NameField && (d.UserDoc? || d.GeofenceDoc? || (d.AnimalDoc? && d.animal.name.Some?)))
  {
  }

  /** The `timestamp` field, which only telemetry points and sightings have. */
  function TimestampField(d: Doc): Option<Timestamp> {
    match d
    case TelemetryDoc(p) => Some(p.timestamp)
    case SightingDoc(x) => Some(x.timestamp)
    case _ => None
  }

  /** Building each model from its required fields alone gives the declared
      defaults: no id, role viewer, sex unknown, device active, geofence active,
      alert type custom and status open, every optional field absent. */
  lemma Defaults(s: string, t: Timestamp, g: Geometry)
    ensures var u := User(email := s, name := s, createdAt := t);
      u.id == None && u.role == Viewer && u.updatedAt == t
    ensures var a := Animal(species := s, tagId := s, createdAt := t);
      a.id == None && a.sex == Some(Unknown) && a.ageYears == None && a.name == None && a.updatedAt == t
    ensures var d := Device(deviceId := s, createdAt := t);
      d.id == None && d.animalId == None && d.status == Active && d.batteryLevel == None && d.lastSeenAt == None
      && d.updatedAt == t
    ensures var p := TelemetryPoint(timestamp := t, location := g);
      p.id == None && p.animalId == None && p.deviceId == None && p.speedKmh == None
      && p.heartRateBpm == None && p.temperatureC == None && p.extra == None
    ensures var f := Geofence(name := s, geometry := g, createdAt := t);
      f.id == None && f.description == None && f.active && f.createdBy == None && f.updatedAt == t
    ensures var x := Alert(message := s, createdAt := t);
      x.id == None && x.animalId == None && x.kind == Custom && x.status == Open && x.metadata == None
      && x.updatedAt == t
    ensures var x := Sighting(species := s, timestamp := t, location := g);
      x.id == None && x.reporterId == None && x.notes == None && x.mediaUrls == None && x.confidence == None
  {
  }
}
