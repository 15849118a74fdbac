/**
 * The schema document: the serialisable snapshot of a network's device/value tree
 * (src/schema.rs). The records are plain values; constructors that tie a value's
 * permission to its state list; builders that consume and return themselves.
 *
 * `Uuid::new_v4` and `Local::now` inside the constructors become parameters
 * (`fresh…` ids and `now`). `NumberSchema` keeps only its unit: its min/max/step
 * are floats and are not modelled.
 */
module Schema {
  import opened Uuids

  datatype Permission = R | W | RW

  datatype MetaType = NETWORK | DEVICE | VALUE | STATE

  datatype StateType = REPORT | CONTROL

  /** The schema version every `Meta` carries. */
  const VERSION: string := "2.0"

  datatype Meta = Meta(id: Uuid, metaType: MetaType, version: string)

  datatype State = State(data: string, stateType: StateType, timestamp: string, meta: Meta)

  datatype NumberSchema = NumberSchema(unit: string)

  datatype Value = Value(name: string, permission: Permission, number: NumberSchema, state: seq<State>, meta: Meta)

  datatype Device = Device(name: string, value: seq<Value>, meta: Meta)

  datatype Schema = Schema(name: string, meta: Meta, device: seq<Device>)

  // ---------------------------------------------------------------- Meta

  /** `Meta::new_with_uuid`: keeps the given id and type, version 2.0. */
  function MetaWithUuid(id: Uuid, metaType: MetaType): (m: Meta)
    ensures m.id == id && m.metaType == metaType && m.version == "2.0"
  {
    Meta(id, metaType, VERSION)
  }

  /** `Meta::new`: a freshly drawn id, the given type, version 2.0. */
  function MetaNew(metaType: MetaType, freshId: Uuid): (m: Meta)
    ensures m.id == freshId && m.metaType == metaType && m.version == "2.0"
  {
    MetaWithUuid(freshId, metaType)
  }

  // ---------------------------------------------------------------- State and Value

  /** `State::new`: empty data, the clock reading as timestamp, a fresh STATE meta. */
  function StateNew(stateType: StateType, freshId: Uuid, now: string): (s: State)
    ensures s.stateType == stateType && s.data == "" && s.timestamp == now
    ensures s.meta == MetaWithUuid(freshId, STATE)
  {
    State("", stateType, now, MetaNew(STATE, freshId))
  }

  /** The state types a permission calls for, report before control. */
  function StateTypes(permission: Permission): (ts: seq<StateType>)
    ensures |ts| == (if permission == RW then 2 else 1)
    ensures REPORT in ts <==> permission != W
    ensures CONTROL in ts <==> permission != R
  {
    match permission
    case R => [REPORT]
    case W => [CONTROL]
    case RW => [REPORT, CONTROL]
  }

  function StateTypesOf(states: seq<State>): (ts: seq<StateType>)
    ensures |ts| == |states|
    ensures forall i :: 0 <= i < |states| ==> ts[i] == states[i].stateType
  {
    seq(|states|, i requires 0 <= i < |states| => states[i].stateType)
  }

  /**
   * `Value::new`: the permission decides the state list. The first state drawn
   * gets `firstId`, a second one `secondId`; the value's meta gets `metaId`.
   */
  function ValueNew(name: string, permission: Permission, number: NumberSchema,
                    firstId: Uuid, secondId: Uuid, metaId: Uuid, now: string): (v: Value)
    ensures v.name == name && v.permission == permission && v.number == number
    ensures v.meta == MetaWithUuid(metaId, VALUE)
    ensures StateTypesOf(v.state) == StateTypes(permission)
    ensures permission == R ==> v.state == [StateNew(REPORT, firstId, now)]
    ensures permission == W ==> v.state == [StateNew(CONTROL, firstId, now)]
    ensures permission == RW ==> v.state == [StateNew(REPORT, firstId, now), StateNew(CONTROL, secondId, now)]
  {
    var state := match permission
      case R => [StateNew(REPORT, firstId, now)]
      case W => [StateNew(CONTROL, firstId, now)]
      case RW => [StateNew(REPORT, firstId, now), StateNew(CONTROL, secondId, now)];
    Value(name, permission, number, state, MetaNew(VALUE, metaId))
  }

  /** `NumberSchema::default` (its float bounds are not modelled). */
  const DEFAULT_NUMBER: NumberSchema := NumberSchema("")

  /** `Value::default`: named "State", read-only, a single REPORT state. */
  function DefaultValue(stateId: Uuid, metaId: Uuid, now: string): (v: Value)
    ensures v.name == "State" && v.permission == R && v.number == DEFAULT_NUMBER
    ensures |v.state| == 1 && v.state[0].stateType == REPORT && v.state[0].meta.id == stateId
    ensures v.meta == MetaWithUuid(metaId, VALUE)
  {
    ValueNew("State", R, DEFAULT_NUMBER, stateId, stateId, metaId, now)
  }

  // ---------------------------------------------------------------- Device and Schema

  /** `Device::new` (and `Device::default`): unnamed, no values, a fresh DEVICE meta. */
  function DeviceNew(metaId: Uuid): (d: Device)
    ensures d.name == "" && d.value == [] && d.meta == MetaWithUuid(metaId, DEVICE)
  {
    Device("", [], MetaNew(DEVICE, metaId))
  }

  /** `Schema::new(id)`: unnamed, no devices, a NETWORK meta with the given id. */
  function SchemaNew(id: Uuid): (s: Schema)
    ensures s.name == "" && s.device == [] && s.meta == MetaWithUuid(id, NETWORK)
  {
    Schema("", MetaWithUuid(id, NETWORK), [])
  }

  // ---------------------------------------------------------------- Builders

  /** `SchemaBuilder`: name, network id and the devices added so far. */
  datatype SchemaBuilder = SchemaBuilder(name: string, id: Uuid, device: seq<Device>)
  {
    /** `named`: sets only the name. */
    function Named(newName: string): (b: SchemaBuilder)
      ensures b.name == newName && b.id == id && b.device == device
    {
      this.(name := newName)
    }

    /** `add_device`: appends after the devices already added. */
    function AddDevice(d: Device): (b: SchemaBuilder)
      ensures b.name == name && b.id == id && b.device == device + [d]
    {
      this.(device := device + [d])
    }

    /** `create`: a schema with the builder's name and devices and a NETWORK meta. */
    function Create(): (s: Schema)
      ensures s.name == name && s.device == device && s.meta == MetaWithUuid(id, NETWORK)
    {
      Schema(name, MetaWithUuid(id, NETWORK), device)
    }
  }

  /** `SchemaBuilder::new(id)`. */
  function NewSchemaBuilder(id: Uuid): (b: SchemaBuilder)
    ensures b.name == "" && b.id == id && b.device == []
  {
    SchemaBuilder("", id, [])
  }

  /** `DeviceBuilder`: name and the values added so far. */
  datatype DeviceBuilder = DeviceBuilder(name: string, value: seq<Value>)
  {
    /** `named`: sets only the name. */
    function Named(newName: string): (b: DeviceBuilder)
      ensures b.name == newName && b.value == value
    {
      this.(name := newName)
    }

    /** `add_value`: appends after the values already added. */
    function AddValue(v: Value): (b: DeviceBuilder)
      ensures b.name == name && b.value == value + [v]
    {
      this.(value := value + [v])
    }

    /** `create`: a device with the builder's name and values and a fresh DEVICE meta. */
    function Create(metaId: Uuid): (d: Device)
      ensures d.name == name && d.value == value && d.meta == MetaWithUuid(metaId, DEVICE)
    {
      Device(name, value, MetaNew(DEVICE, metaId))
    }
  }

  /** `DeviceBuilder::new()` and `DeviceBuilder::default()`. */
  function NewDeviceBuilder(): (b: DeviceBuilder)
    ensures b.name == "" && b.value == []
  {
    DeviceBuilder("", [])
  }

  /** A chain of `add_device` calls, one per element of `ds`, in order. */
  function AddDevices(b: SchemaBuilder, ds: seq<Device>): SchemaBuilder
    decreases |ds|
  {
    if ds == [] then b else AddDevices(b.AddDevice(ds[0]), ds[1..])
  }

  /** A chain of `add_value` calls, one per element of `vs`, in order. */
  function AddValues(b: DeviceBuilder, vs: seq<Value>): DeviceBuilder
    decreases |vs|
  {
    if vs == [] then b else AddValues(b.AddValue(vs[0]), vs[1..])
  }

  /** Devices end up in the schema in the order they were added; name and id survive. */
  lemma {:induction false} AddDevicesInOrder(b: SchemaBuilder, ds: seq<Device>)
    ensures AddDevices(b, ds).Create().device == b.device + ds
    ensures AddDevices(b, ds).Create().name == b.name
    ensures AddDevices(b, ds).Create().meta == MetaWithUuid(b.id, NETWORK)
    decreases |ds|
  {
    if ds != [] {
      AddDevicesInOrder(b.AddDevice(ds[0]), ds[1..]);
      assert b.device + [ds[0]] + ds[1..] == b.device + ds;
    }
  }

  /** Values end up in the device in the order they were added; the name survives. */
  lemma {:induction false} AddValuesInOrder(b: DeviceBuilder, vs: seq<Value>, metaId: Uuid)
    ensures AddValues(b, vs).Create(metaId).value == b.value + vs
    ensures AddValues(b, vs).Create(metaId).name == b.name
    decreases |vs|
  {
    if vs != [] {
      AddValuesInOrder(b.AddValue(vs[0]), vs[1..], metaId);
      assert b.value + [vs[0]] + vs[1..] == b.value + vs;
    }
  }

  /** An untouched builder creates exactly what the plain constructors give. */
  lemma EmptyBuildersMatchConstructors(id: Uuid, metaId: Uuid)
    ensures NewSchemaBuilder(id).Create() == SchemaNew(id)
    ensures NewDeviceBuilder().Create(metaId) == DeviceNew(metaId)
  {
  }

  /** Naming commutes with adding: the builder's fields are independent. */
  lemma NamedCommutesWithAddDevice(b: SchemaBuilder, n: string, d: Device)
    ensures b.Named(n).AddDevice(d) == b.AddDevice(d).Named(n)
  {
  }

  // ------------------------------------------------------------------------
  // Constructors that src/network.rs calls but this revision of schema.rs does
  // not define; each takes the id it is given instead of drawing one.

  /** `Schema::new(&name, id)` as network.rs calls it. */
  function NamedSchema(name: string, id: Uuid): (s: Schema)
    ensures s.name == name && s.device == [] && s.meta == MetaWithUuid(id, NETWORK)
  {
    SchemaNew(id).(name := name)
  }

  /** `DeviceSchema::new(&name, id)` as network.rs calls it. */
  function DeviceWithId(name: string, id: Uuid): (d: Device)
    ensures d.name == name && d.value == [] && d.meta == MetaWithUuid(id, DEVICE)
  {
    Device(name, [], MetaWithUuid(id, DEVICE))
  }

  /** `ValueSchema::new_with_id(&name, permission, number, id)`; its states are left empty. */
  function ValueWithId(name: string, permission: Permission, number: NumberSchema, id: Uuid): (v: Value)
    ensures v.name == name && v.permission == permission && v.number == number
    ensures v.state == [] && v.meta == MetaWithUuid(id, VALUE)
  {
    Value(name, permission, number, [], MetaWithUuid(id, VALUE))
  }

  /** `State::new_with_id(state_type, id)`; no data and no clock reading. */
  function StateWithId(stateType: StateType, id: Uuid): (s: State)
    ensures s.stateType == stateType && s.meta == MetaWithUuid(id, STATE) && s.data == ""
  {
    State("", stateType, "", MetaWithUuid(id, STATE))
  }
}
