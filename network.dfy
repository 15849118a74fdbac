/**
 * The entity model (src/network.rs): a network owns a name-keyed map of
 * devices, a device a name-keyed map of values, and a value the report and
 * control states its permission calls for. A device made by `create_device`
 * shares the network's send cell, which `start` fills with the outbound
 * channel, and a value made by `create_value` shares its device's cell;
 * devices and values rebuilt from a stored schema get new empty cells until a
 * later `create_device` or `create_value` re-points them.
 *
 * `Rc<RefCell<_>>` and `Arc<Mutex<_>>` handles are plain object references;
 * `Uuid::new_v4` is an `IdSource` passed in; a callback closure is a
 * `Handler` tag. An `unwrap` that would panic is a `Failed` outcome that
 * changes nothing.
 */
module Network {
  import opened Uuids
  import opened Wrappers
  import S = Schema
  import Rpc
  import C = Communication

  /** Why an operation panics instead of completing. */
  datatype Fault = NoChannel | NoReportState | NoControlState | ConnectFailed

  datatype Outcome = Done | Failed(fault: Fault)

  // ------------------------------------------------------------ permissions

  /** A value's permission; a writable value carries its control callback. */
  datatype ValuePermission = RW(callback: C.Handler) | R | W(callback: C.Handler)

  /** `Into<Permission> for &ValuePermission`: forgets the callback. */
  function ToPermission(p: ValuePermission): (q: S.Permission)
    ensures q.R? <==> p.R?
    ensures q.W? <==> p.W?
    ensures q.RW? <==> p.RW?
  {
    match p
    case R => S.R
    case RW(_) => S.RW
    case W(_) => S.W
  }

  /** `From<Permission> for ValuePermission`: a writable permission gets the do-nothing callback. */
  function FromPermission(p: S.Permission): (q: ValuePermission)
    ensures (q.RW? || q.W?) ==> q.callback == C.NOOP
  {
    match p
    case R => R
    case RW => RW(C.NOOP)
    case W => W(C.NOOP)
  }

  /** The record a value keeps of its permission: the same variant, with the do-nothing callback. */
  function PermissionRecord(p: ValuePermission): (q: ValuePermission)
    ensures ToPermission(q) == ToPermission(p)
    ensures (q.RW? || q.W?) ==> q.callback == C.NOOP
  {
    match p
    case R => R
    case RW(_) => RW(C.NOOP)
    case W(_) => W(C.NOOP)
  }

  /** `Permission` → `ValuePermission` → `Permission` is the identity. */
  lemma PermissionRoundTrip(p: S.Permission)
    ensures ToPermission(FromPermission(p)) == p
  {
  }

  /** The other way round only the callback is lost: it comes back as the do-nothing one. */
  lemma ValuePermissionRoundTrip(p: ValuePermission)
    ensures FromPermission(ToPermission(p)) == PermissionRecord(p)
  {
  }

  // ------------------------------------------------------------ shared cells

  /** `Rc<RefCell<Option<SendChannel>>>`: empty until the network starts. */
  class SendCell {
    var channel: Option<C.Outbox>

    constructor ()
      ensures channel == None
    {
      channel := None;
    }
  }

  /** The schema store a network is loaded from and saved to (the file I/O is not modelled). */
  class SchemaStore {
    var schema: Option<S.Schema>

    constructor (schema: Option<S.Schema>)
      ensures this.schema == schema
    {
      this.schema := schema;
    }
  }

  /** A control state: its id and the shared slot holding its callback. */
  datatype ControlState = ControlState(id: Uuid, callback: C.CallbackSlot)

  /** The request `report` sends: PUT on the state resource, attributed to the report state. */
  function ReportRequest(reportId: Uuid, data: string, now: string, requestId: Uuid): (r: Rpc.RpcRequest)
    ensures r.rpcMethod == Rpc.Put && r.params.url == "/state" && r.id == UuidText(requestId)
    ensures r.params.data.StateData?
    ensures r.params.data.state.data == data && r.params.data.state.timestamp == now
    ensures r.params.data.state.meta == S.MetaWithUuid(reportId, S.STATE)
  {
    Rpc.NewRequestBuilder()
      .Method(Rpc.Put)
      .OnType(Rpc.State)
      .Data(Rpc.StateData(Rpc.RpcStateData(data, now, S.MetaWithUuid(reportId, S.STATE))))
      .Create(requestId)
  }

  // ------------------------------------------------------------ values

  /** `InnerValue`: what a value is, fixed at creation, and the send cell it reports through. */
  class Value {
    const name: string
    const id: Uuid
    const permission: ValuePermission
    const report: Option<Uuid>
    const control: Option<ControlState>
    var send: SendCell

    /** The permission decides which states exist; the two state ids differ. */
    predicate Valid()
    {
      (permission.R? ==> report.Some? && control.None?)
      && (permission.W? ==> report.None? && control.Some?)
      && (permission.RW? ==> report.Some? && control.Some? && report.value != control.value.id)
      && (permission.RW? || permission.W? ==> permission.callback == C.NOOP)
    }

    /**
     * `InnerValue::new_with_id`: the report state's id is drawn before the
     * control state's; the control state's slot holds the given callback and
     * the permission is kept as a record with the do-nothing callback.
     */
    constructor NewWithId(name: string, permission: ValuePermission, id: Uuid, send: SendCell, ids: IdSource)
      modifies ids`next
      ensures Valid()
      ensures this.name == name && this.id == id && this.send == send
      ensures this.permission == PermissionRecord(permission)
      ensures permission.R? ==> report == Some(old(ids.next)) && ids.next == old(ids.next) + 1
      ensures permission.W? ==> control.Some? && control.value.id == old(ids.next) && ids.next == old(ids.next) + 1
      ensures permission.RW? ==> report == Some(old(ids.next)) && control.Some?
                                 && control.value.id == old(ids.next) + 1 && ids.next == old(ids.next) + 2
      ensures control.Some? ==> fresh(control.value.callback) && control.value.callback.handler == permission.callback
    {
      this.name := name;
      this.id := id;
      this.permission := PermissionRecord(permission);
      this.send := send;
      match permission {
        case RW(f) =>
          var reportId := ids.NewV4();
          var controlId := ids.NewV4();
          var slot := new C.CallbackSlot(f);
          this.report := Some(reportId);
          this.control := Some(ControlState(controlId, slot));
        case R =>
          var reportId := ids.NewV4();
          this.report := Some(reportId);
          this.control := None;
        case W(f) =>
          var controlId := ids.NewV4();
          var slot := new C.CallbackSlot(f);
          this.report := None;
          this.control := Some(ControlState(controlId, slot));
      }
    }

    /** `InnerValue::new`: the value's own id is drawn first, then its states' ids. */
    static method New(name: string, permission: ValuePermission, send: SendCell, ids: IdSource) returns (v: Value)
      modifies ids`next
      ensures fresh(v) && v.Valid()
      ensures v.name == name && v.id == old(ids.next) && v.send == send
      ensures v.permission == PermissionRecord(permission)
      ensures v.report.Some? ==> v.id < v.report.value < ids.next
      ensures v.control.Some? ==> v.id < v.control.value.id < ids.next
      ensures v.control.Some? ==> fresh(v.control.value.callback) && v.control.value.callback.handler == permission.callback
      ensures ids.next > old(ids.next)
    {
      var id := ids.NewV4();
      v := new Value.NewWithId(name, permission, id, send, ids);
    }

    /** `From<ValueSchema> for InnerValue`: name, id and permission kept; fresh state ids; no-op callbacks; an empty cell of its own. */
    static method FromSchema(vs: S.Value, ids: IdSource) returns (v: Value)
      modifies ids`next
      ensures fresh(v) && fresh(v.send) && v.send.channel == None && v.Valid()
      ensures v.name == vs.name && v.id == vs.meta.id && ToPermission(v.permission) == vs.permission
      ensures v.report.Some? ==> v.report.value >= old(ids.next)
      ensures v.control.Some? ==> v.control.value.id >= old(ids.next)
      ensures v.control.Some? ==> fresh(v.control.value.callback) && v.control.value.callback.handler == C.NOOP
      ensures IsReset(v, old(ids.next))
      ensures ids.next >= old(ids.next)
    {
      var cell := new SendCell();
      v := new Value.NewWithId(vs.name, FromPermission(vs.permission), vs.meta.id, cell, ids);
    }

    /**
     * `InnerValue::report`: needs a filled send cell, then a report state;
     * queues one PUT request carrying `data`, attributed to the report state.
     */
    method Report(data: string, now: string, ids: IdSource) returns (r: Outcome)
      modifies (if send.channel.Some? then {send.channel.value} else {})`queue, ids`next
      ensures send.channel.None? ==> r == Failed(NoChannel)
      ensures send.channel.Some? && report.None? ==> r == Failed(NoReportState)
      ensures r.Failed? ==> unchanged(ids) && (send.channel.Some? ==> unchanged(send.channel.value))
      ensures r.Done? <==> send.channel.Some? && report.Some?
      ensures r.Done? ==>
        ids.next == old(ids.next) + 1 &&
        send.channel.value.queue ==
          old(send.channel.value.queue) + [C.Request(ReportRequest(report.value, data, now, old(ids.next)))]
    {
      if send.channel.None? {
        return Failed(NoChannel);
      }
      if report.None? {
        return Failed(NoReportState);
      }
      var requestId := ids.NewV4();
      send.channel.value.Send(C.Request(ReportRequest(report.value, data, now, requestId)));
      r := Done;
    }

    /** `InnerValue::on_control`: needs a control state; replaces only its callback. */
    method OnControl(h: C.Handler) returns (r: Outcome)
      modifies (if control.Some? then {control.value.callback} else {})`handler
      ensures control.None? ==> r == Failed(NoControlState)
      ensures control.Some? ==> r == Done && control.value.callback.handler == h
    {
      if control.None? {
        return Failed(NoControlState);
      }
      control.value.callback.handler := h;
      r := Done;
    }

    /**
     * `From<MutexGuard<InnerValue>> for ValueSchema`: the value's name, id and
     * permission, with the report state (if any) listed before the control
     * state (if any), each under its own id.
     */
    function ToSchema(): (vs: S.Value)
      requires Valid()
      ensures vs.name == name && vs.meta == S.MetaWithUuid(id, S.VALUE) && vs.number == S.DEFAULT_NUMBER
      ensures vs.permission == ToPermission(permission)
    {
      var base := S.ValueWithId(name, ToPermission(permission), S.DEFAULT_NUMBER, id);
      var reported := if report.Some? then [S.StateWithId(S.REPORT, report.value)] else [];
      var controlled := if control.Some? then [S.StateWithId(S.CONTROL, control.value.id)] else [];
      base.(state := reported + controlled)
    }
  }

  /**
   * A value's schema lists exactly the state types its permission calls for:
   * the report state (if any) first and the control state (if any) last, each
   * under its own id.
   */
  lemma ValueSchemaStates(v: Value)
    requires v.Valid()
    ensures var vs := v.ToSchema();
      S.StateTypesOf(vs.state) == S.StateTypes(vs.permission)
      && |vs.state| == (if v.permission.RW? then 2 else 1)
      && (v.report.Some? ==> vs.state[0] == S.StateWithId(S.REPORT, v.report.value))
      && (v.control.Some? ==> vs.state[|vs.state| - 1] == S.StateWithId(S.CONTROL, v.control.value.id))
  {
  }

  // ------------------------------------------------------------ map traversal

  /**
   * A traversal of the map `all` that picks keys in an unspecified order:
   * `rest` holds the entries still to visit, `done` those visited.
   */
  ghost predicate Split<V>(all: map<string, V>, rest: map<string, V>, done: map<string, V>)
  {
    (forall n :: n in rest ==> n in all && rest[n] == all[n] && n !in done)
    && (forall n :: n in done ==> n in all && done[n] == all[n])
    && (forall n :: n in all ==> n in done || n in rest)
  }

  lemma SplitStep<V>(all: map<string, V>, rest: map<string, V>, done: map<string, V>, n: string)
    requires Split(all, rest, done) && n in rest
    ensures n !in done && rest[n] == all[n]
    ensures Split(all, rest - {n}, done[n := rest[n]])
    ensures |rest - {n}| < |rest|
  {
  }

  lemma SplitDone<V>(all: map<string, V>, rest: map<string, V>, done: map<string, V>)
    requires Split(all, rest, done) && rest == map[]
    ensures done == all
  {
  }

  // ------------------------------------------------------------ shapes

  /** What a schema round trip must keep of a value: its id and permission. */
  datatype ValueShape = ValueShape(id: Uuid, permission: S.Permission)

  /** A list of value schemas read into a name-keyed map: a later entry for a name replaces an earlier one. */
  function ValuesShape(vs: seq<S.Value>): map<string, ValueShape>
  {
    if vs == [] then map[]
    else
      var last := vs[|vs| - 1];
      ValuesShape(vs[..|vs| - 1])[last.name := ValueShape(last.meta.id, last.permission)]
  }

  /** The same view of a device's value map. */
  function ShapeOf(values: map<string, Value>): map<string, ValueShape>
  {
    map n | n in values :: ValueShape(values[n].id, ToPermission(values[n].permission))
  }

  /** Every value sits under its own name and keeps its permission invariant. */
  predicate WellKeyed(values: map<string, Value>)
  {
    forall n :: n in values ==> values[n].name == n && values[n].Valid()
  }

  /** The control states among a device's values. */
  function ControlsOf(values: map<string, Value>): set<ControlState>
  {
    set n | n in values && values[n].control.Some? :: values[n].control.value
  }

  /**
   * The values of a device as a schema list, in the map's (unspecified)
   * iteration order: one entry per value, each the value's own schema.
   */
  method ValuesToSchema(values: map<string, Value>) returns (vs: seq<S.Value>)
    requires WellKeyed(values)
    ensures |vs| == |values|
    ensures forall i :: 0 <= i < |vs| ==> vs[i].name in values && vs[i] == values[vs[i].name].ToSchema()
    ensures forall i, j :: 0 <= i < j < |vs| ==> vs[i].name != vs[j].name
    ensures ValuesShape(vs) == ShapeOf(values)
  {
    vs := [];
    var rest := values;
    ghost var done: map<string, Value> := map[];
    while rest != map[]
      invariant Split(values, rest, done) && ValuesListed(vs, done)
      decreases |rest|
    {
      var n :| n in rest;
      SplitStep(values, rest, done, n);
      var entry := rest[n].ToSchema();
      ValuesListedStep(vs, done, n, rest[n]);
      vs := vs + [entry];
      done := done[n := rest[n]];
      rest := rest - {n};
    }
    SplitDone(values, rest, done);
  }

  /** `vs` lists the values of `done` once each, each as its own schema. */
  predicate ValuesListed(vs: seq<S.Value>, done: map<string, Value>)
  {
    WellKeyed(done) && |vs| == |done|
    && (forall i :: 0 <= i < |vs| ==> vs[i].name in done && vs[i] == done[vs[i].name].ToSchema())
    && (forall i, j :: 0 <= i < j < |vs| ==> vs[i].name != vs[j].name)
    && ValuesShape(vs) == ShapeOf(done)
  }

  lemma ValuesListedStep(vs: seq<S.Value>, done: map<string, Value>, n: string, v: Value)
    requires ValuesListed(vs, done) && n !in done && v.name == n && v.Valid()
    ensures ValuesListed(vs + [v.ToSchema()], done[n := v])
  {
    ShapeAppend(vs, v.ToSchema());
    ShapeOfUpdate(done, n, v);
  }

  lemma ShapeAppend(vs: seq<S.Value>, v: S.Value)
    ensures ValuesShape(vs + [v]) == ValuesShape(vs)[v.name := ValueShape(v.meta.id, v.permission)]
  {
    assert (vs + [v])[..|vs|] == vs;
  }

  /** Reading one more entry of a value list. */
  lemma ValuesShapeStep(vs: seq<S.Value>, i: nat)
    requires i < |vs|
    ensures ValuesShape(vs[..i + 1]) == ValuesShape(vs[..i])[vs[i].name := ValueShape(vs[i].meta.id, vs[i].permission)]
  {
    assert vs[..i + 1][..i] == vs[..i];
  }

  lemma ShapeOfUpdate(values: map<string, Value>, n: string, v: Value)
    ensures ShapeOf(values[n := v]) == ShapeOf(values)[n := ValueShape(v.id, ToPermission(v.permission))]
  {
  }

  /**
   * A value as rebuilding from a schema leaves it: its send cell is empty, its
   * control callback does nothing, and its state ids were drawn at or after `from`.
   */
  ghost predicate IsReset(v: Value, from: nat)
    reads v`send, v.send`channel, (if v.control.Some? then {v.control.value.callback} else {})`handler
  {
    v.send.channel == None
    && (v.report.Some? ==> v.report.value >= from)
    && (v.control.Some? ==> v.control.value.callback.handler == C.NOOP && v.control.value.id >= from)
  }

  // ------------------------------------------------------------ devices

  /** The send cells of a device's values. */
  ghost function Cells(d: Device): set<SendCell>
    reads d`values, d.values.Values`send
  {
    set v | v in d.values.Values :: v.send
  }

  /** `InnerDevice`: a name-keyed map of values and the send cell new values get. */
  class Device {
    const name: string
    const id: Uuid
    var values: map<string, Value>
    var send: SendCell

    predicate Valid()
      reads this`values
    {
      WellKeyed(values)
    }

    /** `InnerDevice::new`: no values yet. */
    constructor (name: string, id: Uuid, send: SendCell)
      ensures Valid()
      ensures this.name == name && this.id == id && this.send == send && values == map[]
    {
      this.name := name;
      this.id := id;
      this.send := send;
      values := map[];
    }

    /**
     * `InnerDevice::create_value`: get-or-insert by name. An existing value is
     * returned as it is (its permission and state ids are kept whatever
     * `permission` says); only its send cell is re-pointed to the device's.
     * A new value gets fresh ids and is added under `name`.
     */
    method CreateValue(name: string, permission: ValuePermission, ids: IdSource) returns (v: Value)
      requires Valid()
      modifies this`values, ids`next, (if name in values then {values[name]} else {})`send
      ensures Valid()
      ensures v.send == send && v.name == name && v.Valid()
      ensures name in old(values) ==> v == old(values[name]) && values == old(values) && unchanged(ids)
      ensures name !in old(values) ==>
        fresh(v) && values == old(values)[name := v]
        && v.id == old(ids.next) && v.permission == PermissionRecord(permission)
        && (v.report.Some? ==> old(ids.next) < v.report.value < ids.next)
        && (v.control.Some? ==> old(ids.next) < v.control.value.id < ids.next)
        && (v.control.Some? ==> fresh(v.control.value.callback) && v.control.value.callback.handler == permission.callback)
    {
      if name in values {
        v := values[name];
        v.send := send;
      } else {
        v := Value.New(name, permission, send, ids);
        values := values[name := v];
      }
    }

    /**
     * `From<DeviceSchema> for InnerDevice`: name and id from the schema; one
     * value per listed name (a later entry for a name wins), each rebuilt by
     * `Value.FromSchema` with its own empty send cell; the device gets a new
     * empty cell too.
     */
    static method FromSchema(ds: S.Device, ids: IdSource) returns (d: Device)
      modifies ids`next
      ensures fresh(d) && fresh(d.send) && d.send.channel == None && d.Valid()
      ensures d.name == ds.name && d.id == ds.meta.id
      ensures ShapeOf(d.values) == ValuesShape(ds.value)
      ensures forall n :: n in d.values ==> fresh(d.values[n]) && fresh(d.values[n].send) && IsReset(d.values[n], old(ids.next))
      ensures fresh(Cells(d))
      ensures ids.next >= old(ids.next)
    {
      var values: map<string, Value> := map[];
      var i := 0;
      while i < |ds.value|
        invariant 0 <= i <= |ds.value|
        invariant WellKeyed(values) && ShapeOf(values) == ValuesShape(ds.value[..i])
        invariant forall n :: n in values ==> fresh(values[n]) && fresh(values[n].send) && IsReset(values[n], old(ids.next))
        invariant ids.next >= old(ids.next)
      {
        var v := Value.FromSchema(ds.value[i], ids);
        ValuesShapeStep(ds.value, i);
        ShapeOfUpdate(values, ds.value[i].name, v);
        values := values[ds.value[i].name := v];
        i := i + 1;
      }
      assert ds.value[..i] == ds.value;
      var cell := new SendCell();
      d := new Device(ds.name, ds.meta.id, cell);
      d.values := values;
    }

    /** `From<&InnerDevice> for DeviceSchema`: name and id, and one schema entry per value. */
    method ToSchema() returns (ds: S.Device)
      requires Valid()
      ensures ds.name == name && ds.meta == S.MetaWithUuid(id, S.DEVICE)
      ensures |ds.value| == |values|
      ensures forall i :: 0 <= i < |ds.value| ==> ds.value[i].name in values && ds.value[i] == values[ds.value[i].name].ToSchema()
      ensures ValuesAreSchemas(ds, this)
      ensures ValuesShape(ds.value) == ShapeOf(values)
    {
      var vs := ValuesToSchema(values);
      ds := S.DeviceWithId(name, id).(value := vs);
    }
  }

  /** The ids of some control states. */
  function IdsOf(cs: set<ControlState>): set<Uuid>
  {
    set c | c in cs :: c.id
  }

  lemma IdsOfAdd(cs: set<ControlState>, c: ControlState)
    ensures IdsOf(cs + {c}) == IdsOf(cs) + {c.id}
  {
    assert c.id in IdsOf(cs + {c});
  }

  lemma IdsOfUnion(a: set<ControlState>, b: set<ControlState>)
    ensures IdsOf(a + b) == IdsOf(a) + IdsOf(b)
  {
  }

  lemma ControlsOfUpdate(values: map<string, Value>, n: string, v: Value)
    requires n !in values
    ensures ControlsOf(values[n := v]) == ControlsOf(values) + (if v.control.Some? then {v.control.value} else {})
  {
    var lhs := ControlsOf(values[n := v]);
    var rhs := ControlsOf(values) + (if v.control.Some? then {v.control.value} else {});
    forall c | c in lhs ensures c in rhs {
      var m :| m in values[n := v] && values[n := v][m].control.Some? && values[n := v][m].control.value == c;
      if m != n {
        assert values[m].control.value == c;
      }
    }
    forall c | c in rhs ensures c in lhs {
      if c in ControlsOf(values) {
        var m :| m in values && values[m].control.Some? && values[m].control.value == c;
        assert values[n := v][m] == values[m];
      } else {
        assert values[n := v][n] == v;
      }
    }
  }

  /** `all` is `acc` with the control states `cs` registered under their ids. */
  predicate Registers(all: map<Uuid, C.CallbackSlot>, acc: map<Uuid, C.CallbackSlot>, cs: set<ControlState>)
  {
    all.Keys == acc.Keys + IdsOf(cs)
    && forall k :: k in all ==> (k in acc && all[k] == acc[k]) || ControlState(k, all[k]) in cs
  }

  /** Registering into an empty registry: exactly the ids of `cs`, each leading to its own state's slot. */
  lemma RegistersFromEmpty(all: map<Uuid, C.CallbackSlot>, cs: set<ControlState>)
    requires Registers(all, map[], cs)
    ensures all.Keys == IdsOf(cs)
    ensures forall k :: k in all ==> ControlState(k, all[k]) in cs
  {
  }

  /** Registering `cs1` and then `cs2` registers both. */
  lemma RegistersChain(a: map<Uuid, C.CallbackSlot>, b: map<Uuid, C.CallbackSlot>, c: map<Uuid, C.CallbackSlot>,
                       cs1: set<ControlState>, cs2: set<ControlState>)
    requires Registers(b, a, cs1) && Registers(c, b, cs2)
    ensures Registers(c, a, cs1 + cs2)
  {
    IdsOfUnion(cs1, cs2);
  }

  /** One step of `CollectControls`: registering one more value's control state, if it has one. */
  lemma CollectStep(acc: map<Uuid, C.CallbackSlot>, all: map<Uuid, C.CallbackSlot>, done: map<string, Value>, n: string, v: Value)
    requires n !in done && Registers(all, acc, ControlsOf(done))
    ensures Registers(if v.control.Some? then all[v.control.value.id := v.control.value.callback] else all,
                      acc, ControlsOf(done[n := v]))
  {
    ControlsOfUpdate(done, n, v);
    if v.control.Some? {
      IdsOfAdd(ControlsOf(done), v.control.value);
    }
  }

  /**
   * The inner step of `InnerNetwork::callbacks`: inserts each control state
   * among `values` into the registry under its id (a later insert wins).
   */
  method CollectControls(values: map<string, Value>, acc: map<Uuid, C.CallbackSlot>) returns (all: map<Uuid, C.CallbackSlot>)
    ensures Registers(all, acc, ControlsOf(values))
  {
    all := acc;
    var rest := values;
    ghost var done: map<string, Value> := map[];
    while rest != map[]
      invariant Split(values, rest, done)
      invariant Registers(all, acc, ControlsOf(done))
      decreases |rest|
    {
      var n :| n in rest;
      SplitStep(values, rest, done, n);
      var v := values[n];
      CollectStep(acc, all, done, n, v);
      if v.control.Some? {
        all := all[v.control.value.id := v.control.value.callback];
      }
      done := done[n := v];
      rest := rest - {n};
    }
    SplitDone(values, rest, done);
  }

  // ------------------------------------------------------------ networks

  /** What a schema round trip must keep of a device: its id and its values' shapes. */
  datatype DeviceShape = DeviceShape(id: Uuid, values: map<string, ValueShape>)

  /** A list of device schemas read into a name-keyed map: a later entry for a name replaces an earlier one. */
  function DevicesShape(ds: seq<S.Device>): map<string, DeviceShape>
  {
    if ds == [] then map[]
    else
      var last := ds[|ds| - 1];
      DevicesShape(ds[..|ds| - 1])[last.name := DeviceShape(last.meta.id, ValuesShape(last.value))]
  }

  lemma DevicesShapeAppend(ds: seq<S.Device>, d: S.Device)
    ensures DevicesShape(ds + [d]) == DevicesShape(ds)[d.name := DeviceShape(d.meta.id, ValuesShape(d.value))]
  {
    assert (ds + [d])[..|ds|] == ds;
  }

  /** Reading one more entry of a device list. */
  lemma DevicesShapeStep(ds: seq<S.Device>, i: nat)
    requires i < |ds|
    ensures DevicesShape(ds[..i + 1]) == DevicesShape(ds[..i])[ds[i].name := DeviceShape(ds[i].meta.id, ValuesShape(ds[i].value))]
  {
    assert ds[..i + 1][..i] == ds[..i];
  }

  /** The same view of a network's device map. */
  ghost function ShapeOfDevices(devices: map<string, Device>): map<string, DeviceShape>
    reads devices.Values`values
  {
    map n | n in devices :: DeviceShape(devices[n].id, ShapeOf(devices[n].values))
  }

  /** Every device sits under its own name and holds well-keyed values. */
  ghost predicate DevicesValid(devices: map<string, Device>)
    reads devices.Values`values
  {
    forall n :: n in devices ==> devices[n].name == n && devices[n].Valid()
  }

  /** The control states of all values of all devices. */
  ghost function AllControls(devices: map<string, Device>): set<ControlState>
    reads devices.Values`values
  {
    set n, c | n in devices && c in ControlsOf(devices[n].values) :: c
  }

  /** The request `publish` sends: POST on the network resource with the schema. */
  function PublishRequest(schema: S.Schema, requestId: Uuid): (r: Rpc.RpcRequest)
    ensures r.rpcMethod == Rpc.Post && r.params.url == "/network" && r.id == UuidText(requestId)
    ensures r.params.data == Rpc.SchemaData(schema)
  {
    Rpc.NewRequestBuilder()
      .Method(Rpc.Post)
      .OnType(Rpc.Network)
      .Data(Rpc.SchemaData(schema))
      .Create(requestId)
  }

  /** The values of every device in the map. */
  ghost function TreeValues(devices: map<string, Device>): set<Value>
    reads devices.Values`values
  {
    set d, v | d in devices.Values && v in d.values.Values :: v
  }

  /** The send cells of every device in the map and of every value in them. */
  ghost function TreeCells(devices: map<string, Device>): set<SendCell>
    reads devices.Values`values, devices.Values`send, TreeValues(devices)`send
  {
    (set d | d in devices.Values :: d.send) + (set v | v in TreeValues(devices) :: v.send)
  }

  /** The callback slots of every control state in the map. */
  ghost function TreeSlots(devices: map<string, Device>): set<C.CallbackSlot>
    reads devices.Values`values
  {
    set v | v in TreeValues(devices) && v.control.Some? :: v.control.value.callback
  }

  /**
   * Every device in the map as rebuilding from a schema leaves it: each device
   * cell is empty and each value is reset (empty cell, do-nothing control
   * callback, state ids drawn at or after `from`).
   */
  ghost predicate TreeReset(devices: map<string, Device>, from: nat)
    reads devices.Values`values, devices.Values`send, TreeValues(devices)`send,
      TreeCells(devices)`channel, TreeSlots(devices)`handler
  {
    (forall d :: d in devices.Values ==> d.send.channel == None)
    && (forall v :: v in TreeValues(devices) ==> IsReset(v, from))
  }

  /**
   * The first `i` entries of `ds` rebuilt into `devices`: a valid map with
   * their shape, every device reset since `from`, and every cell among `cells`.
   */
  ghost predicate Parsed(devices: map<string, Device>, ds: seq<S.Device>, i: nat, from: nat, cells: set<SendCell>)
    reads devices.Values`values, devices.Values`send, TreeValues(devices)`send,
      TreeCells(devices)`channel, TreeSlots(devices)`handler
  {
    i <= |ds| && DevicesValid(devices) && ShapeOfDevices(devices) == DevicesShape(ds[..i])
    && TreeReset(devices, from) && TreeCells(devices) <= cells
  }

  /** Changing nothing the tree reads keeps its validity, shape, values, cells and being reset. */
  twostate lemma TreeKept(new devices: map<string, Device>, new from: nat,
                          new vs: set<Value>, new cs: set<SendCell>, new ss: set<C.CallbackSlot>)
    requires old(allocated(devices)) && old(allocated(vs)) && old(allocated(cs)) && old(allocated(ss))
    requires vs == old(TreeValues(devices)) && cs == old(TreeCells(devices)) && ss == old(TreeSlots(devices))
    requires unchanged(devices.Values) && unchanged(vs) && unchanged(cs) && unchanged(ss)
    ensures DevicesValid(devices) == old(DevicesValid(devices)) && ShapeOfDevices(devices) == old(ShapeOfDevices(devices))
    ensures TreeValues(devices) == vs && TreeCells(devices) == cs
    ensures TreeReset(devices, from) == old(TreeReset(devices, from))
  {
    assert TreeValues(devices) == old(TreeValues(devices));
  }

  /** Changing nothing the tree reads keeps a partly rebuilt map as it was. */
  twostate lemma ParsedKept(new devices: map<string, Device>, new ds: seq<S.Device>, new i: nat, new from: nat, new cells: set<SendCell>,
                            new vs: set<Value>, new cs: set<SendCell>, new ss: set<C.CallbackSlot>)
    requires old(allocated(devices)) && old(allocated(cells)) && old(allocated(vs)) && old(allocated(cs)) && old(allocated(ss))
    requires vs == old(TreeValues(devices)) && cs == old(TreeCells(devices)) && ss == old(TreeSlots(devices))
    requires unchanged(devices.Values) && unchanged(vs) && unchanged(cs) && unchanged(ss)
    ensures old(Parsed(devices, ds, i, from, cells)) ==> Parsed(devices, ds, i, from, cells)
  {
    TreeKept(devices, from, vs, cs, ss);
  }

  /** Cells drawn from fresh ones are fresh. */
  twostate lemma FreshWithin(new s: set<SendCell>, new a: set<SendCell>, new b: set<SendCell>)
    requires fresh(a) && fresh(b) && s <= a + b
    ensures fresh(s)
  {
  }

  /** Adding a rebuilt device keeps the tree reset, and adds only its own cells. */
  lemma TreeResetStep(devices: map<string, Device>, n: string, d: Device, from: nat)
    requires TreeReset(devices, from)
    requires d.send.channel == None && forall m :: m in d.values ==> IsReset(d.values[m], from)
    ensures TreeReset(devices[n := d], from)
    ensures TreeCells(devices[n := d]) <= TreeCells(devices) + {d.send} + Cells(d)
  {
  }

  /** Rebuilding entry `i` as `d` and putting it under its name extends a partly rebuilt map by one entry. */
  lemma ParsedStep(devices: map<string, Device>, ds: seq<S.Device>, i: nat, from: nat, cells: set<SendCell>, d: Device, at: nat)
    requires i < |ds| && Parsed(devices, ds, i, from, cells)
    requires d.Valid() && d.name == ds[i].name && d.id == ds[i].meta.id && ShapeOf(d.values) == ValuesShape(ds[i].value)
    requires d.send.channel == None && from <= at && forall m :: m in d.values ==> IsReset(d.values[m], at)
    ensures Parsed(devices[ds[i].name := d], ds, i + 1, from, cells + ({d.send} + Cells(d)))
  {
    TreeResetStep(devices, ds[i].name, d, from);
    DevicesShapeStep(ds, i);
    DeviceMapUpdate(devices, ds[i].name, d);
  }

  /**
   * One step of `InnerNetwork::parse_schema`: rebuilds the device of entry `i`
   * and puts it under its name. Only the ids are drawn; the devices rebuilt
   * before are left as they were, and the new device brings only new cells.
   */
  method ParseDevice(devices: map<string, Device>, ds: seq<S.Device>, i: nat, ghost from: nat, ghost cells: set<SendCell>, ids: IdSource)
    returns (grown: map<string, Device>, ghost added: set<SendCell>)
    requires i < |ds| && Parsed(devices, ds, i, from, cells) && from <= ids.next
    modifies ids`next
    ensures Parsed(grown, ds, i + 1, from, cells + added)
    ensures fresh(added)
    ensures forall n :: n in grown ==> (n in devices && grown[n] == devices[n]) || fresh(grown[n])
    ensures ids.next >= old(ids.next)
  {
    ghost var at := ids.next;
    ghost var vs, cs, ss := TreeValues(devices), TreeCells(devices), TreeSlots(devices);
    var d := Device.FromSchema(ds[i], ids);
    ParsedKept(devices, ds, i, from, cells, vs, cs, ss);
    ParsedStep(devices, ds, i, from, cells, d, at);
    grown := devices[ds[i].name := d];
    added := {d.send} + Cells(d);
    FreshWithin(added, {d.send}, Cells(d));
  }

  /**
   * `InnerNetwork::parse_schema`: no stored schema gives no devices; otherwise
   * one device per listed name (a later entry wins), each rebuilt by
   * `Device.FromSchema`: every device and value has a new empty send cell,
   * every control callback does nothing, and every state id is newly drawn.
   */
  method ParseSchema(stored: Option<S.Schema>, ids: IdSource) returns (devices: map<string, Device>)
    modifies ids`next
    ensures DevicesValid(devices)
    ensures forall n :: n in devices ==> fresh(devices[n])
    ensures stored.None? ==> devices == map[]
    ensures stored.Some? ==> ShapeOfDevices(devices) == DevicesShape(stored.value.device)
    ensures fresh(TreeCells(devices)) && TreeReset(devices, old(ids.next))
    ensures ids.next >= old(ids.next)
  {
    devices := map[];
    if stored.None? {
      return;
    }
    var ds := stored.value.device;
    var i := 0;
    ghost var cells: set<SendCell> := {};
    while i < |ds|
      invariant Parsed(devices, ds, i, old(ids.next), cells) && fresh(cells)
      invariant forall n :: n in devices ==> fresh(devices[n])
      invariant ids.next >= old(ids.next)
    {
      ghost var added;
      devices, added := ParseDevice(devices, ds, i, old(ids.next), cells, ids);
      FreshWithin(cells + added, cells, added);
      cells := cells + added;
      i := i + 1;
    }
    assert ds[..i] == ds;
    FreshWithin(TreeCells(devices), cells, {});
  }

  /** Putting a device under its own name keeps the map valid and updates its shape at that name only. */
  lemma DeviceMapUpdate(devices: map<string, Device>, n: string, d: Device)
    requires DevicesValid(devices) && d.Valid() && d.name == n
    ensures DevicesValid(devices[n := d])
    ensures ShapeOfDevices(devices[n := d]) == ShapeOfDevices(devices)[n := DeviceShape(d.id, ShapeOf(d.values))]
  {
  }

  /**
   * A device entry lists, for each of its values, that value's own schema:
   * its name, id and permission and its report and control states with their ids.
   */
  ghost predicate ValuesAreSchemas(entry: S.Device, d: Device)
    reads d`values
  {
    forall j :: 0 <= j < |entry.value| ==>
      entry.value[j].name in d.values && d.values[entry.value[j].name].Valid()
      && entry.value[j] == d.values[entry.value[j].name].ToSchema()
  }

  /** `ds` lists the devices of `done` once each, under their names and ids, each with its values' own schemas. */
  ghost predicate Listed(ds: seq<S.Device>, done: map<string, Device>)
    reads done.Values`values
  {
    |ds| == |done|
    && (forall i :: 0 <= i < |ds| ==>
          ds[i].name in done && ds[i].meta == S.MetaWithUuid(done[ds[i].name].id, S.DEVICE)
          && ValuesAreSchemas(ds[i], done[ds[i].name]))
    && (forall i, j :: 0 <= i < j < |ds| ==> ds[i].name != ds[j].name)
    && DevicesShape(ds) == ShapeOfDevices(done)
  }

  lemma ListedStep(ds: seq<S.Device>, done: map<string, Device>, n: string, d: Device, entry: S.Device)
    requires Listed(ds, done) && n !in done
    requires entry.name == n && entry.meta == S.MetaWithUuid(d.id, S.DEVICE) && ValuesShape(entry.value) == ShapeOf(d.values)
    requires ValuesAreSchemas(entry, d)
    ensures Listed(ds + [entry], done[n := d])
  {
    var ds', done' := ds + [entry], done[n := d];
    forall i | 0 <= i < |ds'|
      ensures ds'[i].name in done' && ds'[i].meta == S.MetaWithUuid(done'[ds'[i].name].id, S.DEVICE)
      ensures ValuesAreSchemas(ds'[i], done'[ds'[i].name])
    {
      if i < |ds| {
        assert ds'[i] == ds[i] && ds[i].name in done;
      }
    }
    DevicesShapeAppend(ds, entry);
    ShapeOfDevicesUpdate(done, n, d);
  }

  /**
   * `s` is a snapshot of a network with this name, id and devices: one entry
   * per device, under the device's name and id, listing every value's own schema.
   */
  ghost predicate IsSnapshot(s: S.Schema, name: string, id: Uuid, devices: map<string, Device>)
    reads devices.Values`values
  {
    s.name == name && s.meta == S.MetaWithUuid(id, S.NETWORK) && Listed(s.device, devices)
  }

  /** The schema announces control id `k`: some value entry lists a CONTROL state with that id. */
  ghost predicate Announces(s: S.Schema, k: Uuid)
  {
    exists i, j :: 0 <= i < |s.device| && 0 <= j < |s.device[i].value|
      && S.StateWithId(S.CONTROL, k) in s.device[i].value[j].state
  }

  /** A device list read into a map keeps, under each name, the last entry with that name. */
  lemma {:induction false} DevicesShapeEntry(ds: seq<S.Device>, n: string)
    requires n in DevicesShape(ds)
    ensures exists i ::
      0 <= i < |ds| && ds[i].name == n && DevicesShape(ds)[n] == DeviceShape(ds[i].meta.id, ValuesShape(ds[i].value))
  {
    var last := ds[|ds| - 1];
    if last.name != n {
      DevicesShapeEntry(ds[..|ds| - 1], n);
      var i :| 0 <= i < |ds| - 1 && ds[..|ds| - 1][i].name == n
        && DevicesShape(ds[..|ds| - 1])[n] == DeviceShape(ds[..|ds| - 1][i].meta.id, ValuesShape(ds[..|ds| - 1][i].value));
      assert ds[i] == ds[..|ds| - 1][i];
    }
  }

  /** A value list read into a map has, for each name, an entry with that name. */
  lemma {:induction false} ValuesShapeEntry(vs: seq<S.Value>, m: string)
    requires m in ValuesShape(vs)
    ensures exists j :: 0 <= j < |vs| && vs[j].name == m
  {
    if vs[|vs| - 1].name != m {
      ValuesShapeEntry(vs[..|vs| - 1], m);
      var j :| 0 <= j < |vs| - 1 && vs[..|vs| - 1][j].name == m;
      assert vs[j] == vs[..|vs| - 1][j];
    }
  }

  /**
   * A snapshot announces exactly the control ids of the tree, which are the
   * keys the callback registry is built on.
   */
  lemma SnapshotAnnouncesControls(s: S.Schema, name: string, id: Uuid, devices: map<string, Device>)
    requires DevicesValid(devices) && IsSnapshot(s, name, id, devices)
    ensures forall k :: Announces(s, k) <==> k in IdsOf(AllControls(devices))
  {
    forall k | Announces(s, k)
      ensures k in IdsOf(AllControls(devices))
    {
      var i, j :| 0 <= i < |s.device| && 0 <= j < |s.device[i].value|
        && S.StateWithId(S.CONTROL, k) in s.device[i].value[j].state;
      AnnouncedIsRegistered(s.device[i], devices[s.device[i].name], j, k);
      var c := ControlState(k, devices[s.device[i].name].values[s.device[i].value[j].name].control.value.callback);
      assert c in ControlsOf(devices[s.device[i].name].values);
      assert c in AllControls(devices);
    }
    forall k | k in IdsOf(AllControls(devices))
      ensures Announces(s, k)
    {
      var c :| c in AllControls(devices) && c.id == k;
      var n :| n in devices && c in ControlsOf(devices[n].values);
      RegisteredIsAnnounced(s, devices, n, c);
    }
  }

  /** A CONTROL state in a value entry is that value's control state. */
  lemma AnnouncedIsRegistered(entry: S.Device, d: Device, j: nat, k: Uuid)
    requires ValuesAreSchemas(entry, d) && j < |entry.value|
    requires S.StateWithId(S.CONTROL, k) in entry.value[j].state
    ensures d.values[entry.value[j].name].control.Some?
    ensures d.values[entry.value[j].name].control.value.id == k
  {
    var v := d.values[entry.value[j].name];
    var states := entry.value[j].state;
    ValueSchemaStates(v);
    assert states == v.ToSchema().state;
  }

  /** Each control state of a device in the tree appears in the snapshot under its id. */
  lemma RegisteredIsAnnounced(s: S.Schema, devices: map<string, Device>, n: string, c: ControlState)
    requires DevicesValid(devices) && Listed(s.device, devices)
    requires n in devices && c in ControlsOf(devices[n].values)
    ensures Announces(s, c.id)
  {
    var d := devices[n];
    var m :| m in d.values && d.values[m].control.Some? && d.values[m].control.value == c;
    assert n in ShapeOfDevices(devices);
    DevicesShapeEntry(s.device, n);
    var i :| 0 <= i < |s.device| && s.device[i].name == n
      && DevicesShape(s.device)[n] == DeviceShape(s.device[i].meta.id, ValuesShape(s.device[i].value));
    assert ValuesShape(s.device[i].value) == ShapeOf(d.values);
    var j := ValueEntryAnnounces(s.device[i], d, m);
  }

  /** The entry of a value with a control state lists a CONTROL state under that state's id. */
  lemma ValueEntryAnnounces(entry: S.Device, d: Device, m: string) returns (j: nat)
    requires ValuesAreSchemas(entry, d) && ValuesShape(entry.value) == ShapeOf(d.values)
    requires m in d.values && d.values[m].control.Some?
    ensures j < |entry.value| && S.StateWithId(S.CONTROL, d.values[m].control.value.id) in entry.value[j].state
  {
    assert m in ShapeOf(d.values);
    ValuesShapeEntry(entry.value, m);
    j :| 0 <= j < |entry.value| && entry.value[j].name == m;
    var v := d.values[m];
    ValueSchemaStates(v);
    assert entry.value[j] == v.ToSchema();
    assert v.ToSchema().state[|v.ToSchema().state| - 1] == S.StateWithId(S.CONTROL, v.control.value.id);
  }

  /** `InnerNetwork`: the device map, and the send cell shared with the devices it creates. */
  class Network {
    const name: string
    const id: Uuid
    var devices: map<string, Device>
    const send: SendCell

    ghost predicate Valid()
      reads this`devices, devices.Values`values
    {
      DevicesValid(devices)
    }

    /** The network as a schema round trip sees it. */
    ghost function Shape(): map<string, DeviceShape>
      reads this`devices, devices.Values`values
    {
      ShapeOfDevices(devices)
    }

    /** The ids of every control state in the tree: what the callback registry is keyed by. */
    ghost function ControlIds(): set<Uuid>
      reads this`devices, devices.Values`values
    {
      IdsOf(AllControls(devices))
    }

    /**
     * `InnerNetwork::new_at`: the id comes from the certificate, the devices
     * from the schema stored under it (if any), and the send cell starts empty.
     * The rebuilt devices are reset as `ParseSchema` leaves them, and none of
     * them shares the network's own cell.
     */
    constructor (name: string, certId: Uuid, stored: Option<S.Schema>, ids: IdSource)
      modifies ids`next
      ensures Valid()
      ensures this.name == name && this.id == certId && fresh(send) && send.channel == None
      ensures forall n :: n in devices ==> fresh(devices[n])
      ensures stored.None? ==> devices == map[]
      ensures stored.Some? ==> Shape() == DevicesShape(stored.value.device)
      ensures fresh(TreeCells(devices)) && send !in TreeCells(devices) && TreeReset(devices, old(ids.next))
      ensures ids.next >= old(ids.next)
    {
      ghost var from := ids.next;
      var parsed := ParseSchema(stored, ids);
      ghost var vs, cs, ss := TreeValues(parsed), TreeCells(parsed), TreeSlots(parsed);
      label Parsed:
      var cell := new SendCell();
      this.name := name;
      this.id := certId;
      this.devices := parsed;
      this.send := cell;
      new;
      TreeKept@Parsed(parsed, from, vs, cs, ss);
    }

    /**
     * `InnerNetwork::create_device`: get-or-insert by name. An existing device
     * keeps its id and values and is only re-pointed to the network's send
     * cell; a new one gets a fresh id, no values and the network's cell.
     */
    method CreateDevice(name: string, ids: IdSource) returns (d: Device)
      requires Valid()
      modifies this`devices, ids`next, (if name in devices then {devices[name]} else {})`send
      ensures Valid()
      ensures d.name == name && d.send == send
      ensures name in old(devices) ==>
        d == old(devices[name]) && devices == old(devices) && d.values == old(d.values)
        && unchanged(ids) && Shape() == old(Shape())
      ensures name !in old(devices) ==>
        fresh(d) && devices == old(devices)[name := d] && d.id == old(ids.next) && d.values == map[]
        && ids.next == old(ids.next) + 1
        && Shape() == old(Shape())[name := DeviceShape(d.id, map[])]
    {
      if name in devices {
        d := devices[name];
        ghost var shape := Shape();
        d.send := send;
        assert Shape() == shape;
      } else {
        ghost var before, shape := devices, Shape();
        var id := ids.NewV4();
        assert DevicesValid(before) && ShapeOfDevices(before) == shape;
        d := new Device(name, id, send);
        assert DevicesValid(before) && ShapeOfDevices(before) == shape;
        devices := devices[name := d];
        assert DevicesValid(before) && ShapeOfDevices(before) == shape;
        DeviceMapUpdate(before, name, d);
      }
    }

    /**
     * `InnerNetwork::callbacks`: the registry the reader dispatches through,
     * keyed by exactly the control-state ids in the tree, each leading to that
     * control state's callback slot.
     */
    method Callbacks() returns (cbs: map<Uuid, C.CallbackSlot>)
      ensures cbs.Keys == ControlIds()
      ensures forall k :: k in cbs ==> ControlState(k, cbs[k]) in AllControls(devices)
    {
      cbs := map[];
      var rest := devices;
      ghost var done: map<string, Device> := map[];
      while rest != map[]
        invariant Split(devices, rest, done)
        invariant Registers(cbs, map[], AllControls(done))
        decreases |rest|
      {
        var n :| n in rest;
        SplitStep(devices, rest, done, n);
        var d := devices[n];
        ghost var before, controls := cbs, AllControls(done);
        cbs := CollectControls(d.values, cbs);
        assert AllControls(done) == controls;
        RegistersDevice(before, cbs, done, n, d);
        done := done[n := d];
        rest := rest - {n};
      }
      SplitDone(devices, rest, done);
      RegistersFromEmpty(cbs, AllControls(done));
    }

    /**
     * `Into<Schema> for &mut InnerNetwork`: the network's name and id and one
     * entry per device (in the map's unspecified order), each the device's own
     * schema; read back, it gives the network's shape.
     */
    method Snapshot() returns (s: S.Schema)
      requires Valid()
      ensures s.name == name && s.meta == S.MetaWithUuid(id, S.NETWORK)
      ensures |s.device| == |devices|
      ensures forall i :: 0 <= i < |s.device| ==>
        s.device[i].name in devices && s.device[i].meta == S.MetaWithUuid(devices[s.device[i].name].id, S.DEVICE)
        && ValuesAreSchemas(s.device[i], devices[s.device[i].name])
      ensures forall i, j :: 0 <= i < j < |s.device| ==> s.device[i].name != s.device[j].name
      ensures DevicesShape(s.device) == Shape()
      ensures IsSnapshot(s, name, id, devices)
      ensures forall k :: Announces(s, k) <==> k in ControlIds()
    {
      var ds: seq<S.Device> := [];
      var rest := devices;
      ghost var done: map<string, Device> := map[];
      while rest != map[]
        invariant Split(devices, rest, done)
        invariant Listed(ds, done)
        decreases |rest|
      {
        var n :| n in rest;
        SplitStep(devices, rest, done, n);
        var entry := devices[n].ToSchema();
        ListedStep(ds, done, n, devices[n], entry);
        ds := ds + [entry];
        done := done[n := devices[n]];
        rest := rest - {n};
      }
      SplitDone(devices, rest, done);
      s := S.NamedSchema(name, id).(device := ds);
      SnapshotAnnouncesControls(s, name, id, devices);
    }

    /**
     * `InnerNetwork::publish`: snapshots the network, then needs a filled send
     * cell; queues one POST request on the network resource carrying the snapshot.
     */
    method Publish(ids: IdSource) returns (r: Outcome, schema: S.Schema)
      requires Valid()
      modifies (if send.channel.Some? then {send.channel.value} else {})`queue, ids`next
      ensures Valid()
      ensures schema.name == name && schema.meta == S.MetaWithUuid(id, S.NETWORK)
      ensures |schema.device| == |devices| && DevicesShape(schema.device) == Shape()
      ensures IsSnapshot(schema, name, id, devices)
      ensures forall k :: Announces(schema, k) <==> k in old(ControlIds())
      ensures send.channel.None? ==> r == Failed(NoChannel) && unchanged(ids)
      ensures send.channel.Some? ==>
        r == Done && ids.next == old(ids.next) + 1
        && send.channel.value.queue == old(send.channel.value.queue) + [C.Request(PublishRequest(schema, old(ids.next)))]
    {
      ghost var shape := Shape();
      schema := Snapshot();
      assert Valid() && Shape() == shape && |devices| == |old(devices)|;
      if send.channel.None? {
        return Failed(NoChannel), schema;
      }
      var requestId := ids.NewV4();
      assert Valid() && Shape() == shape;
      send.channel.value.Send(C.Request(PublishRequest(schema, requestId)));
      assert Valid() && Shape() == shape;
      r := Done;
    }

    /**
     * `InnerNetwork::stop`: saves the network's snapshot in the store, so that
     * a network later constructed from the store has this network's shape.
     */
    method Stop(store: SchemaStore) returns (saved: S.Schema)
      requires Valid()
      modifies store`schema
      ensures store.schema == Some(saved)
      ensures saved.name == name && saved.meta == S.MetaWithUuid(id, S.NETWORK)
      ensures |saved.device| == |devices| && DevicesShape(saved.device) == Shape()
      ensures IsSnapshot(saved, name, id, devices)
    {
      saved := Snapshot();
      store.schema := Some(saved);
    }

    /**
     * `InnerNetwork::start`: builds the callback registry, opens the transport
     * with it (`connected` says whether the connection came up), fills the
     * send cell with the outbound channel and publishes the network.
     */
    method Start(connected: bool, ids: IdSource) returns (r: Outcome, reader: C.Reader?, writer: C.Writer?, published: S.Schema)
      requires Valid()
      modifies send`channel, ids`next
      ensures Valid()
      ensures !connected ==> r == Failed(ConnectFailed) && reader == null && writer == null && unchanged(send) && unchanged(ids)
      ensures connected ==>
        r == Done && reader != null && writer != null && send.channel.Some?
        && fresh(send.channel.value) && fresh(reader) && fresh(writer)
        && reader.outbox == send.channel.value && writer.outbox == send.channel.value
        && reader.alive && reader.events == [] && writer.wire == []
        && reader.callbacks.Keys == old(ControlIds())
        && (forall k :: k in reader.callbacks ==> ControlState(k, reader.callbacks[k]) in old(AllControls(devices)))
        && ids.next == old(ids.next) + 1
        && send.channel.value.queue == [C.Request(PublishRequest(published, old(ids.next)))]
        && IsSnapshot(published, name, id, devices)
        && (forall k :: k in reader.callbacks <==> Announces(published, k))
    {
      var cbs := Callbacks();
      if !connected {
        return Failed(ConnectFailed), null, null, S.NamedSchema(name, id);
      }
      reader, writer := Connect(cbs);
      r, published := Publish(ids);
    }

    /**
     * The transport half of `InnerNetwork::start`: opens the connection with
     * the callback registry and fills the send cell with its outbound channel.
     * The device tree is left alone.
     */
    method Connect(cbs: map<Uuid, C.CallbackSlot>) returns (reader: C.Reader, writer: C.Writer)
      requires Valid()
      modifies send`channel
      ensures Valid() && ControlIds() == old(ControlIds()) && AllControls(devices) == old(AllControls(devices))
      ensures send.channel.Some? && fresh(send.channel.value) && fresh(reader) && fresh(writer)
      ensures send.channel.value.queue == []
      ensures reader.callbacks == cbs && reader.outbox == send.channel.value && writer.outbox == send.channel.value
      ensures reader.alive && reader.events == [] && writer.wire == []
    {
      var outbox;
      outbox, reader, writer := C.Open(cbs);
      assert Valid();
      send.channel := Some(outbox);
    }
  }


  lemma ShapeOfDevicesUpdate(devices: map<string, Device>, n: string, d: Device)
    ensures ShapeOfDevices(devices[n := d]) == ShapeOfDevices(devices)[n := DeviceShape(d.id, ShapeOf(d.values))]
  {
  }

  /** One step of `Network.Callbacks`: registering one more device's control states. */
  lemma RegistersDevice(before: map<Uuid, C.CallbackSlot>, after: map<Uuid, C.CallbackSlot>,
                        done: map<string, Device>, n: string, d: Device)
    requires n !in done && Registers(before, map[], AllControls(done))
    requires Registers(after, before, ControlsOf(d.values))
    ensures Registers(after, map[], AllControls(done[n := d]))
  {
    AllControlsUpdate(done, n, d);
    RegistersChain(map[], before, after, AllControls(done), ControlsOf(d.values));
  }

  lemma AllControlsUpdate(done: map<string, Device>, n: string, d: Device)
    requires n !in done
    ensures AllControls(done[n := d]) == AllControls(done) + ControlsOf(d.values)
  {
    var lhs := AllControls(done[n := d]);
    var rhs := AllControls(done) + ControlsOf(d.values);
    forall c | c in lhs ensures c in rhs {
      var m :| m in done[n := d] && c in ControlsOf(done[n := d][m].values);
      if m != n {
        assert c in ControlsOf(done[m].values);
      }
    }
    forall c | c in rhs ensures c in lhs {
      if c in AllControls(done) {
        var m :| m in done && c in ControlsOf(done[m].values);
        assert done[n := d][m] == done[m];
      } else {
        assert done[n := d][n] == d;
      }
    }
  }
}
