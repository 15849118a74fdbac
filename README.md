# wappsto-iot-rs core, modelled in Dafny

This project models the core of the wappsto-iot-rs client library. The library
connects an IoT network to the Wappsto cloud. The model covers:

- **The entity model** (`network.dfy`, from `src/network.rs`). A network owns a
  name-keyed map of devices, and a device owns a name-keyed map of values. The
  permission of a value (R, W or RW) decides whether the value has a report
  state, a control state, or both. A device made by `create_device` gets the
  network's send cell, which `start` fills with the outbound channel, and a
  value made by `create_value` gets its device's cell. Devices and values
  rebuilt from a stored schema get new empty cells of their own; only a later
  `create_device` or `create_value` for the same name re-points them to the
  shared cell. The model covers:
  - the get-or-insert operations `create_device` and `create_value`;
  - `report` and `on_control`;
  - the callback registry keyed by control-state id;
  - conversion to a schema snapshot and reconstruction from one;
  - `start`, `publish` and `stop`.
- **The schema document** (`schema.dfy`, from `src/schema.rs`): records,
  constructors that tie a permission to its list of states, and the two
  value-consuming builders.
- **The JSON-RPC envelope** (`rpc.dfy`, from `src/rpc.rs`): upper-case method
  names, the resource-type to url mapping, the request builder and its
  defaults, and the request ids drawn from fresh UUIDs.
- **The transport** (`communication.dfy`, from `src/communication.rs`):
  - the reader's dispatch of each decoded frame (acknowledgement first, then
    the state callback), over an outbound queue and an event log;
  - the writer draining that queue in FIFO order;
  - the read and write retry loops.
- **Server addressing** (`connection.dfy`, from `src/connection.rs`) and the
  network-creation request builder with its credential typestate
  (`create_network.dfy`, from `src/create_network.rs`).
- **Supporting pieces**: `uuids.dfy` models a UUID as an unbounded natural
  number with the hyphenated text form of its low 128 bits, and `Uuid::new_v4`
  as a counter that never repeats. Only `Uuids.UuidTextInjective` and
  `Rpc.FreshRequestIdsDiffer` need ids below 2^128. `wrappers.dfy` holds `Option`.

Modelling conventions:

- `Rc<RefCell<_>>` and `Arc<Mutex<_>>` handles are object references.
- A callback closure is a `Handler` tag.
- An `unwrap` that would panic becomes a `Failed` outcome that changes nothing.
  The reader thread's panics become a `Fatal` event, after which the reader is
  no longer alive.

### Where the source files disagree

The source files come from different revisions. `src/network.rs` calls several
things that this revision of `src/schema.rs` and `src/rpc.rs` does not define:

- `Schema::new(name, id)`, `DeviceSchema::new(name, id)`,
  `ValueSchema::new_with_id` and `State::new_with_id`;
- `RpcType::State`.

Separately, `src/communication.rs:47` calls `RpcResponse::new(id, success)`,
which this revision of `src/rpc.rs` also lacks: its `RpcResponse` is an empty
struct (`src/rpc.rs:124-125`).

The model defines `Schema.SchemaNew`, `Schema.DeviceNew` and `Schema.ValueNew`
as `src/schema.rs` writes them. It adds these as glue:

- `Schema.NamedSchema`, `Schema.DeviceWithId`, `Schema.ValueWithId` and
  `Schema.StateWithId`;
- an `RpcType.State` variant, whose url is `/state`;
- an `RpcResponse` holding the id and the success flag.

Reloading a saved schema keeps the device and value ids (`src/network.rs:355`,
`:529`) but draws new report-state and control-state ids through `new_with_id`
(`src/network.rs:459-470`). `Network.Value.FromSchema` states exactly that: the
state ids are fresh draws, not the stored ones.

## Model

| member | source | states |
|---|---|---|
| Uuids.UuidText | src/rpc.rs:24 | The text form of an id is 36 characters long, with hyphens at positions 8, 13, 18 and 23 (8-4-4-4-12). |
| Uuids.UuidTextInjective | src/rpc.rs:24 | Two different UUIDs never have the same text, so a request id stands for the UUID it was made from. |
| Uuids.IdSource.NewV4 | src/network.rs:141 | A draw returns the current counter and advances it by one, so it never returns an id returned before. |
| Schema.MetaWithUuid | src/schema.rs:156-162 | Keeps the given id and meta type, and the version is "2.0". |
| Schema.MetaNew | src/schema.rs:164-170 | The id is the freshly drawn one, the meta type is as given, and the version is "2.0". |
| Schema.StateNew | src/schema.rs:99-106 | A new state has the given type, empty data, the current timestamp and a STATE meta with a fresh id. |
| Schema.StateTypes | src/schema.rs:61-68 | A permission calls for two states under RW and one otherwise; REPORT is among them iff the permission is not W; CONTROL is among them iff it is not R. |
| Schema.ValueNew | src/schema.rs:60-76 | Keeps the name, permission and number. The states are [REPORT] for R, [CONTROL] for W, and [REPORT, CONTROL] for RW. The caller supplies the state ids (`firstId` for the first state, `secondId` for the control state of RW) and the value's meta id, which the source draws with `Uuid::new_v4`. The meta is of type VALUE. |
| Schema.DefaultValue | src/schema.rs:79-87 | The default value is named "State", is read-only, uses the default number range and has one REPORT state. |
| Schema.DeviceNew | src/schema.rs:35-41 | A new device has an empty name, no values and a DEVICE meta. |
| Schema.SchemaNew | src/schema.rs:18-24 | A new schema has an empty name, no devices and a NETWORK meta with the given id. |
| Schema.NewSchemaBuilder | src/schema.rs:209-215 | A new schema builder has an empty name, the given id and no devices. |
| Schema.SchemaBuilder.Named | src/schema.rs:217-220 | Sets only the name. |
| Schema.SchemaBuilder.AddDevice | src/schema.rs:222-225 | Appends the device at the end and keeps the name and id. |
| Schema.SchemaBuilder.Create | src/schema.rs:227-233 | The schema has the builder's name and devices, and a NETWORK meta with the builder's id. |
| Schema.NewDeviceBuilder | src/schema.rs:242-247 | A new device builder has an empty name and no values. |
| Schema.DeviceBuilder.Named | src/schema.rs:249-252 | Sets only the name. |
| Schema.DeviceBuilder.AddValue | src/schema.rs:254-257 | Appends the value at the end and keeps the name. |
| Schema.DeviceBuilder.Create | src/schema.rs:259-265 | The device has the builder's name and values, and a DEVICE meta. |
| Schema.AddDevicesInOrder | src/schema.rs:222-233 | After any sequence of `add_device` calls, the created schema lists the builder's devices followed by the added ones in call order, and keeps the name and id. |
| Schema.AddValuesInOrder | src/schema.rs:254-265 | After any sequence of `add_value` calls, the created device lists the values in call order and keeps the name. |
| Schema.EmptyBuildersMatchConstructors | src/schema.rs:209-265 | An untouched schema builder creates `Schema::new(id)`, and an untouched device builder creates `Device::new()`. |
| Schema.NamedCommutesWithAddDevice | src/schema.rs:217-225 | Naming and adding a device commute. |
| Schema.NamedSchema | src/network.rs:241 | A schema with the given name and id as a NETWORK meta, and no devices. |
| Schema.DeviceWithId | src/network.rs:367 | A device schema with the given name and id as a DEVICE meta, and no values. |
| Schema.ValueWithId | src/network.rs:539-541 | A value schema with the given name, permission, number and id as a VALUE meta, and an empty state list. |
| Schema.StateWithId | src/network.rs:545 | A state with the given type, empty data and the given id as a STATE meta. |
| Rpc.ParseMethod | src/rpc.rs:66-74 | A parsed name is exactly the rendering of the method it parses to. |
| Rpc.MethodNameRoundTrip | src/rpc.rs:66-74 | Each method's upper-case name ("POST", "PUT", "PATCH", "GET", "DELETE") parses back to that method. |
| Rpc.MethodNamesDistinct | src/rpc.rs:66-74 | No two methods render to the same name. |
| Rpc.ParamsNew | src/rpc.rs:88-96 | The url is "/network" for the network type and "/state" for the state type, and the data is kept. |
| Rpc.UrlsDistinct | src/rpc.rs:88-96 | The two resource types go to different urls. |
| Rpc.RequestNew | src/rpc.rs:20-27 | Version "2.0", the given method and parameters, and the text of a freshly drawn UUID as the id. |
| Rpc.FreshRequestIdsDiffer | src/rpc.rs:24 | Requests made from different fresh UUIDs never share an id. |
| Rpc.NewRequestBuilder | src/rpc.rs:38-44 | A new builder defaults to POST, the network type and no data. |
| Rpc.RequestBuilder.Method | src/rpc.rs:46-49 | Replaces the method and keeps the type and data. |
| Rpc.RequestBuilder.OnType | src/rpc.rs:51-54 | Replaces the type and keeps the method and data. |
| Rpc.RequestBuilder.Data | src/rpc.rs:56-59 | Replaces the data and keeps the method and type. |
| Rpc.RequestBuilder.Create | src/rpc.rs:61-63 | Creates the request that `RpcRequest::new` builds from the builder's three settings. |
| Rpc.BuilderMatchesNew | src/rpc.rs:36-64 | Setting all three fields, in either order, and creating gives the same request as `RpcRequest::new`. |
| Rpc.ResponseNew | src/communication.rs:47 | The response has version "2.0" and echoes the given id and success flag. |
| Communication.Outbox.Send | src/communication.rs:47-48 | Appends the message at the back of the queue. |
| Communication.Ack | src/communication.rs:47 | The acknowledgement of a request is a response with the request's id and success = true. |
| Communication.FatalEndsInFault | src/communication.rs:44-60 | A frame ends the reader iff handling it produces a fatal event, and that fatal event is the last one it produces. |
| Communication.RequestIsAcknowledgedFirst | src/communication.rs:45-48 | A request frame's first event queues its acknowledgement, and that acknowledgement is the only message it queues. |
| Communication.StatePayloadInvokesCallback | src/communication.rs:50-53 | After the acknowledgement, a state payload invokes the callback registered under its meta id exactly once with its data. An unregistered id is fatal. |
| Communication.OtherPayloadsOnlyAcknowledged | src/communication.rs:54 | A request carrying a schema payload or no data is acknowledged and invokes nothing. |
| Communication.NonRequestFrames | src/communication.rs:57-59 | A frame without `method` never ends the reader. With `result` it does nothing; without `result` it is dropped. An undecodable frame is fatal. |
| Communication.FrameAcksAreQueued | src/communication.rs:44-60 | The messages one frame queues are exactly the acknowledgements it calls for. |
| Communication.RunAcksAreQueued | src/communication.rs:39-61 | Over a run of frames, the messages queued are exactly the run's acknowledgements. |
| Communication.AcksFollowFrameOrder | src/communication.rs:39-61 | When no frame is fatal, the queued messages are the acknowledgements of the request frames, in arrival order. |
| Communication.FatalFrameEndsRun | src/communication.rs:59 | Nothing after a fatal frame is handled: events and acknowledgements stop at it. |
| Communication.Reader.constructor | src/communication.rs:29-31 | A new reader holds the callback registry and the outbox, is alive and has logged nothing. |
| Communication.Reader.Dispatch | src/communication.rs:44-60 | One loop iteration appends the frame's events to the log and its acknowledgements to the queue. The reader stays alive iff the frame is not fatal. |
| Communication.Reader.Run | src/communication.rs:39-61 | The loop over arriving frames extends the log and the queue by the run's events and acknowledgements. It is still alive iff no frame was fatal. |
| Communication.ReadAllFrom | src/communication.rs:63-72 | Every failed read, whether it would block or is an error, is retried. The result is the byte count of the first successful read, and no attempt after it is made. |
| Communication.WriteAllTo | src/communication.rs:84-93 | "Would block" is retried. A successful write ends with Written; any other error abandons the message. The result is the first outcome that is not "would block". |
| Communication.DeliveredIsSubsequence | src/communication.rs:74-82 | What the writer puts on the stream is a subsequence of the queue, in queue order. |
| Communication.DeliveredInQueueOrder | src/communication.rs:74-82 | When every write succeeds, the stream receives exactly the queue, in order. |
| Communication.Writer.constructor | src/communication.rs:27 | A new writer holds the outbox and has written nothing. |
| Communication.Writer.Drain | src/communication.rs:74-82 | The writer takes messages from the front of the queue one at a time. Written ones are appended to the stream; the rest of the queue stays. |
| Communication.Open | src/communication.rs:18-33 | `start` returns an empty outbound queue shared by a fresh, live reader (holding the callbacks) and a fresh writer. |
| Connection.DefaultServer | src/connection.rs:123-127 | The default server is PROD. |
| Connection.ServerUrl | src/connection.rs:19-22 | DEV maps to ("dev.", ":52005"), QA to ("qa.", ":53005"), STAGING to ("staging.", ":54005") and PROD to ("", ":443"). |
| Connection.AddressExtendsServerName | src/connection.rs:80-83 | The TCP address is the TLS server name followed by the port, and the server name ends in "wappsto.com". |
| Connection.AddressOf | src/connection.rs:80 | The address is prefix + "wappsto.com" + port; PROD gives "wappsto.com:443". |
| Connection.AddressesDistinct | src/connection.rs:19-23 | Different servers are reached at different addresses. |
| Connection.Connection.constructor | src/connection.rs:42-55 | Keeps the certs, selects the server's url, and leaves both stream halves empty. |
| Connection.Connection.Attach | src/connection.rs:87-89 | Stores the two halves of the established stream. |
| Connection.Connection.Stop | src/connection.rs:110-113 | Clears both stream halves. |
| CreateNetwork.NewRequestBuilder | src/create_network.rs:41-50 | A new builder has an empty username and password, server PROD and no credentials. |
| CreateNetwork.RequestBuilder.WithCredentials | src/create_network.rs:56-67 | Sets both credentials, keeps the server and moves to the WithCredentials state. |
| CreateNetwork.RequestBuilder.ToServer | src/create_network.rs:69-72 | Replaces only the server. |
| CreateNetwork.BaseUrl | src/create_network.rs:78-81 | Offered only with credentials. The base is "https://wappsto.com/services/" for PROD and "https://qa.wappsto.com/services/" for QA. |
| CreateNetwork.SessionEndpoint | src/create_network.rs:87 | The session endpoint is the base followed by "2.0/session". |
| CreateNetwork.CreatorEndpoint | src/create_network.rs:92 | The creator endpoint is the base followed by "2.1/creator". |
| CreateNetwork.ServerAndCredentialsCommute | src/create_network.rs:56-72 | Choosing the server and supplying credentials commute. |
| CreateNetwork.DocumentedChain | src/create_network.rs:27-30 | The documented chain `new().with_credentials(u, p).to_server(s)` has credentials u and p, server s, and is ready to send. |
| CreateNetwork.EndpointsDistinct | src/create_network.rs:78-92 | The session and creator endpoints differ, and different servers give different endpoints. |
| Network.ToPermission | src/network.rs:573-582 | Forgetting the callback keeps the variant: R to R, W to W, RW to RW. |
| Network.FromPermission | src/network.rs:563-571 | A writable permission built from a schema permission carries the do-nothing callback. |
| Network.PermissionRecord | src/network.rs:452-456 | The stored permission record has the same variant as the input and the do-nothing callback. |
| Network.PermissionRoundTrip | src/network.rs:563-582 | Converting a schema permission into a value permission and back gives the original. |
| Network.ValuePermissionRoundTrip | src/network.rs:452-456 | Converting a value permission out and back gives its stored record. |
| Network.SendCell.constructor | src/network.rs:129 | The shared send cell starts empty. |
| Network.SchemaStore.constructor | src/network.rs:120 | The store holds the schema it is given. |
| Network.ReportRequest | src/network.rs:492-500 | A PUT on "/state" whose payload carries the data, the timestamp and the report state's id as a STATE meta, with a fresh request id. |
| Network.Value.NewWithId | src/network.rs:446-483 | R gets a report state only and W a control state only. RW gets both, with the report id drawn first, so the two ids differ. The callback goes into a fresh control slot, and the permission is kept as its record. |
| Network.Value.New | src/network.rs:442-444 | The value's id and its state ids are all drawn in this call: the value's id first, then each state id strictly after it and below the counter's new position. So no state id equals the value's id or any id drawn before, and for RW the two state ids differ. |
| Network.Value.FromSchema | src/network.rs:524-533 | Rebuilding from a schema keeps the name, id and permission. Control callbacks are reset to the do-nothing callback, the send cell is a new empty one, and the state ids are freshly drawn. |
| Network.Value.Report | src/network.rs:485-505 | Fails with no channel or with no report state, changing nothing. Otherwise it queues exactly one state report for the report state's id. |
| Network.Value.OnControl | src/network.rs:507-516 | Fails if the value has no control state. Otherwise it replaces only that state's callback. |
| Network.Value.ToSchema | src/network.rs:535-555 | The value's schema has its name, id, permission and the default number range. |
| Network.ValueSchemaStates | src/network.rs:541-552 | A value's schema lists the report state (if any) before the control state (if any), each under its own id; one state for R or W, two for RW. |
| Network.ValuesToSchema | src/network.rs:368-372 | One schema entry per value, each that value's own schema under its name. The names are distinct, and the entries read back to the values' ids and permissions. |
| Network.Device.constructor | src/network.rs:319-326 | A new device has the given name, id and send cell, and no values. |
| Network.Device.CreateValue | src/network.rs:329-338 | An existing name returns that value unchanged (keeping its permission and state ids) and only re-points its send cell. A new name adds exactly one fresh value under that name. Its id, its report-state id and its control-state id are all drawn in this call, so none equals an id drawn before. |
| Network.Device.FromSchema | src/network.rs:352-363 | Rebuilding keeps the device's name and id and every value's name, id and permission. The values are fresh, with do-nothing callbacks and an empty send cell. |
| Network.Device.ToSchema | src/network.rs:365-375 | The device's schema has its name and id, and one entry per value that reads back to the device's values. |
| Network.CollectControls | src/network.rs:194-202 | Folding a device's values into the registry adds exactly their control states, keyed by control-state id. |
| Network.PublishRequest | src/network.rs:169-173 | A POST on "/network" carrying the schema, with a fresh request id. |
| Network.ParseDevice | src/network.rs:181-184 | Rebuilding one stored device and putting it under its name keeps the devices rebuilt so far. It extends the map's shape by that entry, keeps every device and value reset, and brings only new send cells. |
| Network.ParsedStep | src/network.rs:183-184 | Adding a device rebuilt from entry `i` to a map rebuilt from the first `i` entries gives a map rebuilt from the first `i + 1`. |
| Network.TreeResetStep | src/network.rs:183-184 | Adding a reset device keeps the whole map reset, and adds only that device's own send cells. |
| Network.ParseSchema | src/network.rs:178-188 | No stored schema gives no devices. Otherwise there is one fresh device per stored device, and it has the stored shape (device names and ids, value names, ids and permissions). Every device and value has a new empty send cell, every control callback does nothing, and every state id is newly drawn: none is below the id counter as it stood when the call began. |
| Network.Network.constructor | src/network.rs:119-131 | A new network has the given name and certificate id, an empty send cell, and the stored schema's shape (no devices when nothing is stored). Its rebuilt devices are reset as `ParseSchema` leaves them, with new cells none of which is the network's own. |
| Network.Network.CreateDevice | src/network.rs:133-146 | An existing name returns that device, adds nothing and only re-points its send cell. A new name adds exactly one device with a fresh id and no values. |
| Network.Network.Callbacks | src/network.rs:190-205 | The registry's keys are exactly the control-state ids of all values of all devices, and each entry holds that control state's callback slot. |
| Network.Network.Snapshot | src/network.rs:240-248 | One entry per device, under the network's name and id. The entries have distinct names and read back to the network's shape. Each entry's values are exactly those values' own schemas (name, id, permission, report and control states with their ids). The snapshot announces a CONTROL state id exactly when that id is a control state of the tree. |
| Network.Network.Publish | src/network.rs:162-176 | Fails with no channel, changing nothing. Otherwise it queues exactly one POST/network request carrying the snapshot. The snapshot lists every value's own schema and announces exactly the tree's control ids. |
| Network.Network.Stop | src/network.rs:156-160 | Saves a snapshot that reads back to the network's shape, so a network constructed from the store has the same shape. The saved entries list every value's own schema. |
| Network.Network.Start | src/network.rs:148-154 | Builds the registry of all control states and opens the transport with it. On success it fills the send cell and then queues exactly one POST/network request. The request carries the snapshot, which has the network's name and id as a NETWORK meta, one entry per device with the network's shape, and each value's own schema. A control id is announced in the published snapshot exactly when the reader's registry has a callback under it. On failure it changes nothing. |
| Network.Network.Connect | src/network.rs:149-151 | Opens the transport with the given registry and fills the send cell with the fresh outbound channel, whose queue is empty. The device tree and its control ids are unchanged. |
| Network.SnapshotAnnouncesControls | src/network.rs:240-248 | A snapshot of the tree announces a CONTROL state id exactly when that id belongs to a control state of the tree, the key set the callback registry is built on. |
| Network.ListedStep | src/network.rs:242-246 | Appending a device's own entry to a listing of the other devices lists them all. |

## Left out

- The certificate handling in `src/certs.rs` is not part of this model. Of the credentials, only the network id is kept (`Connection.Certs`).
- The file stores `src/fs_store.rs` and `src/schema_store.rs` are not part of this model. Loading a stored schema is a parameter of the network constructor. Saving is an assignment to `Network.SchemaStore`. A store read or write never fails in the model.
- `src/receiver.rs` is not part of this model.
- `Connection::start` and `Connection::send`: the TCP connect, the TLS handshake, the trust store and the `sleep` are not modelled. `Attach` receives the established stream.
- `Network.Network.Start` takes whether the connection came up as a parameter, `connected`.
- The HTTP requests of the create-network `send` and the decoding of their responses are not modelled. Only the urls they go to are modelled.
- Threads, `mpsc` channels and stream locking are not modelled. The reader loop is `Communication.Reader.Run` over the frames that arrive. The writer loop is `Communication.Writer.Drain` over the answers the stream gives, with a finite number of attempts standing for the unbounded retry loops.
- JSON encoding and decoding are not modelled. A frame arrives already sorted into its top-level keys and, when it parses as one, its request.
- Message framing is not modelled. A `Frame` is the bytes of one `read` into the 4096-byte buffer (`src/communication.rs:40-42`), not one message. Two messages that arrive in one read, or one message split across reads, therefore make an `Undecodable` frame, which is fatal to the reader.
- The reader's log line for an unknown message is a `Dropped` event.
- Callback closures are `Handler` tags. An invocation is an `Invoked` event in the reader's log, not a call.
- `Utc::now` and `Local::now` are `now` parameters, and `Uuid::new_v4` is a draw from `Uuids.IdSource`.
- Uuids.UuidTextInjective: the text form is injective only below 2^128, because a UUID is 128 bits; the model's ids are unbounded naturals.
- `NumberSchema` keeps only its unit; its `min`, `max` and `step` are floating point and are not modelled.
- `HashMap` iteration order is unspecified in the source. The snapshot methods visit entries in an arbitrary order, and their contracts do not depend on it.
- `InnerDevice::default` and `Device::default` (`src/network.rs:304-308`, `346-350`) are not modelled separately. They are `Network.Device.constructor` with an empty name and a freshly drawn id.
- `InnerNetwork::new` (`src/network.rs:115-117`) is `new_at` with the default server, `Connection.DefaultServer`.
- The test-only accessors in `src/network.rs` (`connection`, `store`, `new_with_store`, `device_named`, `devices_is_empty`, `id`, `value_named`, `control_id`, `control`) are not modelled.
- Communication.WriteAllTo, Communication.DeliveredIsSubsequence and Communication.DeliveredInQueueOrder treat each `write_all` attempt as all-or-nothing. Partial writes are not modelled. `write_all` can fail with "would block" or another error after writing part of the bytes. `write_all_to` (`src/communication.rs:84-93`) then retries the whole message, which repeats the written prefix on the stream, or it abandons a message that is already partly on the stream. So "the stream receives a subsequence of the queue, in queue order" holds message by message only when no attempt writes part of a message.
- Network.Network.constructor: `new_at` also passes a `server` argument to the connection it builds (`src/network.rs:119`, `:126`). The network model holds no connection, so the server is not modelled there. Server addressing is `Connection.ServerUrl` and `Connection.Connection.constructor`.
- Schema.ValueNew: for RW the source reads the clock once for each state. The model gives both states the same `now`.
- A serialisation error (`?` on `serde_json::to_string`) is not modelled: encoding always succeeds.
