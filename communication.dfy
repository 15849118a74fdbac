/**
 * The duplex transport (src/communication.rs): a reader that dispatches each
 * decoded frame, and a writer that drains one FIFO queue onto the stream.
 *
 * The threads, the `Arc<Mutex<_>>` sharing of the stream, the `sleep` between
 * retries and JSON (de)serialisation are not modelled: a frame arrives already
 * decoded (`Frame`), a queued message is the record before serialisation
 * (`Message`), and what the stream answers to each read or write attempt is a
 * parameter. One call of `Reader.Dispatch` is one iteration of `read_thread`'s
 * loop; `Reader.Run` is the loop over the frames that arrive.
 */
module Communication {
  import opened Uuids
  import opened Wrappers
  import Rpc

  /** A callback is an opaque closure; the model names it by a tag. */
  type Handler = nat

  /** The tag of the do-nothing callback `|_| {}`. */
  const NOOP: Handler := 0

  /** A shared, lock-guarded callback (`Arc<Mutex<Box<dyn Fn(String)>>>`). */
  class CallbackSlot {
    var handler: Handler

    constructor (h: Handler)
      ensures handler == h
    {
      handler := h;
    }
  }

  /** What goes through the outbound queue, before serialisation. */
  datatype Message = Request(request: Rpc.RpcRequest) | Response(response: Rpc.RpcResponse)

  /** The outbound channel: messages sent and not yet taken by the writer. */
  class Outbox {
    var queue: seq<Message>

    constructor ()
      ensures queue == []
    {
      queue := [];
    }

    /** `Sender::send`: appends at the back. */
    method Send(m: Message)
      modifies this`queue
      ensures queue == old(queue) + [m]
    {
      queue := queue + [m];
    }
  }

  // ---------------------------------------------------------------- reader

  /**
   * A frame as the reader sees it after `serde_json::from_slice`: either no JSON
   * object at all, or an object with its top-level keys and, when the frame also
   * parses as an `RpcRequest`, that request.
   */
  datatype Frame = Undecodable | Object(keys: set<string>, request: Option<Rpc.RpcRequest>)

  /** Why the reader thread dies (the `panic!`s and `unwrap`s of the loop body). */
  datatype Fault = DecodeError | MalformedRequest | MissingCallback(stateId: Uuid)

  /** What one frame makes the reader do, in order. */
  datatype Event =
    | Queued(message: Message)
    | Invoked(stateId: Uuid, handler: Handler, data: string)
    | Dropped(keys: set<string>)
    | Fatal(fault: Fault)

  /** The acknowledgement of a request: its id echoed, success = true. */
  function Ack(r: Rpc.RpcRequest): (m: Message)
    ensures m.Response? && m.response.id == r.id && m.response.success
  {
    Response(Rpc.ResponseNew(r.id, true))
  }

  /** The callback step for a request's payload: only state payloads reach a callback. */
  function PayloadEvents(data: Rpc.RpcData, handlers: map<Uuid, Handler>): seq<Event>
  {
    match data
    case StateData(s) =>
      if s.meta.id in handlers then [Invoked(s.meta.id, handlers[s.meta.id], s.data)]
      else [Fatal(MissingCallback(s.meta.id))]
    case SchemaData(_) => []
    case NoData => []
  }

  /** The body of `read_thread`'s loop for one frame: `method` is tested before `result`. */
  function FrameEvents(f: Frame, handlers: map<Uuid, Handler>): seq<Event>
  {
    match f
    case Undecodable => [Fatal(DecodeError)]
    case Object(keys, request) =>
      if "method" in keys then
        match request
        case None => [Fatal(MalformedRequest)]
        case Some(r) => [Queued(Ack(r))] + PayloadEvents(r.params.data, handlers)
      else if "result" in keys then []
      else [Dropped(keys)]
  }

  /** The acknowledgement a frame calls for: one for each frame that reads as a request. */
  function FrameAcks(f: Frame): seq<Message>
  {
    if f.Object? && "method" in f.keys && f.request.Some? then [Ack(f.request.value)] else []
  }

  /** The messages a run of events puts on the outbound queue, in order. */
  function Sent(es: seq<Event>): seq<Message>
  {
    if es == [] then []
    else (if es[0].Queued? then [es[0].message] else []) + Sent(es[1..])
  }

  lemma {:induction false} SentAppend(a: seq<Event>, b: seq<Event>)
    ensures Sent(a + b) == Sent(a) + Sent(b)
  {
    if a != [] {
      assert (a + b)[0] == a[0];
      assert (a + b)[1..] == a[1..] + b;
      SentAppend(a[1..], b);
    } else {
      assert a + b == b;
    }
  }

  /** Does this frame end the reader thread? */
  predicate EndsReader(f: Frame, handlers: map<Uuid, Handler>)
  {
    match f
    case Undecodable => true
    case Object(keys, request) =>
      "method" in keys &&
      (request.None? ||
       (request.value.params.data.StateData? && request.value.params.data.state.meta.id !in handlers))
  }

  /** A frame is fatal exactly when its handling ends in a fault, and then the fault comes last. */
  lemma FatalEndsInFault(f: Frame, handlers: map<Uuid, Handler>)
    ensures var es := FrameEvents(f, handlers);
      (EndsReader(f, handlers) <==> exists j :: 0 <= j < |es| && es[j].Fatal?)
      && (EndsReader(f, handlers) ==> es[|es| - 1].Fatal? && forall j :: 0 <= j < |es| - 1 ==> !es[j].Fatal?)
  {
    var es := FrameEvents(f, handlers);
    if EndsReader(f, handlers) {
      assert es[|es| - 1].Fatal?;
    } else if f.Object? && "method" in f.keys && f.request.Some? {
      var r := f.request.value;
      assert es == [Queued(Ack(r))] + PayloadEvents(r.params.data, handlers);
    }
  }

  /** The loop over arriving frames: every frame is handled until one is fatal. */
  function RunEvents(fs: seq<Frame>, handlers: map<Uuid, Handler>): seq<Event>
  {
    if fs == [] then []
    else if EndsReader(fs[0], handlers) then FrameEvents(fs[0], handlers)
    else FrameEvents(fs[0], handlers) + RunEvents(fs[1..], handlers)
  }

  /** The acknowledgements the loop over arriving frames queues, up to and including a fatal frame. */
  function RunAcks(fs: seq<Frame>, handlers: map<Uuid, Handler>): seq<Message>
  {
    if fs == [] then []
    else if EndsReader(fs[0], handlers) then FrameAcks(fs[0])
    else FrameAcks(fs[0]) + RunAcks(fs[1..], handlers)
  }

  /** What a frame queues is exactly the `Queued` events of its handling. */
  lemma FrameAcksAreQueued(f: Frame, handlers: map<Uuid, Handler>)
    ensures Sent(FrameEvents(f, handlers)) == FrameAcks(f)
  {
    if f.Object? && "method" in f.keys && f.request.Some? {
      RequestIsAcknowledgedFirst(f.keys, f.request.value, handlers);
    }
  }

  /** The acknowledgements queued by the loop are exactly the `Queued` events of the run. */
  lemma {:induction false} RunAcksAreQueued(fs: seq<Frame>, handlers: map<Uuid, Handler>)
    ensures Sent(RunEvents(fs, handlers)) == RunAcks(fs, handlers)
  {
    if fs != [] {
      FrameAcksAreQueued(fs[0], handlers);
      if !EndsReader(fs[0], handlers) {
        SentAppend(FrameEvents(fs[0], handlers), RunEvents(fs[1..], handlers));
        RunAcksAreQueued(fs[1..], handlers);
      }
    }
  }

  /** A request frame queues exactly one acknowledgement, with the request's id, before anything else. */
  lemma RequestIsAcknowledgedFirst(keys: set<string>, r: Rpc.RpcRequest, handlers: map<Uuid, Handler>)
    requires "method" in keys
    ensures var es := FrameEvents(Object(keys, Some(r)), handlers);
      es[0] == Queued(Ack(r)) && Sent(es) == [Ack(r)]
      && Ack(r).response.id == r.id && Ack(r).response.success
  {
    SentAppend([Queued(Ack(r))], PayloadEvents(r.params.data, handlers));
  }

  /**
   * A state payload invokes the callback registered under its meta id once,
   * with its data, after the acknowledgement; an unregistered id is fatal.
   */
  lemma StatePayloadInvokesCallback(keys: set<string>, r: Rpc.RpcRequest, handlers: map<Uuid, Handler>)
    requires "method" in keys && r.params.data.StateData?
    ensures var s := r.params.data.state;
      FrameEvents(Object(keys, Some(r)), handlers) ==
        if s.meta.id in handlers then [Queued(Ack(r)), Invoked(s.meta.id, handlers[s.meta.id], s.data)]
        else [Queued(Ack(r)), Fatal(MissingCallback(s.meta.id))]
  {
  }

  /** Schema and empty payloads are acknowledged and invoke nothing. */
  lemma OtherPayloadsOnlyAcknowledged(keys: set<string>, r: Rpc.RpcRequest, handlers: map<Uuid, Handler>)
    requires "method" in keys && !r.params.data.StateData?
    ensures FrameEvents(Object(keys, Some(r)), handlers) == [Queued(Ack(r))]
  {
  }

  /**
   * Responses (a `result` without a `method`) are discarded; frames with neither
   * are dropped without failing; frames that do not decode are fatal.
   */
  lemma NonRequestFrames(keys: set<string>, request: Option<Rpc.RpcRequest>, handlers: map<Uuid, Handler>)
    requires "method" !in keys
    ensures "result" in keys ==> FrameEvents(Object(keys, request), handlers) == []
    ensures "result" !in keys ==> FrameEvents(Object(keys, request), handlers) == [Dropped(keys)]
    ensures !EndsReader(Object(keys, request), handlers)
    ensures EndsReader(Undecodable, handlers) && FrameEvents(Undecodable, handlers) == [Fatal(DecodeError)]
  {
  }

  /** The acknowledgements of the request frames among `fs`, in frame order. */
  function Acks(fs: seq<Frame>): seq<Message>
  {
    if fs == [] then []
    else
      FrameAcks(fs[0]) + Acks(fs[1..])
  }

  /**
   * While no frame is fatal, the reader queues one acknowledgement per request
   * frame and nothing else, in the order the frames arrived.
   */
  lemma {:induction false} AcksFollowFrameOrder(fs: seq<Frame>, handlers: map<Uuid, Handler>)
    requires forall k :: 0 <= k < |fs| ==> !EndsReader(fs[k], handlers)
    ensures Sent(RunEvents(fs, handlers)) == Acks(fs)
  {
    if fs != [] {
      assert !EndsReader(fs[0], handlers);
      var es := FrameEvents(fs[0], handlers);
      SentAppend(es, RunEvents(fs[1..], handlers));
      assert forall k :: 0 <= k < |fs[1..]| ==> fs[1..][k] == fs[k + 1];
      AcksFollowFrameOrder(fs[1..], handlers);
      match fs[0]
      case Undecodable =>
      case Object(keys, request) =>
        if "method" in keys && request.Some? {
          RequestIsAcknowledgedFirst(keys, request.value, handlers);
        } else if "method" !in keys {
          NonRequestFrames(keys, request, handlers);
        }
    }
  }

  /** After a fatal frame nothing more is read: later frames have no effect. */
  lemma {:induction false} FatalFrameEndsRun(fs: seq<Frame>, k: nat, handlers: map<Uuid, Handler>)
    requires k < |fs| && EndsReader(fs[k], handlers)
    ensures RunEvents(fs, handlers) == RunEvents(fs[..k + 1], handlers)
    ensures RunAcks(fs, handlers) == RunAcks(fs[..k + 1], handlers)
  {
    if k > 0 {
      assert fs[1..][k - 1] == fs[k];
      FatalFrameEndsRun(fs[1..], k - 1, handlers);
      assert fs[..k + 1][1..] == fs[1..][..k];
    }
  }

  /** The reader thread: the callback registry, the outbound queue, and what it has done. */
  class Reader {
    const callbacks: map<Uuid, CallbackSlot>
    const outbox: Outbox
    var events: seq<Event>
    var alive: bool

    /** The callback each registered state id currently leads to. */
    ghost function Handlers(): map<Uuid, Handler>
      reads callbacks.Values
    {
      map id | id in callbacks :: callbacks[id].handler
    }

    constructor (callbacks: map<Uuid, CallbackSlot>, outbox: Outbox)
      ensures this.callbacks == callbacks && this.outbox == outbox
      ensures events == [] && alive
    {
      this.callbacks := callbacks;
      this.outbox := outbox;
      events := [];
      alive := true;
    }

    /** One iteration of the read loop, for one decoded frame. */
    method Dispatch(f: Frame)
      requires alive
      modifies this`events, this`alive, outbox`queue
      ensures events == old(events) + FrameEvents(f, Handlers())
      ensures outbox.queue == old(outbox.queue) + FrameAcks(f)
      ensures alive == !EndsReader(f, Handlers())
    {
      match f {
        case Undecodable =>
          events := events + [Fatal(DecodeError)];
          alive := false;
        case Object(keys, request) =>
          if "method" in keys {
            if request.None? {
              events := events + [Fatal(MalformedRequest)];
              alive := false;
            } else {
              var r := request.value;
              outbox.Send(Ack(r));
              events := events + [Queued(Ack(r))];
              match r.params.data {
                case StateData(s) =>
                  if s.meta.id in callbacks {
                    var h := callbacks[s.meta.id].handler;
                    events := events + [Invoked(s.meta.id, h, s.data)];
                  } else {
                    events := events + [Fatal(MissingCallback(s.meta.id))];
                    alive := false;
                  }
                case SchemaData(_) =>
                case NoData =>
              }
            }
          } else if "result" in keys {
          } else {
            events := events + [Dropped(keys)];
          }
      }
    }

    /** `read_thread`'s loop over the frames that arrive, until one is fatal. */
    method Run(frames: seq<Frame>)
      requires alive
      modifies this`events, this`alive, outbox`queue
      ensures events == old(events) + RunEvents(frames, Handlers())
      ensures outbox.queue == old(outbox.queue) + RunAcks(frames, Handlers())
      ensures alive <==> forall k :: 0 <= k < |frames| ==> !EndsReader(frames[k], Handlers())
    {
      ghost var h, e0, q0 := Handlers(), events, outbox.queue;
      var i := 0;
      while i < |frames| && alive
        invariant Handlers() == h && Progress(frames, i, h, e0, q0, events, outbox.queue, alive)
        decreases |frames| - i
      {
        ProgressStep(frames, i, h, e0, q0, events, outbox.queue);
        Dispatch(frames[i]);
        i := i + 1;
      }
      ProgressDone(frames, i, h, e0, q0, events, outbox.queue, alive);
    }
  }

  /**
   * Where `Reader.Run` stands after `i` frames: the events and the queue hold
   * what those frames called for, and the reader is alive exactly when none
   * of them was fatal.
   */
  ghost predicate Progress(frames: seq<Frame>, i: nat, h: map<Uuid, Handler>, e0: seq<Event>, q0: seq<Message>,
                           events: seq<Event>, queue: seq<Message>, alive: bool)
  {
    i <= |frames|
    && events == e0 + RunEvents(frames[..i], h)
    && queue == q0 + RunAcks(frames[..i], h)
    && (alive ==> forall k :: 0 <= k < i ==> !EndsReader(frames[k], h))
    && (!alive ==> 0 < i && EndsReader(frames[i - 1], h))
  }

  lemma ProgressStep(frames: seq<Frame>, i: nat, h: map<Uuid, Handler>, e0: seq<Event>, q0: seq<Message>,
                     events: seq<Event>, queue: seq<Message>)
    requires Progress(frames, i, h, e0, q0, events, queue, true) && i < |frames|
    ensures Progress(frames, i + 1, h, e0, q0, events + FrameEvents(frames[i], h), queue + FrameAcks(frames[i]),
                     !EndsReader(frames[i], h))
  {
    RunStep(frames, i, h);
    assert events + FrameEvents(frames[i], h) == e0 + RunEvents(frames[..i + 1], h);
    assert queue + FrameAcks(frames[i]) == q0 + RunAcks(frames[..i + 1], h);
  }

  lemma ProgressDone(frames: seq<Frame>, i: nat, h: map<Uuid, Handler>, e0: seq<Event>, q0: seq<Message>,
                     events: seq<Event>, queue: seq<Message>, alive: bool)
    requires Progress(frames, i, h, e0, q0, events, queue, alive) && (i == |frames| || !alive)
    ensures events == e0 + RunEvents(frames, h) && queue == q0 + RunAcks(frames, h)
    ensures alive <==> forall k :: 0 <= k < |frames| ==> !EndsReader(frames[k], h)
  {
    if alive {
      assert frames[..i] == frames;
    } else {
      FatalFrameEndsRun(frames, i - 1, h);
      assert frames[..i - 1 + 1] == frames[..i];
      assert EndsReader(frames[i - 1], h);
    }
  }

  /** While no earlier frame was fatal, handling one more frame extends the run by that frame's events. */
  lemma {:induction false} RunEventsExtend(fs: seq<Frame>, f: Frame, h: map<Uuid, Handler>)
    requires forall k :: 0 <= k < |fs| ==> !EndsReader(fs[k], h)
    ensures RunEvents(fs + [f], h) == RunEvents(fs, h) + FrameEvents(f, h)
  {
    if fs == [] {
      assert fs + [f] == [f];
    } else {
      var g := fs + [f];
      assert g[0] == fs[0] && g[1..] == fs[1..] + [f];
      assert !EndsReader(fs[0], h);
      RunEventsExtend(fs[1..], f, h);
    }
  }

  /** The same for the acknowledgements the run queues. */
  lemma {:induction false} RunAcksExtend(fs: seq<Frame>, f: Frame, h: map<Uuid, Handler>)
    requires forall k :: 0 <= k < |fs| ==> !EndsReader(fs[k], h)
    ensures RunAcks(fs + [f], h) == RunAcks(fs, h) + FrameAcks(f)
  {
    if fs == [] {
      assert fs + [f] == [f];
    } else {
      var g := fs + [f];
      assert g[0] == fs[0] && g[1..] == fs[1..] + [f];
      assert !EndsReader(fs[0], h);
      RunAcksExtend(fs[1..], f, h);
    }
  }

  /** The loop's step: the run over one more frame, while no earlier frame was fatal. */
  lemma RunStep(frames: seq<Frame>, i: nat, h: map<Uuid, Handler>)
    requires i < |frames| && forall k :: 0 <= k < i ==> !EndsReader(frames[k], h)
    ensures RunEvents(frames[..i + 1], h) == RunEvents(frames[..i], h) + FrameEvents(frames[i], h)
    ensures RunAcks(frames[..i + 1], h) == RunAcks(frames[..i], h) + FrameAcks(frames[i])
  {
    assert frames[..i + 1] == frames[..i] + [frames[i]];
    RunEventsExtend(frames[..i], frames[i], h);
    RunAcksExtend(frames[..i], frames[i], h);
  }

  // ---------------------------------------------------------------- retries

  /** What the stream answers to one read attempt. */
  datatype ReadOutcome = ReadOk(bytes: nat) | ReadWouldBlock | ReadError

  /**
   * `read_all_from`: retries until a read succeeds; "would block" and every other
   * error alike are retried. `tries` is the number of attempts used; with no
   * successful attempt among `attempts` the reader is still retrying.
   */
  method ReadAllFrom(attempts: seq<ReadOutcome>) returns (bytes: Option<nat>, tries: nat)
    ensures tries <= |attempts|
    ensures forall j :: 0 <= j < tries && (bytes.None? || j < tries - 1) ==> !attempts[j].ReadOk?
    ensures bytes.Some? ==> 0 < tries && attempts[tries - 1] == ReadOk(bytes.value)
    ensures bytes.None? ==> tries == |attempts|
  {
    tries := 0;
    bytes := None;
    while tries < |attempts|
      invariant tries <= |attempts|
      invariant forall j :: 0 <= j < tries ==> !attempts[j].ReadOk?
    {
      match attempts[tries] {
        case ReadOk(n) =>
          bytes := Some(n);
          tries := tries + 1;
          return;
        case ReadWouldBlock =>
        case ReadError =>
      }
      tries := tries + 1;
    }
  }

  /** What the stream answers to one `write_all` attempt. */
  datatype WriteOutcome = WriteOk | WriteWouldBlock | WriteError

  /** How a message's write ends: written, abandoned after an error, or still blocked. */
  datatype WriteResult = Written | Abandoned | Blocked

  /** The first answer that is not "would block" decides. */
  function Settle(attempts: seq<WriteOutcome>): WriteResult
  {
    if attempts == [] then Blocked
    else match attempts[0]
      case WriteOk => Written
      case WriteError => Abandoned
      case WriteWouldBlock => Settle(attempts[1..])
  }

  /**
   * `write_all_to`: "would block" is retried; success ends it; any other error
   * abandons the message.
   */
  method WriteAllTo(attempts: seq<WriteOutcome>) returns (r: WriteResult, tries: nat)
    ensures tries <= |attempts|
    ensures forall j :: 0 <= j < tries && (r == Blocked || j < tries - 1) ==> attempts[j] == WriteWouldBlock
    ensures r == Written ==> 0 < tries && attempts[tries - 1] == WriteOk
    ensures r == Abandoned ==> 0 < tries && attempts[tries - 1] == WriteError
    ensures r == Blocked ==> tries == |attempts|
    ensures r == Settle(attempts)
  {
    tries := 0;
    while tries < |attempts|
      invariant tries <= |attempts|
      invariant forall j :: 0 <= j < tries ==> attempts[j] == WriteWouldBlock
      invariant Settle(attempts) == Settle(attempts[tries..])
    {
      assert attempts[tries..][1..] == attempts[tries + 1..];
      match attempts[tries] {
        case WriteOk =>
          r := Written;
          tries := tries + 1;
          return;
        case WriteError =>
          r := Abandoned;
          tries := tries + 1;
          return;
        case WriteWouldBlock =>
      }
      tries := tries + 1;
    }
    r := Blocked;
  }

  // ---------------------------------------------------------------- writer

  /**
   * The messages a writer puts on the stream when the i-th message taken from
   * `queue` meets the answers `attempts[i]`: written ones in queue order,
   * abandoned ones skipped, and nothing after one that stays blocked.
   */
  function Delivered(queue: seq<Message>, attempts: seq<seq<WriteOutcome>>): seq<Message>
  {
    if queue == [] || attempts == [] then []
    else match Settle(attempts[0])
      case Written => [queue[0]] + Delivered(queue[1..], attempts[1..])
      case Abandoned => Delivered(queue[1..], attempts[1..])
      case Blocked => []
  }

  /** How many messages the writer takes from the queue under those answers. */
  function Taken(queue: seq<Message>, attempts: seq<seq<WriteOutcome>>): (n: nat)
    ensures n <= |queue| && n <= |attempts|
  {
    if queue == [] || attempts == [] then 0
    else if Settle(attempts[0]) == Blocked then 1
    else 1 + Taken(queue[1..], attempts[1..])
  }

  /** `s` is `t` with some elements left out, the rest kept in order. */
  ghost predicate Subsequence(s: seq<Message>, t: seq<Message>)
    decreases |t|
  {
    s == [] || (t != [] && ((s[0] == t[0] && Subsequence(s[1..], t[1..])) || Subsequence(s, t[1..])))
  }

  /** The writer never reorders or invents messages: what reaches the stream is a subsequence of the queue. */
  lemma {:induction false} DeliveredIsSubsequence(queue: seq<Message>, attempts: seq<seq<WriteOutcome>>)
    ensures Subsequence(Delivered(queue, attempts), queue)
    decreases |queue|
  {
    if queue != [] && attempts != [] {
      DeliveredIsSubsequence(queue[1..], attempts[1..]);
    }
  }

  /** When every write eventually succeeds, the stream carries exactly the queue, in queue order. */
  lemma {:induction false} DeliveredInQueueOrder(queue: seq<Message>, attempts: seq<seq<WriteOutcome>>)
    requires |attempts| >= |queue|
    requires forall i :: 0 <= i < |queue| ==> Settle(attempts[i]) == Written
    ensures Delivered(queue, attempts) == queue
    decreases |queue|
  {
    if queue != [] {
      assert Settle(attempts[0]) == Written;
      forall i | 0 <= i < |queue| - 1 ensures Settle(attempts[1..][i]) == Written {
        assert attempts[1..][i] == attempts[i + 1];
      }
      DeliveredInQueueOrder(queue[1..], attempts[1..]);
    }
  }

  /** The writer thread: takes from the shared queue, writes to the stream. */
  class Writer {
    const outbox: Outbox
    var wire: seq<Message>

    constructor (outbox: Outbox)
      ensures this.outbox == outbox && wire == []
    {
      this.outbox := outbox;
      wire := [];
    }

    /**
     * `write_thread`'s loop: one message at a time, each written (or abandoned)
     * before the next is taken; a message whose write keeps blocking holds the
     * writer up.
     */
    method Drain(attempts: seq<seq<WriteOutcome>>) returns (taken: nat)
      modifies this`wire, outbox`queue
      ensures taken == Taken(old(outbox.queue), attempts)
      ensures outbox.queue == old(outbox.queue)[taken..]
      ensures wire == old(wire) + Delivered(old(outbox.queue), attempts)
    {
      ghost var q := outbox.queue;
      taken := 0;
      var stuck := false;
      while !stuck && taken < |attempts| && outbox.queue != []
        invariant taken <= |q| && taken <= |attempts|
        invariant outbox.queue == q[taken..]
        invariant !stuck ==> old(wire) + Delivered(q, attempts) == wire + Delivered(q[taken..], attempts[taken..])
        invariant !stuck ==> Taken(q, attempts) == taken + Taken(q[taken..], attempts[taken..])
        invariant stuck ==> wire == old(wire) + Delivered(q, attempts) && Taken(q, attempts) == taken
      {
        var msg := outbox.queue[0];
        outbox.queue := outbox.queue[1..];
        var r, _ := WriteAllTo(attempts[taken]);
        assert q[taken..][1..] == q[taken + 1..];
        assert attempts[taken..][1..] == attempts[taken + 1..];
        match r {
          case Written =>
            assert wire + Delivered(q[taken..], attempts[taken..])
              == (wire + [msg]) + Delivered(q[taken + 1..], attempts[taken + 1..]);
            wire := wire + [msg];
          case Abandoned =>
          case Blocked =>
            stuck := true;
        }
        taken := taken + 1;
      }
      if !stuck {
        assert q[taken..] == [] || attempts[taken..] == [];
      }
    }
  }

  /**
   * `start`: opens the outbound channel and hands the registry to a new reader
   * and the receiving end to a new writer; the caller keeps the sending end.
   */
  method Open(callbacks: map<Uuid, CallbackSlot>) returns (outbox: Outbox, reader: Reader, writer: Writer)
    ensures fresh(outbox) && fresh(reader) && fresh(writer)
    ensures outbox.queue == []
    ensures reader.callbacks == callbacks && reader.outbox == outbox && reader.events == [] && reader.alive
    ensures writer.outbox == outbox && writer.wire == []
  {
    outbox := new Outbox();
    reader := new Reader(callbacks, outbox);
    writer := new Writer(outbox);
  }
}
