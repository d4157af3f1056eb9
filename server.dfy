/**
 * The signalling coordinator of server.js.  The process keeps one producer,
 * one consumer, one producer transport and one consumer transport in
 * module-level slots, shared by every connected socket.  Each socket message
 * handler is one atomic step over those slots: a function `On...` says what
 * the step does to a `State` snapshot, what the socket callback receives and
 * which engine calls it makes; the class `Coordinator` holds the slots as
 * fields and its methods are proved to perform exactly those steps.
 */
module Server {
  import opened Media

  type SocketId = string

  /** The layers a simulcast consumer is pinned to (both the highest of three). */
  const PreferredSpatialLayer: int := 2
  const PreferredTemporalLayer: int := 2

  /** Which transport slot a request is about: the producer's (send) or the consumer's (receive). */
  datatype Direction = Send | Recv

  function Other(dir: Direction): Direction {
    if dir == Send then Recv else Send
  }

  /**
   * The module-level slots, plus the set of sockets socket.io currently holds
   * open (which a broadcast reaches).
   */
  datatype State = State(
    producer: Option<Producer>,
    consumer: Option<Consumer>,
    producerTransport: Option<Transport>,
    consumerTransport: Option<Transport>,
    sockets: set<SocketId>)

  const Initial: State := State(None, None, None, None, {})

  function Slot(s: State, dir: Direction): Option<Transport> {
    if dir == Send then s.producerTransport else s.consumerTransport
  }

  function WithSlot(s: State, dir: Direction, t: Transport): (r: State)
    ensures Slot(r, dir) == Some(t) && Slot(r, Other(dir)) == Slot(s, Other(dir))
    ensures r.producer == s.producer && r.consumer == s.consumer && r.sockets == s.sockets
  {
    if dir == Send then s.(producerTransport := Some(t)) else s.(consumerTransport := Some(t))
  }

  /** What a handler passes to the socket callback; `NoReply` when the callback is never invoked. */
  datatype Reply =
    | NoReply
    | Ack
    | RouterCapabilities(rtpCapabilities: Opaque)
    | TransportCreated(id: Id, iceParameters: Opaque, iceCandidates: Opaque, dtlsParameters: Opaque)
    | Error(message: string)
    | ProducerCreated(id: Id)
    | ConsumerCreated(producerId: Id, id: Id, kind: string, rtpParameters: Opaque, consumerType: string, producerPaused: bool)
    | Undefined

  /** One handler run: the new slots, the callback's argument, the engine calls made, and who is sent `newProducer`. */
  datatype Step = Step(after: State, reply: Reply, calls: seq<EngineCall>, newProducerTo: set<SocketId>)

  // ---------------------------------------------------------------------------
  // The Express error handler's status rule

  /**
   * The status the error handler gives an error: the error's own `status` when
   * it is set (JavaScript-truthy: present and not 0), otherwise 400 for a
   * `TypeError` and 500 for every other error.
   */
  function ErrorStatus(status: Option<int>, name: string): (r: int)
    ensures r != 0
    ensures status.Some? && status.value != 0 ==> r == status.value
    ensures !(status.Some? && status.value != 0) ==> (r == 400 <==> name == "TypeError") && (r == 400 || r == 500)
  {
    if status.Some? && status.value != 0 then status.value
    else if name == "TypeError" then 400
    else 500
  }

  /** The handler stores the status back on the error; running it again keeps that status. */
  lemma ErrorStatusSettles(status: Option<int>, name: string)
    ensures ErrorStatus(Some(ErrorStatus(status, name)), name) == ErrorStatus(status, name)
  {
  }

  // ---------------------------------------------------------------------------
  // createWebRtcTransport

  /** The transport the engine made (or its error), and the engine calls made on the way. */
  datatype Creation = Creation(result: Outcome<Transport>, calls: seq<EngineCall>)

  /**
   * Asks the router for a transport; when it is made and the configured
   * `maxIncomingBitrate` is set (non-zero), also asks for the bitrate cap.  The
   * cap is best effort: `capRejected` says whether the engine rejected it, and
   * that rejection is caught and dropped.
   */
  function CreateWebRtcTransport(created: Outcome<Transport>, maxIncomingBitrate: int, capRejected: bool): (c: Creation)
    ensures c.result == created
    ensures |c.calls| >= 1 && c.calls[0] == NewWebRtcTransport
    ensures c.calls[1..] == (if created.Resolved? && maxIncomingBitrate != 0 then [SetMaxIncomingBitrate(maxIncomingBitrate)] else [])
  {
    if created.Resolved? && maxIncomingBitrate != 0 then
      Creation(created, [NewWebRtcTransport, SetMaxIncomingBitrate(maxIncomingBitrate)])
    else
      Creation(created, [NewWebRtcTransport])
  }

  /**
   * Whether the bitrate cap was rejected never changes what transport creation
   * returns.  This holds by construction: `CreateWebRtcTransport` never reads
   * `capRejected`, just as the handler's empty `catch` drops the rejection.
   */
  lemma CapRejectionIgnored(created: Outcome<Transport>, maxIncomingBitrate: int)
    ensures CreateWebRtcTransport(created, maxIncomingBitrate, true) == CreateWebRtcTransport(created, maxIncomingBitrate, false)
  {
  }

  // ---------------------------------------------------------------------------
  // The socket handlers as steps

  /** A socket connects: it is told `newProducer` exactly when a producer already exists. */
  function OnConnection(s: State, socket: SocketId): (st: Step)
    ensures st.after == s.(sockets := s.sockets + {socket})
    ensures st.newProducerTo <= {socket}
    ensures socket in st.newProducerTo <==> s.producer.Some?
    ensures st.reply == NoReply && st.calls == []
  {
    Step(s.(sockets := s.sockets + {socket}), NoReply, [], if s.producer.Some? then {socket} else {})
  }

  /** A socket disconnects: socket.io forgets it; the handler itself only logs. */
  function OnDisconnect(s: State, socket: SocketId): (st: Step)
    ensures st.after == s.(sockets := s.sockets - {socket})
    ensures st.reply == NoReply && st.calls == [] && st.newProducerTo == {}
  {
    Step(s.(sockets := s.sockets - {socket}), NoReply, [], {})
  }

  /** `getRouterRtpCapabilities` replies with the router's capabilities and changes nothing. */
  function OnGetRouterRtpCapabilities(s: State, router: Router): (st: Step)
    ensures st.after == s && st.calls == [] && st.newProducerTo == {}
    ensures st.reply.RouterCapabilities? && st.reply.rtpCapabilities == router.rtpCapabilities
  {
    Step(s, RouterCapabilities(router.rtpCapabilities), [], {})
  }

  /**
   * `createProducerTransport` (dir == Send) and `createConsumerTransport`
   * (dir == Recv): on success the new transport fills its own slot and the
   * reply is exactly its id and ICE/DTLS parameters; on failure the reply is
   * `{error: message}` and no slot changes.
   */
  function OnCreateTransport(s: State, dir: Direction, maxIncomingBitrate: int, created: Outcome<Transport>, capRejected: bool): (st: Step)
    ensures st.calls == CreateWebRtcTransport(created, maxIncomingBitrate, capRejected).calls
    ensures st.newProducerTo == {}
    ensures Slot(st.after, Other(dir)) == Slot(s, Other(dir))
    ensures st.after.producer == s.producer && st.after.consumer == s.consumer && st.after.sockets == s.sockets
    ensures created.Resolved? ==>
      var t := created.value;
      Slot(st.after, dir) == Some(t) &&
      st.reply == TransportCreated(t.id, t.iceParameters, t.iceCandidates, t.dtlsParameters)
    ensures created.Rejected? ==> st.after == s && st.reply == Error(created.message)
  {
    var made := CreateWebRtcTransport(created, maxIncomingBitrate, capRejected);
    match made.result
    case Resolved(t) => Step(WithSlot(s, dir, t), TransportCreated(t.id, t.iceParameters, t.iceCandidates, t.dtlsParameters), made.calls, {})
    case Rejected(m) => Step(s, Error(m), made.calls, {})
  }

  /**
   * `connectProducerTransport` / `connectConsumerTransport`: the slot's transport
   * is connected with the client's DTLS parameters; the callback runs only once
   * the engine accepts.  The slot must be filled: the source dereferences it.
   */
  function OnConnectTransport(s: State, dir: Direction, dtlsParameters: Opaque, connected: Outcome<()>): (st: Step)
    requires Slot(s, dir).Some?
    ensures st.after == s && st.newProducerTo == {}
    ensures st.calls == [TransportConnect(Slot(s, dir).value.id, dtlsParameters)]
    ensures st.reply == Ack || st.reply == NoReply
    ensures st.reply == Ack <==> connected.Resolved?
  {
    Step(s, if connected.Resolved? then Ack else NoReply, [TransportConnect(Slot(s, dir).value.id, dtlsParameters)], {})
  }

  /**
   * `produce`: the producer the engine makes replaces whatever producer was
   * there (last write wins), the reply is its id, and every other connected
   * socket, never the sender, is told `newProducer`.  When the engine rejects,
   * nothing changes and the callback is never invoked.
   */
  function OnProduce(s: State, sender: SocketId, kind: string, rtpParameters: Opaque, produced: Outcome<Producer>): (st: Step)
    requires s.producerTransport.Some?
    ensures st.calls == [TransportProduce(s.producerTransport.value.id, kind, rtpParameters)]
    ensures sender !in st.newProducerTo && st.newProducerTo <= s.sockets
    ensures produced.Resolved? ==>
      st.after == s.(producer := Some(produced.value)) &&
      st.reply == ProducerCreated(produced.value.id) &&
      st.newProducerTo == s.sockets - {sender}
    ensures produced.Rejected? ==> st.after == s && st.reply == NoReply && st.newProducerTo == {}
  {
    var call := TransportProduce(s.producerTransport.value.id, kind, rtpParameters);
    match produced
    case Resolved(p) => Step(s.(producer := Some(p)), ProducerCreated(p.id), [call], s.sockets - {sender})
    case Rejected(_) => Step(s, NoReply, [call], {})
  }

  /** Whether a call list contains a `consume` call on a transport. */
  predicate ConsumeAttempted(calls: seq<EngineCall>) {
    exists k :: 0 <= k < |calls| && calls[k].TransportConsume?
  }

  /**
   * `createConsumer(producer, rtpCapabilities)`.  The compatibility check
   * comes first; only when it passes (and a consumer transport exists, else
   * the dereference throws inside the `try`) is the engine asked to consume,
   * paused exactly for a video producer.  A failed consume leaves the
   * consumer slot unchanged, makes no layer call and yields `undefined`.  A
   * created consumer fills the slot; a simulcast one is pinned to the
   * preferred layers, and if that is rejected the callback never runs.
   */
  function ConsumerCreation(s: State, router: Router, producer: Producer, rtpCapabilities: Opaque,
                            consumed: Outcome<Consumer>, layersSet: Outcome<()>): (st: Step)
    ensures |st.calls| >= 1
    ensures st.calls[0] == CanConsume(producer.id, rtpCapabilities, router.canConsume(producer.id, rtpCapabilities))
    ensures st.newProducerTo == {} && st.after == s.(consumer := st.after.consumer)
    ensures ConsumeAttempted(st.calls) <==> router.canConsume(producer.id, rtpCapabilities) && s.consumerTransport.Some?
    ensures ConsumeAttempted(st.calls) ==>
      |st.calls| >= 2 &&
      st.calls[1] == TransportConsume(s.consumerTransport.value.id, producer.id, rtpCapabilities, producer.kind == "video")
    ensures !(ConsumeAttempted(st.calls) && consumed.Resolved?) ==>
      st.after == s && st.reply == Undefined && |st.calls| == (if ConsumeAttempted(st.calls) then 2 else 1)
    ensures ConsumeAttempted(st.calls) && consumed.Resolved? ==>
      var c := consumed.value;
      var simulcast := c.consumerType == "simulcast";
      st.after.consumer == Some(c) &&
      st.calls[2..] == (if simulcast then [SetPreferredLayers(c.id, PreferredSpatialLayer, PreferredTemporalLayer)] else []) &&
      st.reply == (if simulcast && layersSet.Rejected? then NoReply
                   else ConsumerCreated(producer.id, c.id, c.kind, c.rtpParameters, c.consumerType, c.producerPaused))
  {
    var compatible := router.canConsume(producer.id, rtpCapabilities);
    var check := CanConsume(producer.id, rtpCapabilities, compatible);
    if !compatible || s.consumerTransport.None? then
      Step(s, Undefined, [check], {})
    else
      var consume := TransportConsume(s.consumerTransport.value.id, producer.id, rtpCapabilities, producer.kind == "video");
      // The witness for `ConsumeAttempted`.
      assert [check, consume][1].TransportConsume?;
      match consumed
      case Rejected(_) => Step(s, Undefined, [check, consume], {})
      case Resolved(c) =>
        var descriptor := ConsumerCreated(producer.id, c.id, c.kind, c.rtpParameters, c.consumerType, c.producerPaused);
        if c.consumerType == "simulcast" then
          var layers := SetPreferredLayers(c.id, PreferredSpatialLayer, PreferredTemporalLayer);
          assert [check, consume, layers][1].TransportConsume?;
          Step(s.(consumer := Some(c)), if layersSet.Rejected? then NoReply else descriptor, [check, consume, layers], {})
        else
          Step(s.(consumer := Some(c)), descriptor, [check, consume], {})
  }

  /** `consume`: `createConsumer` on the current producer, which must exist (its id is read outside any `try`). */
  function OnConsume(s: State, router: Router, rtpCapabilities: Opaque, consumed: Outcome<Consumer>, layersSet: Outcome<()>): (st: Step)
    requires s.producer.Some?
    ensures st == ConsumerCreation(s, router, s.producer.value, rtpCapabilities, consumed, layersSet)
  {
    ConsumerCreation(s, router, s.producer.value, rtpCapabilities, consumed, layersSet)
  }

  /** `resume`: the current consumer is resumed; the callback runs once the engine accepts. */
  function OnResume(s: State, resumed: Outcome<()>): (st: Step)
    requires s.consumer.Some?
    ensures st.after == s && st.newProducerTo == {}
    ensures st.calls == [ConsumerResume(s.consumer.value.id)]
    ensures st.reply == Ack || st.reply == NoReply
    ensures st.reply == Ack <==> resumed.Resolved?
  {
    Step(s, if resumed.Resolved? then Ack else NoReply, [ConsumerResume(s.consumer.value.id)], {})
  }

  // ---------------------------------------------------------------------------
  // The coordinator object

  /**
   * The module-level slots as fields; the router and the configured bitrate
   * cap are fixed at start-up.  Each method is one socket handler.
   */
  class Coordinator {
    const router: Router
    const maxIncomingBitrate: int
    var producer: Option<Producer>
    var consumer: Option<Consumer>
    var producerTransport: Option<Transport>
    var consumerTransport: Option<Transport>
    var sockets: set<SocketId>

    function Snapshot(): State
      reads this
    {
      State(producer, consumer, producerTransport, consumerTransport, sockets)
    }

    constructor (router: Router, maxIncomingBitrate: int)
      ensures Snapshot() == Initial
      ensures this.router == router && this.maxIncomingBitrate == maxIncomingBitrate
    {
      this.router := router;
      this.maxIncomingBitrate := maxIncomingBitrate;
      producer, consumer := None, None;
      producerTransport, consumerTransport := None, None;
      sockets := {};
    }

    method Connection(socket: SocketId) returns (newProducerTo: set<SocketId>)
      modifies this
      ensures Step(Snapshot(), NoReply, [], newProducerTo) == OnConnection(old(Snapshot()), socket)
    {
      sockets := sockets + {socket};
      newProducerTo := {};
      if producer.Some? {
        newProducerTo := {socket};
      }
    }

    method Disconnect(socket: SocketId)
      modifies this
      ensures Snapshot() == OnDisconnect(old(Snapshot()), socket).after
    {
      sockets := sockets - {socket};
    }

    method GetRouterRtpCapabilities() returns (reply: Reply)
      ensures reply == OnGetRouterRtpCapabilities(Snapshot(), router).reply
    {
      reply := RouterCapabilities(router.rtpCapabilities);
    }

    method CreateProducerTransport(created: Outcome<Transport>, capRejected: bool) returns (reply: Reply, calls: seq<EngineCall>)
      modifies this
      ensures Step(Snapshot(), reply, calls, {}) == OnCreateTransport(old(Snapshot()), Send, maxIncomingBitrate, created, capRejected)
    {
      var made := CreateWebRtcTransport(created, maxIncomingBitrate, capRejected);
      calls := made.calls;
      match made.result
      case Resolved(t) =>
        producerTransport := Some(t);
        reply := TransportCreated(t.id, t.iceParameters, t.iceCandidates, t.dtlsParameters);
      case Rejected(m) =>
        reply := Error(m);
    }

    method CreateConsumerTransport(created: Outcome<Transport>, capRejected: bool) returns (reply: Reply, calls: seq<EngineCall>)
      modifies this
      ensures Step(Snapshot(), reply, calls, {}) == OnCreateTransport(old(Snapshot()), Recv, maxIncomingBitrate, created, capRejected)
    {
      var made := CreateWebRtcTransport(created, maxIncomingBitrate, capRejected);
      calls := made.calls;
      match made.result
      case Resolved(t) =>
        consumerTransport := Some(t);
        reply := TransportCreated(t.id, t.iceParameters, t.iceCandidates, t.dtlsParameters);
      case Rejected(m) =>
        reply := Error(m);
    }

    method ConnectProducerTransport(dtlsParameters: Opaque, connected: Outcome<()>) returns (reply: Reply, calls: seq<EngineCall>)
      requires producerTransport.Some?
      ensures Step(Snapshot(), reply, calls, {}) == OnConnectTransport(Snapshot(), Send, dtlsParameters, connected)
    {
      calls := [TransportConnect(producerTransport.value.id, dtlsParameters)];
      reply := if connected.Resolved? then Ack else NoReply;
    }

    method ConnectConsumerTransport(dtlsParameters: Opaque, connected: Outcome<()>) returns (reply: Reply, calls: seq<EngineCall>)
      requires consumerTransport.Some?
      ensures Step(Snapshot(), reply, calls, {}) == OnConnectTransport(Snapshot(), Recv, dtlsParameters, connected)
    {
      calls := [TransportConnect(consumerTransport.value.id, dtlsParameters)];
      reply := if connected.Resolved? then Ack else NoReply;
    }

    method Produce(sender: SocketId, kind: string, rtpParameters: Opaque, produced: Outcome<Producer>)
      returns (reply: Reply, calls: seq<EngineCall>, newProducerTo: set<SocketId>)
      requires producerTransport.Some?
      modifies this
      ensures Step(Snapshot(), reply, calls, newProducerTo) == OnProduce(old(Snapshot()), sender, kind, rtpParameters, produced)
    {
      calls := [TransportProduce(producerTransport.value.id, kind, rtpParameters)];
      reply, newProducerTo := NoReply, {};
      if produced.Resolved? {
        producer := Some(produced.value);
        reply := ProducerCreated(producer.value.id);
        newProducerTo := sockets - {sender};
      }
    }

    method CreateConsumer(p: Producer, rtpCapabilities: Opaque, consumed: Outcome<Consumer>, layersSet: Outcome<()>)
      returns (reply: Reply, calls: seq<EngineCall>)
      modifies this`consumer
      ensures Step(Snapshot(), reply, calls, {}) == ConsumerCreation(old(Snapshot()), router, p, rtpCapabilities, consumed, layersSet)
    {
      var compatible := router.canConsume(p.id, rtpCapabilities);
      calls := [CanConsume(p.id, rtpCapabilities, compatible)];
      if !compatible || consumerTransport.None? {
        reply := Undefined;
        return;
      }
      calls := calls + [TransportConsume(consumerTransport.value.id, p.id, rtpCapabilities, p.kind == "video")];
      match consumed
      case Rejected(_) =>
        reply := Undefined;
      case Resolved(c) =>
        consumer := Some(c);
        reply := ConsumerCreated(p.id, c.id, c.kind, c.rtpParameters, c.consumerType, c.producerPaused);
        if c.consumerType == "simulcast" {
          calls := calls + [SetPreferredLayers(c.id, PreferredSpatialLayer, PreferredTemporalLayer)];
          if layersSet.Rejected? {
            reply := NoReply;
          }
        }
    }

    method Consume(rtpCapabilities: Opaque, consumed: Outcome<Consumer>, layersSet: Outcome<()>)
      returns (reply: Reply, calls: seq<EngineCall>)
      requires producer.Some?
      modifies this
      ensures Step(Snapshot(), reply, calls, {}) == OnConsume(old(Snapshot()), router, rtpCapabilities, consumed, layersSet)
    {
      reply, calls := CreateConsumer(producer.value, rtpCapabilities, consumed, layersSet);
    }

    method Resume(resumed: Outcome<()>) returns (reply: Reply, calls: seq<EngineCall>)
      requires consumer.Some?
      ensures Step(Snapshot(), reply, calls, {}) == OnResume(Snapshot(), resumed)
    {
      calls := [ConsumerResume(consumer.value.id)];
      reply := if resumed.Resolved? then Ack else NoReply;
    }
  }
}
