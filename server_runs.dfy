/**
 * Runs of the coordinator: the socket messages it handles one after another,
 * each as one atomic step of `Server`, with the engine's answers carried in
 * the message.  The lemmas state what holds over every admissible run (one
 * in which no handler dereferences an empty slot): the producer slot holds
 * the last producer made, every engine `consume` call is immediately preceded
 * by a compatibility check that passed, and every connected socket has heard
 * of the current producer.
 */
module ServerRuns {
  import opened Media
  import opened Server

  /** What is fixed at start-up: the router and the configured bitrate cap. */
  datatype Env = Env(router: Router, maxIncomingBitrate: int)

  /** One socket event, with the engine's answers to the calls its handler makes. */
  datatype Message =
    | Connection(socket: SocketId)
    | Disconnection(socket: SocketId)
    | CapabilitiesRequest
    | CreateTransportRequest(dir: Direction, created: Outcome<Transport>, capRejected: bool)
    | ConnectTransportRequest(dir: Direction, dtlsParameters: Opaque, connected: Outcome<()>)
    | ProduceRequest(sender: SocketId, kind: string, rtpParameters: Opaque, produced: Outcome<Producer>)
    | ConsumeRequest(rtpCapabilities: Opaque, consumed: Outcome<Consumer>, layersSet: Outcome<()>)
    | ResumeRequest(resumed: Outcome<()>)

  /** The slots a handler dereferences are filled. */
  predicate Enabled(s: State, m: Message) {
    match m
    case ConnectTransportRequest(dir, _, _) => Slot(s, dir).Some?
    case ProduceRequest(_, _, _, _) => s.producerTransport.Some?
    case ConsumeRequest(_, _, _) => s.producer.Some?
    case ResumeRequest(_) => s.consumer.Some?
    case _ => true
  }

  function Handle(s: State, env: Env, m: Message): Step
    requires Enabled(s, m)
  {
    match m
    case Connection(socket) => OnConnection(s, socket)
    case Disconnection(socket) => OnDisconnect(s, socket)
    case CapabilitiesRequest => OnGetRouterRtpCapabilities(s, env.router)
    case CreateTransportRequest(dir, created, capRejected) => OnCreateTransport(s, dir, env.maxIncomingBitrate, created, capRejected)
    case ConnectTransportRequest(dir, dtls, connected) => OnConnectTransport(s, dir, dtls, connected)
    case ProduceRequest(sender, kind, rtp, produced) => OnProduce(s, sender, kind, rtp, produced)
    case ConsumeRequest(caps, consumed, layersSet) => OnConsume(s, env.router, caps, consumed, layersSet)
    case ResumeRequest(resumed) => OnResume(s, resumed)
  }

  /** Every message of the run finds the slots its handler needs. */
  predicate Admissible(s: State, env: Env, ms: seq<Message>)
    decreases |ms|
  {
    ms == [] || (Enabled(s, ms[0]) && Admissible(Handle(s, env, ms[0]).after, env, ms[1..]))
  }

  /** The slots after the run. */
  function Run(s: State, env: Env, ms: seq<Message>): State
    requires Admissible(s, env, ms)
    decreases |ms|
  {
    if ms == [] then s else Run(Handle(s, env, ms[0]).after, env, ms[1..])
  }

  /** Every engine call of the run, in order. */
  function Log(s: State, env: Env, ms: seq<Message>): seq<EngineCall>
    requires Admissible(s, env, ms)
    decreases |ms|
  {
    if ms == [] then [] else Handle(s, env, ms[0]).calls + Log(Handle(s, env, ms[0]).after, env, ms[1..])
  }

  /**
   * The sockets that have heard of the current producer after the run, given
   * that `known` had heard of it before: a successful `produce` starts afresh
   * with its sender, and every `newProducer` sent adds its receivers.
   */
  function Heard(s: State, env: Env, ms: seq<Message>, known: set<SocketId>): set<SocketId>
    requires Admissible(s, env, ms)
    decreases |ms|
  {
    if ms == [] then known
    else
      var st := Handle(s, env, ms[0]);
      var base := if ms[0].ProduceRequest? && ms[0].produced.Resolved? then {ms[0].sender} else known;
      Heard(st.after, env, ms[1..], base + st.newProducerTo)
  }

  /** The last producer a `produce` request made in the run, or `p` if none did. */
  function LastProduced(p: Option<Producer>, ms: seq<Message>): Option<Producer>
    decreases |ms|
  {
    if ms == [] then p
    else if ms[0].ProduceRequest? && ms[0].produced.Resolved? then LastProduced(Some(ms[0].produced.value), ms[1..])
    else LastProduced(p, ms[1..])
  }

  /** Every `consume` call is immediately preceded by a passed compatibility check for the same producer and capabilities. */
  predicate Guarded(calls: seq<EngineCall>) {
    forall i :: 0 <= i < |calls| && calls[i].TransportConsume? ==>
      0 < i && calls[i - 1] == CanConsume(calls[i].producerId, calls[i].rtpCapabilities, true)
  }

  /** A step's own calls are guarded, and never start with a `consume` call (from `ConsumerCreation`'s contract). */
  lemma StepGuarded(s: State, env: Env, m: Message)
    requires Enabled(s, m)
    ensures Guarded(Handle(s, env, m).calls)
    ensures |Handle(s, env, m).calls| > 0 ==> !Handle(s, env, m).calls[0].TransportConsume?
  {
  }

  lemma GuardedJoin(a: seq<EngineCall>, b: seq<EngineCall>)
    requires Guarded(a) && Guarded(b)
    requires |b| > 0 ==> !b[0].TransportConsume?
    ensures Guarded(a + b)
  {
  }

  /** Last write wins: after any admissible run the producer slot holds the producer the last successful `produce` made. */
  lemma {:induction false} LastWriterWins(s: State, env: Env, ms: seq<Message>)
    requires Admissible(s, env, ms)
    ensures Run(s, env, ms).producer == LastProduced(s.producer, ms)
    decreases |ms|
  {
    if ms != [] {
      var next := Handle(s, env, ms[0]).after;
      LastWriterWins(next, env, ms[1..]);
      if ms[0].ProduceRequest? && ms[0].produced.Resolved? {
        assert next.producer == Some(ms[0].produced.value);
      } else {
        assert next.producer == s.producer;
      }
    }
  }

  /** Over any admissible run, the engine is never asked to consume without a passed compatibility check just before. */
  lemma {:induction false} ConsumeAlwaysGuarded(s: State, env: Env, ms: seq<Message>)
    requires Admissible(s, env, ms)
    ensures Guarded(Log(s, env, ms))
    decreases |ms|
  {
    if ms != [] {
      var st := Handle(s, env, ms[0]);
      StepGuarded(s, env, ms[0]);
      ConsumeAlwaysGuarded(st.after, env, ms[1..]);
      GuardedJoin(st.calls, Log(st.after, env, ms[1..]));
    }
  }

  /**
   * Once a producer exists, every connected socket has heard of the current
   * one: it was connected when that producer was announced, or it connected
   * later and was told on connect, or it made the producer itself.  `known`
   * are the sockets that had heard of the current producer before the run.
   */
  lemma {:induction false} ProducerIsAnnounced(s: State, env: Env, ms: seq<Message>, known: set<SocketId>)
    requires Admissible(s, env, ms)
    requires s.producer.Some? ==> s.sockets <= known
    ensures Run(s, env, ms).producer.Some? ==> Run(s, env, ms).sockets <= Heard(s, env, ms, known)
    decreases |ms|
  {
    if ms != [] {
      var st := Handle(s, env, ms[0]);
      var base := if ms[0].ProduceRequest? && ms[0].produced.Resolved? then {ms[0].sender} else known;
      ProducerIsAnnounced(st.after, env, ms[1..], base + st.newProducerTo);
    }
  }

  /** From start-up, every socket connected while a producer exists has heard of the current producer. */
  lemma EveryClientHearsOfProducer(env: Env, ms: seq<Message>)
    requires Admissible(Initial, env, ms)
    ensures Run(Initial, env, ms).producer.Some? ==> Run(Initial, env, ms).sockets <= Heard(Initial, env, ms, {})
  {
    ProducerIsAnnounced(Initial, env, ms, {});
  }
}
