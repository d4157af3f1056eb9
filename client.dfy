/**
 * The browser side of client.js, reduced to what its event handlers change:
 * which controls are disabled, the status texts, and whether the send and
 * receive transports exist.  Media capture, the media-engine client library
 * and video elements are outside the model; their outcomes arrive as
 * parameters.  Each handler is a function from the page before to the page
 * after (plus the requests it sends), and the class `Page` holds the same
 * state as fields, with one method per handler proved to act as its function.
 */
module Client {
  import opened Media
  import Server

  /** A client-side transport: not yet created, open, or closed after a failure. */
  datatype Link = NotCreated | Open | Closed

  /** Which status text `publish` reports to: the webcam's or the screen's (unset before the first publish). */
  datatype PublishTarget = Unset | Webcam | Screen

  /** What the handlers touch on the page. */
  datatype Ui = Ui(
    btnConnectDisabled: bool,
    btnScreenDisabled: bool,
    fsPublishDisabled: bool,
    fsSubscribeDisabled: bool,
    connectionText: string,
    webcamText: string,
    screenText: string,
    subscriptionText: string,
    publishTarget: PublishTarget,
    sendTransport: Link,
    recvTransport: Link)

  /** The parts of `Ui`, one per field, so that a handler's contract can say which parts it leaves alone. */
  datatype Item =
    | BtnConnect | BtnScreen | FsPublish | FsSubscribe
    | ConnectionText | WebcamText | ScreenText | SubscriptionText
    | Target | SendTransport | RecvTransport

  predicate Agree(u: Ui, v: Ui, i: Item) {
    match i
    case BtnConnect => u.btnConnectDisabled == v.btnConnectDisabled
    case BtnScreen => u.btnScreenDisabled == v.btnScreenDisabled
    case FsPublish => u.fsPublishDisabled == v.fsPublishDisabled
    case FsSubscribe => u.fsSubscribeDisabled == v.fsSubscribeDisabled
    case ConnectionText => u.connectionText == v.connectionText
    case WebcamText => u.webcamText == v.webcamText
    case ScreenText => u.screenText == v.screenText
    case SubscriptionText => u.subscriptionText == v.subscriptionText
    case Target => u.publishTarget == v.publishTarget
    case SendTransport => u.sendTransport == v.sendTransport
    case RecvTransport => u.recvTransport == v.recvTransport
  }

  /** `v` differs from `u` at most in the parts `items`. */
  predicate OnlyChanges(u: Ui, v: Ui, items: set<Item>) {
    forall i :: i !in items ==> Agree(u, v, i)
  }

  /** The status text the current publish target names. */
  function TargetText(target: PublishTarget): Item
    requires target != Unset
  {
    if target == Webcam then WebcamText else ScreenText
  }

  function PublishText(u: Ui): string
    requires u.publishTarget != Unset
  {
    if u.publishTarget == Webcam then u.webcamText else u.screenText
  }

  function WithPublishText(u: Ui, text: string): (v: Ui)
    requires u.publishTarget != Unset
    ensures v.publishTarget == u.publishTarget && PublishText(v) == text
    ensures OnlyChanges(u, v, {TargetText(u.publishTarget)})
  {
    if u.publishTarget == Webcam then u.(webcamText := text) else u.(screenText := text)
  }

  /** The requests the page sends over the signalling socket. */
  datatype Request =
    | GetRouterRtpCapabilities
    | CreateProducerTransport(forceTcp: bool)
    | CreateConsumerTransport(forceTcp: bool)
    | Consume
    | Resume

  /** A handler's effect: the page afterwards and the requests it sent, in order. */
  datatype Reaction = Reaction(ui: Ui, sent: seq<Request>)

  // ---------------------------------------------------------------------------
  // The socket handlers

  /** Page load: without screen capture support the screen button is disabled and says so. */
  function PageLoaded(u: Ui, displayMediaSupported: bool): (r: Reaction)
    ensures r.sent == []
    ensures displayMediaSupported ==> r.ui == u
    ensures !displayMediaSupported ==>
      r.ui.screenText == "Not supported" && r.ui.btnScreenDisabled &&
      OnlyChanges(u, r.ui, {ScreenText, BtnScreen})
  {
    if displayMediaSupported then Reaction(u, [])
    else Reaction(u.(screenText := "Not supported", btnScreenDisabled := true), [])
  }

  /** Clicking Connect disables the button and reports that the page is connecting. */
  function ConnectClicked(u: Ui): (r: Reaction)
    ensures r.ui.btnConnectDisabled && r.ui.connectionText == "Connecting..."
    ensures OnlyChanges(u, r.ui, {BtnConnect, ConnectionText})
    ensures r.sent == []
  {
    Reaction(u.(btnConnectDisabled := true, connectionText := "Connecting..."), [])
  }

  /** Socket `connect`: both fieldsets are enabled and the router's capabilities are requested. */
  function SocketConnected(u: Ui): (r: Reaction)
    ensures !r.ui.fsPublishDisabled && !r.ui.fsSubscribeDisabled && r.ui.connectionText == "Connected"
    ensures OnlyChanges(u, r.ui, {FsPublish, FsSubscribe, ConnectionText})
    ensures r.sent == [GetRouterRtpCapabilities]
  {
    Reaction(u.(connectionText := "Connected", fsPublishDisabled := false, fsSubscribeDisabled := false), [GetRouterRtpCapabilities])
  }

  /** Socket `disconnect`: Connect is enabled again and both fieldsets are disabled. */
  function SocketDisconnected(u: Ui): (r: Reaction)
    ensures r.ui.connectionText == "Disconnected" && !r.ui.btnConnectDisabled
    ensures r.ui.fsPublishDisabled && r.ui.fsSubscribeDisabled
    ensures OnlyChanges(u, r.ui, {ConnectionText, BtnConnect, FsPublish, FsSubscribe})
    ensures r.sent == []
  {
    Reaction(u.(connectionText := "Disconnected", btnConnectDisabled := false, fsPublishDisabled := true, fsSubscribeDisabled := true), [])
  }

  /** Socket `connect_error`: only the Connect button is enabled again (and the status says so). */
  function SocketConnectFailed(u: Ui): (r: Reaction)
    ensures r.ui.connectionText == "Connection failed" && !r.ui.btnConnectDisabled
    ensures OnlyChanges(u, r.ui, {ConnectionText, BtnConnect})
    ensures r.sent == []
  {
    Reaction(u.(connectionText := "Connection failed", btnConnectDisabled := false), [])
  }

  /** Socket `newProducer`: the subscribe fieldset is enabled and nothing else changes. */
  function ProducerAnnounced(u: Ui): (r: Reaction)
    ensures !r.ui.fsSubscribeDisabled && OnlyChanges(u, r.ui, {FsSubscribe})
    ensures r.sent == []
  {
    Reaction(u.(fsSubscribeDisabled := false), [])
  }

  // ---------------------------------------------------------------------------
  // publish

  /**
   * A publish button is clicked: the target status text is chosen, a producer
   * transport is requested, and a send transport is created only from a reply
   * that carries transport parameters; a reply carrying `error` ends it there.
   */
  function PublishStarted(u: Ui, isWebcam: bool, reply: Server.Reply): (r: Reaction)
    ensures r.sent == [CreateProducerTransport(false)]
    ensures r.ui.publishTarget == (if isWebcam then Webcam else Screen)
    ensures reply.TransportCreated? ==> r.ui.sendTransport == Open
    ensures !reply.TransportCreated? ==> r.ui.sendTransport == u.sendTransport
    ensures OnlyChanges(u, r.ui, {Target, SendTransport})
  {
    var chosen := u.(publishTarget := if isWebcam then Webcam else Screen);
    Reaction(if reply.TransportCreated? then chosen.(sendTransport := Open) else chosen, [CreateProducerTransport(false)])
  }

  /** Capturing or producing the track on the created send transport failed: the publish status says 'failed'. */
  function PublishProduced(u: Ui, produced: bool): (r: Reaction)
    requires u.sendTransport != NotCreated && u.publishTarget != Unset
    ensures r.sent == [] && r.ui.publishTarget == u.publishTarget
    ensures produced ==> r.ui == u
    ensures !produced ==> PublishText(r.ui) == "failed" && OnlyChanges(u, r.ui, {TargetText(u.publishTarget)})
  {
    Reaction(if produced then u else WithPublishText(u, "failed"), [])
  }

  /**
   * The send transport's `connectionstatechange`: 'connecting' disables both
   * fieldsets; 'connected' reports 'published', keeps publish disabled and
   * enables subscribe; 'failed' closes the transport, reports 'failed',
   * enables publish and disables subscribe; any other state changes nothing.
   */
  function PublishStateChanged(u: Ui, state: string): (r: Reaction)
    requires u.sendTransport != NotCreated && u.publishTarget != Unset
    ensures r.sent == []
    ensures r.ui.publishTarget == u.publishTarget
    ensures state == "connecting" ==>
      PublishText(r.ui) == "publishing..." && r.ui.fsPublishDisabled && r.ui.fsSubscribeDisabled &&
      OnlyChanges(u, r.ui, {TargetText(u.publishTarget), FsPublish, FsSubscribe})
    ensures state == "connected" ==>
      PublishText(r.ui) == "published" && r.ui.fsPublishDisabled && !r.ui.fsSubscribeDisabled &&
      OnlyChanges(u, r.ui, {TargetText(u.publishTarget), FsPublish, FsSubscribe})
    ensures state == "failed" ==>
      r.ui.sendTransport == Closed && PublishText(r.ui) == "failed" && !r.ui.fsPublishDisabled && r.ui.fsSubscribeDisabled &&
      OnlyChanges(u, r.ui, {SendTransport, TargetText(u.publishTarget), FsPublish, FsSubscribe})
    ensures state != "connecting" && state != "connected" && state != "failed" ==> r.ui == u
  {
    if state == "connecting" then
      Reaction(WithPublishText(u, "publishing...").(fsPublishDisabled := true, fsSubscribeDisabled := true), [])
    else if state == "connected" then
      Reaction(WithPublishText(u, "published").(fsPublishDisabled := true, fsSubscribeDisabled := false), [])
    else if state == "failed" then
      Reaction(WithPublishText(u.(sendTransport := Closed), "failed").(fsPublishDisabled := false, fsSubscribeDisabled := true), [])
    else
      Reaction(u, [])
  }

  /** One encoding of a simulcast track. */
  datatype Encoding = Encoding(maxBitrate: int)

  /** The options `publish` gives the send transport's `produce`, besides the track. */
  datatype ProduceOptions = ProduceOptions(encodings: seq<Encoding>, videoGoogleStartBitrate: Option<int>)

  /**
   * With simulcast checked, three encodings capped at 100 kbit/s, 300 kbit/s
   * and 900 kbit/s, in strictly increasing order, and a start bitrate of 1000;
   * without it, neither.
   */
  function ProduceOptionsFor(simulcast: bool): (o: ProduceOptions)
    ensures simulcast ==>
      |o.encodings| == 3 &&
      o.encodings[0].maxBitrate == 100000 && o.encodings[1].maxBitrate == 300000 && o.encodings[2].maxBitrate == 900000 &&
      (forall i, j :: 0 <= i < j < |o.encodings| ==> o.encodings[i].maxBitrate < o.encodings[j].maxBitrate) &&
      o.videoGoogleStartBitrate == Some(1000)
    ensures !simulcast ==> o.encodings == [] && o.videoGoogleStartBitrate == None
  {
    if simulcast then ProduceOptions([Encoding(100000), Encoding(300000), Encoding(900000)], Some(1000))
    else ProduceOptions([], None)
  }

  // ---------------------------------------------------------------------------
  // subscribe

  /**
   * Subscribe is clicked: a consumer transport is requested; only a reply
   * with transport parameters creates the receive transport, which then sends
   * the `consume` request at once; a reply carrying `error` ends it there.
   */
  function SubscribeStarted(u: Ui, reply: Server.Reply): (r: Reaction)
    ensures reply.TransportCreated? ==> r.ui.recvTransport == Open && r.sent == [CreateConsumerTransport(false), Consume]
    ensures !reply.TransportCreated? ==> r.ui == u && r.sent == [CreateConsumerTransport(false)]
    ensures OnlyChanges(u, r.ui, {RecvTransport})
  {
    if reply.TransportCreated? then Reaction(u.(recvTransport := Open), [CreateConsumerTransport(false), Consume])
    else Reaction(u, [CreateConsumerTransport(false)])
  }

  /**
   * The receive transport's `connectionstatechange`.  'connecting' disables
   * subscribe; 'connected' first awaits the consumed stream (`streamReady`
   * false: that await throws and nothing more happens), then sends `resume`,
   * and only once it is answered reports 'subscribed' and disables subscribe;
   * 'failed' closes the transport, reports 'failed' and enables subscribe
   * again; any other state changes nothing.
   */
  function SubscribeStateChanged(u: Ui, state: string, streamReady: bool, resumeAnswered: bool): (r: Reaction)
    requires u.recvTransport != NotCreated
    ensures state == "connecting" ==>
      r.ui.subscriptionText == "subscribing..." && r.ui.fsSubscribeDisabled &&
      OnlyChanges(u, r.ui, {SubscriptionText, FsSubscribe}) && r.sent == []
    ensures state == "connected" ==>
      r.sent == (if streamReady then [Resume] else []) &&
      (r.ui != u ==> r.sent == [Resume] && resumeAnswered) &&
      (streamReady && resumeAnswered ==>
         r.ui.subscriptionText == "subscribed" && r.ui.fsSubscribeDisabled &&
         OnlyChanges(u, r.ui, {SubscriptionText, FsSubscribe}))
    ensures state == "failed" ==>
      r.ui.recvTransport == Closed && r.ui.subscriptionText == "failed" && !r.ui.fsSubscribeDisabled &&
      OnlyChanges(u, r.ui, {RecvTransport, SubscriptionText, FsSubscribe}) && r.sent == []
    ensures state != "connecting" && state != "connected" && state != "failed" ==> r == Reaction(u, [])
  {
    if state == "connecting" then
      Reaction(u.(subscriptionText := "subscribing...", fsSubscribeDisabled := true), [])
    else if state == "connected" then
      if !streamReady then Reaction(u, [])
      else if !resumeAnswered then Reaction(u, [Resume])
      else Reaction(u.(subscriptionText := "subscribed", fsSubscribeDisabled := true), [Resume])
    else if state == "failed" then
      Reaction(u.(recvTransport := Closed, subscriptionText := "failed", fsSubscribeDisabled := false), [])
    else
      Reaction(u, [])
  }

  // ---------------------------------------------------------------------------
  // The page object

  class Page {
    var btnConnectDisabled: bool
    var btnScreenDisabled: bool
    var fsPublishDisabled: bool
    var fsSubscribeDisabled: bool
    var connectionText: string
    var webcamText: string
    var screenText: string
    var subscriptionText: string
    var publishTarget: PublishTarget
    var sendTransport: Link
    var recvTransport: Link

    function View(): Ui
      reads this
    {
      Ui(btnConnectDisabled, btnScreenDisabled, fsPublishDisabled, fsSubscribeDisabled,
         connectionText, webcamText, screenText, subscriptionText,
         publishTarget, sendTransport, recvTransport)
    }

    /**
     * The page as loaded: the enabled and disabled states and texts of
     * `markup`, no publish target yet and no transport, then the
     * screen-capture check.
     */
    constructor (markup: Ui, displayMediaSupported: bool)
      ensures publishTarget == Unset && sendTransport == NotCreated && recvTransport == NotCreated
      ensures View() == PageLoaded(markup.(publishTarget := Unset, sendTransport := NotCreated, recvTransport := NotCreated), displayMediaSupported).ui
    {
      btnConnectDisabled, btnScreenDisabled := markup.btnConnectDisabled, markup.btnScreenDisabled;
      fsPublishDisabled, fsSubscribeDisabled := markup.fsPublishDisabled, markup.fsSubscribeDisabled;
      connectionText, webcamText, screenText := markup.connectionText, markup.webcamText, markup.screenText;
      subscriptionText, publishTarget := markup.subscriptionText, Unset;
      sendTransport, recvTransport := NotCreated, NotCreated;
      if !displayMediaSupported {
        screenText := "Not supported";
        btnScreenDisabled := true;
      }
    }

    method Connect()
      modifies this
      ensures View() == ConnectClicked(old(View())).ui
    {
      btnConnectDisabled := true;
      connectionText := "Connecting...";
    }

    method OnConnect() returns (sent: seq<Request>)
      modifies this
      ensures Reaction(View(), sent) == SocketConnected(old(View()))
    {
      connectionText := "Connected";
      fsPublishDisabled := false;
      fsSubscribeDisabled := false;
      sent := [GetRouterRtpCapabilities];
    }

    method OnDisconnect()
      modifies this
      ensures View() == SocketDisconnected(old(View())).ui
    {
      connectionText := "Disconnected";
      btnConnectDisabled := false;
      fsPublishDisabled := true;
      fsSubscribeDisabled := true;
    }

    method OnConnectError()
      modifies this
      ensures View() == SocketConnectFailed(old(View())).ui
    {
      connectionText := "Connection failed";
      btnConnectDisabled := false;
    }

    method OnNewProducer()
      modifies this
      ensures View() == ProducerAnnounced(old(View())).ui
    {
      fsSubscribeDisabled := false;
    }

    method Publish(isWebcam: bool, reply: Server.Reply) returns (sent: seq<Request>)
      modifies this
      ensures Reaction(View(), sent) == PublishStarted(old(View()), isWebcam, reply)
    {
      publishTarget := if isWebcam then Webcam else Screen;
      sent := [CreateProducerTransport(false)];
      if !reply.TransportCreated? {
        return;
      }
      sendTransport := Open;
    }

    method OnPublishProduced(produced: bool)
      requires sendTransport != NotCreated && publishTarget != Unset
      modifies this
      ensures View() == PublishProduced(old(View()), produced).ui
    {
      if !produced {
        if publishTarget == Webcam { webcamText := "failed"; } else { screenText := "failed"; }
      }
    }

    method OnPublishStateChange(state: string)
      requires sendTransport != NotCreated && publishTarget != Unset
      modifies this
      ensures View() == PublishStateChanged(old(View()), state).ui
    {
      var text := "";
      if state == "connecting" {
        text := "publishing...";
        fsPublishDisabled := true;
        fsSubscribeDisabled := true;
      } else if state == "connected" {
        text := "published";
        fsPublishDisabled := true;
        fsSubscribeDisabled := false;
      } else if state == "failed" {
        sendTransport := Closed;
        text := "failed";
        fsPublishDisabled := false;
        fsSubscribeDisabled := true;
      } else {
        return;
      }
      if publishTarget == Webcam { webcamText := text; } else { screenText := text; }
    }

    method Subscribe(reply: Server.Reply) returns (sent: seq<Request>)
      modifies this
      ensures Reaction(View(), sent) == SubscribeStarted(old(View()), reply)
    {
      sent := [CreateConsumerTransport(false)];
      if !reply.TransportCreated? {
        return;
      }
      recvTransport := Open;
      sent := sent + [Consume];
    }

    method OnSubscribeStateChange(state: string, streamReady: bool, resumeAnswered: bool) returns (sent: seq<Request>)
      requires recvTransport != NotCreated
      modifies this
      ensures Reaction(View(), sent) == SubscribeStateChanged(old(View()), state, streamReady, resumeAnswered)
    {
      sent := [];
      if state == "connecting" {
        subscriptionText := "subscribing...";
        fsSubscribeDisabled := true;
      } else if state == "connected" {
        if !streamReady {
          return;
        }
        sent := [Resume];
        if !resumeAnswered {
          return;
        }
        subscriptionText := "subscribed";
        fsSubscribeDisabled := true;
      } else if state == "failed" {
        recvTransport := Closed;
        subscriptionText := "failed";
        fsSubscribeDisabled := false;
      }
    }
  }
}
