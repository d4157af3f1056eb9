# Signalling coordinator of a one-room WebRTC publish/subscribe demo

This project models the signalling core of a small mediasoup demo. One browser
publishes a track and other browsers subscribe to it. The server (`server.js`)
keeps a single producer, a single consumer, a single producer transport and a
single consumer transport in module-level slots, shared by every connected
socket. Its socket handlers fill and use those slots and call into the media
engine. The page script (`client.js`) enables and disables its controls and
sets status texts as socket events and transport state changes arrive.

The model has four modules:

- `Media` (`media.dfy`) holds the engine's values (router, transport, producer,
  consumer). It also holds `Outcome<T>`, which is how an awaited engine promise
  settles, and `EngineCall`, a record of each call the coordinator makes into
  the engine.
- `Server` (`server.dfy`) holds the error-status rule, `createWebRtcTransport`,
  and one step function per socket handler. A step function maps a `State`
  snapshot of the slots to the new snapshot, the callback's argument, the
  engine calls made and the sockets sent `newProducer`. The class
  `Coordinator` has the slots as fields. Each of its methods is one handler,
  proved to perform exactly its step, except `Coordinator.CreateConsumer`,
  which is the `createConsumer` helper that the `consume` handler calls.
- `ServerRuns` (`server_runs.dfy`) strings handlers together into runs. It
  proves three things over every admissible run, that is, one in which no
  handler dereferences an empty slot: last write wins on the producer slot;
  every engine `consume` call comes right after a compatibility check that
  passed; and every connected socket has heard of the current producer.
- `Client` (`client.dfy`) reduces the page's state to a `Ui` record of flags,
  texts and transport states. It has one function per handler. Each function's
  contract says which parts of the page it changes (`OnlyChanges`) and what
  they become. The class `Page` holds the same state as fields.

The engine's answers are parameters: the transport made or the error it threw,
what `canConsume` answers (the router's `canConsume` function), whether a
`connect`, `produce`, `consume`, `setPreferredLayers` or `resume` promise
resolved or rejected, and whether the best-effort bitrate cap was rejected.
Each handler runs as one atomic step.

Notes on what the code does, which the model follows:

- The code has no state guards and no `InvalidState`, `NotFound` or
  `AlreadyConnected` errors. A handler that dereferences an empty slot is
  modelled with a `requires`. Connecting a transport twice calls the engine
  twice, and the engine's outcome decides what happens.
- The slots are process-wide, not per session. Any socket's request
  overwrites them.
- `produce` broadcasts `newProducer` to every other connected socket, not only
  to those that are not yet subscribed.
- Engine failures reach the client as an error payload only for transport
  creation. A failed `consume` yields `undefined`. A rejected `connect`,
  `produce`, `resume` or `setPreferredLayers` means the callback is never
  called (`NoReply`).
- Inside `createConsumer`, an empty consumer-transport slot is dereferenced
  inside the `try`. The `TypeError` is caught, so the reply is `undefined`.
  This is modelled as such, not as a precondition.

## Model

| member | source | states |
|---|---|---|
| `Server.ErrorStatus` | server.js:47 | the status is the error's own status when that is set (non-zero); otherwise it is 400 exactly for a `TypeError` and 500 for any other name; it is never 0 |
| `Server.ErrorStatusSettles` | server.js:47 | once the handler has stored the status on the error, applying the rule again gives the same status |
| `Server.CreateWebRtcTransport` | server.js:205-227 | the result is what the engine created or the error it threw; the router is asked first; `setMaxIncomingBitrate` is asked for afterwards exactly when a transport was made and the configured cap is non-zero |
| `Server.CapRejectionIgnored` | server.js:213-218 | a rejected bitrate cap never changes what transport creation returns |
| `Server.OnConnection` | server.js:93-99 | the new socket is added, and it is sent `newProducer` if and only if a producer already exists; nothing else is sent and no slot changes |
| `Server.OnDisconnect` | server.js:101-103 | the socket leaves the broadcast set; no slot changes and nothing is sent |
| `Server.OnGetRouterRtpCapabilities` | server.js:109-113 | the reply is the router's RTP capabilities; nothing changes |
| `Server.OnCreateTransport` | server.js:115-138 | on success the new transport fills its own slot only, and the reply is exactly its id, ICE parameters, ICE candidates and DTLS parameters; on failure the reply is `{error: message}` and no slot changes; the other slot, the producer and the consumer never change |
| `Server.OnConnectTransport` | server.js:140-150 | the slot's transport is connected with the client's DTLS parameters; the ack is sent if and only if the engine accepts; no slot changes |
| `Server.OnProduce` | server.js:152-160 | a produced producer replaces whatever was there; the reply is its id; every connected socket except the sender is sent `newProducer`; the sender never is; an engine rejection changes nothing and sends nothing |
| `Server.ConsumerCreation` | server.js:230-269 | the compatibility check is the first call; consume is attempted exactly when the check passes and a consumer transport exists; consume asks for a paused consumer exactly when the producer's kind is "video"; without a created consumer the reply is `undefined`, the consumer slot is unchanged and there is no layer call; a created consumer fills the slot; layers 2/2 are requested if and only if its type is "simulcast"; the descriptor takes `producerId` from the producer and id, kind, rtpParameters, type and producerPaused from the consumer |
| `Server.OnConsume` | server.js:162-165 | `consume` runs `createConsumer` on the current producer and replies with its result |
| `Server.OnResume` | server.js:167-171 | the current consumer is resumed; the ack is sent if and only if the engine accepts |
| `Server.Coordinator.constructor` | server.js:16-19 | all four slots start empty and no socket is connected |
| `Server.Coordinator.Connection` | server.js:93-99 | performs `OnConnection` on the fields |
| `Server.Coordinator.Disconnect` | server.js:101-103 | performs `OnDisconnect` on the fields |
| `Server.Coordinator.GetRouterRtpCapabilities` | server.js:109-113 | returns `OnGetRouterRtpCapabilities`'s reply |
| `Server.Coordinator.CreateProducerTransport` | server.js:115-126 | performs `OnCreateTransport` for the producer-transport slot |
| `Server.Coordinator.CreateConsumerTransport` | server.js:128-138 | performs `OnCreateTransport` for the consumer-transport slot |
| `Server.Coordinator.ConnectProducerTransport` | server.js:140-144 | performs `OnConnectTransport` on the producer transport, which must exist |
| `Server.Coordinator.ConnectConsumerTransport` | server.js:146-150 | performs `OnConnectTransport` on the consumer transport, which must exist |
| `Server.Coordinator.Produce` | server.js:152-160 | performs `OnProduce` on the fields |
| `Server.Coordinator.CreateConsumer` | server.js:230-269 | performs `ConsumerCreation`, changing only the consumer field |
| `Server.Coordinator.Consume` | server.js:162-165 | performs `OnConsume` on the fields |
| `Server.Coordinator.Resume` | server.js:167-171 | performs `OnResume` |
| `ServerRuns.LastWriterWins` | server.js:152-156 | after any admissible run, the producer slot holds the producer made by the last successful `produce`, whatever came before |
| `ServerRuns.ConsumeAlwaysGuarded` | server.js:231-245 | in the engine-call log of any admissible run, every `consume` call comes right after a `canConsume` call for the same producer and capabilities that answered true |
| `ServerRuns.ProducerIsAnnounced` | server.js:96-99 | while a producer exists, each connected socket has heard of the current one: it made that producer, or was sent `newProducer` after it was made (by the broadcast or on connect), or, when no `produce` succeeded during the run, had heard of it before the run |
| `ServerRuns.EveryClientHearsOfProducer` | server.js:159 | from start-up, each socket connected while a producer exists made the current producer or was sent `newProducer` after it was made |
| `Client.PageLoaded` | client.js:31-34 | without screen-capture support, the screen status reads 'Not supported' and its button is disabled, and nothing else changes; with support, nothing changes |
| `Client.ConnectClicked` | client.js:36-38 | disables the Connect button and sets 'Connecting...'; nothing else changes |
| `Client.SocketConnected` | client.js:49-58 | sets 'Connected' and enables both fieldsets; nothing else changes; the router capabilities are requested |
| `Client.SocketDisconnected` | client.js:60-66 | sets 'Disconnected', enables Connect and disables both fieldsets; nothing else changes |
| `Client.SocketConnectFailed` | client.js:68-72 | sets 'Connection failed' and re-enables only the Connect button |
| `Client.ProducerAnnounced` | client.js:74-77 | enables the subscribe fieldset and changes nothing else |
| `Client.PublishStarted` | client.js:91-108 | chooses the webcam or screen status text and requests a producer transport with forceTcp false; a send transport is created only from a reply with transport parameters; a reply carrying `error` creates none |
| `Client.PublishProduced` | client.js:170-189 | once the send transport exists, if capturing or producing fails, the chosen publish status reads 'failed' and nothing else changes |
| `Client.PublishStateChanged` | client.js:140-168 | 'connecting' sets 'publishing...' and disables both fieldsets; 'connected' sets 'published', keeps publish disabled and enables subscribe; 'failed' closes the transport, sets 'failed', enables publish and disables subscribe; any other state changes nothing |
| `Client.ProduceOptionsFor` | client.js:176-185 | with simulcast there are exactly three encodings, at 100000, 300000 and 900000, in strictly increasing order, with start bitrate 1000; without it, no encodings and no codec options |
| `Client.SubscribeStarted` | client.js:219-229 | requests a consumer transport; only a reply with transport parameters creates the receive transport, which then sends `consume`; a reply carrying `error` changes nothing |
| `Client.SubscribeStateChanged` | client.js:239-264 | 'connecting' sets 'subscribing...' and disables subscribe; 'connected' sends `resume` once the stream is ready, and sets 'subscribed' and disables subscribe only after `resume` is answered; 'failed' closes the transport, sets 'failed' and re-enables subscribe; any other state changes nothing |
| `Client.Page.constructor` | client.js:24-34 | the page starts as its markup, with no publish target and no transports, after the screen-capture check |
| `Client.Page.Connect` | client.js:36-38 | performs `ConnectClicked` on the fields |
| `Client.Page.OnConnect` | client.js:49-58 | performs `SocketConnected` on the fields |
| `Client.Page.OnDisconnect` | client.js:60-66 | performs `SocketDisconnected` on the fields |
| `Client.Page.OnConnectError` | client.js:68-72 | performs `SocketConnectFailed` on the fields |
| `Client.Page.OnNewProducer` | client.js:74-77 | performs `ProducerAnnounced` on the fields |
| `Client.Page.Publish` | client.js:91-108 | performs `PublishStarted` on the fields |
| `Client.Page.OnPublishProduced` | client.js:186-189 | performs `PublishProduced` on the fields |
| `Client.Page.OnPublishStateChange` | client.js:140-168 | performs `PublishStateChanged` on the fields |
| `Client.Page.Subscribe` | client.js:219-229 | performs `SubscribeStarted` on the fields |
| `Client.Page.OnSubscribeStateChange` | client.js:239-264 | performs `SubscribeStateChanged` on the fields |

## Left out

- HTTPS, Express and socket.io bootstrapping are left out. So are static hosting and the TLS file checks and reads with `process.exit` (server.js:38-91). These are I/O and process control. Only the error status rule at server.js:47 is modelled.
- Creating the mediasoup worker and router is left out, as is the worker's `died` exit timer (server.js:175-193). These are foreign engine calls and process lifetime. The router is a constructor argument of `Coordinator`.
- The model does not capture the race in which a request arrives before the router exists.
- The model has no engine internals. Transports, producers and consumers are opaque values. Connection state, a repeated `connect`, and any rejection are the engine's business, and they reach the model only as `Outcome` values.
- Logging (`scribbles`, `console`) is left out, and with it the `connect_error` handler on the server, which only logs.
- The `connect`, `produce`, `resume` and `setPreferredLayers` awaits are outside any `try` (server.js:142, 148, 155, 169, 257), and so are the dereferences of empty slots. server.js installs no `unhandledRejection` handler. The model assumes the process survives an unhandled rejection and goes on handling messages, which is Node's default before version 15. From version 15 on, such a rejection ends the process, so a run ends at the message that causes it; the model's runs do not capture that exit.
- Handlers on different sockets can interleave across their `await`s; this is left out. Each handler is one atomic step, so the model cannot show, for example, `producer` changing while `createConsumer` awaits.
- The server ignores the `transportId` that the `produce` and `connectConsumerTransport` requests carry (client.js:126-130, 231-233; server.js:146-150, 152-156), so the model has no such parameter.
- Browser APIs are left out: `getUserMedia`/`getDisplayMedia`, `MediaStream`, loading the `mediasoup-client` `Device`, and video `srcObject`/`muted` (client.js:80-89, 192-217, 269-296). What is left of them is a success flag: `produced` for publishing and `streamReady` for subscribing.
- The relays of the client transports' `connect` and `produce` events to `connectProducerTransport`, `connectConsumerTransport` and `produce` (client.js:110-136, 230-237) just forward parameters. They are not modelled.
- The client's module-level `device`, `socket` and `producer` are not modelled. Each click on Connect creates a new socket; the model keeps only the page flags.
- On the page, the model keeps only the most recent send transport and receive transport. State changes of an older transport, which the source still handles, are taken to be about the current one, whether that one is open or already closed.
- The page's handlers also run as one atomic step each. The model does not capture other events interleaving while `publish` awaits the producer-transport reply (client.js:95), while `subscribe` awaits the consumer-transport reply (client.js:220), or between the two awaits of the receive transport's 'connected' case (client.js:250-251). The reply, the stream and the `resume` answer arrive as parameters of that one step.
- The page's initial markup is not part of the source, so the initial enabled and disabled states and texts are a constructor argument. The publish target always starts unset and both transports start not created, as in the source.
- Runs that dereference an empty slot on the server, such as a `consume` sent before any `produce`, are not admissible runs. The run lemmas say nothing about them, because such a handler throws outside its `try`.
