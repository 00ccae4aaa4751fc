# WebSocket connection handler of the chat server, in Dafny

This project models the `connection` handler of the chat server's WebSocket
endpoint (`index.js:160-242`) and proves properties of that model. The handler:

- marks a new connection alive and starts a 5 s heartbeat interval;
- reads the session token from the handshake's `Cookie` header;
- binds the token's `userId`/`username` to the connection;
- attaches a `message` listener that stores each accepted message and
  delivers it to every connection of the recipient;
- tells every client who is online.

A heartbeat pings each connection. If no pong cancels the 1 s death timer,
the connection is evicted and the remaining clients are told.

The model is built in layers:

- `Cookie` (cookie.dfy) extracts the token. It defines JavaScript's
  `split` on one character, proves it against its inverse `Join`, and states
  the quirks of the extraction: no trimming, the first `token=` segment wins,
  and the value stops at the next `=`.
- `Connection` (connection.dfy) holds the fields the handler keeps per
  connection. `Frames` (frames.dfy) defines the frames sent and a log of them.
  `Roster` (roster.dfy) defines the `online` snapshot. `Routing` (routing.dfy)
  defines the frame guard, the stored record and the recipient filter.
- `Relay` (relay.dfy) is the handler as an event system. Its state is
  `wsServer.clients` in insertion order, the record of every accepted
  connection, the message store and the log of sent frames. The events are
  Connect, Message, Tick, Pong, DeathFire and Close. `Step` applies one event
  and `Run` applies a sequence. Each event runs to completion before the
  next, as callbacks do on Node's event loop.
- `Heartbeat` (heartbeat.dfy) proves properties of the heartbeat over
  sequences of events. A connection that answers each ping before the next
  tick and before that ping's death timer comes due is never evicted. Other
  connections may do anything in between, and the connection's death timer
  may come due whenever no ping awaits its pong. Without the pong, the death
  timer evicts the connection. An evicted connection stays evicted and
  receives nothing.
- `Server` (server.dfy) is the imperative form: a class `Registry` with one
  method per event. The two send loops (`.map` at line 166 and `.forEach` at
  line 230) are `while` loops. Each method is proved to have exactly the
  effect `Relay` gives its event, and to keep the registry invariant `Valid`.
- `Scenario` (scenario.dfy) is a worked run. Alice and bob connect, both see
  both online, and alice's message to bob is stored once and delivered to
  bob only. Then bob's transport drops and the heartbeat evicts him.

Death timers are modelled exactly as the code arms them. Each tick arms a new
1 s timer and overwrites the handle in `connection.deathTimer`. `clearTimeout`
reaches only the timer that the handle refers to. An earlier timer whose
handle was overwritten while it was pending (`staleDeaths`) still fires.
Timers of equal delay fire in the order they were armed.

Where one might expect friendlier behaviour, the code does the following, and
the model follows it:

- A token that fails verification makes `jwt.verify` throw. The handler stops
  there: the connection stays in the set and keeps its heartbeat, but gets no
  `message` listener, and no announcement is sent. It does not carry on as an
  anonymous connection.
- The `online` list has one entry per client, anonymous clients included,
  with absent fields.
- A message from an anonymous sender is stored and delivered, with an absent
  sender.
- The sender receives a copy when its own `userId` equals the recipient.
- A transport close sends nothing and does not stop the heartbeat. The
  handler attaches no close listener; the one at `index.js:244` is
  server-level and only logs.

## Model

| member | source | states |
|---|---|---|
| Cookie.Split | index.js:198 | `split` on a one-character separator: at least one piece, and no piece contains the separator |
| Cookie.JoinSplit | index.js:198 | splitting loses nothing: gluing the pieces back with the separator gives the input |
| Cookie.SplitJoin | index.js:198 | pieces free of the separator come back unchanged from a join then a split |
| Cookie.SplitHead | index.js:201 | the first piece is a prefix of the input, ending at the first separator or at the end |
| Cookie.FindToken | index.js:198 | `find(str => str.startsWith("token="))`: the index of the first segment with that prefix; no earlier segment has it; None exactly when no segment has it |
| Cookie.SegmentValue | index.js:201-202 | `tok.split('=')[1]` kept only when truthy: a non-empty value with no `=`, the text right after `token=`, ending at the next `=` or the end; None exactly when the segment is `token=` alone or `=` follows it |
| Cookie.TokenOf | index.js:196-202 | no header gives no token; a token is non-empty and contains neither `=` nor `;` |
| Cookie.TokenInLeadingSegment | index.js:198-202 | when the first segment starts with `token=`, it decides the result, even when its value is empty |
| Cookie.TokenSkipsSegment | index.js:198 | a leading segment without the `token=` prefix is passed over: the result is that of the rest of the header |
| Cookie.TokenAbsentFromSegment | index.js:198-199 | a single segment without the prefix yields no token |
| Cookie.NoTrimming | index.js:198 | a token placed after `; ` is missed whatever the first segment, because segments are not trimmed (e.g. `theme=dark; token=abc` yields no token) |
| Cookie.EmptyFirstTokenWins | index.js:198-202 | `token=;token=abc` yields no token: the first match is empty and later segments are not consulted |
| Cookie.ValueStopsAtEquals | index.js:201 | `token=a=b;x=1` yields `a` |
| Connection.Accepted | index.js:177-179 | a new connection is alive, its interval runs, no death timer is pending, no identity is bound and no listener is attached yet |
| Connection.Remove | index.js:184 | `terminate` takes exactly that connection out of the set, keeps the set free of duplicates, and changes nothing when the connection is absent |
| Connection.RemoveAt | index.js:184 | removing the connection at position i keeps the others in order |
| Frames.SendAll | index.js:166-171 | a fan-out sends the same frame to each target in order, one frame per target |
| Frames.ReceivedBySendAll | index.js:228-235 | a fan-out to distinct targets reaches each target exactly once and no one else |
| Roster.Online | index.js:168 | one entry per client, in set order, holding that client's `userId` and `username`, anonymous clients included |
| Roster.OnlineAppend | index.js:166-168 | a newly registered client is listed last with the identity it holds |
| Roster.OnlineRemove | index.js:184-185 | after a removal, the snapshot drops exactly that client's entry and keeps the others in order |
| Roster.ListedIffConnected | index.js:168 | a user id is listed exactly when some registered client is bound to it |
| Routing.Recipients | index.js:228-229 | `filter(c => c.userId === recipient)`: exactly the registered clients bound to the recipient, without duplicates |
| Routing.Accepts | index.js:219 | `if(recipient && text)`: an absent or empty recipient or text is rejected; a frame with both present and non-empty is accepted |
| Routing.AnonymousNeverRecipient | index.js:229 | a client with no bound identity never matches a truthy recipient |
| Relay.Init | index.js:158 | the server starts with no client, no record, no stored message and nothing sent, which satisfies the registry invariant |
| Relay.Announce | index.js:163-171 | `notifyAboutOnlinePeople` changes only the sent log: it keeps what was sent and adds one frame per client |
| Relay.AnnounceReachesEach | index.js:166-171 | each client receives exactly one copy of the snapshot of the current set; no connection outside the set receives anything |
| Relay.AfterConnect | index.js:160-242 | a handshake keeps the registry invariant (ids distinct, clients recorded and alive) |
| Relay.AfterMessage | index.js:212-237 | an inbound frame keeps the registry invariant |
| Relay.AfterTick | index.js:179-188 | a tick keeps the registry invariant |
| Relay.AfterPong | index.js:191-193 | a pong keeps the registry invariant |
| Relay.AfterDeath | index.js:181-186 | an eviction keeps the registry invariant: the dead connection has left the set and no longer ticks |
| Relay.AfterClose | index.js:160-242 | a transport close, for which the handler attaches no listener, takes exactly that connection out of the set and keeps the invariant; the records, the sent log and the store stay the same |
| Relay.Step | index.js:160-242 | any event keeps the registry invariant |
| Relay.Run | index.js:160-242 | every sequence of events keeps the registry invariant |
| Relay.ConnectRegisters | index.js:177-179 | a handshake adds one fresh connection, last in the set, alive and ticking with no death timer pending; other records and the store are unchanged |
| Relay.ConnectBinds | index.js:196-210 | without a token no identity is bound; a verified token binds its claims; a token that fails verification binds neither `userId` nor `username` and leaves no message listener |
| Relay.ConnectAnnounces | index.js:163-171 | unless verification threw, each client, the newcomer included, receives exactly one presence frame listing the previous clients and then the newcomer; no one else receives anything |
| Relay.MessageGuard | index.js:215-219 | a frame changes nothing if and only if the listener is missing or the recipient or the text is absent or empty |
| Relay.MessagePersists | index.js:221-225 | an accepted frame stores exactly one record, whose sender is the sending connection's `userId` (possibly absent), and leaves the registry alone |
| Relay.MessageRoutes | index.js:228-235 | exactly the clients bound to the recipient receive one delivery each, carrying the stored record's id; every other connection receives nothing |
| Relay.SenderCopy | index.js:228-235 | the sender receives its own message exactly when it is bound to the recipient |
| Relay.CloseIsSilent | index.js:160-242 | a transport close only removes the connection from the set: nothing is sent and its timers and record are kept |
| Relay.StepExtends | index.js:160-242 | one event only appends to the output log and the store |
| Relay.RunExtends | index.js:160-242 | no sequence of events rewrites sent frames or stored messages |
| Heartbeat.TickArms | index.js:179-188 | a tick pings an open connection and arms a death timer; an earlier pending timer stays pending; nothing else changes |
| Heartbeat.PongCancelsDeath | index.js:179-193 | a tick followed by a pong leaves a healthy connection as it was, except for the ping sent |
| Heartbeat.OthersKeepHealthy | index.js:177-193 | any event other than a tick or a close of a healthy connection leaves it healthy |
| Heartbeat.AnsweringNeverEvicted | index.js:179-193 | the special case where each pong directly follows its tick: the connection stays healthy through any sequence of events |
| Heartbeat.SafeStep | index.js:179-193 | one event other than a drop of c keeps c registered, alive, ticking and free of overwritten timers, given that a tick or a death timer of c comes only while no ping awaits its pong; a tick arms the timer, a pong clears it, and an unarmed death timer finds nothing to fire |
| Heartbeat.InTimeNeverEvicted | index.js:179-193 | a connection that answers each ping before the next tick and before that ping's death timer comes due stays registered, alive and ticking through any sequence of events; its death timer may come due at any moment when no ping awaits its pong, and other connections may do anything in between |
| Heartbeat.UnansweredTickEvicts | index.js:179-186 | when no pong follows a tick, the death timer that tick armed evicts the connection: it leaves the set, is marked dead and stops ticking |
| Heartbeat.DeathEvicts | index.js:181-186 | a death timer marks the connection dead, stops its interval and removes it from the set; exactly one pending timer is used up, so none is left when no overwritten timer was pending; each remaining client receives one snapshot without its entry |
| Heartbeat.AnnounceMisses | index.js:166-171 | an announcement reaches no connection outside the set |
| Heartbeat.DeadStepQuiet | index.js:181-186 | once evicted, a connection stays dead, receives nothing from any event and gains no death timer |
| Heartbeat.EvictedStaysEvicted | index.js:181-186 | after eviction, no sequence of events revives, re-registers, ticks, re-arms or sends to the connection; with no timer left, its death timer can never fire again |
| Heartbeat.DroppedThenTicked | index.js:179-188 | after a transport drop the next tick sends no ping but still arms the death timer |
| Heartbeat.DroppedConnectionEvicted | index.js:179-186 | a drop, a tick and the death timer evict the connection with nothing sent to it and no timer left; each remaining client is told the snapshot without its entry |
| Server.Registry.constructor | index.js:158 | a new server is in the initial state |
| Server.Registry.NotifyAboutOnlinePeople | index.js:163-171 | the loop sends every client, in order, the snapshot of the current set |
| Server.Registry.Connect | index.js:160-242 | the handler has exactly the effect of `Relay.AfterConnect`, keeps the invariant and returns the new connection's id |
| Server.Registry.Receive | index.js:212-237 | the listener stores and fans out exactly as `Relay.AfterMessage` states |
| Server.Registry.Tick | index.js:179-188 | the interval callback has exactly the effect of `Relay.AfterTick` |
| Server.Registry.Pong | index.js:191-193 | the pong listener has exactly the effect of `Relay.AfterPong` |
| Server.Registry.DeathFire | index.js:181-186 | the death-timer callback has exactly the effect of `Relay.AfterDeath` |
| Server.Registry.Close | index.js:160-242 | a transport close has exactly the effect of `Relay.AfterClose` |
| Scenario.AliceConnects | index.js:160-242 | alice, connecting to an empty server, is the only client and is told she is online |
| Scenario.BobConnects | index.js:160-242 | when bob connects next, both receive a snapshot listing alice then bob |
| Scenario.AliceWritesHi | index.js:212-237 | alice's message to bob is stored once with sender alice, and only bob receives it, with id 0 |
| Scenario.AliceWritesToBob | index.js:160-242 | the whole run from an empty server: both see both online, and the message is stored once and delivered to bob only |
| Scenario.BobDropsOut | index.js:179-186 | after bob's transport drops, the tick and the death timer remove him; alice alone receives a snapshot listing only her, and bob receives nothing more |

## Left out

- The Express routes, Mongoose models, bcrypt and server start-up (`index.js:1-158`) are not part of this model. The server-level close log at `index.js:244-246` is not modelled either.
- `jwt.verify` is a parameter of type `string -> Option<Claims>`, with None standing for the exception. The model keeps the connection with no listener and no announcement. The exception escaping the `connection` event, and what the process does with it, are not modelled.
- `Message.create` is an append to a sequence; the id of a record is its position. A failing or slow database is not modelled. The `await` at line 221 is treated as atomic, so no other event runs between the store and the fan-out.
- `JSON.parse` and `JSON.stringify` are not modelled. Inbound frames arrive as already-decoded optional fields. A malformed frame, which makes `JSON.parse` reject inside the async listener, is not modelled. Non-string `recipient` or `text` values are not represented.
- Real time is not modelled: the 5 s and 1 s delays become discrete Tick and DeathFire events that may come in any order. The model only assumes that timers of equal delay fire in the order they were armed.
- `Connection.Remove` removes a connection from `wsServer.clients` synchronously on `terminate`. The `ws` library removes it only when the socket's close event fires. So in the program, the announcement right after `terminate` may still list the dead connection and send to it.
- `ping` to a connection no longer in the set is recorded as sending nothing. The library's handling of a ping on a closing socket is not modelled.
- Frames.ReceivedBy: its contract states only that a connection receives at most as many frames as were sent. What it receives is stated by `Frames.ReceivedBySendAll` and the lemmas that use it.
- Heartbeat.DeathEvicts: when an overwritten death timer is still pending at eviction, it fires later and the code runs the eviction again, with another snapshot to the remaining clients. The model does the same, and promises that no timer is left only when no overwritten timer was pending.
