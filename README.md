# Signaling relay of omagle-clone, modelled in Dafny

The server of omagle-clone is a Socket.IO relay for WebRTC calls. It keeps one
module-level, ordered list `users` of the ids of the live sockets. A socket that
connects is appended to it. A socket that disconnects is filtered out of it, and
the first remaining socket is told to hang up. The four signaling events a
client sends (`offer`, `answer`, `candidate`, `hangUp`) are all forwarded by one
rule: the message goes, under the same event name and with its payload
untouched, to the first listed socket whose id differs from the sender's;
when there is no such socket nothing is sent.

This project models that relay:

- `wrappers.dfy`, module `Wrappers`: `Option`, standing for the value of
  `Array.prototype.find` (`undefined` or the element found).
- `users.dfy`, module `Users`: socket ids, the partner rule `Partner`
  (`users.find(id => id !== self)`), the removal `Without`
  (`users.filter(id => id !== gone)`), and lemmas about both.
- `signaling.dfy`, module `Signaling`: the signaling messages with opaque
  payloads, the outgoing emits, the guarded forward `Notify`, and the class
  `Relay` whose field `users` the methods `Connect` and `Disconnect` update in
  place and which `Route` only reads. Every `io.to(p).emit(...)` is an entry of
  the outbox a method returns. Two client methods replay short call scenarios
  against the class's contracts.

Socket ids are non-empty strings (Socket.IO never issues an empty id), so the
truthiness test `if (partner)` in server.js holds exactly when `find` found an
entry; the model writes that test as `Partner(...).Some?`.

The behaviour is "first other socket" routing, not a pairing of sockets into
two-party sessions: with three or more sockets every socket but the first routes
to the first. A design description of this project speaks of a pairing engine
with a waiting slot, a per-connection buffer of early candidates and a teardown
that notifies a partner at most once; server.js has none of these, and the model
follows the code. In particular an explicit `hangUp` is forwarded but removes
nobody, so a later disconnect of the same socket notifies again.

## Model

| member | source | states |
|---|---|---|
| `Users.Partner` | server.js:22 | the result is none exactly when every listed id equals the sender; otherwise it is a listed id different from the sender, found at an index before which every entry is the sender (the first other id) |
| `Users.PartnerAt` | server.js:22 | converse: whenever index i is the first entry differing from the sender, the partner rule returns that entry |
| `Users.PartnersOfDistinct` | server.js:22 | with unique ids and at least two sockets, the first socket's partner is the second, and every other socket's partner is the first |
| `Users.PartnersOfTwo` | server.js:22 | with exactly two distinct sockets, each is the other's partner |
| `Users.PartnerAppend` | server.js:18-22 | after a push, a socket that had a partner keeps the same one; a socket that had none gets the newcomer, unless the newcomer is that socket's own id |
| `Users.PartnerOfAbsent` | server.js:48 | for a sender not in the list, the partner is the head of the list, or none when the list is empty |
| `Users.Without` | server.js:47 | an id is in the filtered list exactly when it was in the list and is not the departing id; the list does not grow |
| `Users.WithoutConcat` | server.js:47 | filtering a concatenation is the concatenation of the filtered parts, so the surviving ids keep their relative order |
| `Users.WithoutCounts` | server.js:47 | every occurrence of the departing id is removed and every other id keeps its number of occurrences |
| `Users.WithoutAbsent` | server.js:47 | filtering out an id that is not listed leaves the list exactly as it was |
| `Users.WithoutIdempotent` | server.js:47 | filtering the same id twice gives the same list as filtering it once |
| `Users.WithoutDistinct` | server.js:47 | filtering keeps the ids unique |
| `Users.AppendDistinct` | server.js:18 | pushing an id not yet listed keeps the ids unique |
| `Users.PartnerWithout` | server.js:47-48 | the first id left after filtering out a socket is the partner that socket had before the filter |
| `Signaling.Notify` | server.js:22-25 | a handler emits at most one message; none exactly when every listed id is the sender; otherwise one, to the first other listed id, carrying the received message unchanged |
| `Signaling.DisconnectNotifiesFormerPartner` | server.js:45-52 | the hangUp sent after the filter goes exactly where a hangUp from the departing socket would have gone before the filter |
| `Signaling.Relay.constructor` | server.js:9 | the relay starts with no sockets |
| `Signaling.Relay.Connect` | server.js:18 | the new id is appended at the end; all earlier entries and their order are unchanged |
| `Signaling.Relay.Route` | server.js:21-42 | for offer, answer and candidate (and hangUp, server.js:55-60): no message when the sender has no partner, otherwise exactly one, to the partner, with the same event and identical payload; never to the sender, always to a listed socket; `users` is not modified |
| `Signaling.Relay.Disconnect` | server.js:45-52 | the new list is the old one filtered of the departing id (all its occurrences, order kept); at most one hangUp is sent, none exactly when the list became empty, otherwise to the first remaining id, which is never the departing one and is the departing socket's former partner |
| `Signaling.CallThenReconnect` | server.js:14-60 | sockets a and b connect; a's offer reaches b and b's answer reaches a verbatim; a disconnects and b gets exactly one hangUp; c connects and b's next offer reaches c |
| `Signaling.ThreeSockets` | server.js:18-42 | with three sockets a, b, c connected in that order, a's offer goes to b while both b's and c's go to a |

## Left out

- The browser client `public/script.js` (media capture, `RTCPeerConnection`, ICE candidates, the video elements, the STUN configuration): foreign WebRTC and DOM calls with no relay logic.
- Express static serving, `http.createServer` and `server.listen` (server.js:1-11, 64-66), and every `console.log`: bootstrap and I/O.
- Socket.IO transport: an emit is an entry of the returned outbox; delivery, acknowledgement and the binding of the per-socket handlers at connect time are not modelled.
- Event-loop interleaving: each handler invocation is one atomic step.
- Senders that are not listed: `Signaling.Relay.Route` also accepts them, though Socket.IO never produces one (a disconnected socket's handlers no longer fire); for such a sender the partner is the head of the list (`Users.PartnerOfAbsent`).
- The pairing engine, waiting slot, candidate buffer and at-most-once teardown of the design description: server.js does not implement them.
