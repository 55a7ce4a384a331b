/**
 * The Socket.IO `connection` handler of server.js: the module-level `users`
 * list as the one field of a Relay object, and one method per socket event.
 * Every `io.to(target).emit(event, payload)` a handler performs becomes an
 * entry of the outbox the method returns; delivery is not modelled.
 */
module Signaling {
  import opened Wrappers
  import opened Users

  /** The four signaling events. The payloads of offer, answer and candidate are
      opaque to the relay; `hangUp` is re-emitted without arguments. */
  datatype Message<P> = Offer(description: P) | Answer(description: P) | Candidate(candidate: P) | HangUp

  /** One `io.to(to).emit(...)` call. */
  datatype Emit<P> = Emit(to: SocketId, msg: Message<P>)

  /** The guarded forward every handler ends with:
      `const partner = users.find(id => id !== from); if (partner) io.to(partner).emit(...)`. */
  function Notify<P>(users: seq<SocketId>, from: SocketId, msg: Message<P>): (out: seq<Emit<P>>)
    ensures |out| <= 1
    ensures out == [] <==> forall i :: 0 <= i < |users| ==> users[i] == from
    ensures out != [] ==> exists i :: IsFirstOther(users, from, i) && out == [Emit(users[i], msg)]
  {
    match Partner(users, from)
    case None => []
    case Some(p) => [Emit(p, msg)]
  }

  /** A disconnect notification goes exactly where a hangUp from the departing
      socket would have gone just before it was filtered out. */
  lemma DisconnectNotifiesFormerPartner<P>(users: seq<SocketId>, gone: SocketId)
    ensures Notify<P>(Without(users, gone), gone, HangUp) == Notify<P>(users, gone, HangUp)
  {
    PartnerWithout(users, gone);
  }

  class Relay {
    /** The ids of the live sockets, in connection order. */
    var users: seq<SocketId>

    /** `let users = [];` */
    constructor ()
      ensures users == []
    {
      users := [];
    }

    /** A socket connects: `users.push(socket.id)`. Nothing is emitted. */
    method Connect(id: SocketId)
      modifies this
      ensures users == old(users) + [id]
      ensures |users| == |old(users)| + 1 && users[..|old(users)|] == old(users)
    {
      users := users + [id];
    }

    /** The socket `from` sends `msg` (an offer, answer, candidate or hangUp event):
        forwarded verbatim to the first other listed socket, if there is one.
        Routing has no `modifies` clause, so `users` is left as it was. */
    method Route<P>(from: SocketId, msg: Message<P>) returns (out: seq<Emit<P>>)
      ensures Partner(users, from).None? ==> out == []
      ensures Partner(users, from).Some? ==> out == [Emit(Partner(users, from).value, msg)]
      ensures forall e :: e in out ==> e.to != from && e.to in users && e.msg == msg
    {
      var partner := Partner(users, from);
      if partner.Some? {
        out := [Emit(partner.value, msg)];
      } else {
        out := [];
      }
    }

    /** The socket `id` disconnects: every occurrence of it is filtered out, and
        the first remaining socket, if any, is sent a hangUp. */
    method Disconnect<P>(id: SocketId) returns (out: seq<Emit<P>>)
      modifies this
      ensures users == Without(old(users), id)
      ensures multiset(users) == multiset(old(users))[id := 0]
      ensures out == Notify(users, id, HangUp)
      ensures |out| <= 1 && (out == [] <==> users == [])
      ensures out != [] ==> out == [Emit(users[0], HangUp)] && users[0] != id
      ensures out == Notify(old(users), id, HangUp)
    {
      WithoutCounts(users, id);
      DisconnectNotifiesFormerPartner<P>(users, id);
      users := Without(users, id);
      PartnerOfAbsent(users, id);
      var partner := Partner(users, id);
      if partner.Some? {
        out := [Emit(partner.value, HangUp)];
      } else {
        out := [];
      }
    }
  }

  /** A call between two sockets, then the caller leaves and a third socket arrives:
      the offer and the answer cross verbatim, the callee gets exactly one hangUp,
      and the newcomer becomes the callee's partner instead of a departed socket. */
  method CallThenReconnect<P>(a: SocketId, b: SocketId, c: SocketId, sdp: P, reply: P)
    returns (offered: seq<Emit<P>>, answered: seq<Emit<P>>, hungUp: seq<Emit<P>>, reoffered: seq<Emit<P>>)
    requires a != b && b != c && a != c
    ensures offered == [Emit(b, Offer(sdp))]
    ensures answered == [Emit(a, Answer(reply))]
    ensures hungUp == [Emit(b, HangUp)]
    ensures reoffered == [Emit(c, Offer(sdp))]
  {
    var relay := new Relay();
    relay.Connect(a);
    relay.Connect(b);
    assert relay.users == [a, b];
    PartnersOfTwo(a, b);
    offered := relay.Route(a, Offer(sdp));
    answered := relay.Route(b, Answer(reply));
    hungUp := relay.Disconnect(a);
    assert relay.users == [b];
    relay.Connect(c);
    assert relay.users == [b, c];
    PartnersOfTwo(b, c);
    reoffered := relay.Route(b, Offer(sdp));
  }

  /** With three sockets the second and the third both resolve the first as their
      partner, while the first talks only to the second. */
  method ThreeSockets<P>(a: SocketId, b: SocketId, c: SocketId, sdp: P)
    returns (fromA: seq<Emit<P>>, fromB: seq<Emit<P>>, fromC: seq<Emit<P>>)
    requires a != b && b != c && a != c
    ensures fromA == [Emit(b, Offer(sdp))]
    ensures fromB == [Emit(a, Offer(sdp))]
    ensures fromC == [Emit(a, Offer(sdp))]
  {
    var relay := new Relay();
    relay.Connect(a);
    relay.Connect(b);
    relay.Connect(c);
    assert relay.users == [a, b, c];
    PartnersOfDistinct([a, b, c]);
    fromA := relay.Route(a, Offer(sdp));
    fromB := relay.Route(b, Offer(sdp));
    fromC := relay.Route(c, Offer(sdp));
  }
}
