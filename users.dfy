/**
 * The relay's registry of live sockets (server.js, `let users = []`): an ordered
 * list of socket ids, and the two expressions the server evaluates over it,
 * the partner lookup `users.find(id => id !== socket.id)` and the removal
 * `users.filter(id => id !== socket.id)`.
 */
module Users {
  import opened Wrappers

  /** A Socket.IO connection id. Socket.IO never hands out the empty string, so
      every id is truthy and `if (partner)` tests exactly whether `find` found one. */
  type SocketId = s: string | s != "" witness "a"

  /** `i` is the position `users.find(id => id !== self)` stops at: the first entry that is not `self`. */
  ghost predicate IsFirstOther(users: seq<SocketId>, self: SocketId, i: int)
  {
    0 <= i < |users| && users[i] != self && forall j :: 0 <= j < i ==> users[j] == self
  }

  /** No socket id is listed twice. */
  ghost predicate Distinct(users: seq<SocketId>)
  {
    forall i, j :: 0 <= i < j < |users| ==> users[i] != users[j]
  }

  /** The partner rule shared by every handler: the first listed id other than `self`, if any. */
  function Partner(users: seq<SocketId>, self: SocketId): (r: Option<SocketId>)
    ensures r.None? <==> forall i :: 0 <= i < |users| ==> users[i] == self
    ensures r.Some? ==> r.value in users && r.value != self
    ensures r.Some? ==> exists i :: IsFirstOther(users, self, i) && users[i] == r.value
  {
    if users == [] then None
    else if users[0] != self then
      assert IsFirstOther(users, self, 0);
      Some(users[0])
    else
      assert forall k :: IsFirstOther(users[1..], self, k) ==> IsFirstOther(users, self, k + 1);
      Partner(users[1..], self)
  }

  /** The converse of Partner's contract: whatever index `find` stops at, Partner returns that entry. */
  lemma {:induction false} PartnerAt(users: seq<SocketId>, self: SocketId, i: int)
    requires IsFirstOther(users, self, i)
    ensures Partner(users, self) == Some(users[i])
  {
    if i > 0 {
      assert IsFirstOther(users[1..], self, i - 1);
      PartnerAt(users[1..], self, i - 1);
    }
  }

  /** `users.filter(id => id !== gone)`: every entry except `gone`, in the original order. */
  function Without(users: seq<SocketId>, gone: SocketId): (r: seq<SocketId>)
    ensures forall y :: y in r <==> y in users && y != gone
    ensures |r| <= |users|
  {
    if users == [] then []
    else (if users[0] == gone then [] else [users[0]]) + Without(users[1..], gone)
  }

  /** Filtering distributes over concatenation, so the survivors keep their relative order. */
  lemma {:induction false} WithoutConcat(a: seq<SocketId>, b: seq<SocketId>, gone: SocketId)
    ensures Without(a + b, gone) == Without(a, gone) + Without(b, gone)
  {
    if a == [] {
      assert a + b == b;
    } else {
      assert (a + b)[0] == a[0];
      assert (a + b)[1..] == a[1..] + b;
      WithoutConcat(a[1..], b, gone);
    }
  }

  /** Every occurrence of `gone` is dropped and every other id keeps its multiplicity. */
  lemma {:induction false} WithoutCounts(users: seq<SocketId>, gone: SocketId)
    ensures multiset(Without(users, gone)) == multiset(users)[gone := 0]
  {
    if users != [] {
      WithoutCounts(users[1..], gone);
      assert users == [users[0]] + users[1..];
    }
  }

  /** Removing an id that is not listed leaves the list exactly as it was. */
  lemma {:induction false} WithoutAbsent(users: seq<SocketId>, gone: SocketId)
    requires gone !in users
    ensures Without(users, gone) == users
  {
    if users != [] {
      WithoutAbsent(users[1..], gone);
    }
  }

  /** Filtering twice is filtering once. */
  lemma WithoutIdempotent(users: seq<SocketId>, gone: SocketId)
    ensures Without(Without(users, gone), gone) == Without(users, gone)
  {
    WithoutAbsent(Without(users, gone), gone);
  }

  /** Filtering keeps ids unique. */
  lemma {:induction false} WithoutDistinct(users: seq<SocketId>, gone: SocketId)
    requires Distinct(users)
    ensures Distinct(Without(users, gone))
  {
    if users != [] {
      WithoutDistinct(users[1..], gone);
      var rest := Without(users[1..], gone);
      assert users[0] !in users[1..];
      assert users[0] !in rest;
    }
  }

  /** Appending a fresh id keeps ids unique. */
  lemma AppendDistinct(users: seq<SocketId>, id: SocketId)
    requires Distinct(users) && id !in users
    ensures Distinct(users + [id])
  {
  }

  /** After a departed id is filtered out, the partner rule picks the same id it
      picked for the departed socket before the filter. */
  lemma {:induction false} PartnerWithout(users: seq<SocketId>, gone: SocketId)
    ensures Partner(Without(users, gone), gone) == Partner(users, gone)
  {
    if users != [] {
      PartnerWithout(users[1..], gone);
      if users[0] == gone {
        assert Without(users, gone) == Without(users[1..], gone);
      } else {
        assert Without(users, gone)[0] == users[0];
      }
    }
  }

  /** With `self` absent, the partner rule picks the head of the list. */
  lemma PartnerOfAbsent(users: seq<SocketId>, self: SocketId)
    requires self !in users
    ensures Partner(users, self) == if users == [] then None else Some(users[0])
  {
  }

  /** Appending an id never changes a partner already found; a socket with no
      partner gets the newcomer, unless the newcomer is itself. */
  lemma {:induction false} PartnerAppend(users: seq<SocketId>, id: SocketId, self: SocketId)
    ensures Partner(users + [id], self) ==
      if Partner(users, self).Some? then Partner(users, self)
      else if id != self then Some(id) else None
  {
    if users != [] {
      assert (users + [id])[1..] == users[1..] + [id];
      PartnerAppend(users[1..], id, self);
    }
  }

  /** With unique ids and two or more sockets, the first socket's partner is the
      second, and every other socket's partner is the first. */
  lemma PartnersOfDistinct(users: seq<SocketId>)
    requires Distinct(users) && |users| >= 2
    ensures Partner(users, users[0]) == Some(users[1])
    ensures forall i :: 1 <= i < |users| ==> Partner(users, users[i]) == Some(users[0])
  {
    assert IsFirstOther(users, users[0], 1);
    PartnerAt(users, users[0], 1);
    forall i | 1 <= i < |users|
      ensures Partner(users, users[i]) == Some(users[0])
    {
      assert IsFirstOther(users, users[i], 0);
      PartnerAt(users, users[i], 0);
    }
  }

  /** Two distinct sockets are each other's partner. */
  lemma PartnersOfTwo(a: SocketId, b: SocketId)
    requires a != b
    ensures Partner([a, b], a) == Some(b) && Partner([a, b], b) == Some(a)
  {
    PartnersOfDistinct([a, b]);
  }
}
