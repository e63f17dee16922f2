// Properties of the call hub's transitions: the registry invariant every
// event keeps, what a disconnect does, how the ring timer interacts with
// the other events, and traces that show what the hub does because its
// call state holds no peer and its socket removal is unguarded.

module HubProperties {
  import opened Protocol
  import opened HubSpec

  /** Every event keeps the registry invariant. */
  lemma HandleKeepsInv(h: HubState, e: Event)
    requires Inv(h)
    ensures Inv(Handle(h, e).state)
  {
  }

  lemma DisconnectKeepsInv(h: HubState, me: Conn)
    requires Inv(h)
    ensures Inv(Disconnect(h, me).state)
  {
  }

  /** The state after running a sequence of events from `h`. */
  function Run(h: HubState, events: seq<Event>): (r: HubState)
    requires Inv(h)
    ensures Inv(r)
    decreases |events|
  {
    if events == [] then h
    else
      HandleKeepsInv(h, events[0]);
      Run(Handle(h, events[0]).state, events[1..])
  }

  /** What a disconnect does to a valid state: the user's socket entry goes
      whatever socket it points at, its call state goes, and when it was
      ringing or in-call every other registered ringing or in-call user is
      set idle and notified once, in key order, before the broadcast. */
  lemma DisconnectEffect(h: HubState, me: Conn)
    requires Inv(h) && me.userId != ""
    ensures var r, u := Disconnect(h, me), me.userId;
      && r.state.sockets == h.sockets - {u}
      && r.state.online == Without(h.online, u)
      && r.state.calls.Keys == h.calls.Keys - {u}
      && (forall o :: o in h.calls && o != u ==>
            r.state.calls[o] == if Active(h.calls, u) && o in h.sockets && Active(h.calls, o) then Idle else h.calls[o])
      && r.out == (if Active(h.calls, u) then Notices(ActiveAmong(h.calls, Without(h.online, u)), h.sockets - {u}, u) else [])
                  + [Outbound(Everyone, OnlineUsers(Without(h.online, u)))]
      && r.timer.None?
  {
    var u := me.userId;
    var sockets, online := h.sockets - {u}, Without(h.online, u);
    if Active(h.calls, u) {
      var swept := Sweep(h.calls, sockets, online, u);
      SweepEffect(h.calls, sockets, online, u);
      forall o | o in h.calls && o != u
        ensures swept.calls[o] == if o in h.sockets && Active(h.calls, o) then Idle else h.calls[o]
      {
        assert o in online <==> o in h.sockets;
      }
    }
  }

  /** The filter of a duplicate-free list in which exactly `b` qualifies. */
  lemma {:induction false} ActiveAmongOnly(calls: map<UserId, CallStatus>, users: seq<UserId>, b: UserId)
    requires NoDuplicates(users) && b in users && Active(calls, b)
    requires forall o :: o in users && o != b ==> !Active(calls, o)
    ensures ActiveAmong(calls, users) == [b]
  {
    var init, last := users[..|users| - 1], users[|users| - 1];
    assert users == init + [last];
    if last == b {
      assert b !in init;
      NoneActive(calls, init);
    } else {
      assert b in init;
      ActiveAmongOnly(calls, init, b);
    }
  }

  lemma {:induction false} NoneActive(calls: map<UserId, CallStatus>, users: seq<UserId>)
    requires forall o :: o in users ==> !Active(calls, o)
    ensures ActiveAmong(calls, users) == []
  {
    if users != [] {
      assert users == users[..|users| - 1] + [users[|users| - 1]];
      NoneActive(calls, users[..|users| - 1]);
    }
  }

  /** Disconnect during a two-party call (the only active users are `a`
      and `b`): `b` is set idle and receives exactly one `call:ended` from
      `a` with reason "disconnected", followed by the presence broadcast. */
  lemma DisconnectPropagation(h: HubState, sa: SocketId, a: UserId, b: UserId)
    requires Inv(h) && a != "" && a != b && b in h.sockets
    requires StatusIs(h.calls, a, InCall) && StatusIs(h.calls, b, InCall)
    requires forall o :: o in h.sockets && o != a && o != b ==> !Active(h.calls, o)
    ensures var r := Disconnect(h, Conn(sa, a));
      && StatusIs(r.state.calls, b, Idle)
      && r.out == [Outbound(ToSocket(h.sockets[b]), CallEnded(a, Some(DISCONNECTED))),
                   Outbound(Everyone, OnlineUsers(Without(h.online, a)))]
  {
    DisconnectEffect(h, Conn(sa, a));
    var online := Without(h.online, a);
    ActiveAmongOnly(h.calls, online, b);
  }

  /** The sweep is not limited to the disconnecting user's peer: any other
      registered user who is ringing or in-call, with anyone, is set idle
      and receives a `call:ended` naming the disconnecting user. */
  lemma DisconnectEndsEveryActiveCall(h: HubState, sa: SocketId, a: UserId, c: UserId)
    requires Inv(h) && a != "" && a != c && c in h.sockets
    requires Active(h.calls, a) && Active(h.calls, c)
    ensures var r := Disconnect(h, Conn(sa, a));
      && StatusIs(r.state.calls, c, Idle)
      && Outbound(ToSocket(h.sockets[c]), CallEnded(a, Some(DISCONNECTED))) in r.out
  {
    DisconnectEffect(h, Conn(sa, a));
    var online := Without(h.online, a);
    var active := ActiveAmong(h.calls, online);
    assert c in active;
    var k :| 0 <= k < |active| && active[k] == c;
    assert Notices(active, h.sockets - {a}, a)[k] == Notice(h.sockets - {a}, c, a);
  }

  /** A disconnect removes the user's socket entry even when it belongs to
      a newer connection: after connecting on `s1` and then `s2`, closing
      the stale `s1` leaves the user unregistered and without call state,
      and a call request from the still-open `s2` to any registered user is
      refused as busy. */
  lemma StaleDisconnectDropsNewerSocket(h: HubState, u: UserId, s1: SocketId, s2: SocketId,
                                        to: UserId, callType: string, fullName: string, profilePic: string)
    requires Inv(h) && AcceptableUserId(Some(u))
    ensures var h1 := Connect(h, s1, Some(u)).state;
            var h2 := Connect(h1, s2, Some(u)).state;
            var h3 := Disconnect(h2, Conn(s1, u)).state;
      && h2.sockets[u] == s2
      && u !in h3.sockets && u !in h3.calls
      && (to in h3.sockets ==>
            Request(h3, Conn(s2, u), to, callType, fullName, profilePic).out == [Outbound(ToSocket(s2), CallUnavailable(BUSY))])
  {
  }

  /** A request that rings, followed by its own timer firing, restores the
      state exactly and tells each side once that the other timed out. */
  lemma RequestThenTimeout(h: HubState, me: Conn, to: UserId, callType: string, fullName: string, profilePic: string)
    requires to in h.sockets && StatusIs(h.calls, to, Idle) && StatusIs(h.calls, me.userId, Idle)
    ensures var req := Request(h, me, to, callType, fullName, profilePic);
      && req.timer.Some?
      && Fire(req.state, req.timer.value) ==
           NoTimer(h, [Outbound(ToSocket(me.socket), CallEnded(to, Some(TIMEOUT))),
                     Outbound(ToSocket(h.sockets[to]), CallEnded(me.userId, Some(TIMEOUT)))])
  {
  }

  /** The timer compares only the two statuses, so it does not know which
      ring armed it: after a ring a→b that b declines, a new ring a→b is
      ended by the first ring's timer, and both sides are told it timed out. */
  lemma OldTimerEndsNewRing(h: HubState, me: Conn, to: UserId, callType: string, fullName: string, profilePic: string)
    requires to in h.sockets && me.userId != to
    requires StatusIs(h.calls, to, Idle) && StatusIs(h.calls, me.userId, Idle)
    ensures var first := Request(h, me, to, callType, fullName, profilePic);
            var declined := Decline(first.state, Conn(h.sockets[to], to), me.userId);
            var second := Request(declined.state, me, to, callType, fullName, profilePic);
            var fired := Fire(second.state, first.timer.value);
      && first.timer.Some? && second.timer.Some?
      && second.out == [Outbound(ToSocket(h.sockets[to]), CallRinging(me.userId, callType, fullName, profilePic))]
      && StatusIs(fired.state.calls, me.userId, Idle) && StatusIs(fired.state.calls, to, Idle)
      && fired.out == [Outbound(ToSocket(me.socket), CallEnded(to, Some(TIMEOUT))),
                       Outbound(ToSocket(h.sockets[to]), CallEnded(me.userId, Some(TIMEOUT)))]
  {
  }

  /** A decline or an end that names either party of a ring, or an accept
      that succeeds for either party, disarms its timer: when it fires it
      changes nothing and sends nothing. */
  lemma AnswerDisarmsTimer(h: HubState, t: Timer, me: Conn, other: UserId, msg: ClientMsg)
    requires Inv(h)
    requires msg == CallDecline(other) || msg == CallEnd(other) || msg == CallAccept(other)
    requires me.userId in {t.caller, t.callee} || other in {t.caller, t.callee}
    requires msg.CallAccept? ==> StatusIs(h.calls, me.userId, Ringing) && StatusIs(h.calls, other, Ringing)
    ensures var h' := Handle(h, Received(me, msg)).state;
      Fire(h', t) == NoTimer(h', [])
  {
  }

  /** Accept checks only that both users are ringing, not that they are
      ringing with each other. Two rings a→b and c→d, then b accepts c:
      b and c are in a call, and when both timers have fired a and d are
      still ringing, so every later request from or to them is busy. */
  lemma CrossAcceptStrandsRingers()
    ensures var h0 := Register(Register(Register(Register(Empty, "a", "sa"), "b", "sb"), "c", "sc"), "d", "sd");
            var r1 := Request(h0, Conn("sa", "a"), "b", "audio", "A", "");
            var r2 := Request(r1.state, Conn("sc", "c"), "d", "audio", "C", "");
            var h3 := Accept(r2.state, Conn("sb", "b"), "c").state;
            var h4 := Fire(Fire(h3, r1.timer.value).state, r2.timer.value).state;
      && r1.timer.Some? && r2.timer.Some?
      && StatusIs(h4.calls, "b", InCall) && StatusIs(h4.calls, "c", InCall)
      && StatusIs(h4.calls, "a", Ringing) && StatusIs(h4.calls, "d", Ringing)
      && Request(h4, Conn("sa", "a"), "d", "audio", "A", "").out == [Outbound(ToSocket("sa"), CallUnavailable(BUSY))]
  {
  }

  /** Decline and end do not check the caller's relation to the named
      user: while a and b are in a call, c declining "a" sets a idle and
      leaves b in a call with nobody. */
  lemma DeclineStrandsPeer(h: HubState, sc: SocketId, a: UserId, b: UserId, c: UserId)
    requires StatusIs(h.calls, a, InCall) && StatusIs(h.calls, b, InCall)
    requires c != b && a != b
    requires forall o :: o != a && o != b ==> !StatusIs(h.calls, o, InCall)
    ensures var h' := Decline(h, Conn(sc, c), a).state;
      && StatusIs(h'.calls, a, Idle)
      && StatusIs(h'.calls, b, InCall)
      && forall o :: o != b ==> !StatusIs(h'.calls, o, InCall)
  {
    var h' := Decline(h, Conn(sc, c), a).state;
    forall o | o != b ensures !StatusIs(h'.calls, o, InCall) {
      if o == a || o == c {
        assert StatusIs(h'.calls, o, Idle);
      } else {
        assert Lookup(h'.calls, o) == Lookup(h.calls, o);
        assert !StatusIs(h.calls, o, InCall);
      }
    }
  }
}
