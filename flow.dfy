// The hub and two client stores together: the messages each side emits
// are fed to the other, following one call from request to answer, and
// one ring that times out.

module CallFlow {
  import opened Protocol
  import opened HubSpec
  import opened StoreSpec

  /** A call that is answered. The caller's `startCall` request reaches the
      hub, which rings the callee's socket; the callee's store accepts and
      its `call:accept` reaches the hub, which puts both users in a call and
      tells the caller; the caller's store is then in the call with the
      callee. The ring timer armed by the request is then a no-op. */
  lemma AnsweredCall(h: HubState, a: Conn, b: Conn, me: Profile, callee: Profile, callType: string,
                     callerStore: StoreState, calleeStore: StoreState)
    requires Inv(h) && a.userId != b.userId && callee.id == b.userId
    requires AcceptableUserId(Some(a.userId)) && AcceptableUserId(Some(b.userId))
    requires h.sockets.Keys >= {a.userId, b.userId} && h.sockets[b.userId] == b.socket
    requires StatusIs(h.calls, a.userId, Idle) && StatusIs(h.calls, b.userId, Idle)
    requires NoCall(callerStore)
    ensures var started := StartCall(callerStore, true, Some(me), callee, callType);
      && started.effect == Sent(CallRequest(b.userId, callType, me.fullName, me.profilePic))
      && var req := Handle(h, Received(a, started.effect.msg));
      && req.out == [Outbound(ToSocket(b.socket), CallRinging(a.userId, callType, me.fullName, me.profilePic))]
      && req.timer.Some?
      && var rung := Receive(calleeStore, b.userId, req.out[0].msg);
      && rung.caller == Some(Party(a.userId, Some(me.fullName), Some(me.profilePic)))
      && var answered := AcceptCall(rung, true);
      && answered.effect == Sent(CallAccept(a.userId)) && answered.state.isInCall
      && var acc := Handle(req.state, Received(b, answered.effect.msg));
      && StatusIs(acc.state.calls, a.userId, InCall) && StatusIs(acc.state.calls, b.userId, InCall)
      && acc.out == [Outbound(ToSocket(h.sockets[a.userId]), CallAccepted(b.userId))]
      && var joined := Receive(started.state, a.userId, acc.out[0].msg);
      && joined.isInCall && !joined.isCalling && joined.receiver == Some(IdOnly(b.userId))
      && Fire(acc.state, req.timer.value).out == []
  {
  }

  /** A ring nobody answers. When the timer fires, both stores receive
      `call:ended` with reason "timeout" and end up with no call and that
      reason. The store's own `call:timeout` handler is never reached: no
      hub message carries that name. */
  lemma UnansweredCall(h: HubState, a: Conn, b: UserId, callType: string, fullName: string, profilePic: string,
                       callerStore: StoreState, calleeStore: StoreState)
    requires Inv(h) && a.userId != b && b in h.sockets
    requires StatusIs(h.calls, a.userId, Idle) && StatusIs(h.calls, b, Idle)
    ensures var req := Request(h, a, b, callType, fullName, profilePic);
            var fired := Fire(req.state, req.timer.value);
            var callerEnd := Receive(callerStore, a.userId, fired.out[0].msg);
            var calleeEnd := Receive(calleeStore, b, fired.out[1].msg);
      && req.timer.Some? && |fired.out| == 2
      && fired.out[0].target == ToSocket(a.socket) && fired.out[1].target == ToSocket(h.sockets[b])
      && NoCall(callerEnd) && callerEnd.reason == Some(TIMEOUT)
      && NoCall(calleeEnd) && calleeEnd.reason == Some(TIMEOUT)
  {
  }
}
