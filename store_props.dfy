// Properties of the client call store across several handlers and actions:
// hang-up is idempotent and agrees with a remote hang-up, the unavailable
// flag is never lowered, and the caller's and callee's paths through a call.

module StoreProperties {
  import opened Protocol
  import opened StoreSpec

  /** Everything that can happen to the store: a hub message, the
      `call:timeout` message no hub sends, or a user action. */
  datatype StoreEvent =
    | Got(msg: ServerMsg)
    | GotTimeout
    | Start(connected: bool, authUser: Option<Profile>, toUser: Profile, callType: string)
    | AcceptIt(connected: bool)
    | RejectIt(connected: bool)
    | Hangup(connected: bool)

  function Apply(s: StoreState, authUserId: UserId, e: StoreEvent): StoreState {
    match e
    case Got(msg) => Receive(s, authUserId, msg)
    case GotTimeout => OnTimeout(s)
    case Start(connected, authUser, toUser, callType) => StartCall(s, connected, authUser, toUser, callType).state
    case AcceptIt(connected) => AcceptCall(s, connected).state
    case RejectIt(connected) => RejectCall(s, connected).state
    case Hangup(connected) => EndCall(s, connected).state
  }

  function RunStore(s: StoreState, authUserId: UserId, events: seq<StoreEvent>): StoreState
    decreases |events|
  {
    if events == [] then s else RunStore(Apply(s, authUserId, events[0]), authUserId, events[1..])
  }

  /** Once a call attempt was reported unavailable, no handler or action
      of the store lowers `isUnavailable` again. */
  lemma {:induction false} UnavailableNeverResets(s: StoreState, authUserId: UserId, events: seq<StoreEvent>)
    requires s.isUnavailable
    ensures RunStore(s, authUserId, events).isUnavailable
    decreases |events|
  {
    if events != [] {
      var e := events[0];
      assert Apply(s, authUserId, e).isUnavailable by {
        match e
        case Got(msg) =>
          match msg {
            case SignalFrom(kind, _, _) =>
              match kind { case Offer => case Answer => case IceCandidate => }
            case _ =>
          }
        case _ =>
      }
      UnavailableNeverResets(Apply(s, authUserId, e), authUserId, events[1..]);
    }
  }

  /** A second `endCall` finds nobody to notify and changes nothing. */
  lemma EndCallIdempotent(s: StoreState, first: bool, second: bool)
    ensures var done := EndCall(s, first).state;
      EndCall(done, second) == Acted(done, NotSent)
  {
  }

  /** The peer hanging up (`call:ended` without a reason) leaves the store
      exactly as hanging up locally does. */
  lemma RemoteHangupMatchesLocal(s: StoreState, authUserId: UserId, byUserId: UserId, connected: bool)
    ensures Receive(s, authUserId, CallEnded(byUserId, None)) == EndCall(s, connected).state
  {
  }

  /** The caller's path: from no call, `startCall` sends the request; once
      the callee accepts, the store is in a call with the callee as
      receiver, and `endCall` notifies exactly the callee. */
  lemma CallerPath(s: StoreState, me: Profile, callee: Profile, callType: string)
    requires NoCall(s) && callee.id != ""
    ensures var started := StartCall(s, true, Some(me), callee, callType);
            var accepted := Receive(started.state, me.id, CallAccepted(callee.id));
      && started.effect == Sent(CallRequest(callee.id, callType, me.fullName, me.profilePic))
      && accepted.isInCall && !accepted.isCalling && accepted.role == Some(Caller)
      && EndCall(accepted, true).effect == Sent(CallEnd(callee.id))
  {
  }

  /** The callee's path: after `call:ringing` from `from`, `acceptCall`
      sends `call:accept` naming `from` and makes the caller the receiver,
      so a later `endCall` notifies `from`; `rejectCall` instead sends
      `call:decline` naming `from` and keeps the callee role. */
  lemma CalleePath(s: StoreState, me: UserId, from: UserId, callType: string, fullName: string, profilePic: string)
    requires from != ""
    ensures var rung := Receive(s, me, CallRinging(from, callType, fullName, profilePic));
            var accepted := AcceptCall(rung, true);
            var rejected := RejectCall(rung, true);
      && rung.isReceivingCall && EndCallTarget(rung) == (if rung.isCalling || rung.isInCall then Some(me) else Some(from))
      && accepted.effect == Sent(CallAccept(from))
      && accepted.state.isInCall && accepted.state.receiver == rung.caller
      && EndCall(accepted.state, true).effect == Sent(CallEnd(from))
      && rejected.effect == Sent(CallDecline(from)) && rejected.state.role == Some(Callee)
  {
  }

  /** `call:declined` clears the receiver but keeps `isInCall`; hanging up
      from there finds no target and sends nothing. */
  lemma DeclinedInCallHangsUpSilently(s: StoreState, connected: bool)
    requires s.isInCall
    ensures var declined := OnDeclined(s);
      && declined.isInCall && EndCallTarget(declined).None?
      && EndCall(declined, connected) == Acted(Cleared(declined), NotSent)
  {
  }
}
