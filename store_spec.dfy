// The client call store of frontend/src/store/useCallStore.js as a value:
// the store's record, and for each socket handler and each user action the
// partial-record update it applies (its `set({...})`) together with the one
// message the action emits, if any.

module StoreSpec {
  import opened Protocol

  datatype Role = Caller | Callee

  /** A `{ _id, fullName, profilePic }` object; the name and picture are
      absent when the store only learnt the id. */
  datatype Party = Party(id: UserId, fullName: Option<string>, profilePic: Option<string>)

  /** A received negotiation message: `{ fromUserId, offer | answer | candidate }`. */
  datatype Signal = Signal(fromUserId: UserId, payload: Payload)

  /** A user record as the auth store and the UI hand it over. */
  datatype Profile = Profile(id: UserId, fullName: string, profilePic: string)

  /** The store's fields; `None` stands for both `null` and `undefined`. */
  datatype StoreState = StoreState(
    isCalling: bool,
    isReceivingCall: bool,
    isInCall: bool,
    callType: Option<string>,
    caller: Option<Party>,
    receiver: Option<Party>,
    webrtcOffer: Option<Signal>,
    webrtcAnswer: Option<Signal>,
    webrtcIceCandidate: Option<Signal>,
    isUnavailable: bool,
    unavailableReason: Option<string>,
    reason: Option<string>,
    role: Option<Role>)

  /** What an action did on the socket: emitted one message, emitted
      nothing, or threw a TypeError before changing anything. */
  datatype Effect = Sent(msg: ClientMsg) | NotSent | Threw

  /** The store after an action, and what the action emitted. */
  datatype Acted = Acted(state: StoreState, effect: Effect)

  // Reason strings the store itself writes into `reason`.
  const DECLINED: string := "declined"
  const UNAVAILABLE: string := "unavailable"

  /** The store's initial record. */
  const Initial: StoreState :=
    StoreState(false, false, false, None, None, None, None, None, None, false, None, None, None)

  /** No call in progress: the three flags down and every call reference,
      the role and the negotiation fields cleared. */
  predicate NoCall(s: StoreState) {
    && !s.isCalling && !s.isReceivingCall && !s.isInCall
    && s.callType.None? && s.caller.None? && s.receiver.None? && s.role.None?
    && s.webrtcOffer.None? && s.webrtcAnswer.None? && s.webrtcIceCandidate.None?
  }

  /** The record `endCall` and `call:ended` both write: every call field
      cleared; the unavailable fields are kept. */
  function Cleared(s: StoreState): (r: StoreState)
    ensures NoCall(r) && r.reason.None?
    ensures r.isUnavailable == s.isUnavailable && r.unavailableReason == s.unavailableReason
  {
    s.(isCalling := false, isReceivingCall := false, isInCall := false, callType := None,
       caller := None, role := None, receiver := None,
       webrtcOffer := None, webrtcAnswer := None, webrtcIceCandidate := None, reason := None)
  }

  /** A receiver known only by its id. */
  function IdOnly(id: UserId): Party {
    Party(id, None, None)
  }

  /** `call:ringing`: this client is being called by `fromUserId`. */
  function OnRinging(s: StoreState, authUserId: UserId, fromUserId: UserId, callType: string, fullName: string, profilePic: string): (r: StoreState)
    ensures r.isReceivingCall && r.role == Some(Callee) && r.callType == Some(callType)
    ensures r.caller == Some(Party(fromUserId, Some(fullName), Some(profilePic)))
    ensures r.receiver == Some(IdOnly(authUserId)) && r.reason.None?
    ensures r.(isReceivingCall := s.isReceivingCall, role := s.role, callType := s.callType,
               caller := s.caller, receiver := s.receiver, reason := s.reason) == s
  {
    s.(isReceivingCall := true, role := Some(Callee), callType := Some(callType),
       caller := Some(Party(fromUserId, Some(fullName), Some(profilePic))),
       receiver := Some(IdOnly(authUserId)), reason := None)
  }

  /** `call:accepted`: the callee picked up. */
  function OnAccepted(s: StoreState, byUserId: UserId): (r: StoreState)
    ensures !r.isCalling && r.isInCall && r.receiver == Some(IdOnly(byUserId)) && r.reason.None?
    ensures r.(isCalling := s.isCalling, isInCall := s.isInCall, receiver := s.receiver, reason := s.reason) == s
  {
    s.(isCalling := false, isInCall := true, receiver := Some(IdOnly(byUserId)), reason := None)
  }

  /** `call:declined`: the ring is over; `isInCall` and the negotiation
      fields are left as they were. */
  function OnDeclined(s: StoreState): (r: StoreState)
    ensures !r.isCalling && !r.isReceivingCall
    ensures r.callType.None? && r.caller.None? && r.receiver.None? && r.role.None?
    ensures r.reason == Some(DECLINED)
    ensures r.isInCall == s.isInCall && r.webrtcOffer == s.webrtcOffer
    ensures r.webrtcAnswer == s.webrtcAnswer && r.webrtcIceCandidate == s.webrtcIceCandidate
    ensures r.isUnavailable == s.isUnavailable && r.unavailableReason == s.unavailableReason
  {
    s.(isCalling := false, isReceivingCall := false, callType := None, caller := None,
       receiver := None, reason := Some(DECLINED), role := None)
  }

  /** `call:ended`: every call field is cleared and the message's reason
      (absent for a hang-up) is stored. */
  function OnEnded(s: StoreState, reason: Option<string>): (r: StoreState)
    ensures NoCall(r) && r.reason == reason
    ensures r.isUnavailable == s.isUnavailable && r.unavailableReason == s.unavailableReason
  {
    s.(isCalling := false, isReceivingCall := false, isInCall := false, callType := None,
       caller := None, receiver := None,
       webrtcOffer := None, webrtcAnswer := None, webrtcIceCandidate := None,
       role := None, reason := reason)
  }

  /** `webrtc:offer`: the offer is kept and its sender becomes the receiver. */
  function OnOffer(s: StoreState, fromUserId: UserId, offer: Payload): (r: StoreState)
    ensures r.webrtcOffer == Some(Signal(fromUserId, offer)) && r.receiver == Some(IdOnly(fromUserId))
    ensures r.(webrtcOffer := s.webrtcOffer, receiver := s.receiver) == s
  {
    s.(webrtcOffer := Some(Signal(fromUserId, offer)), receiver := Some(IdOnly(fromUserId)))
  }

  /** `webrtc:answer`. */
  function OnAnswer(s: StoreState, fromUserId: UserId, answer: Payload): (r: StoreState)
    ensures r.webrtcAnswer == Some(Signal(fromUserId, answer))
    ensures r.(webrtcAnswer := s.webrtcAnswer) == s
  {
    s.(webrtcAnswer := Some(Signal(fromUserId, answer)))
  }

  /** `webrtc:ice-candidate`: only the latest candidate is kept. */
  function OnIceCandidate(s: StoreState, fromUserId: UserId, candidate: Payload): (r: StoreState)
    ensures r.webrtcIceCandidate == Some(Signal(fromUserId, candidate))
    ensures r.(webrtcIceCandidate := s.webrtcIceCandidate) == s
  {
    s.(webrtcIceCandidate := Some(Signal(fromUserId, candidate)))
  }

  /** `call:timeout`: registered by the store, but no hub message has this
      name; the hub reports a timeout as `call:ended` with reason "timeout". */
  function OnTimeout(s: StoreState): (r: StoreState)
    ensures !r.isCalling && !r.isReceivingCall
    ensures r.callType.None? && r.caller.None? && r.receiver.None? && r.role.None?
    ensures r.reason == Some(TIMEOUT)
    ensures r.(isCalling := s.isCalling, isReceivingCall := s.isReceivingCall, callType := s.callType,
               caller := s.caller, receiver := s.receiver, reason := s.reason, role := s.role) == s
  {
    s.(isCalling := false, isReceivingCall := false, callType := None, caller := None,
       receiver := None, reason := Some(TIMEOUT), role := None)
  }

  /** `call:unavailable`: the attempt failed; `isInCall` is left as it was. */
  function OnUnavailable(s: StoreState, why: string): (r: StoreState)
    ensures !r.isCalling && !r.isReceivingCall && r.isUnavailable
    ensures r.unavailableReason == Some(why) && r.reason == Some(UNAVAILABLE)
    ensures r.(isCalling := s.isCalling, isReceivingCall := s.isReceivingCall, isUnavailable := s.isUnavailable,
               unavailableReason := s.unavailableReason, reason := s.reason) == s
  {
    s.(isCalling := false, isReceivingCall := false, isUnavailable := true,
       unavailableReason := Some(why), reason := Some(UNAVAILABLE))
  }

  /** The hub messages the store listens to, each to its handler;
      `onlineUsers` belongs to another store and changes nothing here. */
  function Receive(s: StoreState, authUserId: UserId, msg: ServerMsg): (r: StoreState)
    ensures r.isInCall && !s.isInCall ==> msg.CallAccepted?
    ensures r.isUnavailable != s.isUnavailable || r.unavailableReason != s.unavailableReason ==> msg.CallUnavailable?
    ensures s.isUnavailable ==> r.isUnavailable
    ensures msg.OnlineUsers? ==> r == s
  {
    match msg
    case OnlineUsers(_) => s
    case CallRinging(from, callType, fullName, profilePic) => OnRinging(s, authUserId, from, callType, fullName, profilePic)
    case CallAccepted(byUserId) => OnAccepted(s, byUserId)
    case CallDeclined(_) => OnDeclined(s)
    case CallEnded(_, reason) => OnEnded(s, reason)
    case CallUnavailable(why) => OnUnavailable(s, why)
    case SignalFrom(kind, from, payload) =>
      match kind
      case Offer => OnOffer(s, from, payload)
      case Answer => OnAnswer(s, from, payload)
      case IceCandidate => OnIceCandidate(s, from, payload)
  }

  /** `startCall`: needs a connected socket and a signed-in user; then the
      store becomes the caller and one `call:request` goes out. */
  function StartCall(s: StoreState, connected: bool, authUser: Option<Profile>, toUser: Profile, callType: string): (r: Acted)
    ensures !connected || authUser.None? ==> r == Acted(s, NotSent)
    ensures connected && authUser.Some? ==>
      && r.state.isCalling && r.state.role == Some(Caller) && r.state.callType == Some(callType)
      && r.state.receiver == Some(Party(toUser.id, Some(toUser.fullName), Some(toUser.profilePic)))
      && r.state.reason.None?
      && r.state.(isCalling := s.isCalling, role := s.role, callType := s.callType,
                  receiver := s.receiver, reason := s.reason) == s
      && r.effect == Sent(CallRequest(toUser.id, callType, authUser.value.fullName, authUser.value.profilePic))
  {
    if !connected || authUser.None? then Acted(s, NotSent)
    else
      Acted(s.(isCalling := true, role := Some(Caller), callType := Some(callType),
               receiver := Some(Party(toUser.id, Some(toUser.fullName), Some(toUser.profilePic))),
               reason := None),
            Sent(CallRequest(toUser.id, callType, authUser.value.fullName, authUser.value.profilePic)))
  }

  /** `acceptCall`: reading `caller._id` throws when there is no caller
      (only reached with a connected socket); an empty id refuses. */
  function AcceptCall(s: StoreState, connected: bool): (r: Acted)
    ensures !connected ==> r == Acted(s, NotSent)
    ensures connected && s.caller.None? ==> r == Acted(s, Threw)
    ensures connected && s.caller.Some? && s.caller.value.id == "" ==> r == Acted(s, NotSent)
    ensures connected && s.caller.Some? && s.caller.value.id != "" ==>
      && !r.state.isReceivingCall && r.state.isInCall && r.state.receiver == s.caller && r.state.reason.None?
      && r.state.(isReceivingCall := s.isReceivingCall, isInCall := s.isInCall,
                  receiver := s.receiver, reason := s.reason) == s
      && r.effect == Sent(CallAccept(s.caller.value.id))
  {
    if !connected then Acted(s, NotSent)
    else if s.caller.None? then Acted(s, Threw)
    else if s.caller.value.id == "" then Acted(s, NotSent)
    else
      var c := s.caller.value;
      Acted(s.(isReceivingCall := false, isInCall := true,
               receiver := Some(Party(c.id, c.fullName, c.profilePic)), reason := None),
            Sent(CallAccept(c.id)))
  }

  /** `rejectCall`: refused without a connected socket or a caller id;
      otherwise the ring is dropped (the role is kept) and one
      `call:decline` goes out. */
  function RejectCall(s: StoreState, connected: bool): (r: Acted)
    ensures !connected || s.caller.None? || s.caller.value.id == "" ==> r == Acted(s, NotSent)
    ensures connected && s.caller.Some? && s.caller.value.id != "" ==>
      && !r.state.isReceivingCall && r.state.callType.None? && r.state.caller.None? && r.state.receiver.None?
      && r.state.reason == Some(DECLINED)
      && r.state.(isReceivingCall := s.isReceivingCall, callType := s.callType, caller := s.caller,
                  receiver := s.receiver, reason := s.reason) == s
      && r.effect == Sent(CallDecline(s.caller.value.id))
  {
    if !connected || s.caller.None? || s.caller.value.id == "" then Acted(s, NotSent)
    else
      Acted(s.(isReceivingCall := false, callType := None, caller := None, receiver := None,
               reason := Some(DECLINED)),
            Sent(CallDecline(s.caller.value.id)))
  }

  /** `endCall`'s choice of whom to notify: the receiver while calling or
      in a call, the caller while being rung, nobody otherwise. */
  function EndCallTarget(s: StoreState): (r: Option<UserId>)
    ensures (s.isCalling || s.isInCall) && s.receiver.Some? ==> r == Some(s.receiver.value.id)
    ensures (s.isCalling || s.isInCall) && s.receiver.None? ==> r.None?
    ensures !(s.isCalling || s.isInCall) && s.isReceivingCall && s.caller.Some? ==> r == Some(s.caller.value.id)
    ensures !(s.isCalling || s.isInCall) && s.isReceivingCall && s.caller.None? ==> r.None?
    ensures r.Some? ==> s.isCalling || s.isInCall || s.isReceivingCall
    ensures NoCall(s) ==> r.None?
  {
    if s.isCalling || s.isInCall then
      (if s.receiver.Some? then Some(s.receiver.value.id) else None)
    else if s.isReceivingCall then
      (if s.caller.Some? then Some(s.caller.value.id) else None)
    else None
  }

  /** `endCall`: always clears the call; `call:end` goes out only with a
      connected socket and a non-empty target. */
  function EndCall(s: StoreState, connected: bool): (r: Acted)
    ensures r.state == Cleared(s)
    ensures r.effect.Sent? <==> connected && EndCallTarget(s).Some? && EndCallTarget(s).value != ""
    ensures r.effect.Sent? ==> r.effect.msg == CallEnd(EndCallTarget(s).value)
    ensures !r.effect.Threw?
  {
    var target := EndCallTarget(s);
    if !connected || target.None? || target.value == "" then Acted(Cleared(s), NotSent)
    else Acted(Cleared(s), Sent(CallEnd(target.value)))
  }
}
