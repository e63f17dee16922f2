// The client call store of frontend/src/store/useCallStore.js as the
// object it is: one field per store key, one method per socket handler and
// per action, each changing its fields in place the way its `set({...})`
// does and proved to perform the update StoreSpec gives for it. An emit is
// returned as an Effect; `connected` stands for `socket && socket.connected`
// at the moment of the action.

module CallStoreModel {
  import opened Protocol
  import opened StoreSpec

  class CallStore {
    var isCalling: bool
    var isReceivingCall: bool
    var isInCall: bool
    var callType: Option<string>
    var caller: Option<Party>
    var receiver: Option<Party>
    var webrtcOffer: Option<Signal>
    var webrtcAnswer: Option<Signal>
    var webrtcIceCandidate: Option<Signal>
    var isUnavailable: bool
    var unavailableReason: Option<string>
    var reason: Option<string>
    var role: Option<Role>

    /** The store's current record. */
    function Snapshot(): StoreState
      reads this
    {
      StoreState(isCalling, isReceivingCall, isInCall, callType, caller, receiver,
                 webrtcOffer, webrtcAnswer, webrtcIceCandidate,
                 isUnavailable, unavailableReason, reason, role)
    }

    /** The store as `create` builds it. */
    constructor ()
      ensures Snapshot() == Initial && NoCall(Snapshot())
    {
      isCalling, isReceivingCall, isInCall := false, false, false;
      callType, caller, receiver := None, None, None;
      webrtcOffer, webrtcAnswer, webrtcIceCandidate := None, None, None;
      isUnavailable, unavailableReason := false, None;
      reason, role := None, None;
    }

    /** Handler of `call:ringing`; `authUserId` is the id the listeners
        were installed for. */
    method OnRinging(authUserId: UserId, fromUserId: UserId, newCallType: string, fullName: string, profilePic: string)
      modifies this
      ensures Snapshot() == StoreSpec.OnRinging(old(Snapshot()), authUserId, fromUserId, newCallType, fullName, profilePic)
    {
      isReceivingCall := true;
      role := Some(Callee);
      callType := Some(newCallType);
      caller := Some(Party(fromUserId, Some(fullName), Some(profilePic)));
      receiver := Some(IdOnly(authUserId));
      reason := None;
    }

    /** Handler of `call:accepted`. */
    method OnAccepted(byUserId: UserId)
      modifies this
      ensures Snapshot() == StoreSpec.OnAccepted(old(Snapshot()), byUserId)
    {
      isCalling := false;
      isInCall := true;
      receiver := Some(IdOnly(byUserId));
      reason := None;
    }

    /** Handler of `call:declined`. */
    method OnDeclined()
      modifies this
      ensures Snapshot() == StoreSpec.OnDeclined(old(Snapshot()))
    {
      isCalling, isReceivingCall := false, false;
      callType, caller, receiver := None, None, None;
      reason := Some(DECLINED);
      role := None;
    }

    /** Handler of `call:ended`. */
    method OnEnded(endReason: Option<string>)
      modifies this
      ensures Snapshot() == StoreSpec.OnEnded(old(Snapshot()), endReason)
    {
      isCalling, isReceivingCall, isInCall := false, false, false;
      callType, caller, receiver := None, None, None;
      webrtcOffer, webrtcAnswer, webrtcIceCandidate := None, None, None;
      role := None;
      reason := endReason;
    }

    /** Handler of `webrtc:offer`. */
    method OnOffer(fromUserId: UserId, offer: Payload)
      modifies this
      ensures Snapshot() == StoreSpec.OnOffer(old(Snapshot()), fromUserId, offer)
    {
      webrtcOffer := Some(Signal(fromUserId, offer));
      receiver := Some(IdOnly(fromUserId));
    }

    /** Handler of `webrtc:answer`. */
    method OnAnswer(fromUserId: UserId, answer: Payload)
      modifies this
      ensures Snapshot() == StoreSpec.OnAnswer(old(Snapshot()), fromUserId, answer)
    {
      webrtcAnswer := Some(Signal(fromUserId, answer));
    }

    /** Handler of `webrtc:ice-candidate`. */
    method OnIceCandidate(fromUserId: UserId, candidate: Payload)
      modifies this
      ensures Snapshot() == StoreSpec.OnIceCandidate(old(Snapshot()), fromUserId, candidate)
    {
      webrtcIceCandidate := Some(Signal(fromUserId, candidate));
    }

    /** Handler of `call:timeout`. */
    method OnTimeout()
      modifies this
      ensures Snapshot() == StoreSpec.OnTimeout(old(Snapshot()))
    {
      isCalling, isReceivingCall := false, false;
      callType, caller, receiver := None, None, None;
      reason := Some(TIMEOUT);
      role := None;
    }

    /** Handler of `call:unavailable`. */
    method OnUnavailable(why: string)
      modifies this
      ensures Snapshot() == StoreSpec.OnUnavailable(old(Snapshot()), why)
    {
      isCalling, isReceivingCall := false, false;
      isUnavailable := true;
      unavailableReason := Some(why);
      reason := Some(UNAVAILABLE);
    }

    /** `startCall(toUser, callType)`. */
    method StartCall(connected: bool, authUser: Option<Profile>, toUser: Profile, newCallType: string) returns (effect: Effect)
      modifies this
      ensures Acted(Snapshot(), effect) == StoreSpec.StartCall(old(Snapshot()), connected, authUser, toUser, newCallType)
    {
      if !connected {
        return NotSent;
      }
      if authUser.None? {
        return NotSent;
      }
      isCalling := true;
      role := Some(Caller);
      callType := Some(newCallType);
      receiver := Some(Party(toUser.id, Some(toUser.fullName), Some(toUser.profilePic)));
      reason := None;
      effect := Sent(CallRequest(toUser.id, newCallType, authUser.value.fullName, authUser.value.profilePic));
    }

    /** `acceptCall()`. */
    method AcceptCall(connected: bool) returns (effect: Effect)
      modifies this
      ensures Acted(Snapshot(), effect) == StoreSpec.AcceptCall(old(Snapshot()), connected)
    {
      if !connected {
        return NotSent;
      }
      if caller.None? {
        return Threw;
      }
      var c := caller.value;
      if c.id == "" {
        return NotSent;
      }
      isReceivingCall := false;
      isInCall := true;
      receiver := Some(Party(c.id, c.fullName, c.profilePic));
      reason := None;
      effect := Sent(CallAccept(c.id));
    }

    /** `rejectCall()`. */
    method RejectCall(connected: bool) returns (effect: Effect)
      modifies this
      ensures Acted(Snapshot(), effect) == StoreSpec.RejectCall(old(Snapshot()), connected)
    {
      if !connected || caller.None? || caller.value.id == "" {
        return NotSent;
      }
      var c := caller.value;
      isReceivingCall := false;
      callType, caller, receiver := None, None, None;
      reason := Some(DECLINED);
      effect := Sent(CallDecline(c.id));
    }

    /** `endCall()`: the target is chosen before the fields are cleared. */
    method EndCall(connected: bool) returns (effect: Effect)
      modifies this
      ensures Acted(Snapshot(), effect) == StoreSpec.EndCall(old(Snapshot()), connected)
    {
      var toUserId := EndCallTarget(Snapshot());
      isCalling, isReceivingCall, isInCall := false, false, false;
      callType, caller, role, receiver := None, None, None, None;
      webrtcOffer, webrtcAnswer, webrtcIceCandidate := None, None, None;
      reason := None;
      if !connected || toUserId.None? || toUserId.value == "" {
        return NotSent;
      }
      effect := Sent(CallEnd(toUserId.value));
    }

    /** `sendWebRTCOffer`, `sendWebRTCAnswer` and `sendWebRTCIceCandidate`:
        no field changes; the message goes out only when connected. */
    method SendWebRTC(connected: bool, kind: SignalKind, toUserId: UserId, payload: Payload) returns (effect: Effect)
      ensures connected ==> effect == Sent(SignalTo(kind, toUserId, payload))
      ensures !connected ==> effect == NotSent
    {
      effect := NotSent;
      if connected {
        effect := Sent(SignalTo(kind, toUserId, payload));
      }
    }
  }
}
