// The call hub of backend/src/lib/socket.js as the object it is: the two
// module-level dictionaries become fields that every handler updates in
// place, and each handler is a method proved to perform the transition
// HubSpec gives for its event. The transport is replaced by the returned
// list of outbound messages.

module SocketHub {
  import opened Protocol
  import opened HubSpec
  import HubProperties

  class CallHub {
    /** `userSocketMap`: user id to the socket id it is routed to. */
    var userSocketMap: map<UserId, SocketId>
    /** `Object.keys(userSocketMap)`, in insertion order. */
    var onlineOrder: seq<UserId>
    /** `userCallState`: user id to its call status. */
    var userCallState: map<UserId, CallStatus>

    function State(): HubState
      reads this
    {
      HubState(userSocketMap, onlineOrder, userCallState)
    }

    ghost predicate Valid()
      reads this
    {
      Inv(State())
    }

    constructor ()
      ensures Valid() && State() == Empty
    {
      userSocketMap := map[];
      onlineOrder := [];
      userCallState := map[];
    }

    /** `getReceiverSocketId`. */
    function ReceiverSocketId(u: UserId): (r: Option<SocketId>)
      reads this
      ensures r.Some? <==> u in userSocketMap
      ensures r.Some? ==> r.value == userSocketMap[u]
    {
      if u in userSocketMap then Some(userSocketMap[u]) else None
    }

    /** `io.on("connection")`: refuses a bad user id, otherwise registers
        the socket (last write wins) and broadcasts presence. */
    method Connect(sid: SocketId, query: Option<string>) returns (accepted: bool, out: seq<Outbound>)
      requires Valid()
      modifies this
      ensures Valid()
      ensures accepted == AcceptableUserId(query)
      ensures Step(State(), out, None) == HubSpec.Connect(old(State()), sid, query)
    {
      if query.None? || query.value == "" || query.value == "undefined" {
        return false, [];
      }
      var u := query.value;
      HubProperties.HandleKeepsInv(State(), Connected(sid, query));
      if u !in userSocketMap {
        onlineOrder := onlineOrder + [u];
      }
      userSocketMap := userSocketMap[u := sid];
      if u !in userCallState {
        userCallState := userCallState[u := Idle];
      }
      accepted, out := true, [Outbound(Everyone, OnlineUsers(onlineOrder))];
    }

    /** `getOnlineUsers`: the current key list, to the asking socket. */
    method GetOnlineUsers(me: Conn) returns (out: seq<Outbound>)
      ensures out == [Outbound(ToSocket(me.socket), OnlineUsers(onlineOrder))]
    {
      out := [Outbound(ToSocket(me.socket), OnlineUsers(onlineOrder))];
    }

    /** `call:request`; also returns the ring timer it arms. */
    method Request(me: Conn, toUserId: UserId, callType: string, fullName: string, profilePic: string)
      returns (out: seq<Outbound>, timer: Option<Timer>)
      requires Valid()
      modifies this
      ensures Valid()
      ensures Step(State(), out, timer) == HubSpec.Request(old(State()), me, toUserId, callType, fullName, profilePic)
    {
      var toSocketId := ReceiverSocketId(toUserId);
      if toSocketId.None? {
        return [Outbound(ToSocket(me.socket), CallUnavailable(OFFLINE))], None;
      }
      if !StatusIs(userCallState, toUserId, Idle) || !StatusIs(userCallState, me.userId, Idle) {
        return [Outbound(ToSocket(me.socket), CallUnavailable(BUSY))], None;
      }
      userCallState := userCallState[me.userId := Ringing];
      userCallState := userCallState[toUserId := Ringing];
      out := [Outbound(ToSocket(toSocketId.value), CallRinging(me.userId, callType, fullName, profilePic))];
      timer := Some(Timer(me.socket, me.userId, toUserId, toSocketId.value));
    }

    /** The ring timer's callback, run when the timer fires. */
    method TimeoutFire(t: Timer) returns (out: seq<Outbound>)
      requires Valid()
      modifies this
      ensures Valid()
      ensures Step(State(), out, None) == HubSpec.Fire(old(State()), t)
    {
      out := [];
      if StatusIs(userCallState, t.caller, Ringing) && StatusIs(userCallState, t.callee, Ringing) {
        userCallState := userCallState[t.caller := Idle];
        userCallState := userCallState[t.callee := Idle];
        out := [Outbound(ToSocket(t.callerSocket), CallEnded(t.callee, Some(TIMEOUT))),
                Outbound(ToSocket(t.calleeSocket), CallEnded(t.caller, Some(TIMEOUT)))];
      }
    }

    /** `call:accept`. */
    method Accept(me: Conn, fromUserId: UserId) returns (out: seq<Outbound>)
      requires Valid()
      modifies this
      ensures Valid()
      ensures Step(State(), out, None) == HubSpec.Accept(old(State()), me, fromUserId)
    {
      var fromSocketId := ReceiverSocketId(fromUserId);
      if !StatusIs(userCallState, me.userId, Ringing) || !StatusIs(userCallState, fromUserId, Ringing) {
        return [Outbound(ToSocket(me.socket), CallUnavailable(INVALID))];
      }
      userCallState := userCallState[me.userId := InCall];
      userCallState := userCallState[fromUserId := InCall];
      out := [];
      if fromSocketId.Some? {
        out := [Outbound(ToSocket(fromSocketId.value), CallAccepted(me.userId))];
      }
    }

    /** `call:decline`. */
    method Decline(me: Conn, fromUserId: UserId) returns (out: seq<Outbound>)
      requires Valid()
      modifies this
      ensures Valid()
      ensures Step(State(), out, None) == HubSpec.Decline(old(State()), me, fromUserId)
    {
      var fromSocketId := ReceiverSocketId(fromUserId);
      userCallState := userCallState[me.userId := Idle];
      userCallState := userCallState[fromUserId := Idle];
      out := [];
      if fromSocketId.Some? {
        out := [Outbound(ToSocket(fromSocketId.value), CallDeclined(me.userId))];
      }
    }

    /** `call:end`. */
    method End(me: Conn, toUserId: UserId) returns (out: seq<Outbound>)
      requires Valid()
      modifies this
      ensures Valid()
      ensures Step(State(), out, None) == HubSpec.End(old(State()), me, toUserId)
    {
      var toSocketId := ReceiverSocketId(toUserId);
      userCallState := userCallState[me.userId := Idle];
      userCallState := userCallState[toUserId := Idle];
      out := [];
      if toSocketId.Some? {
        out := [Outbound(ToSocket(toSocketId.value), CallEnded(me.userId, None))];
      }
    }

    /** `webrtc:offer`, `webrtc:answer` and `webrtc:ice-candidate`: the
        payload goes unchanged to the target's socket, stamped with the
        sender, and is dropped when the target is not registered. */
    method Relay(me: Conn, kind: SignalKind, toUserId: UserId, payload: Payload) returns (out: seq<Outbound>)
      ensures toUserId in userSocketMap ==>
        out == [Outbound(ToSocket(userSocketMap[toUserId]), SignalFrom(kind, me.userId, payload))]
      ensures toUserId !in userSocketMap ==> out == []
    {
      var toSocketId := ReceiverSocketId(toUserId);
      out := [];
      if toSocketId.Some? {
        out := [Outbound(ToSocket(toSocketId.value), SignalFrom(kind, me.userId, payload))];
      }
    }

    /** `disconnect`: deletes the user's socket entry, ends every active
        call of the remaining registered users if the user was ringing or
        in-call (the `forEach` over the key list), deletes the user's call
        state and broadcasts presence. */
    method Disconnect(me: Conn) returns (out: seq<Outbound>)
      requires Valid()
      modifies this
      ensures Valid()
      ensures Step(State(), out, None) == HubSpec.Disconnect(old(State()), me)
    {
      if me.userId == "" {
        return [];
      }
      HubProperties.DisconnectKeepsInv(State(), me);
      var u := me.userId;
      userSocketMap := userSocketMap - {u};
      onlineOrder := Without(onlineOrder, u);
      out := [];
      if Active(userCallState, u) {
        out := EndActiveCalls(u);
      }
      userCallState := userCallState - {u};
      out := out + [Outbound(Everyone, OnlineUsers(onlineOrder))];
    }

    /** The `forEach` of the disconnect handler: every registered user who
        is ringing or in-call, in key order, is sent a `call:ended` naming
        `u` with reason "disconnected" and set idle. */
    method EndActiveCalls(u: UserId) returns (out: seq<Outbound>)
      requires forall o :: o in onlineOrder ==> o in userSocketMap
      modifies this`userCallState
      ensures Swept(userCallState, out) == Sweep(old(userCallState), userSocketMap, onlineOrder, u)
    {
      var keys := onlineOrder;
      out := [];
      var i := 0;
      while i < |keys|
        invariant 0 <= i <= |keys|
        invariant Swept(userCallState, out) == Sweep(old(userCallState), userSocketMap, keys[..i], u)
      {
        var other := keys[i];
        assert keys[..i + 1] == keys[..i] + [other];
        if Active(userCallState, other) {
          out := out + [Outbound(ToSocket(userSocketMap[other]), CallEnded(u, Some(DISCONNECTED)))];
          userCallState := userCallState[other := Idle];
        }
        i := i + 1;
      }
      assert keys[..i] == keys;
    }
  }
}
