// The wire vocabulary shared by the call hub (server) and the call store
// (client): the named messages each side emits, with their payload fields.

module Protocol {

  datatype Option<T> = None | Some(value: T)

  /** User identifiers and socket ids are strings on the wire. */
  type UserId = string
  type SocketId = string

  /** An opaque negotiation payload (offer, answer or ICE candidate). */
  type Payload = string

  /** The three relayed negotiation message kinds. */
  datatype SignalKind = Offer | Answer | IceCandidate

  // Reason strings the hub writes into `call:unavailable` and `call:ended`.
  const OFFLINE: string := "offline"
  const BUSY: string := "busy"
  const INVALID: string := "invalid"
  const TIMEOUT: string := "timeout"
  const DISCONNECTED: string := "disconnected"

  /** Messages a client sends to the hub. */
  datatype ClientMsg =
    | GetOnlineUsers
    | CallRequest(toUserId: UserId, callType: string, fullName: string, profilePic: string)
    | CallAccept(fromUserId: UserId)
    | CallDecline(fromUserId: UserId)
    | CallEnd(toUserId: UserId)
    | SignalTo(kind: SignalKind, toUserId: UserId, payload: Payload)

  /** Messages the hub sends to clients. `CallEnded.reason` is absent for a
      voluntary hang-up. */
  datatype ServerMsg =
    | OnlineUsers(users: seq<UserId>)
    | CallRinging(fromUserId: UserId, callType: string, fullName: string, profilePic: string)
    | CallAccepted(byUserId: UserId)
    | CallDeclined(byUserId: UserId)
    | CallEnded(byUserId: UserId, reason: Option<string>)
    | CallUnavailable(why: string)
    | SignalFrom(kind: SignalKind, fromUserId: UserId, payload: Payload)

  /** Where the hub sends a message: every connection, or one socket. */
  datatype Target = Everyone | ToSocket(socket: SocketId)

  datatype Outbound = Outbound(target: Target, msg: ServerMsg)
}
