# Call hub and client call store of a chat application, in Dafny

This project models the real-time calling core of a full-stack chat
application:

- the **call hub** (`backend/src/lib/socket.js`): a Socket.IO connection
  handler that keeps two process-wide dictionaries, `userSocketMap`
  (user id → socket id) and `userCallState` (user id → `"idle"`,
  `"ringing"` or `"in-call"`), and handles connect, `getOnlineUsers`,
  `call:request`, the 30-second ring timeout, `call:accept`,
  `call:decline`, `call:end`, the three `webrtc:*` relays and disconnect;
- the **client call store** (`frontend/src/store/useCallStore.js`): a
  zustand store of call flags and references that reacts to the hub's
  messages and offers the actions `startCall`, `acceptCall`, `rejectCall`,
  `endCall` and `sendWebRTC*`.

Files and modules:

| file | module | contents |
|---|---|---|
| `protocol.dfy` | `Protocol` | the wire vocabulary: client → hub messages, hub → client messages, targets, reason strings |
| `hub_spec.dfy` | `HubSpec` | the hub's state as a value and one transition function per event, each returning the new state, the messages sent (in order) and the ring timer armed |
| `hub_props.dfy` | `HubProperties` | the registry invariant, what a disconnect does, timer interactions, and traces of the as-written behaviour |
| `hub.dfy` | `SocketHub` | class `CallHub`: the two dictionaries as fields updated in place, one method per event proved to perform the `HubSpec` transition; the disconnect `forEach` is a loop |
| `store_spec.dfy` | `StoreSpec` | the store's record as a value; each handler and action as the partial-record update its `set({...})` applies, plus what it emits |
| `store.dfy` | `CallStoreModel` | class `CallStore`: one field per store key, one method per handler and action, proved against `StoreSpec` |
| `store_props.dfy` | `StoreProperties` | hang-up idempotence, remote vs local hang-up, the sticky unavailable flag, the caller's and callee's paths |
| `flow.dfy` | `CallFlow` | hub and two stores together: an answered call and an unanswered ring, message by message |

Nothing runs: each handler's transport call (`socket.emit`, `io.to(id).emit`,
`io.emit`) is an element of the returned `seq<Outbound>`, and the ring timer
is a `Timer` value that the caller of the model fires whenever it likes, so
every interleaving of the timer with other events is covered.

The hub behaves as follows, and the model keeps each of these behaviours
rather than a cleaner design:

- The call state is a bare status with no peer. `call:accept` checks only
  that the acceptor and the named user are both ringing, whoever rang whom
  (`HubProperties.CrossAcceptStrandsRingers`). `call:decline` and
  `call:end` set both named users idle whatever they were doing
  (`HubProperties.DeclineStrandsPeer`).
- The disconnect handler deletes `userSocketMap[userId]` without checking
  that it still points at the closing socket. A stale connection's
  disconnect therefore unregisters a newer connection of the same user and
  deletes its call state. The user's next request to a registered user is
  then refused as busy, until a decline or end that names the user writes a
  fresh `"idle"` entry, or the user reconnects
  (`HubProperties.StaleDisconnectDropsNewerSocket`).
- When the disconnecting user was ringing or in a call, the sweep ends the
  call of every remaining registered user who is ringing or in a call, not
  only the peer's (`HubProperties.DisconnectEndsEveryActiveCall`).
- The busy check compares with `"idle"`, so a user with no call-state entry
  counts as busy.
- The ring request carries `fullName` and `profilePic`, as the code names
  them.
- The store listens for `call:timeout`, but the hub never sends it. The hub
  reports a timeout as `call:ended` with reason `"timeout"`
  (`CallFlow.UnansweredCall`).
- The store's `call:declined` handler clears `receiver` but keeps
  `isInCall`. A user named in a third party's `call:decline` while in a
  call therefore loses its receiver, so its hang-up sends no `call:end`,
  and its peer stays in the call at the hub and in its own store
  (`StoreProperties.DeclinedInCallHangsUpSilently`).
- The ring timer checks only that both users are ringing, not that they
  are still in the ring that armed it. If a ring a→b is declined and a
  rings b again within 30 seconds, the first ring's timer ends the second
  ring early, and both sides are told it timed out
  (`HubProperties.OldTimerEndsNewRing`).

## Model

| member | source | states |
|---|---|---|
| `HubSpec.Connect` | backend/src/lib/socket.js:25-43 | a user id that is missing, empty or `"undefined"` changes nothing and sends nothing; otherwise the socket mapping is overwritten (last write wins), an existing call state survives and a missing one becomes idle, no other user's state changes, and exactly one `onlineUsers` broadcast with the key list goes out |
| `HubSpec.GetOnline` | backend/src/lib/socket.js:45-48 | state unchanged; one `onlineUsers` with the current key list to the asking socket only |
| `HubSpec.Request` | backend/src/lib/socket.js:51-84 | callee without a socket: one `call:unavailable{offline}` to the requester and no change; either party not `"idle"` (absent included): one `call:unavailable{busy}` and no change; otherwise both ringing, every other user unchanged, exactly one `call:ringing{fromUserId: sender}` to the callee's socket, and a timer capturing both sockets is armed |
| `HubSpec.Fire` | backend/src/lib/socket.js:76-84 | unless both parties are still ringing, nothing changes and nothing is sent; otherwise both become idle, others unchanged, and each side receives one `call:ended{reason: timeout}` naming the other party |
| `HubSpec.Accept` | backend/src/lib/socket.js:87-102 | unless acceptor and named caller are both ringing: one `call:unavailable{invalid}` to the acceptor and no change; otherwise both in-call, others unchanged, `call:accepted` to the caller only if it has a socket |
| `HubSpec.Decline` | backend/src/lib/socket.js:104-114 | both named users idle whatever their prior state, others unchanged, registry unchanged, `call:declined` only if the named user has a socket |
| `HubSpec.End` | backend/src/lib/socket.js:116-126 | both named users idle, others unchanged, `call:ended` without a reason only if the target has a socket |
| `HubSpec.Relay` | backend/src/lib/socket.js:129-151 | neither map changes; the payload goes unchanged, stamped with the sender, to the target's socket when registered, and nothing is sent otherwise |
| `HubSpec.Register` | backend/src/lib/socket.js:36-40 | the socket mapping is overwritten, an existing call state is kept and a missing one becomes idle, no other user's call state changes, and the earlier key order is kept as a prefix |
| `HubSpec.SendIfOnline` | backend/src/lib/socket.js:99-101 | exactly one message to a registered user's socket, none to an unregistered one |
| `HubSpec.Without` | backend/src/lib/socket.js:159 | the key list after `delete`: exactly the other keys, still without repetitions |
| `HubSpec.Sweep` | backend/src/lib/socket.js:162-172 | the `forEach` never adds or removes call-state entries |
| `HubSpec.SweepEffect` | backend/src/lib/socket.js:162-172 | over a key list without repetitions, exactly the users ringing or in-call at the start become idle, and each receives one `call:ended{disconnected}`, in key order |
| `HubSpec.Disconnect` | backend/src/lib/socket.js:154-178 | a connection without a user id changes nothing; otherwise the user's socket entry and call-state entry are deleted, the key list loses exactly that user, no other call-state entry is added or removed, no timer is armed, and the last message is the presence broadcast of the new key list (`HubProperties.DisconnectEffect` gives the whole effect) |
| `HubSpec.Handle` | backend/src/lib/socket.js:25-178 | only a connection or a disconnect changes the registry or the key list, and only a call request arms a ring timer (`HubProperties.HandleKeepsInv` gives the invariant it keeps) |
| `HubSpec.ActiveAmong` | backend/src/lib/socket.js:163-166 | the users of a list that are ringing or in-call, each once |
| `HubSpec.Notices` | backend/src/lib/socket.js:167-169 | one disconnect notice per listed user, in order, to that user's socket |
| `HubProperties.HandleKeepsInv` | backend/src/lib/socket.js:22-178 | every event keeps the registry invariant: the key list names each registered user once, and every registered user has a call state |
| `HubProperties.DisconnectKeepsInv` | backend/src/lib/socket.js:154-178 | disconnect keeps the registry invariant |
| `HubProperties.Run` | backend/src/lib/socket.js:25-178 | every state reached from a valid state by any sequence of events satisfies the registry invariant |
| `HubProperties.DisconnectEffect` | backend/src/lib/socket.js:154-178 | disconnect removes the user's socket entry whatever socket it points at, removes its call state, and, if the user was ringing or in-call, sets every other registered ringing or in-call user idle and notifies each once in key order before the presence broadcast; nothing else changes |
| `HubProperties.ActiveAmongOnly` | backend/src/lib/socket.js:162-172 | when exactly one listed user is active, the sweep's filter yields just that user |
| `HubProperties.NoneActive` | backend/src/lib/socket.js:162-172 | when no listed user is active, the sweep's filter is empty |
| `HubProperties.DisconnectPropagation` | backend/src/lib/socket.js:154-178 | in a two-party call, the peer of the disconnecting user becomes idle and receives exactly one `call:ended{byUserId: that user, reason: disconnected}`, followed only by the presence broadcast |
| `HubProperties.DisconnectEndsEveryActiveCall` | backend/src/lib/socket.js:161-172 | any other registered ringing or in-call user, in a call with anyone, is set idle and notified when an active user disconnects |
| `HubProperties.StaleDisconnectDropsNewerSocket` | backend/src/lib/socket.js:154-175 | after connecting on `s1` and then `s2`, the disconnect of `s1` leaves the user unregistered and with no call state, and a request from the open `s2` to any registered user is refused as busy |
| `HubProperties.RequestThenTimeout` | backend/src/lib/socket.js:65-84 | a request that rings followed by its timer restores the state exactly and sends exactly one timeout notice to each side, naming the other |
| `HubProperties.OldTimerEndsNewRing` | backend/src/lib/socket.js:76-84 | after a ring a→b, b's decline and a new ring a→b, the first ring's timer sets both idle and sends each side a timeout notice naming the other |
| `HubProperties.AnswerDisarmsTimer` | backend/src/lib/socket.js:76-126 | after a decline or end naming either party of a ring, or a successful accept by either, the ring timer changes nothing and sends nothing |
| `HubProperties.CrossAcceptStrandsRingers` | backend/src/lib/socket.js:87-101 | with rings a→b and c→d, b accepting c succeeds; after both timers fire, a and d are still ringing and a's new request is refused as busy |
| `HubProperties.DeclineStrandsPeer` | backend/src/lib/socket.js:104-114 | while a and b are in a call, a third user declining "a" leaves b the only user in a call |
| `SocketHub.CallHub.constructor` | backend/src/lib/socket.js:22-23 | both dictionaries start empty |
| `SocketHub.CallHub.ReceiverSocketId` | backend/src/lib/socket.js:17-20 | a user's socket id exactly when the user is registered |
| `SocketHub.CallHub.Connect` | backend/src/lib/socket.js:25-43 | accepts exactly the acceptable user ids and performs `HubSpec.Connect` on the fields, keeping the invariant |
| `SocketHub.CallHub.GetOnlineUsers` | backend/src/lib/socket.js:45-48 | sends the current key list to the asking socket and changes nothing |
| `SocketHub.CallHub.Request` | backend/src/lib/socket.js:51-75 | performs `HubSpec.Request` on the fields and returns the armed timer |
| `SocketHub.CallHub.TimeoutFire` | backend/src/lib/socket.js:76-84 | performs `HubSpec.Fire` on the fields |
| `SocketHub.CallHub.Accept` | backend/src/lib/socket.js:87-102 | performs `HubSpec.Accept` on the fields |
| `SocketHub.CallHub.Decline` | backend/src/lib/socket.js:104-114 | performs `HubSpec.Decline` on the fields |
| `SocketHub.CallHub.End` | backend/src/lib/socket.js:116-126 | performs `HubSpec.End` on the fields |
| `SocketHub.CallHub.Relay` | backend/src/lib/socket.js:129-151 | changes nothing; forwards the payload stamped with the sender to a registered target's socket, and sends nothing for an unregistered one |
| `SocketHub.CallHub.Disconnect` | backend/src/lib/socket.js:154-178 | performs `HubSpec.Disconnect` on the fields, keeping the invariant |
| `SocketHub.CallHub.EndActiveCalls` | backend/src/lib/socket.js:162-172 | the in-place `forEach` loop computes exactly `HubSpec.Sweep` over the key list |
| `StoreSpec.Cleared` | frontend/src/store/useCallStore.js:301-313 | all call flags down, every call reference, the role and the negotiation fields cleared, reason null, unavailable fields kept |
| `StoreSpec.OnRinging` | frontend/src/store/useCallStore.js:74-93 | isReceivingCall, role callee, callType, caller `{fromUserId, fullName, profilePic}`, receiver `{authUserId}`, reason null; every other field (isCalling, isInCall included) unchanged |
| `StoreSpec.OnAccepted` | frontend/src/store/useCallStore.js:95-103 | isCalling false, isInCall true, receiver `{byUserId}`, reason null, nothing else changes |
| `StoreSpec.OnDeclined` | frontend/src/store/useCallStore.js:105-116 | ring flags down, callType, caller, receiver and role cleared, reason "declined"; isInCall and the negotiation fields unchanged |
| `StoreSpec.OnEnded` | frontend/src/store/useCallStore.js:118-138 | no call left (role and negotiation fields included) and the message's reason stored; unavailable fields kept |
| `StoreSpec.OnOffer` | frontend/src/store/useCallStore.js:140-146 | the offer is stored with its sender, the sender becomes the receiver, nothing else changes |
| `StoreSpec.OnAnswer` | frontend/src/store/useCallStore.js:148-151 | only the answer field changes |
| `StoreSpec.OnIceCandidate` | frontend/src/store/useCallStore.js:153-156 | only the latest-candidate field changes |
| `StoreSpec.OnTimeout` | frontend/src/store/useCallStore.js:158-169 | ring flags down, references and role cleared, reason "timeout"; every other field (isInCall, the negotiation fields and the unavailable fields) unchanged |
| `StoreSpec.OnUnavailable` | frontend/src/store/useCallStore.js:171-180 | isCalling and isReceivingCall false, isUnavailable true, unavailableReason the message's reason, reason "unavailable"; isInCall and all else unchanged |
| `StoreSpec.Receive` | frontend/src/store/useCallStore.js:74-180 | each hub message goes to its handler: only `call:accepted` puts the store into a call, only `call:unavailable` touches the unavailable fields, nothing lowers `isUnavailable`, and `onlineUsers` changes nothing |
| `StoreSpec.StartCall` | frontend/src/store/useCallStore.js:192-230 | without a connected socket or a signed-in user nothing changes and nothing is sent; otherwise isCalling, role caller, callType and receiver set, nothing else changed, and exactly one `call:request` to `toUser._id` with the user's name and picture |
| `StoreSpec.AcceptCall` | frontend/src/store/useCallStore.js:232-252 | without a socket nothing happens; with one but no caller the action throws and nothing changes; an empty caller id refuses; otherwise isReceivingCall false, isInCall true, receiver a copy of caller, and one `call:accept{fromUserId: caller._id}` |
| `StoreSpec.RejectCall` | frontend/src/store/useCallStore.js:254-272 | refused without a socket or caller id; otherwise ring cleared, reason "declined", role kept, and one `call:decline{fromUserId: caller._id}` |
| `StoreSpec.EndCallTarget` | frontend/src/store/useCallStore.js:277-282 | the receiver's id while calling or in a call, and none there when the receiver is null; else the caller's id while being rung, and none when the caller is null; no target when no call is in progress |
| `StoreSpec.EndCall` | frontend/src/store/useCallStore.js:274-315 | always reaches `Cleared`; `call:end` to the target is sent exactly when connected with a non-empty target; never throws |
| `StoreProperties.UnavailableNeverResets` | frontend/src/store/useCallStore.js:171-180 | once isUnavailable is true, no sequence of hub messages or actions makes it false again |
| `StoreProperties.EndCallIdempotent` | frontend/src/store/useCallStore.js:274-315 | a second `endCall` changes nothing and sends nothing |
| `StoreProperties.RemoteHangupMatchesLocal` | frontend/src/store/useCallStore.js:118-138 | `call:ended` without a reason leaves the same store as a local `endCall` |
| `StoreProperties.DeclinedInCallHangsUpSilently` | frontend/src/store/useCallStore.js:105-116 | after `call:declined` in a call the store is still in the call with no receiver, and `endCall` clears it and sends nothing |
| `StoreProperties.CallerPath` | frontend/src/store/useCallStore.js:192-230 | from no call, `startCall` sends the request; after `call:accepted` the store is in the call as caller, and `endCall` notifies exactly the callee |
| `StoreProperties.CalleePath` | frontend/src/store/useCallStore.js:232-272 | after `call:ringing` from X, `acceptCall` sends `call:accept{X}` and a later `endCall` notifies X; `rejectCall` sends `call:decline{X}` and keeps the callee role |
| `CallStoreModel.CallStore.constructor` | frontend/src/store/useCallStore.js:6-19 | the initial store: three call flags false, every reference field null, no call in progress |
| `CallStoreModel.CallStore.OnRinging` | frontend/src/store/useCallStore.js:74-93 | updates the fields as `StoreSpec.OnRinging` |
| `CallStoreModel.CallStore.OnAccepted` | frontend/src/store/useCallStore.js:95-103 | updates the fields as `StoreSpec.OnAccepted` |
| `CallStoreModel.CallStore.OnDeclined` | frontend/src/store/useCallStore.js:105-116 | updates the fields as `StoreSpec.OnDeclined` |
| `CallStoreModel.CallStore.OnEnded` | frontend/src/store/useCallStore.js:118-138 | updates the fields as `StoreSpec.OnEnded` |
| `CallStoreModel.CallStore.OnOffer` | frontend/src/store/useCallStore.js:140-146 | updates the fields as `StoreSpec.OnOffer` |
| `CallStoreModel.CallStore.OnAnswer` | frontend/src/store/useCallStore.js:148-151 | updates the fields as `StoreSpec.OnAnswer` |
| `CallStoreModel.CallStore.OnIceCandidate` | frontend/src/store/useCallStore.js:153-156 | updates the fields as `StoreSpec.OnIceCandidate` |
| `CallStoreModel.CallStore.OnTimeout` | frontend/src/store/useCallStore.js:158-169 | updates the fields as `StoreSpec.OnTimeout` |
| `CallStoreModel.CallStore.OnUnavailable` | frontend/src/store/useCallStore.js:171-180 | updates the fields as `StoreSpec.OnUnavailable` |
| `CallStoreModel.CallStore.StartCall` | frontend/src/store/useCallStore.js:192-230 | updates the fields and emits as `StoreSpec.StartCall` |
| `CallStoreModel.CallStore.AcceptCall` | frontend/src/store/useCallStore.js:232-252 | updates the fields and emits as `StoreSpec.AcceptCall` |
| `CallStoreModel.CallStore.RejectCall` | frontend/src/store/useCallStore.js:254-272 | updates the fields and emits as `StoreSpec.RejectCall` |
| `CallStoreModel.CallStore.EndCall` | frontend/src/store/useCallStore.js:274-315 | updates the fields and emits as `StoreSpec.EndCall`, choosing the target before clearing |
| `CallStoreModel.CallStore.SendWebRTC` | frontend/src/store/useCallStore.js:317-348 | changes no field; emits the offer, answer or candidate to `toUserId` exactly when connected |
| `CallFlow.AnsweredCall` | backend/src/lib/socket.js:51-101 | the caller's request rings the callee's socket, the callee's store accepts naming the caller, the hub puts both in a call and tells the caller, whose store is then in the call with the callee; the ring timer is then a no-op |
| `CallFlow.UnansweredCall` | backend/src/lib/socket.js:76-84 | when a ring times out, both stores receive `call:ended{timeout}` and end with no call and reason "timeout" |

## Left out

- Express, HTTP and Socket.IO server construction and CORS settings
  (`socket.js` lines 1-15) and the transport itself: emits are returned
  message lists, and a refused connection's forced close is the
  `accepted = false` result of `Connect`.
- Wall-clock time: `setTimeout` is an explicit `Timer` value fired by the
  caller of the model at any point, not after 30 seconds.
- Logging (`console.*`) and toasts: they have no effect on state or messages.
- The store's `initializeCallSocket` retry loop and `setSocket`: socket
  wiring with timer retries. Each action takes the socket's connectivity as
  the `connected` parameter, and each handler takes the `authUserId` the
  listeners were installed for.
- `null` and `undefined` in the store are both `None`; `call:ended` without
  a reason stores `undefined`, modelled as `None`.
- Inbound payload fields are always strings; a missing `toUserId`, which
  JavaScript would turn into the key `"undefined"`, is not modelled.
- `Object.keys` lists integer-like keys first; user ids are 24-digit hex
  object ids, never integer-like, so the model keeps plain insertion order.
- `CallModal.jsx` (media capture, peer connection, ringtone, drag and resize),
  authentication, user storage, pages and other stores are not part of this
  model.
- Running several hub processes side by side.
- The hub tests whether a looked-up socket id is truthy; the model tests
  whether the user has an entry. The two agree because Socket.IO never
  issues an empty socket id.
- User ids that name `Object.prototype` members (`"constructor"`,
  `"__proto__"`, `"toString"` and the like): both dictionaries are plain
  `{}` objects, so such an id finds an inherited value instead of an
  absent entry. A request to `"constructor"` would be refused as busy, not
  offline. A connection as `"constructor"` gets no call state, and one as
  `"__proto__"` is never registered. The model's maps have no inherited
  keys. Ids are the application's object ids, which never take these
  names.
