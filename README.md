# Matrix web client event handler service, in Dafny

This project models `eventHandlerService`, the part of the Matrix web client
that merges incoming events into the client's per-room view. An event arrives
with two flags: `isLiveEvent` (it comes from the live stream) and
`isStateEvent` (it is a current-state snapshot from initial sync). The service:

- drops non-state events whose id it has already seen (the `eventMap` dedup map);
- routes the event by type: any `m.call.*` type goes to the call policy,
  otherwise an exact-match table decides, and unknown types are dropped;
- updates the room store `$rootScope.events.rooms` with that type's policy:
  - messages are appended when live and prepended when backfilled;
  - the live echo of the user's own text replaces its optimistic copy;
  - membership changes go to the timeline and to `members`;
  - power levels: the first value or a live value wins;
  - name: always overwrites;
  - topic: gated by timestamp for non-live events;
  - call invites are appended to the timeline;
  - presence is keyed by user;
- broadcasts a category (`MSG_EVENT`, `MEMBER_EVENT`, ...).

It also provides batch processing, history pages that move the pagination
cursor, a timeline reset, and a one-shot initial-sync gate.

## Layout

- `events.dfy` (module `Events`): the event, room and store values, the
  broadcast categories, and the routing table `Route`.
- `reconcile.dfy` (module `Reconcile`): every policy as a function from the
  store before an event to the store after it. It also holds `Handle`
  (one event), `HandleAll` (a batch) and `HandlePage` (a history page).
- `gate.dfy` (module `SyncGate`): the one-shot gate.
- `service.dfy` (module `Service`): class `EventHandlerService`. Its fields
  are the service's mutable state: `rooms`, `seen`, `presence`, the broadcast
  `log`, the alias-collaborator calls, and `syncPayload`. Each method updates
  these fields in place, the way the source does. Each method is proved to
  produce exactly the state that the matching `Reconcile` function computes.
  `GetRoomEventIndex` and `HandleEvents` keep the source's loops.
- `properties.dfy` (module `Properties`): lemmas that hold across events.
  They cover deduplication, replay idempotence, the two growth directions of a
  timeline, echo replacement, and the latest-wins rules.

Modelling choices:

- The local user id (`matrixService.config().user_id`) is a constructor
  parameter of the class.
- Each `$broadcast` is recorded as an entry appended to `log`.
- Each call to `matrixService.createRoomIdToAliasMapping` is recorded as an
  entry in `aliasRequests`. The call has no other effect.
- An absent `event_id` is `None`. Its dedup key is "undefined", which is the
  name JavaScript gives the property `eventMap[undefined]`. An absent or empty
  id is never treated as a duplicate.

In two places the source throws a `TypeError`, also when they are reached
inside a batch:

- pushing a call invite onto a room that does not exist (line 212);
- setting the cursor of a room that does not exist in `handleRoomMessages`
  (line 323).

The model treats each of these as an error outcome (`ok == false`), not as a
precondition. The state keeps whatever changed before the throw: the dedup
entry, and for a call the `CALL_EVENT` broadcast. The rest of the batch is
skipped, as the exception would skip it.

The model keeps these quirks of the source:

- `getRoomEventIndex` never looks at index 0. So an echo whose optimistic copy
  is the room's first entry is appended, not replaced
  (`Properties.EchoAtHeadIsDuplicated`).
- The timeline test for membership compares `content.prev` with
  `content.membership`. It does not look at `prev_content`.
- Only a join→join is discarded as a no-op. Any other repeated membership is
  processed.
- A backfilled topic with a timestamp equal to the stored one overwrites it.
  Only a strictly newer stored topic is kept.
- The two cases above where the source throws: the `TypeError` leaves
  `handleEvent` and ends the batch.

## Model

| member | source | states |
|---|---|---|
| `Events.Route` | webclient/components/matrix/event-handler-service.js:268-305 | A type with prefix "m.call." goes to the call policy. Otherwise the five power-level types share one policy, each other known type has its own, and every other type is unhandled. |
| `Reconcile.InitRoom` | webclient/components/matrix/event-handler-service.js:53-65 | After the call the room exists. A room that already existed and all other rooms are unchanged. A new room has an empty timeline, no members, no metadata and cursor "END". |
| `Reconcile.ResetMessages` | webclient/components/matrix/event-handler-service.js:67-71 | A known room's timeline becomes empty; its members, cursor and metadata stay. No room is created or removed. |
| `Reconcile.Notify` | webclient/components/matrix/event-handler-service.js:77 | One `$broadcast(category, event, isLive[, isState])`: the log becomes the old log followed by exactly that notification; rooms, dedup set, presence and alias requests are unchanged. |
| `Reconcile.Insert` | webclient/components/matrix/event-handler-service.js:132-137 | The timeline grows by exactly one. A live event is last, after the old entries in order. A backfilled event is first, before them. |
| `Reconcile.EchoIndex` | webclient/components/matrix/event-handler-service.js:222-238 | Returns the highest index ≥ 1 whose entry has the id, or none exactly when no index ≥ 1 has it. |
| `Reconcile.OnRoomCreate` | webclient/components/matrix/event-handler-service.js:73-78 | Only the room is created (if new). One ROOM_CREATE_EVENT is logged. |
| `Reconcile.OnRoomAliases` | webclient/components/matrix/event-handler-service.js:80-82 | No room, dedup, presence or log change. One alias request (room, first alias or none) is recorded. |
| `Reconcile.OnMessage` | webclient/components/matrix/event-handler-service.js:84-114 | Backfill is prepended. A live event that is not the user's own text echo is appended. An own echo replaces the entry at `EchoIndex` (same length), or is appended when there is none. Members, cursor and metadata are kept. One MSG_EVENT is logged. |
| `Reconcile.OnRoomMember` | webclient/components/matrix/event-handler-service.js:116-147 | A join→join with `prev_content` only creates the room. Otherwise the event is inserted in the timeline iff `content.prev != content.membership` and it is not a state event. `members[state_key]` is set iff the event is state or live. One MEMBER_EVENT carrying the state flag is logged. |
| `Reconcile.OnPresence` | webclient/components/matrix/event-handler-service.js:149-152 | `presence[content.user_id]` becomes the event and other users are kept. Rooms are untouched. One PRESENCE_EVENT is logged. |
| `Reconcile.OnPowerLevels` | webclient/components/matrix/event-handler-service.js:154-162 | The slot for the event's type is replaced and POWERLEVEL_EVENT is logged iff the slot is empty or the event is live. Otherwise the room and the log are unchanged. |
| `Reconcile.OnRoomName` | webclient/components/matrix/event-handler-service.js:164-171 | The name slot always becomes the event and the rest of the room is kept. One NAME_EVENT is logged. |
| `Reconcile.OnRoomTopic` | webclient/components/matrix/event-handler-service.js:174-207 | The event enters the timeline iff it is not a state event (appended when live, prepended when not). The slot is replaced unless the event is non-live and the stored topic's ts is strictly greater. TOPIC_EVENT is always logged. |
| `Reconcile.OnCall` | webclient/components/matrix/event-handler-service.js:209-214 | CALL_EVENT is logged first. An invite is appended to an existing room's timeline. The outcome fails iff it is an invite for an unknown room. No room is created. |
| `Reconcile.Dispatch` | webclient/components/matrix/event-handler-service.js:268-306 | Routing never changes the dedup set and never removes rooms or log entries. It fails only for a call invite to an unknown room. Unknown types change nothing. |
| `Reconcile.Handle` | webclient/components/matrix/event-handler-service.js:250-307 | A non-state duplicate leaves everything unchanged. Any other non-state event adds its id key to `seen` before routing. State events leave `seen` as it is. |
| `Reconcile.HandleAll` | webclient/components/matrix/event-handler-service.js:311-315 | A batch only grows the set of rooms, the dedup set and the log (as a prefix). A state batch leaves `seen` unchanged. |
| `Reconcile.HandlePage` | webclient/components/matrix/event-handler-service.js:318-324 | Handles the chunk as non-state events. It succeeds iff the chunk completed and the room exists. Then the room's cursor is `end` and everything else is as the chunk left it. On failure the store is as the chunk left it. |
| `Reconcile.HandleAllAppend` | webclient/components/matrix/event-handler-service.js:311-315 | Processing `a + b` is processing `a` and then, unless that failed, `b` from the resulting state. |
| `SyncGate.Resolve` | webclient/components/matrix/event-handler-service.js:326-329 | After a resolve the gate is settled. A pending gate takes the payload; a settled gate keeps its own. |
| `SyncGate.SettledGateIsStable` | webclient/components/matrix/event-handler-service.js:326-329 | Once settled, the gate keeps its payload through any number of later resolves. |
| `SyncGate.FirstResolutionWins` | webclient/components/matrix/event-handler-service.js:326-334 | Resolving a fresh gate several times yields the first payload. |
| `Service.EventHandlerService.constructor` | webclient/components/matrix/event-handler-service.js:40-51 | The service starts with no rooms, an empty dedup set, no presence, an empty log and a pending gate. |
| `Service.EventHandlerService.InitRoom` | webclient/components/matrix/event-handler-service.js:53-65 | `rooms` becomes `Reconcile.InitRoom` of the old rooms. Every other field is unchanged. |
| `Service.EventHandlerService.ResetRoomMessages` | webclient/components/matrix/event-handler-service.js:67-71 | `rooms` becomes `Reconcile.ResetMessages` of the old rooms. Every other field is unchanged. |
| `Service.EventHandlerService.Broadcast` | webclient/components/matrix/event-handler-service.js:77 | The new state is `Reconcile.Notify` of the old state: one notification appended to the log, the gate unchanged. |
| `Service.EventHandlerService.HandleRoomCreate` | webclient/components/matrix/event-handler-service.js:73-78 | The new state is `Reconcile.OnRoomCreate` of the old state. |
| `Service.EventHandlerService.HandleRoomAliases` | webclient/components/matrix/event-handler-service.js:80-82 | The new state is `Reconcile.OnRoomAliases` of the old state. |
| `Service.EventHandlerService.GetRoomEventIndex` | webclient/components/matrix/event-handler-service.js:222-238 | Returns none for an unknown room. Otherwise it returns the highest index ≥ 1 holding the id (no later index holds it), or none exactly when no index ≥ 1 holds it. The result equals `Reconcile.EchoIndex`. |
| `Service.EventHandlerService.HandleMessage` | webclient/components/matrix/event-handler-service.js:84-114 | The new state is `Reconcile.OnMessage` of the old state. |
| `Service.EventHandlerService.HandleRoomMember` | webclient/components/matrix/event-handler-service.js:116-147 | The new state is `Reconcile.OnRoomMember` of the old state. |
| `Service.EventHandlerService.HandlePresence` | webclient/components/matrix/event-handler-service.js:149-152 | The new state is `Reconcile.OnPresence` of the old state. |
| `Service.EventHandlerService.HandlePowerLevels` | webclient/components/matrix/event-handler-service.js:154-162 | The new state is `Reconcile.OnPowerLevels` of the old state. |
| `Service.EventHandlerService.HandleRoomName` | webclient/components/matrix/event-handler-service.js:164-171 | The new state is `Reconcile.OnRoomName` of the old state. |
| `Service.EventHandlerService.HandleRoomTopic` | webclient/components/matrix/event-handler-service.js:174-207 | The new state is `Reconcile.OnRoomTopic` of the old state. |
| `Service.EventHandlerService.HandleCallEvent` | webclient/components/matrix/event-handler-service.js:209-214 | The new state and `ok` are `Reconcile.OnCall` of the old state. |
| `Service.EventHandlerService.HandleEvent` | webclient/components/matrix/event-handler-service.js:250-307 | The new state and `ok` are `Reconcile.Handle` of the old state. The gate is unchanged. |
| `Service.EventHandlerService.Dispatch` | webclient/components/matrix/event-handler-service.js:268-306 | The new state and `ok` are `Reconcile.Dispatch` of the old state. |
| `Service.EventHandlerService.HandleEvents` | webclient/components/matrix/event-handler-service.js:311-315 | The loop leaves the state and `ok` that `Reconcile.HandleAll` gives for the whole batch, stopping at the first failure. |
| `Service.EventHandlerService.HandleRoomMessages` | webclient/components/matrix/event-handler-service.js:318-324 | The new state and `ok` are `Reconcile.HandlePage` of the old state. |
| `Service.EventHandlerService.HandleInitialSyncDone` | webclient/components/matrix/event-handler-service.js:326-329 | The gate becomes `SyncGate.Resolve` of the old gate. The store is unchanged. |
| `Service.EventHandlerService.WaitForInitialSyncCompletion` | webclient/components/matrix/event-handler-service.js:332-334 | Returns the gate's payload: `None` while pending, the first resolution's payload once settled — also for a reader that comes after the resolution. |
| `Properties.DuplicateDeliveryIsIgnored` | webclient/components/matrix/event-handler-service.js:258-266 | Delivering a non-state event with a non-empty id a second time returns the state of the first delivery and logs nothing more. |
| `Properties.BatchRecordsIds` | webclient/components/matrix/event-handler-service.js:258-266 | After a completed non-state batch of identified events, every id of the batch is in `seen`. |
| `Properties.RecordedBatchIsDiscarded` | webclient/components/matrix/event-handler-service.js:258-266 | A non-state batch whose ids are all in `seen` leaves the store unchanged. |
| `Properties.ReplayedBatchIsIdempotent` | webclient/components/matrix/event-handler-service.js:311-315 | Replaying a completed batch of identified non-state events changes nothing. |
| `Properties.StateEventsIgnoreSeen` | webclient/components/matrix/event-handler-service.js:258 | What a state event does is independent of the dedup set, and it leaves that set as it was. |
| `Properties.UnknownTypeIsOnlyRecorded` | webclient/components/matrix/event-handler-service.js:301-304 | An unknown type changes nothing except that a non-duplicate non-state id is recorded first. |
| `Properties.BackfillPrependsReversed` | webclient/components/matrix/event-handler-service.js:104-106 | A backfilled batch of new messages for a room ends up reversed in front of the old timeline. |
| `Properties.LiveMessageIsAppended` | webclient/components/matrix/event-handler-service.js:100-102 | One new live message that is not an own text echo, for a known room, succeeds and is appended at the end of that room's timeline. |
| `Properties.LiveAppendsInOrder` | webclient/components/matrix/event-handler-service.js:100-102 | A live batch of new messages that are not own text echoes ends up in order after the old timeline. |
| `Properties.BackfillPageOrdersTimeline` | webclient/components/matrix/event-handler-service.js:318-324 | A timeline `[m]` followed by a history page `[b, a]` reads `[a, b, m]`, and the cursor becomes the page's end. |
| `Properties.EchoReplacesInPlace` | webclient/components/matrix/event-handler-service.js:88-95 | A live own echo whose id is last held at index i ≥ 1 overwrites index i. The length and every other index stay. |
| `Properties.EchoAtHeadIsDuplicated` | webclient/components/matrix/event-handler-service.js:229 | When the only copy is at index 0, the echo is appended and the timeline holds the id twice. |
| `Properties.NoOpRejoinIsSuppressed` | webclient/components/matrix/event-handler-service.js:119-125 | A join→join leaves only the lazily created room: no timeline entry, no member change, no broadcast. |
| `Properties.BackfilledMembershipKeepsMembers` | webclient/components/matrix/event-handler-service.js:140-144 | A membership event met while paginating back never changes `members`. |
| `Properties.LivePowerLevelsSurviveBackfill` | webclient/components/matrix/event-handler-service.js:157-161 | A live power-levels event is stored. A later backfilled one of the same type and room does not replace it. |
| `Properties.BackfilledPowerLevelsChangeNothing` | webclient/components/matrix/event-handler-service.js:157-161 | A backfilled power-levels event over a filled slot changes no room and broadcasts nothing. |
| `Properties.BackfilledTopicIsTimestampGated` | webclient/components/matrix/event-handler-service.js:189-206 | A backfilled topic is stored iff the stored topic's ts is not strictly greater. TOPIC_EVENT is logged either way. |
| `Properties.NameAlwaysOverwrites` | webclient/components/matrix/event-handler-service.js:164-171 | A name event, live or not, always becomes the stored name. |
| `Properties.PresenceLastWriteWins` | webclient/components/matrix/event-handler-service.js:149-152 | After a presence event, the user's presence is that event. |

## Left out

- Diagnostics (`console.log`, `JSON.stringify`): output only, with no effect on state.
- Angular wiring (the module, the factory, `$rootScope`): the state is held in
  fields of the class, and `$broadcast` becomes an append to `log`. So delivery
  to listeners is not modelled, and neither is what listeners do with it.
- `matrixService.createRoomIdToAliasMapping`: a call into a service outside this
  model, recorded in `aliasRequests` with no other effect.
- The `$q` deferred: how waiters are scheduled and run later is not modelled.
  Only the single resolution is.
- Service.EventHandlerService.WaitForInitialSyncCompletion: returns the gate's
  current value (`None` while pending) instead of a promise that is fulfilled
  later.
- Aliasing: JavaScript shares room objects by reference with the scopes that
  display them. The model keeps rooms as values in a map.
- JavaScript object semantics of every keyed object (`eventMap`, `rooms`,
  `$rootScope.presence`, a room's `members` and its `room[event.type]` slots):
  the model treats each as a plain map. An inherited property name such as
  "constructor" (truthy in `{}`) is not treated as already present, and a key
  such as "__proto__" (for example a `content.user_id` in `presence`) is stored
  as an ordinary entry instead of changing the object's prototype.
- Malformed events, which the source does not check: a missing `content`, a
  missing `aliases` array, or an undefined `ts`. Fields are typed, and `ts`
  is always an integer.
- `handleRoomMessages` calls `handleEvents` without the state flag, so the
  flag is undefined. The model passes `false`. The only visible difference is
  that MEMBER_EVENT carries `false` where the source passes `undefined`.
- Message contents beyond `msgtype`, `membership`, `prev`, `aliases` and
  `user_id`: opaque.
