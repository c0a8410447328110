/** The values the event handler service works on: Matrix events, the per-room
    store, the notification categories it broadcasts, and the routing table that
    chooses a policy for an event type. */
module Events {

  datatype Option<+T> = None | Some(value: T)

  /** The few fields of an event's `content` that the service inspects; the rest
      of the payload is opaque. An absent field is `None`. */
  datatype Content = Content(
    msgtype: Option<string>,
    membership: Option<string>,
    prev: Option<string>,
    aliases: seq<string>,
    userId: string)

  /** `prev_content` of a membership event; only its `membership` is read. */
  datatype PrevContent = PrevContent(membership: Option<string>)

  /** An event as received (already parsed). `eventId` may be absent. */
  datatype Event = Event(
    eventId: Option<string>,
    eventType: string,
    roomId: string,
    userId: string,
    stateKey: string,
    content: Content,
    prevContent: Option<PrevContent>,
    ts: int)

  /** One room of `$rootScope.events.rooms`: its timeline, its members keyed by
      `state_key`, the pagination cursor, and the slots `room[event.type]` that
      hold the latest power-levels, name and topic events. */
  datatype Room = Room(
    messages: seq<Event>,
    members: map<string, Event>,
    earliestToken: string,
    meta: map<string, Event>)

  /** The room `initRoom` creates: nothing fetched yet, cursor at "END". */
  const EmptyRoom := Room([], map[], "END", map[])

  /** The broadcast names ROOM_CREATE_EVENT ... TOPIC_EVENT. */
  datatype Category =
    | RoomCreateEvent
    | MsgEvent
    | MemberEvent
    | PresenceEvent
    | PowerLevelEvent
    | CallEvent
    | NameEvent
    | TopicEvent

  /** One `$broadcast(category, event, isLive[, isState])`; only MEMBER_EVENT
      carries the state flag. */
  datatype Notification = Notification(
    category: Category,
    event: Event,
    isLive: bool,
    isState: Option<bool>)

  /** One call to the alias collaborator `createRoomIdToAliasMapping(room, alias)`;
      `alias` is `None` when `content.aliases` is empty (`aliases[0]` is undefined). */
  datatype AliasRequest = AliasRequest(roomId: string, alias: Option<string>)

  /** The opaque initial-sync response handed to the gate. */
  datatype Payload = Payload(body: string)

  /** Everything the service owns, as one value: rooms, the dedup map, presence,
      the broadcasts made so far and the alias registrations requested so far. */
  datatype Store = Store(
    rooms: map<string, Room>,
    seen: set<string>,
    presence: map<string, Event>,
    log: seq<Notification>,
    aliasRequests: seq<AliasRequest>)

  const EmptyStore := Store(map[], {}, map[], [], [])

  const CallPrefix := "m.call."
  const CallInvite := "m.call.invite"
  const PowerLevelTypes: set<string> :=
    {"m.room.ops_levels", "m.room.send_event_level", "m.room.add_state_level",
     "m.room.join_rules", "m.room.power_levels"}

  /** The other types of the exact-match table, one policy each. */
  const NamedTypes: set<string> :=
    {"m.room.create", "m.room.aliases", "m.room.message", "m.room.member",
     "m.presence", "m.room.name", "m.room.topic"}

  /** The policy an event type is dispatched to. */
  datatype Handler =
    | CallHandler
    | RoomCreateHandler
    | RoomAliasesHandler
    | MessageHandler
    | RoomMemberHandler
    | PresenceHandler
    | PowerLevelsHandler
    | RoomNameHandler
    | RoomTopicHandler
    | Unhandled

  /** The routing of `handleEvent`: a type starting with "m.call." goes to the call
      policy whatever follows; otherwise the exact-match table decides, and any
      other type is dropped. */
  function Route(t: string): (h: Handler)
    ensures h == CallHandler <==> CallPrefix <= t
    ensures h == PowerLevelsHandler <==> !(CallPrefix <= t) && t in PowerLevelTypes
    ensures h == Unhandled <==>
      !(CallPrefix <= t) && t !in PowerLevelTypes &&
      t !in NamedTypes
    ensures t in PowerLevelTypes ==> h == PowerLevelsHandler
    ensures t == "m.room.create" ==> h == RoomCreateHandler
    ensures t == "m.room.aliases" ==> h == RoomAliasesHandler
    ensures t == "m.room.message" ==> h == MessageHandler
    ensures t == "m.room.member" ==> h == RoomMemberHandler
    ensures t == "m.presence" ==> h == PresenceHandler
    ensures t == "m.room.name" ==> h == RoomNameHandler
    ensures t == "m.room.topic" ==> h == RoomTopicHandler
  {
    TableTypesAreNotCalls(t);
    if CallPrefix <= t then CallHandler
    else if t == "m.room.create" then RoomCreateHandler
    else if t == "m.room.aliases" then RoomAliasesHandler
    else if t == "m.room.message" then MessageHandler
    else if t == "m.room.member" then RoomMemberHandler
    else if t == "m.presence" then PresenceHandler
    else if t in PowerLevelTypes then PowerLevelsHandler
    else if t == "m.room.name" then RoomNameHandler
    else if t == "m.room.topic" then RoomTopicHandler
    else Unhandled
  }

  /** None of the exact-match types starts with the call prefix: at index 2 they
      have 'r' or 'p' where "m.call." has 'c'. */
  lemma TableTypesAreNotCalls(t: string)
    ensures t in PowerLevelTypes + NamedTypes ==> !(CallPrefix <= t)
  {
    if CallPrefix <= t {
      assert t[2] == 'c';
    }
  }
}
