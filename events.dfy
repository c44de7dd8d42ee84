/**
 * The real-time event model: a feed event carries a type name, the
 * initiator that caused it and a payload with one part per event kind.
 * Dispatch looks the handler up by the event's type name; names that are
 * not a known kind have no handler.
 */
module Events {
  import opened Wrappers

  /** The kinds of real-time event a listener can handle, one handler each. */
  datatype EventType =
    | MessageSent
    | MessageSuppressed
    | SymphonyElementsAction
    | SharedPost
    | InstantMessageCreated
    | RoomCreated
    | RoomUpdated
    | RoomDeactivated
    | RoomReactivated
    | UserRequestedJoinRoom
    | UserJoinedRoom
    | UserLeftRoom
    | RoomMemberPromotedToOwner
    | RoomMemberDemotedFromOwner
    | ConnectionRequested
    | ConnectionAccepted

  /** The type name the server writes into an event of kind `k`. */
  function TypeName(k: EventType): string
  {
    match k
    case MessageSent => "MESSAGESENT"
    case MessageSuppressed => "MESSAGESUPPRESSED"
    case SymphonyElementsAction => "SYMPHONYELEMENTSACTION"
    case SharedPost => "SHAREDPOST"
    case InstantMessageCreated => "INSTANTMESSAGECREATED"
    case RoomCreated => "ROOMCREATED"
    case RoomUpdated => "ROOMUPDATED"
    case RoomDeactivated => "ROOMDEACTIVATED"
    case RoomReactivated => "ROOMREACTIVATED"
    case UserRequestedJoinRoom => "USERREQUESTEDTOJOINROOM"
    case UserJoinedRoom => "USERJOINEDROOM"
    case UserLeftRoom => "USERLEFTROOM"
    case RoomMemberPromotedToOwner => "ROOMMEMBERPROMOTEDTOOWNER"
    case RoomMemberDemotedFromOwner => "ROOMMEMBERDEMOTEDFROMOWNER"
    case ConnectionRequested => "CONNECTIONREQUESTED"
    case ConnectionAccepted => "CONNECTIONACCEPTED"
  }

  /** The known kinds, by the type name the server writes. */
  const KindByName: map<string, EventType> := map[
    "MESSAGESENT" := MessageSent,
    "MESSAGESUPPRESSED" := MessageSuppressed,
    "SYMPHONYELEMENTSACTION" := SymphonyElementsAction,
    "SHAREDPOST" := SharedPost,
    "INSTANTMESSAGECREATED" := InstantMessageCreated,
    "ROOMCREATED" := RoomCreated,
    "ROOMUPDATED" := RoomUpdated,
    "ROOMDEACTIVATED" := RoomDeactivated,
    "ROOMREACTIVATED" := RoomReactivated,
    "USERREQUESTEDTOJOINROOM" := UserRequestedJoinRoom,
    "USERJOINEDROOM" := UserJoinedRoom,
    "USERLEFTROOM" := UserLeftRoom,
    "ROOMMEMBERPROMOTEDTOOWNER" := RoomMemberPromotedToOwner,
    "ROOMMEMBERDEMOTEDFROMOWNER" := RoomMemberDemotedFromOwner,
    "CONNECTIONREQUESTED" := ConnectionRequested,
    "CONNECTIONACCEPTED" := ConnectionAccepted
  ]

  /**
   * The handler lookup by type name: the kind whose name is `name`, or
   * `None` when no kind has that name (such events reach no handler).
   */
  function ParseEventType(name: string): Option<EventType>
  {
    if name in KindByName then Some(KindByName[name]) else None
  }

  /** Every kind's own name is looked up to that kind. */
  lemma ParseTypeName(k: EventType)
    ensures ParseEventType(TypeName(k)) == Some(k)
  {
  }

  /** A name is looked up to a kind only if it is that kind's own name. */
  lemma ParsedNameIsTypeName(name: string)
    ensures ParseEventType(name).Some? ==> TypeName(ParseEventType(name).value) == name
  {
  }

  /** The user who caused an event. */
  datatype User = User(username: string)
  datatype Initiator = Initiator(user: User)

  /**
   * The event payload: at most one part per kind (a message-sent part, a
   * shared-post part, ...). A part's content is kept as opaque text.
   */
  datatype Payload = Payload(parts: map<EventType, string>)

  /** The payload part a handler of kind `k` receives, `None` when absent. */
  function PartOf(p: Payload, k: EventType): Option<string>
  {
    if k in p.parts then Some(p.parts[k]) else None
  }

  /** One feed event, as a read returns it. */
  datatype Event = Event(typeName: string, payload: Payload, initiator: Initiator)
}
