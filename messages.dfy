/**
 * The messages the per-(user, room) actors exchange and the effects a handler
 * leaves behind.  Handlers are modelled as returning their outgoing effects as
 * data, in the order the source performs them.
 */
module Messages {
  import opened Wrappers
  import opened Matrix

  /** A posted message; `body` is None for a redacted event (no original content). */
  datatype RoomMessageEvent = RoomMessageEvent(sender: UserId, originServerTs: nat, body: Option<string>)

  /** An `m.annotation` relation: the event reacted to and the reaction key. */
  datatype Annotation = Annotation(eventId: EventId, key: string)

  /** A reaction; `relatesTo` is None for a redacted event (no original content). */
  datatype ReactionEvent = ReactionEvent(sender: UserId, relatesTo: Option<Annotation>)

  /** A room membership change, seen only through its sender. */
  datatype MemberEvent = MemberEvent(sender: UserId)

  /** The inbox of a monitor group and of each of its monitors. */
  datatype MonitorMessage =
    | Heartbeat
    | RoomMessage(message: RoomMessageEvent)
    | ReactionMessage(reaction: ReactionEvent)

  predicate NoHeartbeat(msgs: seq<MonitorMessage>)
  {
    forall i :: 0 <= i < |msgs| ==> !msgs[i].Heartbeat?
  }

  datatype ViolationKind = Spam | LikelyBot

  datatype Violation = Violation(key: UserRoomId, kind: ViolationKind)

  /** What a monitor handler does to the outside world. */
  datatype Effect =
    | Violate(violation: Violation)                                 // cast to the moderator
    | ArmHeartbeat(afterSecs: nat)                                  // send_after(.., Heartbeat)
    | Stop(reason: string)                                          // myself.stop(..)
    | SendNotice(room: RoomId, body: string, mention: UserId)
    | SendReaction(room: RoomId, target: EventId, glyph: string)
    | Redact(room: RoomId, eventId: EventId)

  /**
   * Reporting a violation: cast to the actor registered as "moderator", or log
   * and drop it when no such actor is registered.
   */
  function Report(key: UserRoomId, kind: ViolationKind, moderatorUp: bool): (r: seq<Effect>)
  {
    if moderatorUp then [Violate(Violation(key, kind))] else []
  }

  /** Number of violations among `effects`. */
  function ViolationCount(effects: seq<Effect>): nat
  {
    if effects == [] then 0
    else (if effects[0].Violate? then 1 else 0) + ViolationCount(effects[1..])
  }

  lemma {:induction false} ViolationCountAppend(a: seq<Effect>, b: seq<Effect>)
    ensures ViolationCount(a + b) == ViolationCount(a) + ViolationCount(b)
  {
    if a != [] {
      assert (a + b)[1..] == a[1..] + b;
      ViolationCountAppend(a[1..], b);
    } else {
      assert a + b == b;
    }
  }

  lemma {:induction false} NoViolationCounted(effects: seq<Effect>)
    requires forall i :: 0 <= i < |effects| ==> !effects[i].Violate?
    ensures ViolationCount(effects) == 0
    decreases |effects|
  {
    if effects != [] {
      NoViolationCounted(effects[1..]);
    }
  }

  /** Number of heartbeats `effects` arms. */
  function ArmCount(effects: seq<Effect>): nat
  {
    if effects == [] then 0
    else (if effects[0].ArmHeartbeat? then 1 else 0) + ArmCount(effects[1..])
  }

  /** Whether `effects` stops the actor that emitted them. */
  predicate Stops(effects: seq<Effect>)
  {
    effects != [] && (effects[0].Stop? || Stops(effects[1..]))
  }

  /** A supervision event, about a child identified by `Who`. */
  datatype SupervisionEvent<Who> =
    | ActorStarted(who: Who)
    | ActorTerminated(who: Who, reason: Option<string>)
    | ActorFailed(who: Who, error: string)
    | ProcessGroupChanged
}
