/**
 * The two event handlers the bot installs on its chat client.
 *
 * A room message is dropped when it is more than ten seconds old or comes from
 * the Telegram bridge's server; otherwise it is forwarded to the monitor group
 * registered under `{sender}/{room_id}`, or, when there is none, the spawner is
 * asked to register one (and this first message is not forwarded).  A
 * membership event always asks the spawner to register a join-triggered group.
 */
module Router {
  import opened Wrappers
  import opened Matrix
  import opened Messages
  import opened Monitor
  import opened Spawner

  const MAX_MESSAGE_DELAY_MS: nat := 10000
  const BRIDGE_HOST := "t2bot.io"

  /** `now - origin` in milliseconds, saturating at zero for a timestamp in the future. */
  function Delay(now: nat, originTs: nat): (d: nat)
    ensures originTs >= now ==> d == 0
    ensures originTs <= now ==> d + originTs == now
  {
    if now >= originTs then now - originTs else 0
  }

  predicate TooOld(now: nat, originTs: nat)
  {
    Delay(now, originTs) > MAX_MESSAGE_DELAY_MS
  }

  predicate FromBridge(sender: UserId)
  {
    Host(sender.serverName) == BRIDGE_HOST
  }

  datatype DropReason = Stale | Bridged

  /** What a handler does with one event. */
  datatype Routing =
    | Dropped(reason: DropReason)
    | Forward(name: string, msg: MonitorMessage)
    | ToSpawner(request: SpawnerMessage)
    | NoSpawner

  function RouteMessage(now: nat, ev: RoomMessageEvent, room: RoomId, registered: set<string>, spawnerUp: bool): (r: Routing)
    ensures r.Dropped? <==> TooOld(now, ev.originServerTs) || FromBridge(ev.sender)
    ensures r.Forward? <==> !r.Dropped? && MonitorName(UserRoomId(ev.sender, room)) in registered
    ensures r.Forward? ==> r == Forward(MonitorName(UserRoomId(ev.sender, room)), RoomMessage(ev))
    ensures r.ToSpawner? <==> !r.Dropped? && MonitorName(UserRoomId(ev.sender, room)) !in registered && spawnerUp
    ensures r.ToSpawner? ==> r.request == RegisterUser(UserRoomId(ev.sender, room))
  {
    if TooOld(now, ev.originServerTs) then Dropped(Stale)
    else if FromBridge(ev.sender) then Dropped(Bridged)
    else
      var name := MonitorName(UserRoomId(ev.sender, room));
      if name in registered then Forward(name, RoomMessage(ev))
      else if spawnerUp then ToSpawner(RegisterUser(UserRoomId(ev.sender, room)))
      else NoSpawner
  }

  /** Every membership event, whatever its state, age or sender's server, registers a join. */
  function RouteMember(ev: MemberEvent, room: RoomId, spawnerUp: bool): (r: Routing)
    ensures spawnerUp ==> r == ToSpawner(RegisterUserJoin(UserRoomId(ev.sender, room)))
    ensures !spawnerUp ==> r == NoSpawner
  {
    if spawnerUp then ToSpawner(RegisterUserJoin(UserRoomId(ev.sender, room))) else NoSpawner
  }

  /** The age cut-off is strict: ten seconds exactly is kept, and a future timestamp counts as no delay. */
  lemma DelayBoundary(now: nat, originTs: nat)
    ensures originTs >= now ==> !TooOld(now, originTs)
    ensures originTs + MAX_MESSAGE_DELAY_MS == now ==> !TooOld(now, originTs)
    ensures originTs + MAX_MESSAGE_DELAY_MS < now ==> TooOld(now, originTs)
  {
  }

  /** Any user of the bridge's server is dropped, whether or not the server name carries a port. */
  lemma BridgeUsersDropped(localpart: string, port: string)
    ensures FromBridge(UserId(localpart, BRIDGE_HOST))
    ensures FromBridge(UserId(localpart, BRIDGE_HOST + ":" + port))
  {
    HostDropsPort(BRIDGE_HOST, port);
  }

  /**
   * First contact: a fresh key's first message only registers a message-triggered
   * group; once the spawner has handled that, the key's next message is
   * forwarded to that group and a later join changes nothing.
   */
  lemma FirstContactThenForward(registry: Registry, now: nat, first: RoomMessageEvent, next: RoomMessageEvent,
                                room: RoomId, join: MemberEvent)
    requires first.sender == next.sender && join.sender == first.sender
    requires !TooOld(now, first.originServerTs) && !TooOld(now, next.originServerTs) && !FromBridge(first.sender)
    requires MonitorName(UserRoomId(first.sender, room)) !in registry
    ensures var key := UserRoomId(first.sender, room);
      && RouteMessage(now, first, room, registry.Keys, true) == ToSpawner(RegisterUser(key))
      && var after := Registered(registry, RegisterUser(key));
      && after[MonitorName(key)] == SpawnedMonitor(key, Msg)
      && RouteMessage(now, next, room, after.Keys, true) == Forward(MonitorName(key), RoomMessage(next))
      && RouteMember(join, room, true) == ToSpawner(RegisterUserJoin(key))
      && Registered(after, RegisterUserJoin(key)) == after
  {
  }
}
