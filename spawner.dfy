/**
 * The spawner: the one actor that creates monitor groups.  A group runs under
 * the name of its key in the actor registry, and the spawner only spawns after
 * checking that the name is free, so there is at most one group per key.  A
 * group that stops or fails is only logged; the runtime frees its name and the
 * next registration for the key spawns a new group.
 */
module Spawner {
  import opened Wrappers
  import opened Matrix
  import opened Messages
  import opened Monitor

  datatype SpawnerMessage =
    | RegisterUser(key: UserRoomId)
    | RegisterUserJoin(key: UserRoomId)

  /** What the registry records about a live group: its key and what created it. */
  datatype SpawnedMonitor = SpawnedMonitor(key: UserRoomId, init: MonitorInit)

  type Registry = map<string, SpawnedMonitor>

  function Trigger(msg: SpawnerMessage): MonitorInit
  {
    match msg
    case RegisterUser(_) => Msg
    case RegisterUserJoin(_) => Join
  }

  /** The registry after the spawner handles `msg`. */
  function Registered(registry: Registry, msg: SpawnerMessage): Registry
  {
    var name := MonitorName(msg.key);
    if name in registry then registry else registry[name := SpawnedMonitor(msg.key, Trigger(msg))]
  }

  /** The registry after a supervision event about the group named `who`. */
  function Unregistered(registry: Registry, evt: SupervisionEvent<string>): Registry
  {
    match evt
    case ActorTerminated(who, _) => registry - {who}
    case ActorFailed(who, _) => registry - {who}
    case _ => registry
  }

  /** Every group sits under its own key's name: hence at most one group per key. */
  ghost predicate OnePerKey(registry: Registry)
  {
    forall name :: name in registry ==> name == MonitorName(registry[name].key) && WellFormedKey(registry[name].key)
  }

  lemma OnePerKeyIsAtMostOne(registry: Registry, n1: string, n2: string)
    requires OnePerKey(registry) && n1 in registry && n2 in registry
    requires registry[n1].key == registry[n2].key
    ensures n1 == n2
  {
  }

  /**
   * A registration spawns a group exactly when none runs under the key's name,
   * with the trigger of the message; a second registration for the key, join or
   * not, changes nothing.
   */
  lemma RegisterSpawnsOnce(registry: Registry, msg: SpawnerMessage, again: SpawnerMessage)
    requires again.key == msg.key
    ensures MonitorName(msg.key) in Registered(registry, msg)
    ensures MonitorName(msg.key) !in registry ==>
              Registered(registry, msg)[MonitorName(msg.key)] == SpawnedMonitor(msg.key, Trigger(msg))
              && |Registered(registry, msg).Keys| == |registry.Keys| + 1
    ensures MonitorName(msg.key) in registry ==> Registered(registry, msg) == registry
    ensures Registered(Registered(registry, msg), again) == Registered(registry, msg)
  {
  }

  /** Registering one key never creates, removes or changes the group of another. */
  lemma RegisterLeavesOtherKeys(registry: Registry, msg: SpawnerMessage, other: UserRoomId)
    requires WellFormedKey(msg.key) && WellFormedKey(other) && other != msg.key
    ensures MonitorName(other) in Registered(registry, msg) <==> MonitorName(other) in registry
    ensures MonitorName(other) in registry ==> Registered(registry, msg)[MonitorName(other)] == registry[MonitorName(other)]
  {
    if MonitorName(other) == MonitorName(msg.key) {
      MonitorNameInjective(other, msg.key);
    }
  }

  /** The spawner's inbox together with the supervision events of its groups. */
  datatype SpawnerInput =
    | Message(msg: SpawnerMessage)
    | Supervision(evt: SupervisionEvent<string>)

  function Run(registry: Registry, inputs: seq<SpawnerInput>): Registry
    decreases |inputs|
  {
    if inputs == [] then registry
    else
      var next := match inputs[0]
        case Message(msg) => Registered(registry, msg)
        case Supervision(evt) => Unregistered(registry, evt);
      Run(next, inputs[1..])
  }

  predicate KeysWellFormed(inputs: seq<SpawnerInput>)
  {
    forall i :: 0 <= i < |inputs| && inputs[i].Message? ==> WellFormedKey(inputs[i].msg.key)
  }

  /** Whatever registrations and exits arrive, in whatever order, each key has at most one group. */
  lemma {:induction false} RunKeepsOnePerKey(registry: Registry, inputs: seq<SpawnerInput>)
    requires OnePerKey(registry) && KeysWellFormed(inputs)
    ensures OnePerKey(Run(registry, inputs))
    decreases |inputs|
  {
    if inputs != [] {
      var next := match inputs[0]
        case Message(msg) => Registered(registry, msg)
        case Supervision(evt) => Unregistered(registry, evt);
      assert OnePerKey(next);
      assert KeysWellFormed(inputs[1..]) by {
        forall i | 0 <= i < |inputs[1..]| && inputs[1..][i].Message?
          ensures WellFormedKey(inputs[1..][i].msg.key)
        {
          assert inputs[1..][i] == inputs[i + 1];
        }
      }
      RunKeepsOnePerKey(next, inputs[1..]);
    }
  }

  /** A group that stops or fails is not restarted, and its key is free for the next registration. */
  lemma ExitFreesKey(registry: Registry, key: UserRoomId, evt: SupervisionEvent<string>, msg: SpawnerMessage)
    requires evt.ActorTerminated? || evt.ActorFailed?
    requires evt.who == MonitorName(key) && msg.key == key
    ensures MonitorName(key) !in Unregistered(registry, evt)
    ensures Registered(Unregistered(registry, evt), msg)[MonitorName(key)] == SpawnedMonitor(key, Trigger(msg))
  {
  }

  class Spawner {
    /** The registered monitor groups, by name. */
    var registry: Registry

    constructor ()
      ensures registry == map[]
    {
      registry := map[];
    }

    method Handle(msg: SpawnerMessage)
      modifies this
      ensures registry == Registered(old(registry), msg)
    {
      match msg {
        case RegisterUser(key) =>
          if MonitorName(key) !in registry {
            registry := registry[MonitorName(key) := SpawnedMonitor(key, Msg)];
          }
        case RegisterUserJoin(key) =>
          if MonitorName(key) !in registry {
            registry := registry[MonitorName(key) := SpawnedMonitor(key, Join)];
          }
      }
    }

    /** Every event is only logged; the runtime drops the name of a group that stopped or failed. */
    method HandleSupervisorEvt(evt: SupervisionEvent<string>)
      modifies this
      ensures registry == Unregistered(old(registry), evt)
    {
      match evt {
        case ActorTerminated(who, _) =>
          registry := registry - {who};
        case ActorFailed(who, _) =>
          registry := registry - {who};
        case _ =>
      }
    }
  }
}
