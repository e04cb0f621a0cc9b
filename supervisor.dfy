/**
 * The root supervisor: it starts the spawner and then the moderator, and
 * restarts either of them, by name, every time it fails.  It keeps no restart
 * count and never changes the client it hands to the moderator.
 */
module Supervisor {
  import opened Wrappers
  import opened Messages

  const SPAWNER_NAME := "spawner"
  const MODERATOR_NAME := "moderator"

  /** The chat client the supervisor was started with, as an opaque handle. */
  datatype Client = Client(handle: nat)

  /** One `spawn_linked` of a named singleton. */
  datatype Start = StartSpawner | StartModerator(client: Client)

  function StartedName(s: Start): string
  {
    match s
    case StartSpawner => SPAWNER_NAME
    case StartModerator(_) => MODERATOR_NAME
  }

  /** What the supervisor restarts on `evt`, if anything. */
  function Restart(evt: SupervisionEvent<Option<string>>, client: Client): (r: Option<Start>)
    ensures r.Some? <==> evt.ActorFailed? && evt.who.Some? && evt.who.value in {SPAWNER_NAME, MODERATOR_NAME}
    ensures r.Some? ==> StartedName(r.value) == evt.who.value
    ensures r.Some? && r.value.StartModerator? ==> r.value.client == client
  {
    match evt
    case ActorFailed(Some(name), _) =>
      if name == SPAWNER_NAME then Some(StartSpawner)
      else if name == MODERATOR_NAME then Some(StartModerator(client))
      else None
    case _ => None
  }

  /** The named actors running after `evt`: a stopped child is gone until restarted. */
  function Live(live: set<string>, evt: SupervisionEvent<Option<string>>, client: Client): set<string>
  {
    match evt
    case ActorTerminated(Some(name), _) => live - {name}
    case ActorFailed(Some(name), _) =>
      (live - {name}) + (if Restart(evt, client).Some? then {name} else {})
    case _ => live
  }

  /** The starts `events` cause, in order. */
  function Restarts(events: seq<SupervisionEvent<Option<string>>>, client: Client): seq<Start>
    decreases |events|
  {
    if events == [] then []
    else
      var r := Restart(events[0], client);
      (if r.Some? then [r.value] else []) + Restarts(events[1..], client)
  }

  /** Failures of the two singletons among `events`. */
  ghost function SingletonFailures(events: seq<SupervisionEvent<Option<string>>>): nat
  {
    if events == [] then 0
    else
      var e := events[0];
      (if e.ActorFailed? && e.who.Some? && (e.who.value == SPAWNER_NAME || e.who.value == MODERATOR_NAME) then 1 else 0)
      + SingletonFailures(events[1..])
  }

  /**
   * There is no restart budget: every singleton failure, however many came
   * before, is answered by one restart of that singleton, and the moderator is
   * always restarted with the same client.
   */
  lemma {:induction false} EveryFailureRestarts(events: seq<SupervisionEvent<Option<string>>>, client: Client)
    ensures |Restarts(events, client)| == SingletonFailures(events)
    ensures forall i :: 0 <= i < |Restarts(events, client)| && Restarts(events, client)[i].StartModerator? ==>
              Restarts(events, client)[i].client == client
    decreases |events|
  {
    if events != [] {
      EveryFailureRestarts(events[1..], client);
    }
  }

  predicate StoppedNormally(evt: SupervisionEvent<Option<string>>, name: string)
  {
    evt.ActorTerminated? && evt.who == Some(name)
  }

  /** A singleton only goes away by stopping normally: no failure leaves it down. */
  lemma {:induction false} SingletonsStayUp(live: set<string>, events: seq<SupervisionEvent<Option<string>>>,
                                            client: Client, name: string)
    requires name in live && (name == SPAWNER_NAME || name == MODERATOR_NAME)
    requires forall i :: 0 <= i < |events| ==> !StoppedNormally(events[i], name)
    ensures name in LiveAfter(live, events, client)
    decreases |events|
  {
    if events != [] {
      assert !StoppedNormally(events[0], name);
      SingletonsStayUp(Live(live, events[0], client), events[1..], client, name);
    }
  }

  function LiveAfter(live: set<string>, events: seq<SupervisionEvent<Option<string>>>, client: Client): set<string>
    decreases |events|
  {
    if events == [] then live else LiveAfter(Live(live, events[0], client), events[1..], client)
  }

  class Supervisor {
    var client: Client
    /** The named singletons currently running. */
    var live: set<string>
    /** Every start performed so far, in order. */
    var starts: seq<Start>

    /** pre_start: the spawner first, then the moderator with the client. */
    constructor (client: Client)
      ensures this.client == client
      ensures starts == [StartSpawner, StartModerator(client)]
      ensures live == {SPAWNER_NAME, MODERATOR_NAME}
    {
      this.client := client;
      starts := [StartSpawner];
      starts := starts + [StartModerator(client)];
      live := {SPAWNER_NAME, MODERATOR_NAME};
    }

    method HandleSupervisorEvt(evt: SupervisionEvent<Option<string>>)
      modifies this
      ensures client == old(client)
      ensures starts == old(starts) + if Restart(evt, client).Some? then [Restart(evt, client).value] else []
      ensures live == Live(old(live), evt, client)
    {
      match evt {
        case ActorStarted(_) =>
        case ActorTerminated(name, _) =>
          if name.Some? {
            live := live - {name.value};
          }
        case ActorFailed(name, _) =>
          if name.Some? {
            live := live - {name.value};
            match name.value {
              case "spawner" =>
                starts := starts + [StartSpawner];
                live := live + {SPAWNER_NAME};
              case "moderator" =>
                starts := starts + [StartModerator(client)];
                live := live + {MODERATOR_NAME};
              case _ =>
            }
          }
        case ProcessGroupChanged =>
      }
    }
  }
}
