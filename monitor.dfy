/**
 * The monitor group for one (user, room) key.
 *
 * A group spawns its monitors (rate limit and link spam always, the captcha only
 * when a join created it), keeps an idle clock driven by minute heartbeats, and
 * fans every message and reaction out to the monitors still in its process
 * group.  It stops itself once more than `MONITOR_EXPIRE_TIMEOUT` heartbeats have
 * passed since the last message or reaction, and fails when one of its monitors fails.
 */
module Monitor {
  import opened Wrappers
  import opened Matrix
  import opened Messages

  /** Heartbeats without activity after which a group stops: one day of minutes. */
  const MONITOR_EXPIRE_TIMEOUT: nat := 60 * 24

  const IDLE_REASON := "idled too long"

  /** Why the group was created. */
  datatype MonitorInit = Msg | Join

  datatype ChildKind = RateLimitChild | LinkSpamChild | CaptchaChild

  /** One message cast to one member of the group. */
  datatype Cast = Cast(to: ChildKind, msg: MonitorMessage)

  /** The monitors a group spawns, in spawn order. */
  function ChildrenFor(init: MonitorInit): seq<ChildKind>
  {
    if init == Join then [RateLimitChild, LinkSpamChild, CaptchaChild] else [RateLimitChild, LinkSpamChild]
  }

  /** Only a join-created group runs the captcha. */
  lemma ChildrenByTrigger(init: MonitorInit)
    ensures RateLimitChild in ChildrenFor(init) && LinkSpamChild in ChildrenFor(init)
    ensures CaptchaChild in ChildrenFor(init) <==> init == Join
    ensures |ChildrenFor(init)| == if init == Join then 3 else 2
  {
  }

  /** The idle clock: heartbeats seen, and the heartbeat count at the last activity. */
  datatype Clock = Clock(age: nat, lastMsgAge: nat)

  predicate Expired(c: Clock)
  {
    c.age - c.lastMsgAge > MONITOR_EXPIRE_TIMEOUT
  }

  function Tick(c: Clock): Clock
  {
    Clock(c.age + 1, c.lastMsgAge)
  }

  function Touch(c: Clock): Clock
  {
    Clock(c.age, c.age)
  }

  /** The clock after `msgs`, whether or not the group would have stopped on the way. */
  function After(c: Clock, msgs: seq<MonitorMessage>): Clock
    decreases |msgs|
  {
    if msgs == [] then c
    else After(if msgs[0].Heartbeat? then Tick(c) else Touch(c), msgs[1..])
  }

  function Offset(o: Option<nat>, k: nat): Option<nat>
  {
    if o.Some? then Some(o.value + k) else None
  }

  /** The position in `msgs` of the heartbeat on which the group stops; None if it outlives `msgs`. */
  function StopsAt(c: Clock, msgs: seq<MonitorMessage>): Option<nat>
    decreases |msgs|
  {
    if msgs == [] then None
    else if msgs[0].Heartbeat? then
      if Expired(Tick(c)) then Some(0) else Offset(StopsAt(Tick(c), msgs[1..]), 1)
    else Offset(StopsAt(Touch(c), msgs[1..]), 1)
  }

  function Heartbeats(n: nat): seq<MonitorMessage>
  {
    seq(n, _ => Heartbeat)
  }

  function HeartbeatCount(msgs: seq<MonitorMessage>): nat
  {
    if msgs == [] then 0 else (if msgs[0].Heartbeat? then 1 else 0) + HeartbeatCount(msgs[1..])
  }

  /**
   * Age counts heartbeats and nothing else, and the last activity is never later
   * than the age: the source's unsigned subtraction `age - last_msg_age` cannot underflow.
   */
  lemma {:induction false} AfterCountsHeartbeats(c: Clock, msgs: seq<MonitorMessage>)
    requires c.lastMsgAge <= c.age
    ensures After(c, msgs).lastMsgAge <= After(c, msgs).age
    ensures After(c, msgs).age == c.age + HeartbeatCount(msgs)
    decreases |msgs|
  {
    if msgs != [] {
      AfterCountsHeartbeats(if msgs[0].Heartbeat? then Tick(c) else Touch(c), msgs[1..]);
    }
  }

  /** Running `a` then `b`: if the group survives `a`, `b` runs from the clock `a` left. */
  lemma {:induction false} StopsAtAppend(c: Clock, a: seq<MonitorMessage>, b: seq<MonitorMessage>)
    requires StopsAt(c, a) == None
    ensures StopsAt(c, a + b) == Offset(StopsAt(After(c, a), b), |a|)
    decreases |a|
  {
    if a == [] {
      assert a + b == b;
    } else {
      assert (a + b)[0] == a[0] && (a + b)[1..] == a[1..] + b;
      var c1 := if a[0].Heartbeat? then Tick(c) else Touch(c);
      StopsAtAppend(c1, a[1..], b);
    }
  }

  lemma {:induction false} AfterQuiet(c: Clock, n: nat)
    ensures After(c, Heartbeats(n)) == Clock(c.age + n, c.lastMsgAge)
    decreases n
  {
    if n > 0 {
      assert Heartbeats(n)[0] == Heartbeat;
      assert Heartbeats(n)[1..] == Heartbeats(n - 1);
      AfterQuiet(Tick(c), n - 1);
    }
  }

  /**
   * With no activity, a group whose idle time is `d <= 1440` stops on heartbeat
   * number 1441 - d and not before.
   */
  lemma {:induction false} QuietGroupStops(c: Clock, n: nat)
    requires c.lastMsgAge <= c.age && c.age - c.lastMsgAge <= MONITOR_EXPIRE_TIMEOUT
    ensures StopsAt(c, Heartbeats(n)) ==
              if c.age - c.lastMsgAge + n > MONITOR_EXPIRE_TIMEOUT
              then Some(MONITOR_EXPIRE_TIMEOUT - (c.age - c.lastMsgAge)) else None
    ensures After(c, Heartbeats(n)) == Clock(c.age + n, c.lastMsgAge)
    decreases n
  {
    AfterQuiet(c, n);
    if n > 0 {
      assert Heartbeats(n)[0] == Heartbeat;
      assert Heartbeats(n)[1..] == Heartbeats(n - 1);
      if !Expired(Tick(c)) {
        QuietGroupStops(Tick(c), n - 1);
      }
    }
  }

  /** A new group left alone stops on its 1441st heartbeat. */
  lemma NewGroupIdlesOut(n: nat)
    ensures StopsAt(Clock(0, 0), Heartbeats(n)) == if n > MONITOR_EXPIRE_TIMEOUT then Some(MONITOR_EXPIRE_TIMEOUT) else None
  {
    QuietGroupStops(Clock(0, 0), n);
  }

  /**
   * A message or reaction restarts the idle count: after it the group survives
   * 1440 more quiet heartbeats and stops on the next one.  (A new group that
   * sees activity at heartbeat 1439 is still alive after heartbeat 1440.)
   */
  lemma ActivityResetsIdleClock(c: Clock, quiet: nat, m: MonitorMessage, more: nat)
    requires c.lastMsgAge <= c.age && c.age - c.lastMsgAge + quiet <= MONITOR_EXPIRE_TIMEOUT
    requires !m.Heartbeat?
    ensures StopsAt(c, Heartbeats(quiet) + [m] + Heartbeats(more)) ==
              if more > MONITOR_EXPIRE_TIMEOUT then Some(quiet + 1 + MONITOR_EXPIRE_TIMEOUT) else None
  {
    QuietGroupStops(c, quiet);
    var c1 := After(c, Heartbeats(quiet));
    StopsAtAppend(c, Heartbeats(quiet), [m] + Heartbeats(more));
    assert Heartbeats(quiet) + [m] + Heartbeats(more) == Heartbeats(quiet) + ([m] + Heartbeats(more));
    assert ([m] + Heartbeats(more))[1..] == Heartbeats(more);
    QuietGroupStops(Touch(c1), more);
  }

  /** The fan-out loop: every member of the group gets the message once, in membership order. */
  method FanOut(members: seq<ChildKind>, msg: MonitorMessage) returns (casts: seq<Cast>)
    ensures |casts| == |members|
    ensures forall i :: 0 <= i < |members| ==> casts[i] == Cast(members[i], msg)
  {
    casts := [];
    var i := 0;
    while i < |members|
      invariant 0 <= i <= |members|
      invariant |casts| == i
      invariant forall j :: 0 <= j < i ==> casts[j] == Cast(members[j], msg)
    {
      casts := casts + [Cast(members[i], msg)];
      i := i + 1;
    }
  }

  /** The error a supervision event propagates: only a failed child makes the group fail. */
  function ChildFailure(evt: SupervisionEvent<ChildKind>): (r: Option<string>)
    ensures r.Some? <==> evt.ActorFailed?
    ensures r.Some? ==> r.value == evt.error
  {
    match evt
    case ActorFailed(_, error) => Some(error)
    case _ => None
  }

  /** `s` with every occurrence of `c` removed. */
  function Without(s: seq<ChildKind>, c: ChildKind): (r: seq<ChildKind>)
    ensures forall x :: x in r <==> x in s && x != c
    ensures |r| <= |s|
  {
    if s == [] then []
    else if s[0] == c then Without(s[1..], c)
    else [s[0]] + Without(s[1..], c)
  }

  class MonitorGroup {
    const key: UserRoomId
    var age: nat
    var lastMsgAge: nat
    /** The group's process-group membership: the monitors still running. */
    var members: seq<ChildKind>
    var alive: bool

    ghost predicate Valid()
      reads this
    {
      lastMsgAge <= age
    }

    function CurrentClock(): Clock
      reads this
    {
      Clock(age, lastMsgAge)
    }

    /** pre_start: spawn the monitors for the trigger, join them to the group, start the clock at 0. */
    constructor (key: UserRoomId, init: MonitorInit)
      ensures Valid() && alive && this.key == key
      ensures age == 0 && lastMsgAge == 0
      ensures members == ChildrenFor(init)
    {
      var monitors: seq<ChildKind> := [];
      monitors := monitors + [RateLimitChild];
      monitors := monitors + [LinkSpamChild];
      if init == Join {
        monitors := monitors + [CaptchaChild];
      }
      this.key := key;
      members := monitors;
      age, lastMsgAge := 0, 0;
      alive := true;
    }

    /**
     * A heartbeat ages the group and stops it once idle too long; a message or
     * reaction is cast to every member and marks the current age as the last activity.
     */
    method Handle(msg: MonitorMessage) returns (casts: seq<Cast>, stop: Option<string>)
      requires Valid() && alive
      modifies this
      ensures Valid() && members == old(members)
      ensures msg.Heartbeat? ==>
        && casts == []
        && CurrentClock() == Tick(old(CurrentClock()))
        && stop == (if Expired(CurrentClock()) then Some(IDLE_REASON) else None)
        && alive == stop.None?
      ensures !msg.Heartbeat? ==>
        && CurrentClock() == Touch(old(CurrentClock()))
        && stop == None && alive
        && |casts| == |members|
        && forall i :: 0 <= i < |members| ==> casts[i] == Cast(members[i], msg)
    {
      var subMonitors := members;
      casts, stop := [], None;
      match msg {
        case Heartbeat =>
          age := age + 1;
          if age - lastMsgAge > MONITOR_EXPIRE_TIMEOUT {
            stop := Some(IDLE_REASON);
            alive := false;
          }
        case _ =>
          casts := FanOut(subMonitors, msg);
          lastMsgAge := age;
      }
    }

    /**
     * A child's failure fails the group; every other event is only logged.  A
     * child that stops, either way, leaves the process group.
     */
    method HandleSupervisorEvt(evt: SupervisionEvent<ChildKind>) returns (error: Option<string>)
      requires Valid() && alive
      modifies this
      ensures Valid() && CurrentClock() == old(CurrentClock())
      ensures error == ChildFailure(evt)
      ensures alive == error.None?
      ensures members == if evt.ActorTerminated? || evt.ActorFailed? then Without(old(members), evt.who) else old(members)
    {
      error := None;
      match evt {
        case ActorStarted(_) =>
        case ActorTerminated(who, _) =>
          members := Without(members, who);
        case ActorFailed(who, e) =>
          members := Without(members, who);
          error := Some(e);
          alive := false;
        case ProcessGroupChanged =>
      }
    }
  }
}
