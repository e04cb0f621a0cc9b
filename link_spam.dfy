/**
 * The link-spam monitor: for a while after its group starts, every message whose
 * body contains `https://` or `http://` is reported as Spam.  Its state is only
 * its key and never changes; the only thing that changes is whether it runs.
 */
module LinkSpam {
  import opened Wrappers
  import opened Matrix
  import opened Messages
  import opened Config

  const HTTPS := "https://"
  const HTTP := "http://"
  const DISABLED_REASON := "disabled"
  const TIMEOUT_REASON := "waited long enough"

  /** `p` occurs in `s` as a contiguous substring. */
  ghost predicate Occurs(p: string, s: string)
  {
    exists i :: 0 <= i && OccursAt(p, s, i)
  }

  ghost predicate OccursAt(p: string, s: string, i: nat)
  {
    i + |p| <= |s| && s[i..i + |p|] == p
  }

  /** The substring test, scanning `s` from the left. */
  function Contains(s: string, p: string): bool
    decreases |s|
  {
    if |p| > |s| then false
    else if s[..|p|] == p then true
    else Contains(s[1..], p)
  }

  lemma {:induction false} ContainsIsOccurs(s: string, p: string)
    ensures Contains(s, p) <==> Occurs(p, s)
    decreases |s|
  {
    if |p| > |s| {
    } else if s[..|p|] == p {
      assert OccursAt(p, s, 0);
    } else {
      ContainsIsOccurs(s[1..], p);
      if Occurs(p, s) {
        var i: nat :| OccursAt(p, s, i);
        assert i != 0;
        assert s[1..][i - 1..i - 1 + |p|] == s[i..i + |p|];
        assert OccursAt(p, s[1..], i - 1);
      }
      if Occurs(p, s[1..]) {
        var j: nat :| OccursAt(p, s[1..], j);
        assert s[j + 1..j + 1 + |p|] == s[1..][j..j + |p|];
        assert OccursAt(p, s, j + 1);
      }
    }
  }

  predicate IsLink(body: string)
  {
    Contains(body, HTTPS) || Contains(body, HTTP)
  }

  lemma IsLinkIffUrlOccurs(body: string)
    ensures IsLink(body) <==> Occurs(HTTPS, body) || Occurs(HTTP, body)
  {
    ContainsIsOccurs(body, HTTPS);
    ContainsIsOccurs(body, HTTP);
  }

  /**
   * pre_start: with a config provider, arm the watch timeout if the room's
   * override or the global section configures the monitor, and stop as
   * "disabled" otherwise.  Without a provider (`config` None) nothing happens.
   */
  function PreStart(config: Option<T1Config>, room: RoomId): (r: seq<Effect>)
    ensures config.None? ==> r == []
    ensures config.Some? && LinkSpamConfigFor(config.value, room).Some? ==>
              r == [ArmHeartbeat(LinkSpamConfigFor(config.value, room).value.watchTimeoutSecs)]
    ensures Stops(r) <==> config.Some? && LinkSpamConfigFor(config.value, room).None?
    ensures Stops(r) ==> r == [Stop(DISABLED_REASON)]
  {
    if config.None? then []
    else
      match LinkSpamConfigFor(config.value, room)
      case Some(linkSpam) => [ArmHeartbeat(linkSpam.watchTimeoutSecs)]
      case None => [Stop(DISABLED_REASON)]
  }

  /**
   * One message: the watch timeout stops the monitor; an original message whose
   * body holds a URL is reported once; everything else is ignored.
   */
  function Handle(key: UserRoomId, msg: MonitorMessage, moderatorUp: bool): (r: seq<Effect>)
    ensures Stops(r) <==> msg.Heartbeat?
    ensures Stops(r) ==> r == [Stop(TIMEOUT_REASON)]
    ensures ViolationCount(r) ==
              if moderatorUp && msg.RoomMessage? && msg.message.body.Some?
                 && (Occurs(HTTPS, msg.message.body.value) || Occurs(HTTP, msg.message.body.value))
              then 1 else 0
    ensures forall e :: e in r && e.Violate? ==> e.violation == Violation(key, Spam)
    ensures !msg.Heartbeat? ==> r == if ViolationCount(r) == 1 then [Violate(Violation(key, Spam))] else []
  {
    match msg
    case Heartbeat => [Stop(TIMEOUT_REASON)]
    case RoomMessage(m) =>
      if m.body.Some? then
        IsLinkIffUrlOccurs(m.body.value);
        if IsLink(m.body.value) then Report(key, Spam, moderatorUp) else []
      else []
    case ReactionMessage(_) => []
  }

  /** What the monitor emits over `msgs`, up to and including the timeout that stops it. */
  function Run(key: UserRoomId, msgs: seq<MonitorMessage>, moderatorUp: bool): seq<Effect>
    decreases |msgs|
  {
    if msgs == [] then []
    else if msgs[0].Heartbeat? then Handle(key, msgs[0], moderatorUp)
    else Handle(key, msgs[0], moderatorUp) + Run(key, msgs[1..], moderatorUp)
  }

  /** Messages carrying a URL in their original body. */
  ghost function LinkMessages(msgs: seq<MonitorMessage>): nat
  {
    if msgs == [] then 0
    else
      var m := msgs[0];
      (if m.RoomMessage? && m.message.body.Some?
          && (Occurs(HTTPS, m.message.body.value) || Occurs(HTTP, m.message.body.value)) then 1 else 0)
      + LinkMessages(msgs[1..])
  }

  /** No suppression and no counter: during the watch, each link message gets its own report. */
  lemma {:induction false} EveryLinkReported(key: UserRoomId, msgs: seq<MonitorMessage>)
    requires NoHeartbeat(msgs)
    ensures ViolationCount(Run(key, msgs, true)) == LinkMessages(msgs)
    decreases |msgs|
  {
    if msgs != [] {
      assert !msgs[0].Heartbeat?;
      assert NoHeartbeat(msgs[1..]) by {
        forall i | 0 <= i < |msgs[1..]| ensures !msgs[1..][i].Heartbeat? {
          assert msgs[1..][i] == msgs[i + 1];
        }
      }
      EveryLinkReported(key, msgs[1..]);
      ViolationCountAppend(Handle(key, msgs[0], true), Run(key, msgs[1..], true));
    }
  }

  /** Once the timeout fires the monitor is gone: whatever arrives later is never seen. */
  lemma {:induction false} NothingAfterTimeout(key: UserRoomId, before: seq<MonitorMessage>,
                                               after: seq<MonitorMessage>, moderatorUp: bool)
    requires NoHeartbeat(before)
    ensures Run(key, before + [Heartbeat] + after, moderatorUp) == Run(key, before, moderatorUp) + [Stop(TIMEOUT_REASON)]
    decreases |before|
  {
    var msgs := before + [Heartbeat] + after;
    if before == [] {
      assert msgs[0] == Heartbeat;
    } else {
      assert msgs[0] == before[0] && !before[0].Heartbeat?;
      assert msgs[1..] == before[1..] + [Heartbeat] + after;
      assert NoHeartbeat(before[1..]) by {
        forall i | 0 <= i < |before[1..]| ensures !before[1..][i].Heartbeat? {
          assert before[1..][i] == before[i + 1];
        }
      }
      NothingAfterTimeout(key, before[1..], after, moderatorUp);
    }
  }
}
