/**
 * The rate-limit monitor: a token bucket per (user, room).
 *
 * A fresh bucket holds 3 tokens with a cap of 3 (the "new" tier).  Each message
 * or reaction spends one token; spending fails once the balance is negative, and
 * the balance may sit at -1.  A heartbeat refills at the current cap and then
 * upgrades the bucket, once and for good, to a cap of 30 refilled by 10.
 *
 * `BucketState` and the functions over it specify class `Bucket`; the lemmas
 * about whole runs of messages are stated over those functions.
 */
module RateLimit {
  import opened Matrix
  import opened Messages

  const NEW_TOKEN_MAX: int := 3
  const NEW_FILL_RATE: int := 3
  const ESTABLISHED_TOKEN_MAX: int := 30
  const ESTABLISHED_FILL_RATE: int := 10
  const FILL_FREQ_SECS: nat := 60

  /** The four fields of a bucket, as a value. */
  datatype BucketState = BucketState(tokenCurrent: int, tokenMax: int, fillRate: int, fillFreqSecs: nat)

  function NewBucket(): BucketState
  {
    BucketState(3, NEW_TOKEN_MAX, NEW_FILL_RATE, FILL_FREQ_SECS)
  }

  function Upgraded(b: BucketState): BucketState
  {
    b.(tokenMax := ESTABLISHED_TOKEN_MAX, fillRate := ESTABLISHED_FILL_RATE, fillFreqSecs := FILL_FREQ_SECS)
  }

  predicate IsNewTier(b: BucketState)
  {
    b.tokenMax == NEW_TOKEN_MAX
  }

  /** Spending `count` tokens: the new bucket and whether the spend was within budget. */
  function Consumed(b: BucketState, count: int): (BucketState, bool)
  {
    if b.tokenCurrent < 0 then (b, false)
    else
      var t := b.tokenCurrent - count;
      (b.(tokenCurrent := t), t >= 0)
  }

  function Filled(b: BucketState, count: int): BucketState
  {
    b.(tokenCurrent := if b.tokenMax < b.tokenCurrent + count then b.tokenMax else b.tokenCurrent + count)
  }

  /** What one message does to the monitor's bucket, and what the monitor emits. */
  function Step(key: UserRoomId, b: BucketState, msg: MonitorMessage, moderatorUp: bool): (BucketState, seq<Effect>)
  {
    match msg
    case Heartbeat =>
      var filled := Filled(b, b.fillRate);
      var next := if IsNewTier(filled) then Upgraded(filled) else filled;
      (next, [ArmHeartbeat(next.fillFreqSecs)])
    case _ =>
      var (next, ok) := Consumed(b, 1);
      (next, if ok then [] else Report(key, Spam, moderatorUp))
  }

  /** The monitor's state and output after handling `msgs` in order. */
  function Run(key: UserRoomId, b: BucketState, msgs: seq<MonitorMessage>, moderatorUp: bool): (BucketState, seq<Effect>)
    decreases |msgs|
  {
    if msgs == [] then (b, [])
    else
      var (b1, e1) := Step(key, b, msgs[0], moderatorUp);
      var (b2, e2) := Run(key, b1, msgs[1..], moderatorUp);
      (b2, e1 + e2)
  }

  /** Every bucket reachable from `NewBucket()` satisfies this. */
  predicate Inv(b: BucketState)
  {
    -1 <= b.tokenCurrent <= b.tokenMax
    && b.fillFreqSecs == FILL_FREQ_SECS
    && ((b.tokenMax == NEW_TOKEN_MAX && b.fillRate == NEW_FILL_RATE)
        || (b.tokenMax == ESTABLISHED_TOKEN_MAX && b.fillRate == ESTABLISHED_FILL_RATE))
  }

  lemma NewBucketValues()
    ensures NewBucket().tokenCurrent == 3 && NewBucket().tokenMax == 3 && NewBucket().fillRate == 3
    ensures NewBucket().fillFreqSecs == 60 && Inv(NewBucket()) && IsNewTier(NewBucket())
  {
  }

  /**
   * Spending one token succeeds exactly when a token was there to spend; a
   * failed spend never takes the balance below -1 and never touches the cap.
   */
  lemma ConsumeOne(b: BucketState)
    requires b.tokenCurrent >= -1
    ensures Consumed(b, 1).1 <==> b.tokenCurrent >= 1
    ensures Consumed(b, 1).0.tokenCurrent == (if b.tokenCurrent >= 0 then b.tokenCurrent - 1 else b.tokenCurrent)
    ensures Consumed(b, 1).0.tokenCurrent >= -1
    ensures Consumed(b, 1).0.(tokenCurrent := b.tokenCurrent) == b
  {
  }

  /** A negative balance refuses every spend and stays as it is. */
  lemma ConsumeWhenNegative(b: BucketState, count: int)
    requires b.tokenCurrent < 0
    ensures Consumed(b, count) == (b, false)
  {
  }

  /** A non-negative fill never passes the cap and never lowers the balance below the cap. */
  lemma FillBounded(b: BucketState, count: int)
    requires count >= 0 && b.tokenCurrent <= b.tokenMax
    ensures Filled(b, count).tokenCurrent <= b.tokenMax
    ensures b.tokenCurrent <= Filled(b, count).tokenCurrent
    ensures Filled(b, count).tokenCurrent == b.tokenMax || Filled(b, count).tokenCurrent == b.tokenCurrent + count
    ensures Filled(b, count).(tokenCurrent := b.tokenCurrent) == b
  {
  }

  lemma UpgradeIdempotent(b: BucketState)
    ensures Upgraded(Upgraded(b)) == Upgraded(b)
    ensures !IsNewTier(Upgraded(b))
  {
  }

  /**
   * A heartbeat refills at the cap in force before it, then leaves the bucket in
   * the established tier, and re-arms exactly one further heartbeat.
   */
  lemma HeartbeatRefillsThenUpgrades(key: UserRoomId, b: BucketState, moderatorUp: bool)
    requires Inv(b)
    ensures var (next, effects) := Step(key, b, Heartbeat, moderatorUp);
      && next.tokenCurrent == (if b.tokenCurrent + b.fillRate < b.tokenMax then b.tokenCurrent + b.fillRate else b.tokenMax)
      && next.tokenMax == ESTABLISHED_TOKEN_MAX && next.fillRate == ESTABLISHED_FILL_RATE
      && effects == [ArmHeartbeat(FILL_FREQ_SECS)]
  {
  }

  /** Messages and reactions never arm a heartbeat; a heartbeat arms exactly one. */
  lemma OneRearmPerHeartbeat(key: UserRoomId, b: BucketState, msg: MonitorMessage, moderatorUp: bool)
    ensures ArmCount(Step(key, b, msg, moderatorUp).1) == if msg.Heartbeat? then 1 else 0
    ensures ViolationCount(Step(key, b, msg, moderatorUp).1) <= 1
  {
  }

  lemma StepKeepsInv(key: UserRoomId, b: BucketState, msg: MonitorMessage, moderatorUp: bool)
    requires Inv(b)
    ensures Inv(Step(key, b, msg, moderatorUp).0)
    ensures b.tokenMax == ESTABLISHED_TOKEN_MAX ==> Step(key, b, msg, moderatorUp).0.tokenMax == ESTABLISHED_TOKEN_MAX
  {
  }

  /**
   * Whatever the monitor receives, the balance stays within [-1, cap] (so the
   * source's 32-bit fields never overflow), and once upgraded the cap stays 30.
   */
  lemma {:induction false} RunKeepsInv(key: UserRoomId, b: BucketState, msgs: seq<MonitorMessage>, moderatorUp: bool)
    requires Inv(b)
    ensures Inv(Run(key, b, msgs, moderatorUp).0)
    ensures b.tokenMax == ESTABLISHED_TOKEN_MAX ==> Run(key, b, msgs, moderatorUp).0.tokenMax == ESTABLISHED_TOKEN_MAX
    decreases |msgs|
  {
    if msgs != [] {
      StepKeepsInv(key, b, msgs[0], moderatorUp);
      RunKeepsInv(key, Step(key, b, msgs[0], moderatorUp).0, msgs[1..], moderatorUp);
    }
  }

  /** After any run that contains a heartbeat, the bucket is in the established tier. */
  lemma {:induction false} UpgradeIsOneWay(key: UserRoomId, b: BucketState, msgs: seq<MonitorMessage>, moderatorUp: bool, i: nat)
    requires Inv(b)
    requires i < |msgs| && msgs[i].Heartbeat?
    ensures Run(key, b, msgs, moderatorUp).0.tokenMax == ESTABLISHED_TOKEN_MAX
    ensures Run(key, b, msgs, moderatorUp).0.fillRate == ESTABLISHED_FILL_RATE
    decreases |msgs|
  {
    var b1 := Step(key, b, msgs[0], moderatorUp).0;
    StepKeepsInv(key, b, msgs[0], moderatorUp);
    if i == 0 {
      RunKeepsInv(key, b1, msgs[1..], moderatorUp);
    } else {
      UpgradeIsOneWay(key, b1, msgs[1..], moderatorUp, i - 1);
    }
  }

  /**
   * A burst of `|msgs|` messages and reactions with no heartbeat between them,
   * from a balance `c >= -1`: the balance ends at max(c - |msgs|, -1), and every
   * message beyond the first max(c, 0) is reported as one Spam violation.
   */
  lemma {:induction false} Burst(key: UserRoomId, b: BucketState, msgs: seq<MonitorMessage>, moderatorUp: bool)
    requires b.tokenCurrent >= -1 && NoHeartbeat(msgs)
    ensures var (next, effects) := Run(key, b, msgs, moderatorUp);
      var spendable := if b.tokenCurrent > 0 then b.tokenCurrent else 0;
      && next == b.(tokenCurrent := if b.tokenCurrent - |msgs| > -1 then b.tokenCurrent - |msgs| else -1)
      && ViolationCount(effects) == (if moderatorUp && |msgs| > spendable then |msgs| - spendable else 0)
      && |effects| == ViolationCount(effects)
    decreases |msgs|
  {
    if msgs != [] {
      assert !msgs[0].Heartbeat?;
      var (b1, e1) := Step(key, b, msgs[0], moderatorUp);
      assert NoHeartbeat(msgs[1..]) by {
        forall i | 0 <= i < |msgs[1..]| ensures !msgs[1..][i].Heartbeat? {
          assert msgs[1..][i] == msgs[i + 1];
        }
      }
      Burst(key, b1, msgs[1..], moderatorUp);
      var e2 := Run(key, b1, msgs[1..], moderatorUp).1;
      ViolationCountAppend(e1, e2);
    }
  }

  /**
   * From a fresh bucket: three messages leave 0 tokens and no violation; a
   * fourth leaves -1 and one Spam violation; each further message before a
   * heartbeat adds one more violation and leaves the balance at -1.
   */
  lemma FreshBucketBurst(key: UserRoomId, msgs: seq<MonitorMessage>)
    requires NoHeartbeat(msgs)
    ensures |msgs| <= 3 ==> Run(key, NewBucket(), msgs, true) == (NewBucket().(tokenCurrent := 3 - |msgs|), [])
    ensures |msgs| >= 4 ==> Run(key, NewBucket(), msgs, true).0.tokenCurrent == -1
    ensures |msgs| >= 4 ==> Run(key, NewBucket(), msgs, true).1 == seq(|msgs| - 3, _ => Violate(Violation(key, Spam)))
  {
    Burst(key, NewBucket(), msgs, true);
    BurstEffects(key, NewBucket(), msgs);
    var effects := Run(key, NewBucket(), msgs, true).1;
    if |msgs| >= 4 {
      forall i | 0 <= i < |effects| ensures effects[i] == Violate(Violation(key, Spam)) {
        assert effects[i] in effects;
      }
    }
  }

  /** The only effects of a burst are Spam violations about the monitor's own key. */
  lemma {:induction false} BurstEffects(key: UserRoomId, b: BucketState, msgs: seq<MonitorMessage>)
    requires NoHeartbeat(msgs)
    ensures forall e :: e in Run(key, b, msgs, true).1 ==> e == Violate(Violation(key, Spam))
    decreases |msgs|
  {
    if msgs != [] {
      assert NoHeartbeat(msgs[1..]) by {
        forall i | 0 <= i < |msgs[1..]| ensures !msgs[1..][i].Heartbeat? {
          assert msgs[1..][i] == msgs[i + 1];
        }
      }
      BurstEffects(key, Step(key, b, msgs[0], true).0, msgs[1..]);
    }
  }

  /** A token bucket, updated in place by its owning monitor. */
  class Bucket {
    var tokenCurrent: int
    var tokenMax: int
    var fillRate: int
    var fillFreqSecs: nat

    function Value(): BucketState
      reads this
    {
      BucketState(tokenCurrent, tokenMax, fillRate, fillFreqSecs)
    }

    constructor ()
      ensures Value() == NewBucket()
    {
      tokenCurrent := 3;
      tokenMax := NEW_TOKEN_MAX;
      fillRate := NEW_FILL_RATE;
      fillFreqSecs := FILL_FREQ_SECS;
    }

    method Upgrade()
      modifies this
      ensures Value() == Upgraded(old(Value()))
    {
      tokenMax := ESTABLISHED_TOKEN_MAX;
      fillRate := ESTABLISHED_FILL_RATE;
      fillFreqSecs := FILL_FREQ_SECS;
    }

    function IsNew(): (r: bool)
      reads this
      ensures r <==> IsNewTier(Value())
    {
      tokenMax == NEW_TOKEN_MAX
    }

    method Consume(count: int) returns (ok: bool)
      modifies this
      ensures (Value(), ok) == Consumed(old(Value()), count)
    {
      if tokenCurrent < 0 {
        return false;
      }
      tokenCurrent := tokenCurrent - count;
      ok := tokenCurrent >= 0;
    }

    method Fill(count: int)
      modifies this
      ensures Value() == Filled(old(Value()), count)
    {
      tokenCurrent := if tokenMax < tokenCurrent + count then tokenMax else tokenCurrent + count;
    }
  }

  /** The monitor actor: its key and its bucket. */
  class RateLimitMonitor {
    const key: UserRoomId
    const bucket: Bucket

    /** pre_start: a fresh bucket. */
    constructor (key: UserRoomId)
      ensures this.key == key && fresh(bucket) && bucket.Value() == NewBucket()
    {
      this.key := key;
      bucket := new Bucket();
    }

    /** post_start: the first refill tick, one fill period from now. */
    method PostStart() returns (effects: seq<Effect>)
      ensures effects == [ArmHeartbeat(bucket.fillFreqSecs)]
    {
      effects := [ArmHeartbeat(bucket.fillFreqSecs)];
    }

    method Handle(msg: MonitorMessage, moderatorUp: bool) returns (effects: seq<Effect>)
      modifies bucket
      ensures (bucket.Value(), effects) == Step(key, old(bucket.Value()), msg, moderatorUp)
    {
      match msg {
        case Heartbeat =>
          bucket.Fill(bucket.fillRate);
          if bucket.IsNew() {
            bucket.Upgrade();
          }
          effects := [ArmHeartbeat(bucket.fillFreqSecs)];
        case _ =>
          var ok := bucket.Consume(1);
          effects := if ok then [] else Report(key, Spam, moderatorUp);
      }
    }
  }
}
