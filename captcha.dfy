/**
 * The captcha monitor, run only in groups created by a join.
 *
 * After start it posts one question to the room, offers four keycap reactions
 * on it, records the posted event and the expected keycap, and arms a timeout.
 * A reaction on the posted event ends the challenge (a wrong keycap is reported
 * as LikelyBot first); the timeout reports LikelyBot and ends it too.  Ending
 * means stopping the monitor and redacting the question, which needs the room
 * to resolve on the client.
 */
module Captcha {
  import opened Wrappers
  import opened Matrix
  import opened Messages
  import opened Config

  const GLYPH_1 := "1\U{FE0F}\U{20E3}"
  const GLYPH_2 := "2\U{FE0F}\U{20E3}"
  const GLYPH_3 := "3\U{FE0F}\U{20E3}"
  const GLYPH_4 := "4\U{FE0F}\U{20E3}"
  /** The expected glyph for an answer outside 1..4; the bot never offers it. */
  const GLYPH_OTHER := "*\U{FE0F}\U{20E3}"

  /** The reactions offered under every question, in the order they are sent. */
  const OPTION_GLYPHS := [GLYPH_1, GLYPH_2, GLYPH_3, GLYPH_4]

  const ANSWERED_REASON := "answered"

  /** The keycap a question's configured answer expects. */
  function AnswerGlyph(answer: U8): string
  {
    match answer
    case 1 => GLYPH_1
    case 2 => GLYPH_2
    case 3 => GLYPH_3
    case 4 => GLYPH_4
    case _ => GLYPH_OTHER
  }

  /**
   * Answers 1 to 4 expect the matching offered reaction, and distinct answers
   * expect distinct reactions; any other answer expects a glyph that is never
   * offered, so no offered reaction passes.
   */
  lemma AnswerGlyphIsOffered(answer: U8, other: U8)
    ensures 1 <= answer <= 4 ==> AnswerGlyph(answer) == OPTION_GLYPHS[answer - 1]
    ensures !(1 <= answer <= 4) ==> AnswerGlyph(answer) !in OPTION_GLYPHS
    ensures 1 <= answer <= 4 && AnswerGlyph(answer) == AnswerGlyph(other) ==> answer == other
  {
    assert GLYPH_OTHER[0] == '*';
    assert GLYPH_1[0] == '1' && GLYPH_2[0] == '2' && GLYPH_3[0] == '3' && GLYPH_4[0] == '4';
  }

  /** What evaluating `choose % len` does in the source: a zero divisor panics. */
  datatype Panic = RemainderByZero

  function QuestionIndexAsWritten(choose: nat, len: nat): (r: Result<nat, Panic>)
    ensures r.Err? <==> len == 0
    ensures r.Ok? ==> r.value < len
  {
    if len == 0 then Err(RemainderByZero) else Ok(choose % len)
  }

  /** An empty question bank makes start-up panic instead of skipping the challenge. */
  lemma EmptyBankPanics(choose: nat)
    ensures QuestionIndexAsWritten(choose, 0) == Err(RemainderByZero)
  {
  }

  /** The question asked: the bank entry at `choose` modulo the bank size; none for an empty bank. */
  function PickQuestion(choose: nat, questions: seq<CaptchaQuestion>): (r: Option<CaptchaQuestion>)
    ensures r.None? <==> |questions| == 0
    ensures r.Some? ==> r.value in questions
  {
    if |questions| == 0 then None else Some(questions[choose % |questions|])
  }

  /** On a non-empty bank the corrected pick is exactly the source's pick. */
  lemma PickAgreesOnNonEmptyBank(choose: nat, questions: seq<CaptchaQuestion>)
    requires |questions| > 0
    ensures QuestionIndexAsWritten(choose, |questions|).Ok?
    ensures PickQuestion(choose, questions) == Some(questions[QuestionIndexAsWritten(choose, |questions|).value])
  {
  }

  /** The settings and question of the challenge to post, if one is posted at all. */
  function Plan(config: Option<T1Config>, room: RoomId, choose: nat, roomResolves: bool): Option<(CaptchaConfig, CaptchaQuestion)>
  {
    if config.None? then None
    else
      match CaptchaConfigFor(config.value, room)
      case None => None
      case Some(captcha) =>
        match PickQuestion(choose, captcha.questions)
        case None => None
        case Some(question) => if roomResolves then Some((captcha, question)) else None
  }

  /**
   * A challenge is posted exactly when a config provider answers, the room's
   * override or the global section configures the captcha with a non-empty
   * bank, and the room resolves; its question comes from that bank.
   */
  lemma PlanPostsWhenConfigured(config: Option<T1Config>, room: RoomId, choose: nat, roomResolves: bool)
    ensures Plan(config, room, choose, roomResolves).Some? <==>
              config.Some? && CaptchaConfigFor(config.value, room).Some?
              && |CaptchaConfigFor(config.value, room).value.questions| > 0 && roomResolves
    ensures Plan(config, room, choose, roomResolves).Some? ==>
              var (captcha, question) := Plan(config, room, choose, roomResolves).value;
              captcha == CaptchaConfigFor(config.value, room).value && question in captcha.questions
  {
  }

  /** `{display_name}: {question}`, the display name falling back to the localpart. */
  function ChallengeBody(user: UserId, displayName: Option<string>, question: CaptchaQuestion): string
  {
    (if displayName.Some? then displayName.value else user.localpart) + ": " + question.body
  }

  /** What posting a challenge sends, in order, and the timeout it arms. */
  function ChallengeEffects(key: UserRoomId, displayName: Option<string>, posted: EventId,
                            captcha: CaptchaConfig, question: CaptchaQuestion): seq<Effect>
  {
    [SendNotice(key.room, ChallengeBody(key.user, displayName, question), key.user)]
    + [SendReaction(key.room, posted, GLYPH_1), SendReaction(key.room, posted, GLYPH_2),
       SendReaction(key.room, posted, GLYPH_3), SendReaction(key.room, posted, GLYPH_4)]
    + [ArmHeartbeat(captcha.timeoutSecs)]
  }

  /** Whether `msg` is a reaction to the recorded event (an original event, not a redacted one). */
  predicate OnTarget(eventId: Option<EventId>, msg: MonitorMessage)
  {
    msg.ReactionMessage? && msg.reaction.relatesTo.Some? && eventId.Some?
    && msg.reaction.relatesTo.value.eventId == eventId.value
  }

  /** Whether handling `msg` stops the monitor. */
  predicate Ends(eventId: Option<EventId>, msg: MonitorMessage, roomResolves: bool)
  {
    eventId.Some? && roomResolves && (msg.Heartbeat? || OnTarget(eventId, msg))
  }

  /** What the monitor emits on `msg`, given its recorded event and expected glyph. */
  function Respond(key: UserRoomId, eventId: Option<EventId>, answer: string, msg: MonitorMessage,
                   roomResolves: bool, moderatorUp: bool): seq<Effect>
  {
    var finish := if eventId.Some? && roomResolves then [Stop(ANSWERED_REASON), Redact(key.room, eventId.value)] else [];
    match msg
    case Heartbeat => Report(key, LikelyBot, moderatorUp) + finish
    case ReactionMessage(r) =>
      if OnTarget(eventId, msg) then
        (if r.relatesTo.value.key != answer then Report(key, LikelyBot, moderatorUp) else []) + finish
      else []
    case RoomMessage(_) => []
  }

  /** Before a challenge is posted, and for any other event, reactions change nothing. */
  lemma OffTargetReactionIgnored(key: UserRoomId, eventId: Option<EventId>, answer: string, r: ReactionEvent,
                                 roomResolves: bool, moderatorUp: bool)
    requires eventId.None? || r.relatesTo.None? || r.relatesTo.value.eventId != eventId.value
    ensures Respond(key, eventId, answer, ReactionMessage(r), roomResolves, moderatorUp) == []
    ensures !Ends(eventId, ReactionMessage(r), roomResolves)
  {
  }

  lemma RoomMessageIgnored(key: UserRoomId, eventId: Option<EventId>, answer: string, m: RoomMessageEvent,
                           roomResolves: bool, moderatorUp: bool)
    ensures Respond(key, eventId, answer, RoomMessage(m), roomResolves, moderatorUp) == []
    ensures !Ends(eventId, RoomMessage(m), roomResolves)
  {
  }

  /**
   * A reaction on the posted question: the wrong glyph is reported once as
   * LikelyBot, then (right or wrong) the monitor stops and redacts the question.
   */
  lemma ReactionOnQuestion(key: UserRoomId, posted: EventId, answer: string, glyph: string, sender: UserId)
    ensures var msg := ReactionMessage(ReactionEvent(sender, Some(Annotation(posted, glyph))));
      && Respond(key, Some(posted), answer, msg, true, true) ==
           (if glyph == answer then [] else [Violate(Violation(key, LikelyBot))])
           + [Stop(ANSWERED_REASON), Redact(key.room, posted)]
      && Ends(Some(posted), msg, true)
  {
  }

  /**
   * The timeout always reports exactly one LikelyBot violation (when a moderator
   * is registered); it stops and redacts only if a question was posted and the room resolves.
   */
  lemma TimeoutReports(key: UserRoomId, eventId: Option<EventId>, answer: string, roomResolves: bool, moderatorUp: bool)
    ensures var effects := Respond(key, eventId, answer, Heartbeat, roomResolves, moderatorUp);
      && ViolationCount(effects) == (if moderatorUp then 1 else 0)
      && (Stops(effects) <==> eventId.Some? && roomResolves)
      && (eventId.Some? && roomResolves ==> Redact(key.room, eventId.value) in effects)
      && (forall e :: e in effects && e.Redact? ==> eventId.Some? && roomResolves && e == Redact(key.room, eventId.value))
      && (forall e :: e in effects && e.Violate? ==> e.violation == Violation(key, LikelyBot))
  {
    var effects := Respond(key, eventId, answer, Heartbeat, roomResolves, moderatorUp);
    if eventId.Some? && roomResolves {
      var finish := [Stop(ANSWERED_REASON), Redact(key.room, eventId.value)];
      FinishReportsNothing(key, eventId.value);
      ViolationCountAppend(Report(key, LikelyBot, moderatorUp), finish);
      assert effects[|effects| - 2].Stop?;
    }
  }

  lemma FinishReportsNothing(key: UserRoomId, posted: EventId)
    ensures ViolationCount([Stop(ANSWERED_REASON), Redact(key.room, posted)]) == 0
  {
    NoViolationCounted([Stop(ANSWERED_REASON), Redact(key.room, posted)]);
  }

  /** What the monitor emits over `msgs`, up to and including the message that stops it. */
  function Run(key: UserRoomId, eventId: Option<EventId>, answer: string, msgs: seq<MonitorMessage>,
               roomResolves: bool, moderatorUp: bool): seq<Effect>
    decreases |msgs|
  {
    if msgs == [] then []
    else
      var effects := Respond(key, eventId, answer, msgs[0], roomResolves, moderatorUp);
      if Ends(eventId, msgs[0], roomResolves) then effects
      else effects + Run(key, eventId, answer, msgs[1..], roomResolves, moderatorUp)
  }

  /**
   * Once a question is posted in a room that resolves, a user is reported at
   * most once however many reactions and timeouts follow: only the event that
   * ends the challenge can report, and every earlier one emits nothing.
   */
  lemma {:induction false} AtMostOneReport(key: UserRoomId, posted: EventId, answer: string,
                                           msgs: seq<MonitorMessage>, moderatorUp: bool)
    ensures ViolationCount(Run(key, Some(posted), answer, msgs, true, moderatorUp)) <= 1
    decreases |msgs|
  {
    if msgs != [] {
      var effects := Respond(key, Some(posted), answer, msgs[0], true, moderatorUp);
      if !Ends(Some(posted), msgs[0], true) {
        assert effects == [];
        AtMostOneReport(key, posted, answer, msgs[1..], moderatorUp);
        assert effects + Run(key, Some(posted), answer, msgs[1..], true, moderatorUp)
            == Run(key, Some(posted), answer, msgs[1..], true, moderatorUp);
      } else {
        var finish := [Stop(ANSWERED_REASON), Redact(key.room, posted)];
        FinishReportsNothing(key, posted);
        ViolationCountAppend(Report(key, LikelyBot, moderatorUp), finish);
        ViolationCountAppend([], finish);
      }
    }
  }

  class CaptchaMonitor {
    const key: UserRoomId
    var eventId: Option<EventId>
    var answer: string
    var alive: bool

    /** pre_start: nothing posted yet, nothing expected. */
    constructor (key: UserRoomId)
      ensures this.key == key && eventId == None && answer == "" && alive
    {
      this.key := key;
      eventId := None;
      answer := "";
      alive := true;
    }

    /**
     * post_start: post the challenge, if the configuration gives a question and
     * the room resolves.  `config` is None when no config provider is registered;
     * `choose` is the random draw; `postedId` is the id the server gives the question.
     */
    method PostStart(config: Option<T1Config>, choose: nat, roomResolves: bool,
                     displayName: Option<string>, postedId: EventId) returns (effects: seq<Effect>)
      modifies this
      ensures alive == old(alive)
      ensures Plan(config, key.room, choose, roomResolves).None? ==>
        effects == [] && eventId == old(eventId) && answer == old(answer)
      ensures Plan(config, key.room, choose, roomResolves).Some? ==>
        var (captcha, question) := Plan(config, key.room, choose, roomResolves).value;
        && effects == ChallengeEffects(key, displayName, postedId, captcha, question)
        && eventId == Some(postedId)
        && answer == AnswerGlyph(question.answer)
    {
      effects := [];
      if config.Some? {
        var captcha := CaptchaConfigFor(config.value, key.room);
        if captcha.Some? {
          var question := PickQuestion(choose, captcha.value.questions);
          if question.Some? && roomResolves {
            var body := ChallengeBody(key.user, displayName, question.value);
            effects := [SendNotice(key.room, body, key.user)];
            effects := effects + [SendReaction(key.room, postedId, GLYPH_1)];
            effects := effects + [SendReaction(key.room, postedId, GLYPH_2)];
            effects := effects + [SendReaction(key.room, postedId, GLYPH_3)];
            effects := effects + [SendReaction(key.room, postedId, GLYPH_4)];
            eventId := Some(postedId);
            answer := AnswerGlyph(question.value.answer);
            effects := effects + [ArmHeartbeat(captcha.value.timeoutSecs)];
          }
        }
      }
    }

    /** Heartbeat (the timeout) and reactions; room messages are ignored. */
    method Handle(msg: MonitorMessage, roomResolves: bool, moderatorUp: bool) returns (effects: seq<Effect>)
      requires alive
      modifies this
      ensures eventId == old(eventId) && answer == old(answer)
      ensures effects == Respond(key, eventId, answer, msg, roomResolves, moderatorUp)
      ensures alive == !Ends(eventId, msg, roomResolves)
    {
      effects := [];
      match msg {
        case Heartbeat =>
          effects := Report(key, LikelyBot, moderatorUp);
          if eventId.Some? && roomResolves {
            alive := false;
            effects := effects + [Stop(ANSWERED_REASON), Redact(key.room, eventId.value)];
          }
        case ReactionMessage(r) =>
          if r.relatesTo.Some? && eventId.Some? && r.relatesTo.value.eventId == eventId.value {
            if r.relatesTo.value.key != answer {
              effects := Report(key, LikelyBot, moderatorUp);
            }
            if roomResolves {
              alive := false;
              effects := effects + [Stop(ANSWERED_REASON), Redact(key.room, eventId.value)];
            }
          }
        case RoomMessage(_) =>
      }
    }
  }
}
