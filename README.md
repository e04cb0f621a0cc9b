# t1 moderation bot: per-(user, room) monitoring, modelled in Dafny

This project models the core of `t1`, a Matrix moderation bot. For every (user, room)
pair that becomes active, the bot runs a *monitor group*. The group owns up to three
monitors:

- a token-bucket **rate limiter**;
- a **link-spam** watcher;
- a join-time **captcha**.

The monitors report violations (`Spam`, `LikelyBot`) to a moderator actor. A **spawner**
creates groups, at most one per key. A root **supervisor** restarts the spawner and the
moderator when they fail. Two **event handlers** on the chat client filter incoming
events and route them to a group or to the spawner.

Every actor handles one message at a time. So each handler is modelled as a method on a
class (or, for the stateless link-spam monitor, a function). The handler returns its
outgoing effects as data, in the order the source performs them: violations, armed
timers, stops, sends and redactions. Timers are explicit `Heartbeat` inputs. The random
draw is an arbitrary natural number. Facts about the outside world are boolean or
`Option` inputs:

- whether an actor named "moderator" or "spawner" is registered;
- whether a config provider answers;
- whether the room resolves on the client.

Modules, one per source file:

| file | module | source |
|---|---|---|
| matrix.dfy | `Matrix` | `src/matrix.rs`, the name format of `src/main.rs:81` |
| messages.dfy | `Messages` | `MonitorMessage`, violations, supervision events |
| config.dfy | `Config` | the configuration the monitors read |
| ratelimit.dfy | `RateLimit` | `src/actors/monitor/ratelimit.rs` |
| monitor.dfy | `Monitor` | `src/actors/monitor.rs` |
| captcha.dfy | `Captcha` | `src/actors/monitor/captcha.rs` |
| link_spam.dfy | `LinkSpam` | `src/actors/monitor/link_spam.rs` |
| spawner.dfy | `Spawner` | `src/actors/spawner.rs` |
| supervisor.dfy | `Supervisor` | `src/actors/supervisor.rs` |
| router.dfy | `Router` | the two event-handler closures of `src/main.rs` |

Notes on the source as written (the model follows the code):

- The captcha's timeout stops the monitor with reason "answered", like a real answer.
- The recorded event id is never cleared.
- The membership handler registers the event's *sender*, not the member whose membership changed.
- No handler in `src/main.rs` routes reactions, so in this revision reactions never reach a
  group. The captcha's reaction path is modelled as the monitor defines it.
- The supervisor never starts a config provider, so in this revision the provider lookup of the
  link-spam and captcha monitors finds nothing. The model keeps the provider as an input.
- `UserRoomId` has no `Display` implementation in `src/matrix.rs`. The spawner's registry name is
  taken to be the router's `{sender}/{room_id}`, which is what lets the router find the group.

## Model

| member | source | states |
|---|---|---|
| Matrix.NameRoundTrip | src/main.rs:81 | the monitor name `{sender}/{room_id}` of a well-formed key parses back to that key |
| Matrix.MonitorNameInjective | src/main.rs:81 | two distinct well-formed keys never share a monitor name |
| Matrix.Host | src/main.rs:77 | the host of a server name is a prefix of it (the port is cut off) |
| Matrix.HostDropsPort | src/main.rs:77 | a port suffix does not change the host, and a plain host is its own host |
| Config.RoomMonitors | src/actors/monitor/link_spam.rs:38-48 | a room has its own monitors section iff its entry is `RoomDetail`, and then it is that entry's section |
| Config.CaptchaConfigFor | src/actors/monitor/captcha.rs:69-79 | the room's `RoomDetail` captcha override wins; otherwise the global section; absent iff both are absent |
| Config.LinkSpamConfigFor | src/actors/monitor/link_spam.rs:38-49 | the room's `RoomDetail` link-spam override wins; otherwise the global section; absent iff both are absent |
| Config.RoomEnabledIgnored | src/actors/monitor/link_spam.rs:42-43 | a `RoomEnabled(b)` entry falls back to the global settings whatever `b` is |
| RateLimit.NewBucketValues | src/actors/monitor/ratelimit.rs:84-91 | a fresh bucket has 3 tokens, cap 3, fill rate 3, a 60 s period, and is in the new tier |
| RateLimit.ConsumeOne | src/actors/monitor/ratelimit.rs:103-109 | spending one token succeeds iff at least one token was there; the balance never goes below -1 and nothing else changes |
| RateLimit.ConsumeWhenNegative | src/actors/monitor/ratelimit.rs:104-106 | a negative balance refuses any spend and is left unchanged |
| RateLimit.FillBounded | src/actors/monitor/ratelimit.rs:111-113 | a non-negative fill never passes the cap, never lowers the balance, and reaches either the cap or balance + count |
| RateLimit.UpgradeIdempotent | src/actors/monitor/ratelimit.rs:93-101 | upgrading twice is upgrading once, and an upgraded bucket is no longer new |
| RateLimit.HeartbeatRefillsThenUpgrades | src/actors/monitor/ratelimit.rs:49-55 | a heartbeat fills at the cap in force before it, then the cap is 30 and the rate 10, and exactly one heartbeat is re-armed |
| RateLimit.OneRearmPerHeartbeat | src/actors/monitor/ratelimit.rs:38-68 | a heartbeat re-arms exactly one heartbeat, a message or reaction none; one step reports at most one violation |
| RateLimit.StepKeepsInv | src/actors/monitor/ratelimit.rs:48-70 | one handled message keeps -1 <= tokens <= cap with a valid tier, and never brings the cap back from 30 |
| RateLimit.RunKeepsInv | src/actors/monitor/ratelimit.rs:48-70 | any message sequence keeps -1 <= tokens <= cap (no 32-bit overflow), and an upgraded cap stays 30 |
| RateLimit.UpgradeIsOneWay | src/actors/monitor/ratelimit.rs:49-53 | after any run that contains a heartbeat the cap is 30 and the rate 10 |
| RateLimit.Burst | src/actors/monitor/ratelimit.rs:56-68 | n messages with no heartbeat take the balance to max(c - n, -1); every message past the spendable tokens is reported once |
| RateLimit.FreshBucketBurst | src/actors/monitor/ratelimit.rs:56-68 | from a fresh bucket, three messages leave 0 tokens and no report; each later one leaves -1 and one Spam report |
| RateLimit.BurstEffects | src/actors/monitor/ratelimit.rs:56-68 | a burst emits nothing but Spam violations about the monitor's own key |
| RateLimit.Bucket.constructor | src/actors/monitor/ratelimit.rs:84-91 | `Bucket::new` gives the fresh bucket |
| RateLimit.Bucket.Upgrade | src/actors/monitor/ratelimit.rs:93-97 | sets cap 30, rate 10 and period 60 s, and keeps the balance |
| RateLimit.Bucket.IsNew | src/actors/monitor/ratelimit.rs:99-101 | the bucket is new iff its cap is 3 |
| RateLimit.Bucket.Consume | src/actors/monitor/ratelimit.rs:103-109 | in-place spend, agreeing with `Consumed` on the new fields and on the result |
| RateLimit.Bucket.Fill | src/actors/monitor/ratelimit.rs:111-113 | in-place fill capped at `token_max` |
| RateLimit.RateLimitMonitor.constructor | src/actors/monitor/ratelimit.rs:22-31 | the monitor starts with a fresh bucket for its key |
| RateLimit.RateLimitMonitor.PostStart | src/actors/monitor/ratelimit.rs:33-40 | post_start arms one heartbeat after the bucket's fill period |
| RateLimit.RateLimitMonitor.Handle | src/actors/monitor/ratelimit.rs:42-72 | the new bucket and the emitted effects are those of `Step`: refill and upgrade on a heartbeat, spend and report on a message or reaction |
| Monitor.ChildrenByTrigger | src/actors/monitor.rs:47-66 | a Join group runs rate limit, link spam and captcha; a Msg group only the first two |
| Monitor.AfterCountsHeartbeats | src/actors/monitor.rs:91-107 | age counts heartbeats only, and the last activity never exceeds the age, so `age - last_msg_age` never underflows |
| Monitor.QuietGroupStops | src/actors/monitor.rs:16-95 | with no activity, a group idle for d <= 1440 heartbeats stops on heartbeat 1441 - d, not before |
| Monitor.NewGroupIdlesOut | src/actors/monitor.rs:68-95 | a new group (age 0, last activity 0) left alone stops on its 1441st heartbeat |
| Monitor.ActivityResetsIdleClock | src/actors/monitor.rs:97-108 | after a message or reaction the group survives 1440 more quiet heartbeats and stops on the next |
| Monitor.StopsAtAppend | src/actors/monitor.rs:91-108 | a group that survives a prefix runs the rest from the clock the prefix left |
| Monitor.FanOut | src/actors/monitor.rs:98-100 | every member gets the message exactly once, in membership order |
| Monitor.ChildFailure | src/actors/monitor.rs:119-140 | a supervision event propagates an error iff it is a child failure, and then it is the child's error |
| Monitor.Without | src/actors/monitor.rs:89 | a stopped child leaves the process group and nothing else does |
| Monitor.MonitorGroup.constructor | src/actors/monitor.rs:42-72 | pre_start joins the trigger's children to the group and starts the clock at age 0, last activity 0 |
| Monitor.MonitorGroup.Handle | src/actors/monitor.rs:83-111 | a heartbeat adds 1 to the age, keeps the last activity, and stops "idled too long" iff age - last > 1440; a message or reaction is cast to each member and sets the last activity to the age |
| Monitor.MonitorGroup.HandleSupervisorEvt | src/actors/monitor.rs:113-141 | a child failure fails the group; start, stop and group changes are only logged |
| Captcha.AnswerGlyphIsOffered | src/actors/monitor/captcha.rs:102-130 | answers 1-4 expect the matching offered keycap, distinct answers expect distinct keycaps, and any other answer expects "*" which is never offered |
| Captcha.QuestionIndexAsWritten | src/actors/monitor/captcha.rs:81-82 | `choose % len` panics iff the bank is empty, otherwise lands below `len` |
| Captcha.EmptyBankPanics | src/actors/monitor/captcha.rs:81-82 | an empty question bank makes start-up panic |
| Captcha.PickQuestion | src/actors/monitor/captcha.rs:81-82 | the question is absent iff the bank is empty, and otherwise comes from the bank |
| Captcha.PickAgreesOnNonEmptyBank | src/actors/monitor/captcha.rs:81-82 | on a non-empty bank the pick is the entry at `choose % len`, as in the source |
| Captcha.PlanPostsWhenConfigured | src/actors/monitor/captcha.rs:61-83 | a challenge is posted iff a provider answers, the chosen captcha config has a non-empty bank and the room resolves; its question is from that bank |
| Captcha.OffTargetReactionIgnored | src/actors/monitor/captcha.rs:166-168 | with no recorded event, a redacted reaction, or another target, a reaction emits nothing and does not stop the monitor |
| Captcha.RoomMessageIgnored | src/actors/monitor/captcha.rs:189 | room messages emit nothing and do not stop the monitor |
| Captcha.ReactionOnQuestion | src/actors/monitor/captcha.rs:168-184 | a reaction on the posted question reports one LikelyBot iff the glyph is wrong, then stops "answered" and redacts the question |
| Captcha.TimeoutReports | src/actors/monitor/captcha.rs:148-163 | the timeout reports LikelyBot for this key exactly once when a moderator is up; it stops, and redacts the recorded question, iff an event is recorded and the room resolves, and redacts nothing else |
| Captcha.AtMostOneReport | src/actors/monitor/captcha.rs:141-193 | once a question is posted in a resolving room, any sequence of events reports the user at most once |
| Captcha.CaptchaMonitor.constructor | src/actors/monitor/captcha.rs:43-54 | no recorded event and an empty expected answer |
| Captcha.CaptchaMonitor.PostStart | src/actors/monitor/captcha.rs:56-139 | posts the question, the four keycap reactions and the timeout, and records the event id and expected glyph iff `Plan` gives a challenge (with the corrected pick, see Findings); otherwise changes nothing |
| Captcha.CaptchaMonitor.Handle | src/actors/monitor/captcha.rs:141-193 | emits `Respond`'s effects, keeps event id and answer, and stops iff the event ends the challenge |
| LinkSpam.ContainsIsOccurs | src/actors/monitor/link_spam.rs:73-74 | the left-to-right scan finds `p` iff `p` occurs in the body as a substring |
| LinkSpam.IsLinkIffUrlOccurs | src/actors/monitor/link_spam.rs:73-74 | a body is a link iff "https://" or "http://" occurs in it |
| LinkSpam.PreStart | src/actors/monitor/link_spam.rs:30-58 | with a provider, a configured monitor arms its watch timeout and an unconfigured one stops "disabled"; without a provider nothing happens |
| LinkSpam.Handle | src/actors/monitor/link_spam.rs:61-93 | the timeout stops "waited long enough" and does nothing else; a message yields exactly `[Violate(Spam)]` for this key when its body holds `https://` or `http://` and a moderator is up, and nothing otherwise; reactions yield nothing |
| LinkSpam.EveryLinkReported | src/actors/monitor/link_spam.rs:71-87 | during the watch, the number of reports equals the number of link messages: no suppression, no counter |
| LinkSpam.NothingAfterTimeout | src/actors/monitor/link_spam.rs:68-70 | nothing that arrives after the timeout is seen |
| Spawner.OnePerKeyIsAtMostOne | src/actors/spawner.rs:36-57 | in a registry that keeps each group under its key's name, two groups never share a key |
| Spawner.RegisterSpawnsOnce | src/actors/spawner.rs:36-57 | a registration spawns iff the key's name is free, with trigger Msg or Join by message kind; a repeat for the key is a no-op |
| Spawner.RegisterLeavesOtherKeys | src/actors/spawner.rs:36-57 | registering one key never adds, removes or changes another key's group |
| Spawner.RunKeepsOnePerKey | src/actors/spawner.rs:36-83 | any sequence of registrations and exits keeps at most one group per key |
| Spawner.ExitFreesKey | src/actors/spawner.rs:63-88 | a stopped or failed group is not restarted; its name is free and the next registration spawns a new group |
| Spawner.Spawner.constructor | src/actors/spawner.rs:21-27 | the spawner starts with no registered groups |
| Spawner.Spawner.Handle | src/actors/spawner.rs:29-61 | check-then-spawn: the new registry is `Registered` of the old |
| Spawner.Spawner.HandleSupervisorEvt | src/actors/spawner.rs:63-88 | events are only logged; a stopped or failed group's name leaves the registry |
| Supervisor.Restart | src/actors/supervisor.rs:58-70 | a restart happens iff a child named "spawner" or "moderator" failed, restarts that child, and gives the moderator the stored client |
| Supervisor.EveryFailureRestarts | src/actors/supervisor.rs:58-70 | the number of restarts equals the number of singleton failures, with no budget, and always with the same client |
| Supervisor.SingletonsStayUp | src/actors/supervisor.rs:52-74 | a running singleton stays running across any events except its own normal stop |
| Supervisor.Supervisor.constructor | src/actors/supervisor.rs:34-43 | starts the spawner first and then the moderator with the client |
| Supervisor.Supervisor.HandleSupervisorEvt | src/actors/supervisor.rs:45-77 | appends exactly `Restart`'s start, keeps the client, and updates the live singletons |
| Router.Delay | src/main.rs:65-67 | saturating `now - origin_server_ts`: zero for a future timestamp |
| Router.RouteMessage | src/main.rs:63-95 | drops stale and bridge messages; otherwise forwards to the group under `{sender}/{room_id}` iff one is registered, and otherwise sends `RegisterUser` to the spawner |
| Router.RouteMember | src/main.rs:97-108 | every membership event sends `RegisterUserJoin(sender, room)` when a spawner is registered, with no filtering |
| Router.DelayBoundary | src/main.rs:23-69 | exactly 10,000 ms old is kept, older is dropped, a future timestamp is kept |
| Router.BridgeUsersDropped | src/main.rs:77-80 | users of `t2bot.io`, with or without a port, are dropped |
| Router.FirstContactThenForward | src/main.rs:81-92 | a new key's first message only registers a Msg group; the key's next message is forwarded to it and a later join changes nothing |

## Findings

| source | as written | input that shows it | evidently intended | confidence | as-written member | corrected member |
|---|---|---|---|---|---|---|
| src/actors/monitor/captcha.rs:81-82 | `choose % captcha.questions.len()` is evaluated before `questions.get(..)` | a captcha config with an empty `questions` list: the remainder by zero panics, the captcha fails and takes its group down | an empty bank posts no challenge, as the `if let Some(question)` fallback suggests | medium, not executed | Captcha.QuestionIndexAsWritten | Captcha.PickQuestion |

## Left out

- Matrix client I/O is out of scope: login, sync and its 10 s retry loop, signal handling, and
  joining rooms (src/main.rs:26-62, 110-147). Sends, profile lookups and redactions become
  recorded effects. Their failures (`?` on `send`, `get_profile`, `redact`, `cast`) are not
  modelled.
- Moderator lookup is a boolean input. When no moderator is registered, the violation is logged
  and dropped. The moderator itself (kick/ban) is not part of this model.
- The config provider's file read and TOML parsing, and the serde structs of `src/config.rs`, are
  out of scope. Config is the `rooms`/`monitors` shape the monitors read, passed in as an
  `Option` (None when no provider is registered). A failed `call(..).unwrap()` is not modelled.
- Timer durations (`send_after`, `send_interval`) and the group's 60 s interval: heartbeats and
  timeouts are explicit inputs.
- `rand::random` is an arbitrary natural-number input.
- The challenge's HTML body and the matrix.to link are left out. Only the plain body and the
  mention are modelled.
- Cross-actor concurrency and the runtime's supervision delivery are out of scope. The runtime's
  removal of a stopped child from its process group, and of a stopped actor's name from the
  registry, is folded into the handlers that receive the matching supervision event.
- The argument mismatch where `start_spawner` passes `()` to an actor expecting a client is not
  modelled.
- RateLimit.Bucket.Consume: does not model 32-bit overflow of `i32` arithmetic.
  `RateLimit.RunKeepsInv` shows the balance stays within [-1, 30] under the monitor's own calls.
- Monitor.MonitorGroup.Handle: does not model the `u64` age wrapping; it would need 2^64 heartbeats.
- Spawner.Spawner.Handle: a failed `Actor::spawn_linked(..).await?` is not modelled. In the
  source such a failure, including a group's failed `pre_start`, fails the spawner
  (src/actors/spawner.rs:38-44, src/actors/spawner.rs:49-55, src/actors/monitor.rs:48-65); the
  model always registers the group.
- Supervisor.Supervisor.HandleSupervisorEvt: a failed restart (`start_spawner` or
  `start_moderator` returning an error, src/actors/supervisor.rs:11, src/actors/supervisor.rs:19-25,
  src/actors/supervisor.rs:66-67) fails the supervisor in the source; the model always restarts.
  Failures in its own `pre_start` (src/actors/supervisor.rs:39-40) are not modelled either.
- Matrix.Host: IPv6 literals are cut at the closing bracket. The server-name grammar is not
  validated further.
