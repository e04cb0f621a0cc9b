/**
 * The configuration the monitors read: a global `monitors` section and, per room,
 * either a bare enabled flag or a detailed entry with its own `monitors` section.
 * Each monitor takes the room's detailed setting when there is one and falls back
 * to the global one; a bare `RoomEnabled` entry never overrides anything.
 */
module Config {
  import opened Wrappers
  import opened Matrix

  newtype U8 = x: int | 0 <= x < 256

  datatype CaptchaQuestion = CaptchaQuestion(body: string, answer: U8)

  datatype CaptchaConfig = CaptchaConfig(timeoutSecs: nat, questions: seq<CaptchaQuestion>)

  datatype LinkSpamConfig = LinkSpamConfig(watchTimeoutSecs: nat)

  datatype MonitorsConfig = MonitorsConfig(captcha: Option<CaptchaConfig>, linkSpam: Option<LinkSpamConfig>)

  datatype RoomConfig =
    | RoomEnabled(enabled: bool)
    | RoomDetail(enabled: bool, monitors: MonitorsConfig)

  datatype T1Config = T1Config(rooms: map<RoomId, RoomConfig>, monitors: MonitorsConfig)

  /** The room's own monitors section, if its entry is a detailed one. */
  function RoomMonitors(config: T1Config, room: RoomId): (r: Option<MonitorsConfig>)
    ensures r.Some? <==> room in config.rooms && config.rooms[room].RoomDetail?
    ensures r.Some? ==> r.value == config.rooms[room].monitors
  {
    if room in config.rooms then
      match config.rooms[room]
      case RoomEnabled(_) => None
      case RoomDetail(_, monitors) => Some(monitors)
    else None
  }

  /** The captcha settings in force in `room`: the room's override, else the global ones. */
  function CaptchaConfigFor(config: T1Config, room: RoomId): (r: Option<CaptchaConfig>)
    ensures RoomMonitors(config, room).Some? && RoomMonitors(config, room).value.captcha.Some? ==>
              r == config.rooms[room].monitors.captcha
    ensures RoomMonitors(config, room).None? || RoomMonitors(config, room).value.captcha.None? ==>
              r == config.monitors.captcha
    ensures r.None? <==> (RoomMonitors(config, room).None? || RoomMonitors(config, room).value.captcha.None?)
                         && config.monitors.captcha.None?
  {
    match RoomMonitors(config, room)
    case Some(monitors) => if monitors.captcha.Some? then monitors.captcha else config.monitors.captcha
    case None => config.monitors.captcha
  }

  /** The link-spam settings in force in `room`: the room's override, else the global ones. */
  function LinkSpamConfigFor(config: T1Config, room: RoomId): (r: Option<LinkSpamConfig>)
    ensures RoomMonitors(config, room).Some? && RoomMonitors(config, room).value.linkSpam.Some? ==>
              r == config.rooms[room].monitors.linkSpam
    ensures RoomMonitors(config, room).None? || RoomMonitors(config, room).value.linkSpam.None? ==>
              r == config.monitors.linkSpam
    ensures r.None? <==> (RoomMonitors(config, room).None? || RoomMonitors(config, room).value.linkSpam.None?)
                         && config.monitors.linkSpam.None?
  {
    match RoomMonitors(config, room)
    case Some(monitors) => if monitors.linkSpam.Some? then monitors.linkSpam else config.monitors.linkSpam
    case None => config.monitors.linkSpam
  }

  /** A bare `RoomEnabled` entry is ignored, whatever its flag says. */
  lemma RoomEnabledIgnored(config: T1Config, room: RoomId, enabled: bool)
    requires room in config.rooms && config.rooms[room] == RoomEnabled(enabled)
    ensures CaptchaConfigFor(config, room) == config.monitors.captcha
    ensures LinkSpamConfigFor(config, room) == config.monitors.linkSpam
  {
  }
}
