/**
 * Matrix identifiers and the key of one monitored (user, room) pair.
 *
 * A monitor group is registered under a name built from its key, and the router
 * looks the group up under the same name.  The name is only useful because it
 * is injective on well-formed keys, which `NameRoundTrip` proves by parsing it back.
 */
module Matrix {
  import opened Wrappers

  type RoomId = string
  type EventId = string

  /** A Matrix user id, written `@localpart:server_name`. */
  datatype UserId = UserId(localpart: string, serverName: string)

  /** What the Matrix grammar guarantees and the monitor name relies on. */
  predicate WellFormedUser(u: UserId)
  {
    ':' !in u.localpart && '/' !in u.serverName
  }

  function UserIdString(u: UserId): string
  {
    "@" + u.localpart + ":" + u.serverName
  }

  /** The (user, room) pair one monitor group watches. */
  datatype UserRoomId = UserRoomId(user: UserId, room: RoomId)

  predicate WellFormedKey(k: UserRoomId)
  {
    WellFormedUser(k.user)
  }

  /** The registry name of the group for `k`: `{sender}/{room_id}`. */
  function MonitorName(k: UserRoomId): string
  {
    UserIdString(k.user) + "/" + k.room
  }

  /** Splits `s` at the first occurrence of `c`. */
  function SplitFirst(s: string, c: char): (r: Option<(string, string)>)
    ensures r.None? <==> c !in s
    ensures r.Some? ==> s == r.value.0 + [c] + r.value.1 && c !in r.value.0
  {
    if s == [] then None
    else if s[0] == c then Some(([], s[1..]))
    else
      match SplitFirst(s[1..], c)
      case None => None
      case Some(parts) => Some(([s[0]] + parts.0, parts.1))
  }

  /** The split point is the first `c`, whatever follows it. */
  lemma {:induction false} SplitFirstOf(a: string, c: char, b: string)
    requires c !in a
    ensures SplitFirst(a + [c] + b, c) == Some((a, b))
  {
    if a != [] {
      assert (a + [c] + b)[1..] == a[1..] + [c] + b;
      SplitFirstOf(a[1..], c, b);
      assert [a[0]] + a[1..] == a;
    } else {
      assert (a + [c] + b)[1..] == b;
    }
  }

  /** Reads a key back from a monitor name. */
  function ParseMonitorName(name: string): Option<UserRoomId>
  {
    if |name| == 0 || name[0] != '@' then None
    else
      match SplitFirst(name[1..], ':')
      case None => None
      case Some(userParts) =>
        match SplitFirst(userParts.1, '/')
        case None => None
        case Some(roomParts) => Some(UserRoomId(UserId(userParts.0, roomParts.0), roomParts.1))
  }

  lemma NameRoundTrip(k: UserRoomId)
    requires WellFormedKey(k)
    ensures ParseMonitorName(MonitorName(k)) == Some(k)
  {
    var name := MonitorName(k);
    var rest := k.user.serverName + "/" + k.room;
    assert name[1..] == k.user.localpart + [':'] + rest;
    SplitFirstOf(k.user.localpart, ':', rest);
    SplitFirstOf(k.user.serverName, '/', k.room);
  }

  /** Two well-formed keys never share a monitor name. */
  lemma MonitorNameInjective(k1: UserRoomId, k2: UserRoomId)
    requires WellFormedKey(k1) && WellFormedKey(k2)
    requires MonitorName(k1) == MonitorName(k2)
    ensures k1 == k2
  {
    NameRoundTrip(k1);
    NameRoundTrip(k2);
  }

  /**
   * The host of a server name: the part before the port, or the bracketed
   * literal for an IPv6 address.
   */
  function Host(serverName: string): (h: string)
    ensures h <= serverName
  {
    if |serverName| > 0 && serverName[0] == '[' then
      match SplitFirst(serverName, ']')
      case None => serverName
      case Some(parts) => parts.0 + "]"
    else
      match SplitFirst(serverName, ':')
      case None => serverName
      case Some(parts) => parts.0
  }

  /** A port suffix never reaches the host: `t2bot.io:443` has host `t2bot.io`. */
  lemma HostDropsPort(host: string, port: string)
    requires ':' !in host && '[' !in host
    ensures Host(host + ":" + port) == host
    ensures Host(host) == host
  {
    if |host| > 0 {
      assert host[0] in host;
    }
    SplitFirstOf(host, ':', port);
  }
}
