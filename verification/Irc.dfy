/** Users, and the replies the server writes to a member's socket (src/shared/User.h, src/shared/ircConstants.h). */
module Irc {
  import opened Strings
  import opened Sockio

  const RPL_WELCOME := "001"
  const RPL_TOPIC := "332"
  const RPL_NAMREPLY := "252"
  const RPL_ENDOFNAMES := "366"
  const ERR_PASSWDMISMATCH := "464"

  datatype User = User(nick: string, whoami: string, realName: string, pass: string, chan: string, endpt: Endpoint)

  /** What a servlet writes. `host` is the local address of the server's socket. */
  datatype Reply =
    | Joined(user: User)
    | TopicIs(host: string, to: User, topic: string)
    | Names(host: string, to: User, nicks: seq<string>)
    | EndOfNames(host: string, to: User)
    | Said(from: User, line: string)
    | Parted(from: User, line: string)
    | Retitled(from: User, chan: string, topic: string)

  function Mask(u: User): string {
    u.nick + "!" + u.whoami + "@" + u.endpt.addr
  }

  function Nicks(us: seq<User>): seq<string> {
    if us == [] then [] else Nicks(us[..|us| - 1]) + [us[|us| - 1].nick]
  }

  function NamesText(nicks: seq<string>): string {
    if nicks == [] then "" else NamesText(nicks[..|nicks| - 1]) + "@" + nicks[|nicks| - 1] + " "
  }

  /** The text of a reply, without the CRLF that the client's reader strips. */
  function Line(r: Reply): string {
    match r
    case Joined(u) => Mask(u) + " JOIN " + u.chan
    case TopicIs(host, u, topic) => host + " " + RPL_TOPIC + " " + u.nick + " " + u.chan + " " + ":" + topic
    case Names(host, u, nicks) => host + " " + RPL_NAMREPLY + " " + u.nick + " " + u.chan + " " + ":" + NamesText(nicks)
    case EndOfNames(host, u) => host + " " + RPL_ENDOFNAMES + " " + u.nick + " " + u.chan + " " + ":End of NAMES list"
    case Said(u, line) => ":" + Mask(u) + " " + line
    case Parted(u, line) => ":" + Mask(u) + " " + line
    case Retitled(u, chan, topic) => Mask(u) + " TOPIC " + chan + " :" + topic
  }

  /** The text after the first `:` of a client's line, which is what the server logs. */
  function LoggedText(line: string): string {
    match Find(line, ":", 0)
    case None => line
    case Some(i) => line[i + 1..]
  }
}
