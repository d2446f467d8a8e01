/** The accept loop of src/server/Server.cpp as the object it is. */
module Servers {
  import opened Strings
  import opened Sockio
  import opened Irc
  import opened Registration
  import opened Room
  import opened Chitter
  import opened Handoff
  import opened Notifiers
  import opened Servlets

  /** Every blocking read brings at least one message. */
  predicate Steady(arrivals: seq<string>) {
    forall chunk | chunk in arrivals :: Messages(chunk) != []
  }

  /** What a servlet's thread was started with. */
  datatype Started = Started(topic: string, notify: AtomicFlag?)

  /** How one turn of the accept loop ends: with the exception that stops it, a refused client, or a new member-to-be. */
  datatype Turn = Threw | Refused | Accepted(user: User)

  lemma SteadyTail(arrivals: seq<string>)
    requires Steady(arrivals) && arrivals != []
    ensures Steady(arrivals[1..]) && Messages(arrivals[0]) != []
  {
    assert arrivals[0] in arrivals;
    assert forall chunk | chunk in arrivals[1..] :: chunk in arrivals;
  }

  lemma LoginLeaves(accounts: Accounts, login: Login)
    ensures var o := LoginResult(accounts, login);
            o.accounts == if o.ok then accounts[login.nick := login.hash] else accounts
  {
  }

  lemma ReadableLength(inc: seq<string>)
    requires Readable(inc)
    ensures FirstHandshake(inc).Some? ==> |inc| >= 3
  {
  }

  lemma FirstOfRest<T>(msg: T, rest: seq<T>, all: seq<T>)
    requires [msg] + rest == all
    ensures |all| == |rest| + 1 && msg == all[0] && rest == all[1..]
  {
  }

  lemma TailOfTail<T>(s: seq<T>, k: nat)
    requires k < |s|
    ensures s[k..][0] == s[k] && s[k..][1..] == s[k + 1..]
  {
  }

  class Server {
    const host: string
    const defaultTopic: string
    const hash: string -> string
    const comms: Comms
    const notifier: Notifier
    const table: UserTable
    var endMsgs: map<Endpoint, seq<string>>
    var threads: map<string, Started>
    /** The rows of Channels: the topic of every known channel. */
    var channels: map<string, string>

    /** Every entry of the notifier is a real flag, and every servlet holds the flag of its own channel. */
    ghost predicate Valid()
      reads this, notifier
    {
      && notifier.Valid()
      && (forall c | c in notifier.flags :: notifier.flags[c] != null)
      && (forall c | c in threads :: c in notifier.flags && threads[c].notify == notifier.flags[c])
    }

    constructor (host: string, defaultTopic: string, hash: string -> string, channels: map<string, string>)
      ensures Valid() && fresh(comms) && fresh(notifier) && fresh(table)
      ensures endMsgs == map[] && threads == map[] && this.channels == channels
      ensures comms.pending == map[] && comms.socks == [] && notifier.flags == map[] && table.accounts == map[]
    {
      this.host := host;
      this.defaultTopic := defaultTopic;
      this.hash := hash;
      this.channels := channels;
      endMsgs := map[];
      threads := map[];
      comms := new Comms();
      notifier := new Notifier();
      table := new UserTable();
    }

    /** All messages that reading from the socket will ever give: those queued, then those arriving. */
    ghost function Incoming(sock: Socket): seq<string>
      reads `endMsgs, sock`arrivals
    {
      QueueAt(endMsgs, sock.remote) + ReadAll(sock.arrivals)
    }

    method TryReading(sock: Socket) returns (msg: string)
      requires Steady(sock.arrivals) && Incoming(sock) != []
      modifies `endMsgs, sock`arrivals
      ensures [msg] + Incoming(sock) == old(Incoming(sock)) && Steady(sock.arrivals)
      ensures endMsgs.Keys == old(endMsgs).Keys + {sock.remote}
      ensures forall e | e in endMsgs && e != sock.remote :: endMsgs[e] == old(endMsgs)[e]
    {
      hide Messages;
      var endPoint := sock.remote;
      if endPoint !in endMsgs {
        endMsgs := endMsgs[endPoint := []];
      }
      if sock.arrivals != [] {
        SteadyTail(sock.arrivals);
      }
      var rest;
      msg, rest := TryReadingFromSock(sock, endMsgs[endPoint]);
      endMsgs := endMsgs[endPoint := rest];
      assert [msg] + (rest + ReadAll(sock.arrivals)) == old(Incoming(sock));
    }

    /** The three reads of register_session; a NICK that is too short throws before the others are read. */
    method ReadHandshake(sock: Socket) returns (nick: Option<string>, userMsg: string, passMsg: string)
      requires Steady(sock.arrivals) && Readable(Incoming(sock))
      modifies `endMsgs, sock`arrivals
      ensures nick == After5(old(Incoming(sock))[0])
      ensures nick.Some? ==>
                && userMsg == old(Incoming(sock))[1] && passMsg == old(Incoming(sock))[2]
                && Incoming(sock) == old(Incoming(sock))[3..] && Steady(sock.arrivals)
      ensures forall e | e != sock.remote :: QueueAt(endMsgs, e) == QueueAt(old(endMsgs), e)
    {
      hide Messages, ReadAll, Steady, After5, Incoming;
      ghost var inc := Incoming(sock);
      userMsg, passMsg := "", "";
      var msg := TryReading(sock);
      FirstOfRest(msg, Incoming(sock), inc);
      nick := After5(msg);
      if nick.Some? {
        userMsg := TryReading(sock);
        FirstOfRest(userMsg, Incoming(sock), inc[1..]);
        TailOfTail(inc, 1);
        passMsg := TryReading(sock);
        FirstOfRest(passMsg, Incoming(sock), inc[2..]);
        TailOfTail(inc, 2);
      }
    }

    /** register_session: NICK, USER and PASS are read, the user is built and checked, and the verdict is written.
        `None` is the exception for a message that is too short. */
    method RegisterSession(sock: Socket) returns (client: Option<User>, ok: bool)
      requires Steady(sock.arrivals) && Readable(Incoming(sock))
      modifies `endMsgs, sock, table
      ensures var inc := old(Incoming(sock));
              match FirstHandshake(inc)
              case None => client == None && table.accounts == old(table.accounts) && sock.written == old(sock.written)
              case Some(h) =>
                && client == Some(User(h.nick, h.whoami, h.realName, hash(h.password), "", sock.remote))
                && Outcome(table.accounts, ok) == LoginResult(old(table.accounts), Login(h.nick, hash(h.password)))
                && Incoming(sock) == inc[3..] && Steady(sock.arrivals)
                && sock.written == old(sock.written) + [VerdictLine(host, h.nick, h.whoami, sock.remote.addr, ok) + CRLF]
      ensures forall e | e != sock.remote :: QueueAt(endMsgs, e) == QueueAt(old(endMsgs), e)
    {
      hide Split, Incoming, VerdictLine, LoginResult, Steady, After5;
      var nick, userMsg, passMsg := ReadHandshake(sock);
      ok := false;
      if nick.None? {
        return None, false;
      }
      var parts := SplitLoop(userMsg, USER_DELIM);
      var password := After5(passMsg);
      var userName := After5(parts[0]);
      if password.None? || userName.None? {
        return None, false;
      }
      var user := User(nick.value, userName.value, parts[|parts| - 1], hash(password.value), "", sock.remote);
      ok := LogIn(sock, user);
      client := Some(user);
    }

    method LogIn(sock: Socket, user: User) returns (ok: bool)
      modifies sock`written, table
      ensures Outcome(table.accounts, ok) == LoginResult(old(table.accounts), Login(user.nick, user.pass))
      ensures sock.written == old(sock.written) + [VerdictLine(host, user.nick, user.whoami, sock.remote.addr, ok) + CRLF]
    {
      hide VerdictLine, LoginResult;
      ok := table.HandleUser(user.nick, user.pass);
      WriteVerdict(sock, user, ok);
    }

    method WriteVerdict(sock: Socket, user: User, ok: bool)
      modifies sock`written
      ensures sock.written == old(sock.written) + [VerdictLine(host, user.nick, user.whoami, sock.remote.addr, ok) + CRLF]
    {
      var replyCode, replyMessage := RPL_WELCOME, ":Welcome to the Internet Relay Network";
      if !ok {
        replyCode, replyMessage := ERR_PASSWDMISMATCH, ":Password incorrect";
      }
      var msg := host + " " + replyCode + " " + user.nick + " " + replyMessage
                 + (" " + user.nick + "!" + user.whoami + "@" + sock.remote.addr) + "\r\n";
      assert msg == VerdictLine(host, user.nick, user.whoami, sock.remote.addr, ok) + CRLF;
      assert msg[|msg| - 2..] == CRLF;
      var written := TryWritingToSock(sock, msg);
    }

    /** get_channel_name. */
    method GetChannelName(sock: Socket) returns (channel: Option<string>)
      requires Steady(sock.arrivals) && Incoming(sock) != []
      modifies `endMsgs, sock`arrivals
      ensures channel == After5(old(Incoming(sock))[0]) && Incoming(sock) == old(Incoming(sock))[1..]
      ensures forall e | e != sock.remote :: QueueAt(endMsgs, e) == QueueAt(old(endMsgs), e)
      ensures sock.remote in endMsgs
    {
      ghost var inc := Incoming(sock);
      var msg := TryReading(sock);
      FirstOfRest(msg, Incoming(sock), inc);
      channel := After5(msg);
    }

    /** update_comm_structs, with the lock held. */
    method UpdateCommStructs(user: User, msgs: seq<string>, sock: Socket)
      modifies comms
      ensures comms.pending == old(comms.pending)[user.chan := PendingAt(old(comms.pending), user.chan) + [Early(user, msgs)]]
      ensures comms.socks == old(comms.socks) + [sock]
    {
      comms.pending := comms.pending[user.chan := PendingAt(comms.pending, user.chan) + [Early(user, msgs)]];
      comms.socks := comms.socks + [sock];
    }

    /** The end of inner_scope_run: at most one servlet for a channel, holding the channel's flag. A known channel's starts with
        the stored topic, and nothing is stored; an unknown one's starts with the default topic, which is stored. */
    method StartServlet(channel: string)
      requires Valid() && channel in notifier.flags
      modifies `threads, `channels, notifier
      ensures Valid() && notifier.flags == old(notifier.flags)
      ensures channel in old(threads) ==> threads == old(threads) && channels == old(channels)
      ensures channel !in old(threads) ==>
                && channel in threads && threads == old(threads)[channel := threads[channel]]
                && threads[channel].notify == notifier.flags[channel]
                && TopicGiven(old(channels), channels, channel, defaultTopic, threads[channel].topic)
      ensures channel !in old(threads) && channel in old(channels) ==>
                channels == old(channels) && threads[channel].topic == old(channels)[channel]
      ensures channel !in old(threads) && channel !in old(channels) ==>
                channels == old(channels)[channel := defaultTopic] && threads[channel].topic == defaultTopic
    {
      if channel !in threads {
        var topic := defaultTopic;
        if channel in channels {
          topic := channels[channel];
        } else {
          channels := channels[channel := topic];
        }
        var flag := notifier.PassPtr(channel);
        threads := threads[channel := Started(topic, flag)];
      }
    }

    /** Publishing, notifying and starting, for a user that sent its JOIN. */
    method HandOver(client: User, sock: Socket)
      requires Valid()
      modifies this, comms, notifier, if client.chan in notifier.flags then {notifier.flags[client.chan]} else {}
      ensures Valid()
      ensures endMsgs == old(endMsgs) - {sock.remote}
      ensures comms.pending == old(comms.pending)[client.chan := PendingAt(old(comms.pending), client.chan)
                                                               + [Early(client, QueueAt(old(endMsgs), sock.remote))]]
      ensures comms.socks == old(comms.socks) + [sock]
      ensures client.chan in notifier.flags && notifier.flags[client.chan] != null && notifier.flags[client.chan].value
      ensures notifier.flags == if client.chan in old(notifier.flags) then old(notifier.flags)
                                else old(notifier.flags)[client.chan := notifier.flags[client.chan]]
      ensures client.chan in old(threads) ==> threads == old(threads) && channels == old(channels)
      ensures client.chan !in old(threads) ==>
                && client.chan in threads && threads == old(threads)[client.chan := threads[client.chan]]
                && threads[client.chan].notify == notifier.flags[client.chan]
                && TopicGiven(old(channels), channels, client.chan, defaultTopic, threads[client.chan].topic)
      ensures client.chan !in old(threads) && client.chan in old(channels) ==>
                channels == old(channels) && threads[client.chan].topic == old(channels)[client.chan]
      ensures client.chan !in old(threads) && client.chan !in old(channels) ==>
                channels == old(channels)[client.chan := defaultTopic] && threads[client.chan].topic == defaultTopic
    {
      var msgs := QueueAt(endMsgs, sock.remote);
      endMsgs := endMsgs - {sock.remote};
      UpdateCommStructs(client, msgs, sock);
      notifier.Update(client.chan);
      StartServlet(client.chan);
    }

    /** The client logs in. */
    ghost predicate Accepts(inc: seq<string>)
      reads table
      requires Readable(inc)
    {
      match FirstHandshake(inc)
      case None => false
      case Some(h) => LoginResult(table.accounts, Login(h.nick, hash(h.password))).ok
    }

    lemma AcceptsIs(inc: seq<string>)
      requires Readable(inc)
      ensures Accepts(inc) == match FirstHandshake(inc)
                              case None => false
                              case Some(h) => LoginResult(table.accounts, Login(h.nick, hash(h.password))).ok
    {
    }

    /** The first half of inner_scope_run: the client registers and names its channel. Nothing is shared yet. */
    method MeetClient(sock: Socket) returns (turn: Turn)
      requires Steady(sock.arrivals) && Readable(Incoming(sock))
      requires Accepts(Incoming(sock)) ==> |Incoming(sock)| >= 4
      modifies `endMsgs, sock, table
      ensures forall e | e != sock.remote :: QueueAt(endMsgs, e) == QueueAt(old(endMsgs), e)
      ensures var inc := old(Incoming(sock));
              && (turn.Threw? <==> FirstHandshake(inc).None? || (old(Accepts(Incoming(sock))) && After5(inc[3]).None?))
              && (turn.Refused? <==> FirstHandshake(inc).Some? && !old(Accepts(Incoming(sock))))
      ensures var inc := old(Incoming(sock));
              match FirstHandshake(inc)
              case None => table.accounts == old(table.accounts) && sock.written == old(sock.written)
              case Some(h) =>
                var ok := old(Accepts(Incoming(sock)));
                && table.accounts == (if ok then old(table.accounts)[h.nick := hash(h.password)] else old(table.accounts))
                && sock.written == old(sock.written) + [VerdictLine(host, h.nick, h.whoami, sock.remote.addr, ok) + CRLF]
      ensures turn.Refused? ==> Incoming(sock) == old(Incoming(sock))[3..]
      ensures turn.Accepted? ==>
                var inc, u := old(Incoming(sock)), turn.user;
                && FirstHandshake(inc).Some?
                && var h := FirstHandshake(inc).value;
                && After5(inc[3]) == Some(u.chan)
                && u == User(h.nick, h.whoami, h.realName, hash(h.password), u.chan, sock.remote)
                && Incoming(sock) == inc[4..]
    {
      hide Split, ReadAll, VerdictLine, FirstHandshake, After5, LoginResult, Steady, Accepts, Incoming;
      ghost var inc, accounts := Incoming(sock), table.accounts;
      AcceptsIs(inc);
      ReadableLength(inc);
      var client, ok := RegisterSession(sock);
      if client.None? {
        return Threw;
      }
      ghost var h := FirstHandshake(inc).value;
      LoginLeaves(accounts, Login(h.nick, hash(h.password)));
      if !ok {
        return Refused;
      }
      var channel := GetChannelName(sock);
      TailOfTail(inc, 3);
      turn := if channel.None? then Threw else Accepted(client.value.(chan := channel.value));
    }

    /** inner_scope_run, for a socket that was just accepted. */
    method InnerScopeRun(sock: Socket) returns (turn: Turn)
      requires Valid() && Steady(sock.arrivals) && Readable(Incoming(sock))
      requires Accepts(Incoming(sock)) ==> |Incoming(sock)| >= 4
      modifies this, sock, table, comms, notifier, notifier.flags.Values
      ensures forall e | e != sock.remote :: QueueAt(endMsgs, e) == QueueAt(old(endMsgs), e)
      ensures var inc := old(Incoming(sock));
              && (turn.Threw? <==> FirstHandshake(inc).None? || (old(Accepts(Incoming(sock))) && After5(inc[3]).None?))
              && (turn.Refused? <==> FirstHandshake(inc).Some? && !old(Accepts(Incoming(sock))))
      ensures var inc := old(Incoming(sock));
              match FirstHandshake(inc)
              case None => table.accounts == old(table.accounts) && sock.written == old(sock.written)
              case Some(h) =>
                var ok := old(Accepts(Incoming(sock)));
                && table.accounts == (if ok then old(table.accounts)[h.nick := hash(h.password)] else old(table.accounts))
                && sock.written == old(sock.written) + [VerdictLine(host, h.nick, h.whoami, sock.remote.addr, ok) + CRLF]
      ensures !turn.Accepted? ==>
                && Valid() && comms.pending == old(comms.pending) && comms.socks == old(comms.socks)
                && threads == old(threads) && channels == old(channels) && notifier.flags == old(notifier.flags)
                && (forall c | c in notifier.flags :: notifier.flags[c].value == old(notifier.flags[c].value))
      ensures turn.Refused? ==> Incoming(sock) == old(Incoming(sock))[3..]
      ensures turn.Accepted? ==>
                var inc, u := old(Incoming(sock)), turn.user;
                && FirstHandshake(inc).Some?
                && var h := FirstHandshake(inc).value;
                && After5(inc[3]) == Some(u.chan)
                && u == User(h.nick, h.whoami, h.realName, hash(h.password), u.chan, sock.remote)
      ensures turn.Accepted? ==>
                var c := turn.user.chan;
                && c in comms.pending && comms.pending[c] != []
                && var early := comms.pending[c][|comms.pending[c]| - 1].msgs;
                && comms.pending == old(comms.pending)[c := PendingAt(old(comms.pending), c) + [Early(turn.user, early)]]
                && early + ReadAll(sock.arrivals) == old(Incoming(sock))[4..]
                && comms.socks == old(comms.socks) + [sock] && sock.remote !in endMsgs
      ensures turn.Accepted? ==>
                var c := turn.user.chan;
                && Valid() && c in notifier.flags && notifier.flags[c].value
                && notifier.flags == (if c in old(notifier.flags) then old(notifier.flags)
                                      else old(notifier.flags)[c := notifier.flags[c]])
                && (forall d | d in old(notifier.flags) && d != c ::
                      old(notifier.flags)[d] != null && old(notifier.flags)[d].value == old(notifier.flags[d].value))
                && (c in old(threads) ==> threads == old(threads) && channels == old(channels))
                && (c !in old(threads) ==>
                      && c in threads && threads == old(threads)[c := threads[c]] && threads[c].notify == notifier.flags[c]
                      && TopicGiven(old(channels), channels, c, defaultTopic, threads[c].topic))
                && (c !in old(threads) && c in old(channels) ==> channels == old(channels) && threads[c].topic == old(channels)[c])
                && (c !in old(threads) && c !in old(channels) ==>
                      channels == old(channels)[c := defaultTopic] && threads[c].topic == defaultTopic)
      ensures forall c | c in old(channels) :: c in channels && channels[c] == old(channels)[c]
    {
      hide ReadAll, VerdictLine, FirstHandshake, After5, Steady, Accepts, Readable, PendingAt, TopicGiven;
      turn := MeetClient(sock);
      if turn.Accepted? {
        var user := turn.user;
        ghost var early := QueueAt(endMsgs, sock.remote);
        HandOver(user, sock);
        assert comms.pending[user.chan][|comms.pending[user.chan]| - 1] == Early(user, early);
      }
    }
  }
}
