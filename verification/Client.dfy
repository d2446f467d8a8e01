/** The client of src/client/Client.cpp as the object it is: what it writes on every connection, and what it shows. */
module Clients {
  import opened Strings
  import opened Sockio
  import opened Registration
  import opened Room
  import opened ClientParsers
  import opened EndToEnd
  import opened Conformance
  import opened Servers
  import opened TidyRooms
  import opened HonestScreens
  import opened Typing

  datatype Code = Quitting | NotQuitting | Switching

  // ---- What is written ----

  lemma {:induction false} ReadAllMore(chunks: seq<string>, chunk: string)
    ensures ReadAll(chunks + [chunk]) == ReadAll(chunks) + Messages(chunk)
  {
    hide Messages;
    if chunks == [] {
      assert [chunk][1..] == [];
    } else {
      assert (chunks + [chunk])[1..] == chunks[1..] + [chunk];
      ReadAllMore(chunks[1..], chunk);
    }
  }

  lemma OneMessage(line: string)
    requires line != "" && LineFree(line)
    ensures Messages(line + CRLF) == [line] && EndsWithCrlf(line + CRLF)
    ensures Messages(line + CRLF + CRLF) == [line] && EndsWithCrlf(line + CRLF + CRLF)
  {
    hide Messages;
    LineFreeHasNoCrlf(line);
    assert line + CRLF == line + CRLF + "";
    assert line + CRLF + CRLF == line + CRLF + ("" + CRLF + "");
    MessagesAtCrlf(line, "");
    MessagesAtCrlf(line, "" + CRLF + "");
    MessagesAtCrlf("", "");
    NoMessages();
    MessagesOfOne(line);
  }

  /** A session that goes on: the handshake, JOIN, and only PRIVMSG and TOPIC so far. */
  predicate Chatting(sent: seq<string>) {
    |sent| >= 4 && Conforming(sent) && forall i | 4 <= i < |sent| :: IsChat(sent[i])
  }

  lemma ChatsOn(sent: seq<string>, m: string)
    requires Chatting(sent)
    ensures IsChat(m) ==> Chatting(sent + [m])
    ensures IsPart(m) ==> Conforming(sent + [m])
  {
    hide IsPriv, IsPart, IsTopic, Find;
    var longer := sent + [m];
    forall i | 0 <= i < |sent|
      ensures FitsAt(longer, i)
    {
      assert FitsAt(sent, i);
      assert longer[i] == sent[i];
    }
  }

  /** The handshake of a user whose whoami does not bring the delimiter forward. */
  predicate CanRegister(h: Handshake) {
    LineFree(h.nick) && LineFree(h.whoami) && LineFree(h.realName) && LineFree(h.password)
    && !Contains("USER " + h.whoami, USER_DELIM)
  }

  lemma HandshakeFits(h: Handshake)
    requires CanRegister(h)
    ensures IsNick(NickLine(h)) && IsUser(UserLine(h)) && IsPass(PassLine(h))
    ensures Conforming([]) && Conforming([NickLine(h)]) && Conforming([NickLine(h), UserLine(h)])
    ensures Conforming([NickLine(h), UserLine(h), PassLine(h)])
  {
    hide Find, Contains;
    assert NickLine(h)[0..5] == "NICK " && PassLine(h)[0..5] == "PASS " && UserLine(h)[0..5] == "USER ";
    DelimBorderFree();
    FirstDelimiter("USER " + h.whoami, USER_DELIM, h.realName);
  }

  lemma JoinFits(h: Handshake, channel: string)
    requires CanRegister(h)
    ensures Chatting([NickLine(h), UserLine(h), PassLine(h)] + ["JOIN " + channel])
  {
    hide Contains;
    HandshakeFits(h);
    var sent := [NickLine(h), UserLine(h), PassLine(h)] + ["JOIN " + channel];
    assert sent[3][0..5] == "JOIN ";
    assert FitsAt(sent, 0) && FitsAt(sent, 1) && FitsAt(sent, 2) && FitsAt(sent, 3);
  }

  // ---- Tidy messages ----

  /** The user's own handshake, lines without line ends, and tidy messages after the JOIN. */
  predicate Clean(sent: seq<string>, h: Handshake) {
    && (|sent| > 0 ==> sent[0] == NickLine(h))
    && (|sent| > 1 ==> sent[1] == UserLine(h))
    && (forall m | m in sent :: LineFree(m))
    && forall i | 4 <= i < |sent| :: TidyMsg(sent[i])
  }

  predicate Going(sent: seq<string>, h: Handshake) { Chatting(sent) && Clean(sent, h) }

  predicate Proper(sent: seq<string>, h: Handshake) { Conforming(sent) && Clean(sent, h) }

  lemma GoingIsProper(sent: seq<string>, h: Handshake)
    requires Going(sent, h)
    ensures Proper(sent, h)
  {
    hide TidyMsg, Conforming;
  }

  lemma GoesOn(sent: seq<string>, h: Handshake, m: string)
    requires Going(sent, h) && LineFree(m) && TidyMsg(m)
    ensures IsChat(m) ==> Going(sent + [m], h)
    ensures IsPart(m) ==> Proper(sent + [m], h)
  {
    hide TidyMsg, Conforming, Chatting, LineFree, IsChat, IsPart;
    assert |sent| >= 4 by { ChattingLong(sent); }
    ChatsOn(sent, m);
  }

  lemma ChattingLong(sent: seq<string>)
    requires Chatting(sent)
    ensures |sent| >= 4
  {
  }

  lemma JoinGoes(h: Handshake, channel: string)
    requires CanRegister(h) && LineFree(channel)
    ensures Going([NickLine(h), UserLine(h), PassLine(h)] + ["JOIN " + channel], h)
  {
    hide Contains, Chatting;
    JoinFits(h, channel);
  }

  lemma HandshakeProper(h: Handshake)
    requires CanRegister(h)
    ensures Proper([], h) && Proper([NickLine(h), UserLine(h), PassLine(h)], h)
  {
    hide Contains, Conforming;
    HandshakeFits(h);
  }

  lemma PrivIsTidy(chan: string, text: string)
    requires LineFree(chan) && LineFree(text)
    ensures var m := "PRIVMSG " + chan + " :" + text; LineFree(m) && IsChat(m) && TidyMsg(m)
  {
    var m := "PRIVMSG " + chan + " :" + text;
    LineFreeHasNoCrlf(m);
    assert m[0..7] == "PRIVMSG";
    var k := |"PRIVMSG " + chan + " "|;
    assert m[k..k + 1] == ":";
    assert OccursAt(m, ":", k);
  }

  lemma TopicIsTidy(chan: string, text: string)
    requires LineFree(chan) && LineFree(text)
    ensures var m := "TOPIC " + chan + " :" + text; LineFree(m) && IsChat(m) && TidyMsg(m)
  {
    hide Contains;
    var m := "TOPIC " + chan + " :" + text;
    LineFreeHasNoCrlf(m);
    assert m[0..5] == "TOPIC";
    OnlyOneKeyword(m, "TOPIC", "PRIVMSG", 0);
  }

  lemma PartIsTidy(chan: string)
    requires LineFree(chan)
    ensures var m := "PART " + chan; LineFree(m) && IsPart(m) && TidyMsg(m)
  {
    hide Contains;
    var m := "PART " + chan;
    LineFreeHasNoCrlf(m);
    assert m[0..4] == "PART";
    OnlyOneKeyword(m, "PART", "PRIVMSG", 1);
  }

  /** What a client with well-formed names sends, in a channel without a colon, is what the screen theorem asks for. */
  lemma ProperIsTidy(sent: seq<string>, h: Handshake)
    requires Proper(sent, h) && CanRegister(h) && IsRun(h.nick, false) && IsRun(h.whoami, false)
    requires |sent| > 3 ==> ':' !in sent[3]
    ensures TidySent(sent)
  {
    hide Contains, Conforming, TidyMsg, IsRun, LineFree, Find, TidyWhoami;
    forall i | 0 <= i < |sent|
      ensures TidyAt(sent, i)
    {
      assert sent[i] in sent;
      LineFreeHasNoCrlf(sent[i]);
      if i == 0 {
        assert sent[0][5..] == h.nick;
      } else if i == 1 {
        WhoamiIsTidy(h);
      }
    }
  }

  lemma WhoamiIsTidy(h: Handshake)
    requires CanRegister(h) && IsRun(h.whoami, false)
    ensures TidyWhoami(UserLine(h))
  {
    hide Contains, IsRun, Find;
    DelimBorderFree();
    var head := "USER " + h.whoami;
    FirstDelimiter(head, USER_DELIM, h.realName);
    assert UserLine(h)[5..|head|] == h.whoami;
  }

  /** JOIN went out only after a verdict was read, and on the first connection only after a welcome. */
  predicate JoinWaited(sent: seq<string>, replies: seq<string>, first: bool) {
    |sent| > 3 ==> replies != [] && ClientVerdict(replies[0]).Some? && (first ==> ClientVerdict(replies[0]) == Some(true))
  }

  lemma StillWaited(sent: seq<string>, longer: seq<string>, replies: seq<string>, first: bool)
    requires |sent| > 3 && JoinWaited(sent, replies, first)
    ensures JoinWaited(longer, replies, first)
  {
  }

  lemma NothingSent(h: Handshake, replies: seq<string>, first: bool)
    requires CanRegister(h)
    ensures Proper([], h) && JoinWaited([], replies, first)
  {
    hide CanRegister;
    HandshakeProper(h);
  }

  /** What the client has put on the wire of one connection, as the messages a reader gets. */
  ghost function Sent(sock: Socket): seq<string>
    reads sock`written
  {
    ReadAll(sock.written)
  }

  /** Enough is read for a login, and the first one is a welcome. */
  predicate Welcomed(replies: seq<string>, first: bool) {
    replies != [] && ClientVerdict(replies[0]).Some? && (first ==> ClientVerdict(replies[0]) == Some(true))
  }

  function RepliesAfter(replies: seq<string>): seq<string> {
    if replies == [] then [] else replies[1..]
  }

  /** Whatever is queued or arriving can be read. */
  lemma SteadyBrings(queue: seq<string>, arrivals: seq<string>)
    requires Steady(arrivals)
    ensures queue + ReadAll(arrivals) != [] <==> queue != [] || (arrivals != [] && Messages(arrivals[0]) != [])
    ensures arrivals != [] ==> Steady(arrivals[1..])
  {
    hide Messages;
    if arrivals != [] {
      SteadyTail(arrivals);
    }
  }

  lemma FourOff<T>(all: seq<T>)
    requires |all| >= 4
    ensures [all[0], all[1..][0], all[1..][1..][0], all[1..][1..][1..][0]] + all[1..][1..][1..][1..] == all
  {
  }

  /** What ended a client ends it whatever else arrives. */
  lemma {:induction false} SessionStaysFailed(msgs: seq<string>, more: seq<string>, chan: string)
    requires |msgs| >= 4 && Session(msgs, chan).None?
    ensures Session(msgs + more, chan).None?
    decreases |more|
  {
    hide Session, ShowNext;
    if more == [] {
      assert msgs + more == msgs;
    } else {
      var n := |more| - 1;
      assert msgs + more == msgs + more[..n] + [more[n]];
      SessionStaysFailed(msgs, more[..n], chan);
      SessionAppended(msgs + more[..n], more[n], chan);
    }
  }

  // ---- Where a run stands ----

  lemma AllTyped(inputs: seq<string>)
    ensures TypedTo(inputs, 0) == Some(inputs)
  {
  }

  /** Logging in and joining carries the beginning of what the connection is to carry. */
  lemma LoggedOn(h: Handshake, typed: seq<string>, sent: seq<string>)
    requires sent == [NickLine(h), UserLine(h), PassLine(h)]
             || (typed != [] && sent == [NickLine(h), UserLine(h), PassLine(h)] + ["JOIN " + ChannelOf(typed[0])])
    ensures sent <= Carried(h, typed)
    ensures typed == [] ==> sent == Carried(h, typed)
    ensures typed != [] && |sent| == 4 ==> sent + Talked(typed[1..], ChannelOf(typed[0])) == Carried(h, typed)
  {
    hide NickLine, UserLine, PassLine, Talked, ChannelOf;
  }

  lemma ChannelFree(input: string)
    requires LineFree(input)
    ensures LineFree(ChannelOf(input))
  {
  }

  /** One more line: what it asks for goes out, and the session goes on, ends with EXIT, or hands the rest on with LEAVE. */
  lemma Turned(typed: seq<string>, chan: string)
    requires typed != []
    ensures var line, more := typed[0], typed[1..];
            var n := Answers(line, more);
            && Talked(typed, chan) == Asks(line, more, chan) + (if Ends(line) then [] else Talked(more[n..], chan))
            && (Ends(line) ==> n == 0)
            && AfterLeave(typed) == if line == "EXIT" then None else if line == "LEAVE" then Some(more) else AfterLeave(more[n..])
  {
    hide Asks, Answers, Talked, AfterLeave;
    var line, more := typed[0], typed[1..];
    assert typed == [line] + more;
    if Ends(line) {
      LastLine(line, more, chan);
      assert Asks(line, more, chan) + [] == Asks(line, more, chan);
    } else {
      OneMore(line, more, chan);
    }
  }

  lemma Regrouped<T>(a: seq<T>, b: seq<T>, c: seq<T>)
    ensures a + (b + c) == a + b + c
  {
  }

  /** What a connection needs so that no read on it fails: non-empty reads, a verdict that can be read and, the first time, a
      welcome; and if a channel is typed, the four replies to JOIN and then only replies that can be parsed. */
  predicate Serves(arrivals: seq<string>, typed: Option<seq<string>>, first: bool) {
    var all := ReadAll(arrivals);
    typed.Some? ==>
      && Steady(arrivals) && Welcomed(all, first)
      && (typed.value != [] ==> |all| >= 5 && Session(all[1..], ChannelOf(typed.value[0])).Some?)
  }

  lemma ServesStart(arrivals: seq<string>, typed: seq<string>, first: bool)
    ensures Serves(arrivals, Some(typed), first) ==>
              Steady(arrivals) && Welcomed(ReadAll(arrivals), first) && (typed != [] ==> |ReadAll(arrivals)| >= 5)
  {
    hide Steady, Welcomed, ReadAll, Session;
  }

  lemma ServesAll(arrivals: seq<string>, typed: seq<string>, first: bool)
    requires typed != []
    ensures Serves(arrivals, Some(typed), first) ==> Session(RepliesAfter(ReadAll(arrivals)), ChannelOf(typed[0])).Some?
  {
    hide Steady, Welcomed, ReadAll, Session, ChannelOf;
  }

  /** What is shown at a turn is a beginning of all the replies. */
  lemma ServesTurn(lines: seq<string>, queue: seq<string>, arrivals: seq<string>, chan: string)
    requires |lines| >= 4
    ensures Session(lines + (queue + ReadAll(arrivals)), chan).Some? ==> Session(lines + (queue + NextRead(arrivals)), chan).Some?
  {
    hide Session, Messages;
    var shown, later := lines + (queue + NextRead(arrivals)), if arrivals == [] then [] else ReadAll(arrivals[1..]);
    assert ReadAll(arrivals) == NextRead(arrivals) + later;
    assert shown + later == lines + (queue + ReadAll(arrivals));
    if Session(shown, chan).None? {
      SessionStaysFailed(shown, later, chan);
    }
  }

  class Client {
    const user: Handshake
    var chan: string
    var sock: Socket
    var sockMsgs: seq<string>
    var channelTopic: string
    var channelName: string
    /** What the terminal shows of the session. */
    var names: string
    var shown: seq<Event>
    /** The replies of this session that were taken from the queue, from the confirmation of the JOIN on. */
    ghost var lines: seq<string>

    ghost function OnScreen(): Screen
      reads this
    {
      Screen(channelTopic, names, shown)
    }

    /** The screen is what the replies make of it. */
    ghost predicate Valid()
      reads this
    {
      |lines| >= 4 && Session(lines, channelName) == Some(OnScreen())
    }

    constructor (user: Handshake, sock: Socket)
      ensures this.user == user && this.sock == sock && sockMsgs == [] && lines == []
    {
      this.user := user;
      this.sock := sock;
      sockMsgs := [];
      chan, channelTopic, channelName, names, shown, lines := "", "", "", "", [], [];
    }

    /** try_reading; `None` exactly when no further message ever arrives and the read blocks. */
    method TryReading() returns (msg: Option<string>)
      modifies `sockMsgs, sock`arrivals
      ensures msg.Some? <==> old(sockMsgs) != [] || (old(sock.arrivals) != [] && Messages(old(sock.arrivals)[0]) != [])
      ensures msg.Some? ==> [msg.value] + (sockMsgs + ReadAll(sock.arrivals)) == old(sockMsgs + ReadAll(sock.arrivals))
      ensures old(Steady(sock.arrivals)) ==>
                Steady(sock.arrivals) && (msg.Some? <==> old(sockMsgs + ReadAll(sock.arrivals)) != [])
    {
      hide Steady;
      if Steady(sock.arrivals) {
        SteadyBrings(sockMsgs, sock.arrivals);
      }
      if sockMsgs == [] && (sock.arrivals == [] || Messages(sock.arrivals[0]) == []) {
        return None;
      }
      hide Messages;
      var m, rest := TryReadingFromSock(sock, sockMsgs);
      sockMsgs := rest;
      msg := Some(m);
    }

    method TryWriting(line: string)
      requires line != "" && LineFree(line)
      modifies sock`written
      ensures sock.written == old(sock.written) + [line + "\r\n"]
      ensures Sent(sock) == old(Sent(sock)) + [line]
    {
      hide Messages, ReadAll;
      OneMessage(line);
      ReadAllMore(sock.written, line + CRLF);
      var ok := TryWritingToSock(sock, line + "\r\n");
    }

    /** pass_user_info_to_server: the handshake is written, the verdict is read; `None` when reading it fails. */
    method PassUserInfoToServer() returns (verdict: Option<bool>)
      requires CanRegister(user) && Sent(sock) == [] && sockMsgs == []
      modifies `sockMsgs, sock
      ensures sock.written == old(sock.written) + ["NICK " + user.nick + "\r\n"]
                              + ["USER " + user.whoami + " * * :" + user.realName + "\r\n"]
                              + ["PASS " + user.password + "\r\n\r\n"]
      ensures Sent(sock) == [NickLine(user), UserLine(user), PassLine(user)]
      ensures verdict.Some? ==>
                var all := ReadAll(old(sock.arrivals));
                && all != [] && verdict == ClientVerdict(all[0])
                && sockMsgs + ReadAll(sock.arrivals) == all[1..]
      ensures old(Steady(sock.arrivals)) ==>
                var all := ReadAll(old(sock.arrivals));
                Steady(sock.arrivals) && (all != [] ==> verdict == ClientVerdict(all[0]))
    {
      hide Messages, ReadAll, Split, Contains, Steady;
      TryWriting("NICK " + user.nick);
      TryWriting("USER " + user.whoami + USER_DELIM + user.realName);
      WritePass();
      ghost var all := ReadAll(sock.arrivals);
      assert [] + all == all;
      var reply := TryReading();
      if reply.None? {
        return None;
      }
      FirstOfRest(reply.value, sockMsgs + ReadAll(sock.arrivals), all);
      verdict := ClientVerdict(reply.value);
    }

    /** The PASS message ends with a doubled CRLF. */
    method WritePass()
      requires LineFree(user.password)
      modifies sock`written
      ensures sock.written == old(sock.written) + ["PASS " + user.password + "\r\n\r\n"]
      ensures Sent(sock) == old(Sent(sock)) + [PassLine(user)]
    {
      hide Messages, ReadAll;
      OneMessage(PassLine(user));
      ReadAllMore(sock.written, PassLine(user) + CRLF + CRLF);
      var msg := "PASS " + user.password + "\r\n\r\n";
      assert msg == PassLine(user) + CRLF + CRLF;
      var ok := TryWritingToSock(sock, msg);
    }

    /** connect_to_channel: JOIN, then four replies, of which the second is the topic and the third the names. */
    method ConnectToChannel(input: string) returns (ok: bool)
      requires LineFree(input)
      modifies this, sock
      ensures sock == old(sock)
      ensures Sent(sock) == old(Sent(sock)) + ["JOIN " + if input != "" && input[0] == '#' then input else "#" + input]
      ensures ok ==> Valid() && chan == channelName == ChannelOf(input)
      ensures ok ==> |lines| == 4 && lines + (sockMsgs + ReadAll(sock.arrivals)) == old(sockMsgs + ReadAll(sock.arrivals))
      ensures old(Steady(sock.arrivals)) ==> (ok <==> |old(sockMsgs + ReadAll(sock.arrivals))| >= 4)
    {
      hide Messages, ReadAll, AfterFirstColon, Steady;
      var channel := ChannelOf(input);
      OneChannel(input);
      TryWriting("JOIN " + channel);
      ok := ReadGreeting();
      if ok {
        channelName, chan := channel, channel;
      }
    }

    /** The four replies that follow a JOIN. */
    method ReadGreeting() returns (ok: bool)
      modifies `sockMsgs, `channelTopic, `names, `shown, `lines, sock`arrivals
      ensures ok ==>
                && |lines| == 4 && OnScreen() == Opening(lines[1], lines[2])
                && lines + (sockMsgs + ReadAll(sock.arrivals)) == old(sockMsgs + ReadAll(sock.arrivals))
      ensures old(Steady(sock.arrivals)) ==> (ok <==> |old(sockMsgs + ReadAll(sock.arrivals))| >= 4)
    {
      hide Messages, ReadAll, Steady;
      ok := false;
      ghost var all := sockMsgs + ReadAll(sock.arrivals);
      var confirmation := TryReading();
      if confirmation.None? { return; }
      FirstOfRest(confirmation.value, sockMsgs + ReadAll(sock.arrivals), all);
      var topic := TryReading();
      if topic.None? { return; }
      FirstOfRest(topic.value, sockMsgs + ReadAll(sock.arrivals), all[1..]);
      channelTopic := ParseTopicMsg(topic.value);
      var list := TryReading();
      if list.None? { return; }
      FirstOfRest(list.value, sockMsgs + ReadAll(sock.arrivals), all[1..][1..]);
      names := ParseTopicMsg(list.value);
      var end := TryReading();
      if end.None? { return; }
      FirstOfRest(end.value, sockMsgs + ReadAll(sock.arrivals), all[1..][1..][1..]);
      shown := [];
      lines := [confirmation.value, topic.value, list.value, end.value];
      FourOff(all);
      ok := true;
    }

    /** parse_session_msg; `false` is its exception. */
    method ParseSessionMsg(msg: string) returns (ok: bool)
      requires Valid()
      modifies `channelTopic, `shown, `lines
      ensures match Session(old(lines) + [msg], channelName)
              case None => !ok
              case Some(sc) => ok && lines == old(lines) + [msg] && OnScreen() == sc
    {
      hide ParseSession, Session;
      SessionAppended(lines, msg, channelName);
      assert Session(lines + [msg], channelName) == ShowNext(OnScreen(), msg, channelName);
      match ParseSession(msg, channelName)
      case Shown(event) =>
        shown := shown + [event];
        if event.Topic? {
          channelTopic := event.topic;
        }
        lines := lines + [msg];
        ok := true;
      case _ =>
        ok := false;
    }

    /** The top of the session loop: read what is available, show all of it, and leave the queue empty. */
    method ShowPending() returns (ok: bool)
      requires Valid()
      modifies `sockMsgs, `channelTopic, `shown, `lines, sock`arrivals
      ensures ok <==> Session(old(lines) + (old(sockMsgs) + NextRead(old(sock.arrivals))), channelName).Some?
      ensures ok ==> Valid() && sockMsgs == []
      ensures ok ==> lines == old(lines) + (old(sockMsgs) + NextRead(old(sock.arrivals)))
      ensures ok ==> lines + ReadAll(sock.arrivals) == old(lines + (sockMsgs + ReadAll(sock.arrivals)))
    {
      hide Messages, ReadAll, NextRead, Session;
      ghost var before := lines;
      sockMsgs := UpdateSockMsgs(sock, sockMsgs);
      ghost var queue, later := sockMsgs, ReadAll(sock.arrivals);
      assert before + queue + later == before + (queue + later);
      for i := 0 to |sockMsgs|
        invariant Valid() && lines == before + sockMsgs[..i]
        modifies `channelTopic, `shown, `lines
      {
        assert sockMsgs[..i + 1] == sockMsgs[..i] + [sockMsgs[i]];
        assert before + sockMsgs[..i + 1] == before + sockMsgs[..i] + [sockMsgs[i]];
        ok := ParseSessionMsg(sockMsgs[i]);
        if !ok {
          assert before + sockMsgs[..i + 1] + sockMsgs[i + 1..] == before + sockMsgs;
          SessionStaysFailed(before + sockMsgs[..i + 1], sockMsgs[i + 1..], channelName);
          return;
        }
      }
      assert sockMsgs[..|sockMsgs|] == sockMsgs;
      sockMsgs := [];
      ok := true;
    }

    /** handle_topic_request: `more` is what the user types next, and `used` how much of it was asked for. */
    method HandleTopicRequest(more: seq<string>) returns (used: nat)
      requires Going(Sent(sock), user) && LineFree(chan) && forall m | m in more :: LineFree(m)
      modifies sock`written
      ensures Going(Sent(sock), user)
      ensures used == if more == [] then 0 else if |more| >= 2 && more[0] == "SET" then 2 else 1
      ensures Sent(sock) == old(Sent(sock)) + if |more| >= 2 && more[0] == "SET" then ["TOPIC " + chan + " :" + more[1]] else []
    {
      hide Sent, Proper, Going;
      used := if |more| >= 1 then 1 else 0;
      if |more| >= 2 && more[0] == "SET" {
        used := 2;
        var line := "TOPIC " + chan + " :" + more[1];
        assert more[1] in more;
        TopicIsTidy(chan, more[1]);
        GoesOn(Sent(sock), user, line);
        TryWriting(line);
      }
    }

    /** parse_user_input: at most one message is written, and PART exactly when the session ends. `more` is what the user
        types when asked about the topic; `used` says how much of it was asked for. */
    method ParseUserInput(msg: string, more: seq<string>) returns (code: Code, used: nat)
      requires Going(Sent(sock), user) && LineFree(chan) && LineFree(msg) && forall m | m in more :: LineFree(m)
      modifies sock`written
      ensures used <= |more|
      ensures code == NotQuitting ==> Going(Sent(sock), user) && |Sent(sock)| >= |old(Sent(sock))|
      ensures code != NotQuitting ==> Sent(sock) == old(Sent(sock)) + ["PART " + chan] && Proper(Sent(sock), user)
      ensures code == Quitting <==> msg == "EXIT"
      ensures code == Switching <==> msg == "LEAVE"
      ensures msg != "TOPIC" ==> used == 0
      ensures msg in ["", "HELP"] ==> Sent(sock) == old(Sent(sock))
      ensures msg == "TOPIC" ==>
                Sent(sock) == old(Sent(sock)) + if |more| >= 2 && more[0] == "SET" then ["TOPIC " + chan + " :" + more[1]] else []
      ensures msg !in ["", "EXIT", "HELP", "TOPIC", "LEAVE"] ==> Sent(sock) == old(Sent(sock)) + ["PRIVMSG " + chan + " :" + msg]
      ensures Sent(sock) == old(Sent(sock)) + Asks(msg, more, chan) && used == Answers(msg, more)
    {
      hide Sent, Proper, Going;
      code, used := NotQuitting, 0;
      if msg == "" || msg == "HELP" {
      } else if msg == "EXIT" || msg == "LEAVE" {
        var line := "PART " + chan;
        PartIsTidy(chan);
        GoesOn(Sent(sock), user, line);
        TryWriting(line);
        code := if msg == "EXIT" then Quitting else Switching;
      } else if msg == "TOPIC" {
        used := HandleTopicRequest(more);
      } else {
        var line := "PRIVMSG " + chan + " :" + msg;
        PrivIsTidy(chan, msg);
        GoesOn(Sent(sock), user, line);
        TryWriting(line);
      }
    }

    /** One connection: log in, then join the channel that is typed first, if anything is typed. The first time, a refusal
        ends the client; later the verdict is ignored. */
    method StartSession(typed: seq<string>, first: bool) returns (ok: bool)
      requires CanRegister(user) && Sent(sock) == [] && sockMsgs == [] && forall m | m in typed :: LineFree(m)
      modifies this, sock
      ensures sock == old(sock) && Proper(Sent(sock), user)
      ensures Sent(sock) == [NickLine(user), UserLine(user), PassLine(user)]
              || (typed != [] && Sent(sock) == [NickLine(user), UserLine(user), PassLine(user)] + ["JOIN " + ChannelOf(typed[0])])
      ensures JoinWaited(Sent(sock), ReadAll(old(sock.arrivals)), first)
      ensures ok && typed == [] ==> Sent(sock) == [NickLine(user), UserLine(user), PassLine(user)]
      ensures ok && typed != [] ==>
                Valid() && Going(Sent(sock), user) && chan == channelName == ChannelOf(typed[0]) && |Sent(sock)| == 4
      ensures ok && typed != [] ==> lines + (sockMsgs + ReadAll(sock.arrivals)) == RepliesAfter(ReadAll(old(sock.arrivals)))
      ensures old(Steady(sock.arrivals)) ==>
                (ok <==> Welcomed(ReadAll(old(sock.arrivals)), first) && (typed != [] ==> |ReadAll(old(sock.arrivals))| >= 5))
    {
      hide Sent, Proper, Going, CanRegister, ReadAll, ClientVerdict, Steady;
      HandshakeProper(user);
      var verdict := PassUserInfoToServer();
      ok := false;
      if verdict.None? || (first && verdict == Some(false)) {
        return;
      }
      assert first ==> verdict == Some(verdict.value) && verdict.value;
      if typed == [] {
        return true;
      }
      assert typed[0] in typed;
      ok := ConnectToChannel(typed[0]);
      JoinGoes(user, ChannelOf(typed[0]));
      GoingIsProper(Sent(sock), user);
    }

    /** One turn of the session loop: show what has come, then do what the user typed. */
    method TakeTurn(msg: string, more: seq<string>) returns (ok: bool, code: Code, used: nat)
      requires Valid() && Going(Sent(sock), user) && LineFree(chan) && LineFree(msg) && forall m | m in more :: LineFree(m)
      modifies `sockMsgs, `channelTopic, `shown, `lines, sock
      ensures Proper(Sent(sock), user) && used <= |more|
      ensures ok <==> Session(old(lines) + (old(sockMsgs) + NextRead(old(sock.arrivals))), channelName).Some?
      ensures Sent(sock) == old(Sent(sock)) + if ok then Asks(msg, more, chan) else []
      ensures ok ==> used == Answers(msg, more) && (code == Quitting <==> msg == "EXIT") && (code == Switching <==> msg == "LEAVE")
      ensures code != NotQuitting ==> ok && Sent(sock) == old(Sent(sock)) + ["PART " + chan]
      ensures ok ==> sockMsgs == [] && lines == old(lines) + (old(sockMsgs) + NextRead(old(sock.arrivals)))
      ensures ok ==> lines + ReadAll(sock.arrivals) == old(lines + (sockMsgs + ReadAll(sock.arrivals)))
      ensures ok && code == NotQuitting ==> Valid() && Going(Sent(sock), user)
    {
      hide Sent, Proper, Going, Session, ReadAll, NextRead, Asks, Answers;
      GoingIsProper(Sent(sock), user);
      code, used := NotQuitting, 0;
      ok := ShowPending();
      if ok {
        code, used := ParseUserInput(msg, more);
        if code == NotQuitting {
          GoingIsProper(Sent(sock), user);
        }
      }
    }

    /** The session loop, until the user leaves or exits: `rest` is what is typed after LEAVE. What the lines ask for goes out, in
        order; and if all replies can be parsed, nothing fails. */
    method Talk(typed: seq<string>) returns (ok: bool, code: Code, rest: seq<string>)
      requires Valid() && Going(Sent(sock), user) && LineFree(chan) && chan == channelName && forall m | m in typed :: LineFree(m)
      modifies `sockMsgs, `channelTopic, `shown, `lines, sock
      ensures Proper(Sent(sock), user) && (forall m | m in rest :: LineFree(m)) && |rest| <= |typed|
      ensures old(Sent(sock)) <= Sent(sock) <= old(Sent(sock)) + Talked(typed, chan)
      ensures ok ==> Sent(sock) == old(Sent(sock)) + Talked(typed, chan)
      ensures ok ==> AfterLeave(typed) == if code == Switching then Some(rest) else None
      ensures ok && code == Switching ==> sockMsgs == []
      ensures Session(old(lines + (sockMsgs + ReadAll(sock.arrivals))), channelName).Some? ==> ok
    {
      hide Sent, Proper, Going, Session, ReadAll, NextRead, Asks, Answers, Talked, AfterLeave;
      GoingIsProper(Sent(sock), user);
      ok, code, rest := true, NotQuitting, typed;
      ghost var sent, all := Sent(sock), lines + (sockMsgs + ReadAll(sock.arrivals));
      assert Talked(rest, chan) == Talked(typed, chan);
      while rest != []
        invariant ok && code == NotQuitting && Valid() && Going(Sent(sock), user) && Proper(Sent(sock), user)
        invariant |rest| <= |typed| && forall m | m in rest :: LineFree(m)
        invariant sent <= Sent(sock) && Sent(sock) + Talked(rest, chan) == sent + Talked(typed, chan)
        invariant AfterLeave(rest) == AfterLeave(typed)
        invariant lines + (sockMsgs + ReadAll(sock.arrivals)) == all
        decreases |rest|
      {
        Turned(rest, chan);
        ServesTurn(lines, sockMsgs, sock.arrivals, channelName);
        ghost var before := Sent(sock);
        var more, used := rest[1..], 0;
        ok, code, used := TakeTurn(rest[0], more);
        rest := more[used..];
        Regrouped(before, Sent(sock)[|before|..], if code == NotQuitting then Talked(rest, chan) else []);
        if !ok || code != NotQuitting {
          return;
        }
      }
      NothingTyped(chan);
    }

    /** One connection, from connecting to LEAVE or EXIT; `next` is what is typed after LEAVE. It carries what is typed to it: all of
        it if no read fails, and a beginning of it otherwise. */
    method Visit(link: Socket, typed: seq<string>, first: bool) returns (ok: bool, next: Option<seq<string>>)
      requires CanRegister(user) && Sent(link) == [] && sockMsgs == [] && forall m | m in typed :: LineFree(m)
      modifies this, link
      ensures Proper(Sent(link), user) && JoinWaited(Sent(link), ReadAll(old(link.arrivals)), first)
      ensures Sent(link) <= Carried(user, typed) && (ok ==> Sent(link) == Carried(user, typed))
      ensures ok ==> next == if typed == [] then None else AfterLeave(typed[1..])
      ensures next.Some? ==> ok && sockMsgs == [] && |next.value| < |typed| && forall m | m in next.value :: LineFree(m)
      ensures Serves(old(link.arrivals), Some(typed), first) ==> ok
    {
      hide Sent, Proper, Going, CanRegister, Session, ReadAll, JoinWaited, LineFree, Serves, Talked, AfterLeave, Carried;
      hide Welcomed, Steady, ChannelOf;
      sock, next := link, None;
      ServesStart(sock.arrivals, typed, first);
      ok := StartSession(typed, first);
      LoggedOn(user, typed, Sent(sock));
      if !ok || typed == [] {
        return;
      }
      assert typed[0] in typed;
      ChannelFree(typed[0]);
      ServesAll(old(link.arrivals), typed, first);
      ghost var sent := Sent(sock);
      var code, rest;
      ok, code, rest := Talk(typed[1..]);
      StillWaited(sent, Sent(sock), ReadAll(old(link.arrivals)), first);
      if ok && code == Switching {
        next := Some(rest);
      }
    }

    /** run: `links` are the sockets of consecutive connects, `inputs` what the user types, and `ok` says that no read failed.
        Every connection carries what is typed to it: all of it if no read fails, and a beginning of it otherwise. A connection
        is used only when the ones before it are done with. If every server welcomes, answers JOIN and sends only what can be
        parsed, no read fails. */
    method Run(links: seq<Socket>, inputs: seq<string>) returns (ok: bool)
      requires CanRegister(user) && forall m | m in inputs :: LineFree(m)
      requires links != [] && sockMsgs == []
      requires forall i, j | 0 <= i < j < |links| :: links[i] != links[j]
      requires forall i | 0 <= i < |links| :: Sent(links[i]) == []
      modifies this, links
      ensures forall i | 0 <= i < |links| :: Proper(Sent(links[i]), user)
      ensures forall i | 0 <= i < |links| :: JoinWaited(Sent(links[i]), ReadAll(old(links[i].arrivals)), i == 0)
      ensures forall i | 0 <= i < |links| :: Sent(links[i]) <= Script(user, inputs, i)
      ensures ok ==> forall i | 0 <= i < |links| :: Sent(links[i]) == Script(user, inputs, i)
      ensures forall i, j | 0 <= i < j < |links| && Sent(links[j]) != [] :: Sent(links[i]) == Script(user, inputs, i)
      ensures (forall i | 0 <= i < |links| :: Serves(old(links[i].arrivals), TypedTo(inputs, i), i == 0)) ==> ok
    {
      hide Sent, Proper, Going, CanRegister, Session, ReadAll, JoinWaited, LineFree, Serves, TypedTo, Script, AfterLeave, Carried;
      hide SoFar;
      AllTyped(inputs);
      ghost var replies := RepliesOf(links);
      ghost var carried := seq(|links|, i => []);
      var next, k := Some(inputs), 0;
      ok := true;
      NothingSoFar(user, inputs, carried, replies);
      while next.Some? && k < |links|
        invariant k <= |links| == |carried| && SoFar(user, inputs, k, carried, replies, ok)
        invariant next.Some? ==> ok && sockMsgs == [] && forall m | m in next.value :: LineFree(m)
        invariant ok ==> TypedTo(inputs, k) == next
        invariant forall i | 0 <= i < |links| :: Sent(links[i]) == carried[i]
        invariant forall i | k <= i < |links| :: links[i].arrivals == old(links[i].arrivals)
        invariant !ok ==> exists i | 0 <= i < |links| :: !Serves(old(links[i].arrivals), TypedTo(inputs, i), i == 0)
        decreases |links| - k
      {
        NothingYet(user, inputs, k, carried, replies);
        ghost var typed := next.value;
        ok, next := Visit(links[k], next.value, k == 0);
        OneVisit(user, inputs, k, typed, carried, Sent(links[k]), replies, ok, next);
        carried := carried[k := Sent(links[k])];
        k := k + 1;
      }
      SentSoFar(links, carried, replies, user, inputs, k, ok);
    }
  }

  /** The connections before the k-th are done with, unless the last of them failed, and the others wait. */
  predicate SoFar(h: Handshake, inputs: seq<string>, k: nat, carried: seq<seq<string>>, replies: seq<seq<string>>, ok: bool) {
    && k <= |carried| == |replies|
    && (forall i | 0 <= i < k :: Proper(carried[i], h) && JoinWaited(carried[i], replies[i], i == 0))
    && (forall i | 0 <= i < k :: carried[i] <= Script(h, inputs, i) && (ok || i + 1 < k ==> carried[i] == Script(h, inputs, i)))
    && (forall i | k <= i < |carried| :: carried[i] == [])
  }

  lemma NothingSoFar(h: Handshake, inputs: seq<string>, carried: seq<seq<string>>, replies: seq<seq<string>>)
    requires |carried| == |replies| && forall i | 0 <= i < |carried| :: carried[i] == []
    ensures SoFar(h, inputs, 0, carried, replies, true)
  {
    hide Proper, JoinWaited, Script;
  }

  lemma NothingYet(h: Handshake, inputs: seq<string>, k: nat, carried: seq<seq<string>>, replies: seq<seq<string>>)
    requires k < |carried| && SoFar(h, inputs, k, carried, replies, true)
    ensures carried[k] == []
  {
    hide Proper, JoinWaited, Script;
  }

  /** One more connection. */
  lemma OneVisit(h: Handshake, inputs: seq<string>, k: nat, typed: seq<string>, carried: seq<seq<string>>, sent: seq<string>,
                 replies: seq<seq<string>>, ok: bool, next: Option<seq<string>>)
    requires k < |carried| == |replies| && SoFar(h, inputs, k, carried, replies, true) && TypedTo(inputs, k) == Some(typed)
    requires Proper(sent, h) && JoinWaited(sent, replies[k], k == 0)
    requires sent <= Carried(h, typed) && (ok ==> sent == Carried(h, typed))
    requires ok ==> next == if typed == [] then None else AfterLeave(typed[1..])
    ensures SoFar(h, inputs, k + 1, carried[k := sent], replies, ok)
    ensures ok ==> TypedTo(inputs, k + 1) == next
  {
    hide Proper, JoinWaited, Carried, AfterLeave;
    assert Script(h, inputs, k) == Carried(h, typed);
  }

  /** What the whole run carried. */
  lemma SentSoFar(links: seq<Socket>, carried: seq<seq<string>>, replies: seq<seq<string>>, h: Handshake, inputs: seq<string>, k: nat,
                  ok: bool)
    requires CanRegister(h) && |links| == |carried| && SoFar(h, inputs, k, carried, replies, ok)
    requires forall i | 0 <= i < |links| :: Sent(links[i]) == carried[i]
    requires ok && k < |links| ==> TypedTo(inputs, k) == None
    ensures forall i | 0 <= i < |links| :: Proper(Sent(links[i]), h)
    ensures forall i | 0 <= i < |links| :: JoinWaited(Sent(links[i]), replies[i], i == 0)
    ensures forall i | 0 <= i < |links| :: Sent(links[i]) <= Script(h, inputs, i)
    ensures ok ==> forall i | 0 <= i < |links| :: Sent(links[i]) == Script(h, inputs, i)
    ensures forall i, j | 0 <= i < j < |links| && Sent(links[j]) != [] :: Sent(links[i]) == Script(h, inputs, i)
  {
    hide Sent, TypedTo, Script, Proper, CanRegister, JoinWaited, ReadAll;
    forall i | k <= i < |links|
      ensures Proper(Sent(links[i]), h) && JoinWaited(Sent(links[i]), replies[i], i == 0)
      ensures ok ==> Script(h, inputs, i) == []
    {
      assert Sent(links[i]) == carried[i] == [];
      NothingSent(h, replies[i], i == 0);
      if ok {
        NoMoreTyped(inputs, k, i);
        NothingTypedTo(h, inputs, i);
      }
    }
  }

  lemma NothingTypedTo(h: Handshake, inputs: seq<string>, k: nat)
    requires TypedTo(inputs, k) == None
    ensures Script(h, inputs, k) == []
  {
  }

  /** All that the connections will ever bring. */
  ghost function RepliesOf(links: seq<Socket>): (all: seq<seq<string>>)
    reads links
    ensures |all| == |links| && forall i | 0 <= i < |links| :: all[i] == ReadAll(links[i].arrivals)
  {
    seq(|links|, i requires 0 <= i < |links| reads links => ReadAll(links[i].arrivals))
  }
}
