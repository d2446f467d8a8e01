/** Two ways in which the server fails, as runs from its start (src/server/Server.cpp:132-163, src/server/Servlet.cpp:270-274). */
module FailingRuns {
  import opened Strings
  import opened Sockio
  import opened Irc
  import opened Registration
  import opened Room
  import opened RoomInvariant
  import opened RoomEffects
  import opened BatchJoin
  import opened Chitter
  import opened Handoff
  import opened HandoffTheorems
  import opened Iteration
  import opened AcceptTurn

  // ---- Sending ----

  function SendSteps(e: Endpoint, msgs: seq<string>): seq<Step> {
    if msgs == [] then [] else SendSteps(e, msgs[..|msgs| - 1]) + [ClientSend(e, msgs[|msgs| - 1])]
  }

  function AfterSending(c: Conn, msgs: seq<string>): Conn {
    c.(sent := c.sent + msgs, unread := c.unread + msgs)
  }

  lemma SendStep(cfg: Config, s: System, e: Endpoint, msg: string)
    requires Live(s, e)
    ensures Next(cfg, s, ClientSend(e, msg)) == Some(s.(conns := s.conns[e := AfterSending(s.conns[e], [msg])]))
  {
  }

  lemma {:induction false} SendRun(cfg: Config, s: System, e: Endpoint, msgs: seq<string>)
    requires Live(s, e)
    ensures Run(cfg, s, SendSteps(e, msgs)) == Some(s.(conns := s.conns[e := AfterSending(s.conns[e], msgs)]))
    decreases |msgs|
  {
    hide Next;
    if msgs == [] {
      assert AfterSending(s.conns[e], []) == s.conns[e];
      assert s.conns[e := s.conns[e]] == s.conns;
    } else {
      var n := |msgs| - 1;
      SendRun(cfg, s, e, msgs[..n]);
      var m := s.(conns := s.conns[e := AfterSending(s.conns[e], msgs[..n])]);
      assert msgs == msgs[..n] + [msgs[n]];
      SentOneMore(s.conns[e], msgs[..n], msgs[n]);
      RunThen(cfg, s, SendSteps(e, msgs[..n]), m, ClientSend(e, msgs[n]));
      assert m.conns[e := AfterSending(s.conns[e], msgs)] == s.conns[e := AfterSending(s.conns[e], msgs)];
      SendStep(cfg, m, e, msgs[n]);
    }
  }

  lemma SentOneMore(c: Conn, msgs: seq<string>, m: string)
    ensures AfterSending(AfterSending(c, msgs), [m]) == AfterSending(c, msgs + [m])
  {
    assert c.sent + msgs + [m] == c.sent + (msgs + [m]);
    assert c.unread + msgs + [m] == c.unread + (msgs + [m]);
  }

  // ---- A handshake read at once ----

  /** A client connects and its whole first write is there when the server reads. */
  function HandshakeSteps(e: Endpoint, h: Handshake, more: seq<string>): seq<Step> {
    [AcceptClient(e)] + SendSteps(e, [NickLine(h), UserLine(h), PassLine(h)] + more)
    + [ServerRead(3 + |more|), ServerRead(0), ServerRead(0)]
  }

  function Shaken(s: System, e: Endpoint, h: Handshake, more: seq<string>): System {
    var three := [NickLine(h), UserLine(h), PassLine(h)];
    s.(accept := Reading(e, three), endMsgs := s.endMsgs[e := more],
       conns := s.conns[e := Conn(AtServer, three + more, [], three, [])])
  }

  lemma TakeNext(cfg: Config, s: System, e: Endpoint, got: seq<string>, msg: string, rest: seq<string>)
    requires s.accept == Reading(e, got) && |got| < 3 && e in s.conns && s.conns[e].unread == []
    requires e in s.endMsgs && s.endMsgs[e] == [msg] + rest && (|got| != 1 ==> |msg| >= 5)
    ensures var c := s.conns[e];
            Next(cfg, s, ServerRead(0)) == Some(s.(accept := Reading(e, got + [msg]), endMsgs := s.endMsgs[e := rest],
                                                   conns := s.conns[e := c.(consumed := c.consumed + [msg])]))
  {
    var t := Take(QueueAt(s.endMsgs, e), s.conns[e].unread, 0).value;
    assert t.msg == msg && t.queue == rest && t.unread == [];
  }

  lemma TakeAll(cfg: Config, s: System, e: Endpoint, msg: string, rest: seq<string>)
    requires s.accept == Reading(e, []) && e in s.conns && s.conns[e].unread == [msg] + rest
    requires QueueAt(s.endMsgs, e) == [] && |msg| >= 5
    ensures var c := s.conns[e];
            Next(cfg, s, ServerRead(1 + |rest|))
            == Some(s.(accept := Reading(e, [msg]), endMsgs := s.endMsgs[e := rest],
                       conns := s.conns[e := c.(consumed := c.consumed + [msg], unread := [])]))
  {
    var t := Take([], s.conns[e].unread, 1 + |rest|).value;
    assert t.msg == msg && t.queue == rest && t.unread == [];
    assert [] + [msg] == [msg];
  }

  lemma AcceptStep(cfg: Config, s: System, e: Endpoint)
    requires s.accept.Idle? && !Live(s, e) && QueueAt(s.endMsgs, e) == []
    ensures Next(cfg, s, AcceptClient(e))
         == Some(s.(accept := Reading(e, []), conns := s.conns[e := Conn(AtServer, [], [], [], [])]))
  {
  }

  /** The first message is read from the socket along with all the others, which are then taken from the queue. */
  lemma ThreeReads(cfg: Config, s: System, e: Endpoint, n: string, u: string, p: string, more: seq<string>)
    requires s.accept == Reading(e, []) && e in s.conns && QueueAt(s.endMsgs, e) == [] && |n| >= 5 && |p| >= 5
    requires s.conns[e] == Conn(AtServer, [n, u, p] + more, [], [], [n, u, p] + more)
    ensures Run(cfg, s, [ServerRead(3 + |more|), ServerRead(0), ServerRead(0)])
         == Some(s.(accept := Reading(e, [n, u, p]), endMsgs := s.endMsgs[e := more],
                    conns := s.conns[e := Conn(AtServer, [n, u, p] + more, [], [n, u, p], [])]))
  {
    hide Next, Run, QueueAt;
    var sent := [n, u, p] + more;
    assert sent == [n] + ([u, p] + more) && [u, p] + more == [u] + ([p] + more);
    TakeAll(cfg, s, e, n, [u, p] + more);
    RunOne(cfg, s, ServerRead(3 + |more|));
    var s1 := s.(accept := Reading(e, [n]), endMsgs := s.endMsgs[e := [u, p] + more],
                 conns := s.conns[e := Conn(AtServer, sent, [], [] + [n], [])]);
    TakeNext(cfg, s1, e, [n], u, [p] + more);
    RunThen(cfg, s, [ServerRead(3 + |more|)], s1, ServerRead(0));
    var s2 := Next(cfg, s1, ServerRead(0)).value;
    TakeNext(cfg, s2, e, [n] + [u], p, more);
    RunThen(cfg, s, [ServerRead(3 + |more|)] + [ServerRead(0)], s2, ServerRead(0));
    assert [ServerRead(3 + |more|)] + [ServerRead(0)] + [ServerRead(0)] == [ServerRead(3 + |more|), ServerRead(0), ServerRead(0)];
    var s3 := Next(cfg, s2, ServerRead(0)).value;
    assert [] + [n] + [u] + [p] == [n, u, p] == [n] + [u] + [p];
    assert s3.conns == s.conns[e := Conn(AtServer, sent, [], [n, u, p], [])];
    assert s3.endMsgs == s.endMsgs[e := more];
  }

  lemma HandshakeRun(cfg: Config, s: System, e: Endpoint, h: Handshake, more: seq<string>)
    requires s.accept.Idle? && !Live(s, e) && QueueAt(s.endMsgs, e) == []
    ensures Run(cfg, s, HandshakeSteps(e, h, more)) == Some(Shaken(s, e, h, more))
  {
    hide Next, Run, Live, QueueAt, SendSteps;
    var three := [NickLine(h), UserLine(h), PassLine(h)];
    assert |three[0]| >= 5 && |three[2]| >= 5;
    hide NickLine, UserLine, PassLine;
    var a := [AcceptClient(e)];
    var s1 := s.(accept := Reading(e, []), conns := s.conns[e := Conn(AtServer, [], [], [], [])]);
    AcceptStep(cfg, s, e);
    RunOne(cfg, s, AcceptClient(e));
    AtServerIsLive(s1, e);
    SendRun(cfg, s1, e, three + more);
    RunConcat(cfg, s, a, SendSteps(e, three + more));
    a := a + SendSteps(e, three + more);
    var s2 := s1.(conns := s1.conns[e := AfterSending(s1.conns[e], three + more)]);
    assert s2.conns[e] == Conn(AtServer, three + more, [], [], three + more);
    var last := [ServerRead(3 + |more|), ServerRead(0), ServerRead(0)];
    ThreeReads(cfg, s2, e, three[0], three[1], three[2], more);
    RunConcat(cfg, s, a, last);
    assert Run(cfg, s2, last).value == Shaken(s, e, h, more) by {
      assert s2.conns[e := Conn(AtServer, three + more, [], three, [])] == s.conns[e := Conn(AtServer, three + more, [], three, [])];
    }
  }

  lemma AtServerIsLive(s: System, e: Endpoint)
    requires e in s.conns && s.conns[e].place.AtServer?
    ensures Live(s, e)
  {
  }

  // ---- Leftovers ----

  /** A refused client that wrote on after its PASS: what it wrote is `stale` for the next connection from its endpoint. */
  lemma LeftoverRun(cfg: Config, accounts: Accounts, topics: map<string, string>, e: Endpoint, h: Handshake, more: seq<string>)
    requires ParseHandshake(NickLine(h), UserLine(h), PassLine(h)) == Some(h)
    requires h.nick in accounts && accounts[h.nick] != cfg.hash(h.password)
    ensures match Run(cfg, Init(accounts, topics), HandshakeSteps(e, h, more) + [Register, AcceptClient(e)])
            case None => false
            case Some(q) => q.accept == Reading(e, []) && e in q.conns && q.conns[e] == Conn(AtServer, [], more, [], [])
                            && QueueAt(q.endMsgs, e) == more
  {
    hide Run, ParseHandshake;
    var s := Init(accounts, topics);
    HandshakeRun(cfg, s, e, h, more);
    var a, m := HandshakeSteps(e, h, more), Shaken(s, e, h, more);
    var r := Registered(cfg, m, e, h);
    assert Next(cfg, m, Register) == Some(r);
    RunThen(cfg, s, a, m, Register);
    RunThen(cfg, s, a + [Register], r, AcceptClient(e));
    assert a + [Register] + [AcceptClient(e)] == a + [Register, AcceptClient(e)];
  }

  /** The password of "bob" is "secret". Someone tries "guess" and writes JOIN along with it: the next client from there has
      said JOIN before it said anything, and register_session takes this for its NICK. */
  lemma JoinTakenForNick(topics: map<string, string>)
    ensures var cfg := Config("10.0.0.1", "", p => p);
            var e, h := Endpoint("10.0.0.2", 4000), Handshake("bob", "b", "B", "guess");
            var steps := HandshakeSteps(e, h, ["JOIN #c"]) + [Register, AcceptClient(e)];
            match Run(cfg, Init(map["bob" := "secret"], topics), steps + [ServerRead(0)])
            case None => false
            case Some(q) => e in q.conns && q.conns[e].sent == [] && q.conns[e].stale == ["JOIN #c"]
                            && q.accept == Reading(e, ["JOIN #c"])
  {
    hide Run;
    var cfg := Config("10.0.0.1", "", p => p);
    var e, h := Endpoint("10.0.0.2", 4000), Handshake("bob", "b", "B", "guess");
    ShortNamesParse(h);
    var accounts := map["bob" := "secret"];
    assert cfg.hash("guess") == "guess";
    LeftoverRun(cfg, accounts, topics, e, h, ["JOIN #c"]);
    var steps := HandshakeSteps(e, h, ["JOIN #c"]) + [Register, AcceptClient(e)];
    var q := Run(cfg, Init(accounts, topics), steps).value;
    assert ["JOIN #c"] == ["JOIN #c"] + [];
    assert e in q.endMsgs;
    TakeNext(cfg, q, e, [], "JOIN #c", []);
    RunThen(cfg, Init(accounts, topics), steps, q, ServerRead(0));
  }

  lemma ShortNamesParse(h: Handshake)
    requires |h.whoami| == 1 && |h.realName| == 1
    ensures ParseHandshake(NickLine(h), UserLine(h), PassLine(h)) == Some(h)
  {
    hide ParseHandshake, Find;
    var s := "USER " + h.whoami;
    forall i | 0 <= i <= |s|
      ensures !OccursAt(s, USER_DELIM, i)
    {
      if i == 0 {
        assert s[0..6][0] == 'U' && USER_DELIM[0] == ' ';
      }
    }
    RegistrationRoundTrip(h);
  }

  // ---- A client takes its seat ----

  function SeatSteps(e: Endpoint, h: Handshake, c: string): seq<Step> {
    HandshakeSteps(e, h, []) + [Register, ClientSend(e, "JOIN " + c), ReadJoin(1)] + [Publish, Notify, Spawn]
  }

  function NewUser(cfg: Config, e: Endpoint, h: Handshake, c: string): User {
    User(h.nick, h.whoami, h.realName, cfg.hash(h.password), c, e)
  }

  /** The state when the accept loop is about to publish the client. */
  function Ready(cfg: Config, s: System, e: Endpoint, h: Handshake, c: string): System {
    var four := [NickLine(h), UserLine(h), PassLine(h), "JOIN " + c];
    s.(accept := Publishing(NewUser(cfg, e, h, c), []), accounts := s.accounts[h.nick := cfg.hash(h.password)],
       endMsgs := s.endMsgs - {e}, conns := s.conns[e := Conn(AtServer, four, [], four, [])])
  }

  ghost predicate CanSeat(s: System, e: Endpoint, h: Handshake) {
    && s.accept.Idle? && !Live(s, e) && QueueAt(s.endMsgs, e) == []
    && ParseHandshake(NickLine(h), UserLine(h), PassLine(h)) == Some(h) && h.nick !in s.accounts
  }

  lemma JoinStep(cfg: Config, s: System, u: User, c: string)
    requires s.accept == Joining(u) && u.endpt in s.conns && s.conns[u.endpt].unread == ["JOIN " + c]
    requires QueueAt(s.endMsgs, u.endpt) == []
    ensures var conn := s.conns[u.endpt];
            Next(cfg, s, ReadJoin(1))
            == Some(s.(accept := Publishing(u.(chan := c), []), endMsgs := s.endMsgs - {u.endpt},
                       conns := s.conns[u.endpt := conn.(consumed := conn.consumed + ["JOIN " + c], unread := [])]))
  {
    var t := Take([], s.conns[u.endpt].unread, 1).value;
    assert t.msg == "JOIN " + c && t.queue == [] && t.unread == [];
    assert t.msg[5..] == c;
  }

  lemma RegisterStep(cfg: Config, s: System, e: Endpoint, h: Handshake)
    requires e in s.conns && s.accept == Reading(e, [NickLine(h), UserLine(h), PassLine(h)]) && h.nick !in s.accounts
    requires ParseHandshake(NickLine(h), UserLine(h), PassLine(h)) == Some(h)
    ensures Next(cfg, s, Register)
         == Some(s.(accept := Joining(NewUser(cfg, e, h, "")), accounts := s.accounts[h.nick := cfg.hash(h.password)]))
  {
    hide ParseHandshake, NickLine, UserLine, PassLine;
  }

  /** From the registration to the reading of JOIN. */
  lemma JoinRun(cfg: Config, s: System, e: Endpoint, h: Handshake, c: string)
    requires e in s.conns && s.accept == Reading(e, [NickLine(h), UserLine(h), PassLine(h)]) && h.nick !in s.accounts
    requires ParseHandshake(NickLine(h), UserLine(h), PassLine(h)) == Some(h)
    requires s.conns[e].place.AtServer? && s.conns[e].unread == [] && QueueAt(s.endMsgs, e) == []
    ensures var conn := s.conns[e];
            Run(cfg, s, [Register, ClientSend(e, "JOIN " + c), ReadJoin(1)])
            == Some(s.(accept := Publishing(NewUser(cfg, e, h, c), []), accounts := s.accounts[h.nick := cfg.hash(h.password)],
                       endMsgs := s.endMsgs - {e},
                       conns := s.conns[e := conn.(sent := conn.sent + ["JOIN " + c], consumed := conn.consumed + ["JOIN " + c])]))
  {
    hide Next, Run, ParseHandshake, QueueAt, NickLine, UserLine, PassLine, Live;
    var j := "JOIN " + c;
    RegisterStep(cfg, s, e, h);
    RunOne(cfg, s, Register);
    var s1 := Next(cfg, s, Register).value;
    AtServerIsLive(s1, e);
    SendStep(cfg, s1, e, j);
    RunThen(cfg, s, [Register], s1, ClientSend(e, j));
    var s2 := Next(cfg, s1, ClientSend(e, j)).value;
    assert s2.conns[e].unread == [j];
    JoinStep(cfg, s2, NewUser(cfg, e, h, ""), c);
    RunThen(cfg, s, [Register] + [ClientSend(e, j)], s2, ReadJoin(1));
    assert [Register] + [ClientSend(e, j)] + [ReadJoin(1)] == [Register, ClientSend(e, j), ReadJoin(1)];
    var s3 := Next(cfg, s2, ReadJoin(1)).value;
    var conn := s.conns[e];
    assert s3.conns == s.conns[e := conn.(sent := conn.sent + [j], consumed := conn.consumed + [j])];
  }

  lemma ReadyRun(cfg: Config, s: System, e: Endpoint, h: Handshake, c: string)
    requires CanSeat(s, e, h)
    ensures Run(cfg, s, HandshakeSteps(e, h, []) + [Register, ClientSend(e, "JOIN " + c), ReadJoin(1)])
         == Some(Ready(cfg, s, e, h, c))
  {
    hide Run, Live, ParseHandshake, HandshakeSteps, NickLine, UserLine, PassLine;
    HandshakeRun(cfg, s, e, h, []);
    var m := Shaken(s, e, h, []);
    var three := [NickLine(h), UserLine(h), PassLine(h)];
    JoinRun(cfg, m, e, h, c);
    RunConcat(cfg, s, HandshakeSteps(e, h, []), [Register, ClientSend(e, "JOIN " + c), ReadJoin(1)]);
    var q := Run(cfg, m, [Register, ClientSend(e, "JOIN " + c), ReadJoin(1)]).value;
    assert three + ["JOIN " + c] == [NickLine(h), UserLine(h), PassLine(h), "JOIN " + c];
    assert three + [] + ["JOIN " + c] == three + ["JOIN " + c];
    Overwritten(s.conns, e, m.conns[e], Ready(cfg, s, e, h, c).conns[e]);
    Removed(s.endMsgs, e, []);
  }

  lemma Overwritten(conns: map<Endpoint, Conn>, e: Endpoint, x: Conn, y: Conn)
    ensures conns[e := x][e := y] == conns[e := y]
  {
  }

  lemma Removed(queues: map<Endpoint, seq<string>>, e: Endpoint, queue: seq<string>)
    ensures queues[e := queue] - {e} == queues - {e}
  {
  }

  /** A conforming client with a new nick is always seated. */
  lemma SeatRun(cfg: Config, s: System, e: Endpoint, h: Handshake, c: string)
    requires CanSeat(s, e, h)
    ensures match Run(cfg, s, SeatSteps(e, h, c))
            case None => false
            case Some(q) => HandedOver(cfg, Ready(cfg, s, e, h, c), q, NewUser(cfg, e, h, c), [])
  {
    hide Run, CanSeat, HandedOver;
    ReadyRun(cfg, s, e, h, c);
    var a, last := HandshakeSteps(e, h, []) + [Register, ClientSend(e, "JOIN " + c), ReadJoin(1)], [Publish, Notify, Spawn];
    HandOverSteps(cfg, Ready(cfg, s, e, h, c), NewUser(cfg, e, h, c), []);
    RunConcat(cfg, s, a, last);
  }

  // ---- A servlet's first member ends it ----

  /** A servlet's step leaves the accept loop, the accounts and the other channels' pending users alone. */
  ghost predicate Outside(s: System, q: System) {
    q.accept == s.accept && q.accounts == s.accounts && q.endMsgs == s.endMsgs && q.conns.Keys == s.conns.Keys
  }

  lemma FirstCheck(cfg: Config, s: System, c: string, room: Room)
    requires At(s, c, Checking, room) && s.threads[c].flag in s.flags && s.flags[s.threads[c].flag]
    ensures match Next(cfg, s, CheckFlag(c))
            case None => false
            case Some(q) => At(q, c, Grabbing, room) && Outside(s, q) && q.pending == s.pending && q.socks == s.socks && q.conns == s.conns
  {
  }

  lemma FirstGrab(cfg: Config, s: System, c: string, room: Room, u: User)
    requires At(s, c, Grabbing, room) && PendingAt(s.pending, c) == [Early(u, [])] && s.socks == [u.endpt]
    requires u.endpt in s.conns
    ensures match Next(cfg, s, GrabNew(c))
            case None => false
            case Some(q) => At(q, c, Greeting, Grab(room, [Early(u, [])], [u.endpt])) && Outside(s, q) && PendingAt(q.pending, c) == []
                            && q.conns[u.endpt] == s.conns[u.endpt].(place := Member(c))
  {
    hide Grab, Unclaimed;
    NewEndsAt([Early(u, [])], 0);
  }

  lemma FirstGreet(cfg: Config, s: System, c: string, room: Room)
    requires At(s, c, Greeting, room)
    ensures match Next(cfg, s, Greet(c))
            case None => false
            case Some(q) => At(q, c, Polling(HandleNewUsers(room).socks), HandleNewUsers(room)) && Outside(s, q)
                            && q.pending == s.pending && q.conns == s.conns
  {
    hide HandleNewUsers;
  }

  lemma SendWhile(cfg: Config, s: System, c: string, phase: Phase, room: Room, e: Endpoint, msg: string)
    requires At(s, c, phase, room) && Live(s, e)
    ensures match Next(cfg, s, ClientSend(e, msg))
            case None => false
            case Some(q) => At(q, c, phase, room) && Outside(s, q) && q.pending == s.pending
                            && e in q.conns && q.conns[e] == AfterSending(s.conns[e], [msg])
  {
  }

  lemma FirstPoll(cfg: Config, s: System, c: string, room: Room, e: Endpoint, msg: string)
    requires At(s, c, Polling([e]), room) && e in s.conns && s.conns[e].unread == [msg]
    ensures match Next(cfg, s, PollOne(c, 1))
            case None => false
            case Some(q) => At(q, c, Polling([]), Poll(room, e, [msg])) && Outside(s, q) && q.pending == s.pending
  {
    hide Poll;
    assert [e][1..] == [] && s.conns[e].unread[..1] == [msg];
  }

  lemma FirstStart(cfg: Config, s: System, c: string, room: Room, e: Endpoint)
    requires At(s, c, Polling([]), room) && room.queues.Keys == {e}
    ensures match Next(cfg, s, StartHandling(c, [e]))
            case None => false
            case Some(q) => At(q, c, Handling([e]), room) && Outside(s, q) && q.pending == s.pending
  {
    assert (set x | x in [e]) == {e};
  }

  lemma FirstHandle(cfg: Config, s: System, c: string, room: Room, e: Endpoint)
    requires At(s, c, Handling([e]), room) && e in s.conns && HandleEntry(room, e).None?
    ensures match Next(cfg, s, HandleOne(c))
            case None => false
            case Some(q) => c in q.threads && !q.threads[c].alive && Outside(s, q) && q.pending == s.pending
  {
    hide HandleEntry, Emptied, Has;
  }

  /** The room of a channel whose only member has queued one unrecognised message. */
  lemma LonelyRoom(room: Room, u: User, msg: string)
    requires room.users == [] && room.socks == [] && room.queues == map[] && !Recognised(msg)
    ensures var r := HandleNewUsers(Grab(room, [Early(u, [])], [u.endpt]));
            && r.socks == [u.endpt]
            && Poll(r, u.endpt, [msg]).queues.Keys == {u.endpt}
            && HandleEntry(Poll(r, u.endpt, [msg]), u.endpt).None?
  {
    hide GreetUpto, IsPriv, IsPart, IsTopic;
    var e := u.endpt;
    var g := Grab(room, [Early(u, [])], [e]);
    LonelyGrab(room, u);
    var r := HandleNewUsers(g);
    var p := Poll(r, e, [msg]);
    assert p.users == [u] && p.queues[e] == [] + [msg] == [msg];
    assert Has(p.users, e) by { HasOne(u, e); }
    assert HandleMsg(p, e, msg).None?;
    assert HandleQueue(p, e, [msg]).None?;
  }

  lemma LonelyGrab(room: Room, u: User)
    requires room.users == [] && room.socks == [] && room.queues == map[]
    ensures var g := Grab(room, [Early(u, [])], [u.endpt]);
            g.users == [u] && g.socks == [u.endpt] && g.queues == map[u.endpt := []]
  {
    hide AdmitQueues, AdmitStreams, AdmitHandled, Newcomers, Claimed;
    NewcomersMore([], Early(u, []));
    LonelyQueue(u);
    LonelySock(u);
    assert [] + [u] == [u];
  }

  lemma LonelyQueue(u: User)
    ensures AdmitQueues(map[], [Early(u, [])]) == map[u.endpt := []]
  {
    var list := [Early(u, [])];
    NewcomersMore([], Early(u, []));
    assert list[..0] == [];
    assert QueueOf(list, u.endpt) == [] + [];
  }

  lemma LonelySock(u: User)
    ensures [] + Claimed([u.endpt], [u]) == [u.endpt]
  {
    HasOne(u, u.endpt);
    assert [u.endpt][..0] == [];
    assert Claimed([u.endpt], [u]) == [] + [u.endpt];
  }

  function LifeSteps(e: Endpoint, c: string, msg: string): seq<Step> {
    [CheckFlag(c), GrabNew(c), Greet(c)] + [ClientSend(e, msg), PollOne(c, 1)] + [StartHandling(c, [e]), HandleOne(c)]
  }

  ghost predicate Starting(s: System, c: string, u: User) {
    && c in s.threads && At(s, c, Checking, NewRoom(c, s.threads[c].room.host, s.threads[c].room.topic))
    && s.threads[c].flag in s.flags && s.flags[s.threads[c].flag]
    && PendingAt(s.pending, c) == [Early(u, [])] && s.socks == [u.endpt]
    && u.endpt in s.conns && s.conns[u.endpt].unread == []
  }

  /** The servlet claims and greets its first user, and the first thing this user says ends the thread. */
  lemma LifeRun(cfg: Config, s: System, c: string, u: User, msg: string)
    requires Starting(s, c, u) && !Recognised(msg)
    ensures match Run(cfg, s, LifeSteps(u.endpt, c, msg))
            case None => false
            case Some(q) => c in q.threads && !q.threads[c].alive && Outside(s, q) && PendingAt(q.pending, c) == []
  {
    hide Next, Run, Grab, HandleNewUsers, Poll, HandleEntry, PendingAt, Recognised, Live;
    var e, room := u.endpt, s.threads[c].room;
    LonelyRoom(room, u, msg);
    var g := Grab(room, [Early(u, [])], [e]);
    var r := HandleNewUsers(g);
    FirstCheck(cfg, s, c, room);
    RunOne(cfg, s, CheckFlag(c));
    var s1 := Next(cfg, s, CheckFlag(c)).value;
    FirstGrab(cfg, s1, c, room, u);
    RunThen(cfg, s, [CheckFlag(c)], s1, GrabNew(c));
    var s2 := Next(cfg, s1, GrabNew(c)).value;
    FirstGreet(cfg, s2, c, g);
    RunThen(cfg, s, [CheckFlag(c)] + [GrabNew(c)], s2, Greet(c));
    var s3 := Next(cfg, s2, Greet(c)).value;
    var a := [CheckFlag(c), GrabNew(c), Greet(c)];
    assert [CheckFlag(c)] + [GrabNew(c)] + [Greet(c)] == a;
    assert Live(s3, e) by { MembersLive(s3, c, e); }
    SendWhile(cfg, s3, c, Polling([e]), r, e, msg);
    RunThen(cfg, s, a, s3, ClientSend(e, msg));
    var s4 := Next(cfg, s3, ClientSend(e, msg)).value;
    assert s4.conns[e].unread == [] + [msg] == [msg];
    LastSteps(cfg, s4, c, r, e, msg);
    RunConcat(cfg, s, a + [ClientSend(e, msg)], [PollOne(c, 1), StartHandling(c, [e]), HandleOne(c)]);
    assert a + [ClientSend(e, msg)] + [PollOne(c, 1), StartHandling(c, [e]), HandleOne(c)] == LifeSteps(e, c, msg);
  }

  lemma MembersLive(s: System, c: string, e: Endpoint)
    requires e in s.conns && s.conns[e].place == Member(c)
    ensures Live(s, e)
  {
  }

  lemma LastSteps(cfg: Config, s: System, c: string, r: Room, e: Endpoint, msg: string)
    requires At(s, c, Polling([e]), r) && e in s.conns && s.conns[e].unread == [msg]
    requires Poll(r, e, [msg]).queues.Keys == {e} && HandleEntry(Poll(r, e, [msg]), e).None?
    ensures match Run(cfg, s, [PollOne(c, 1), StartHandling(c, [e]), HandleOne(c)])
            case None => false
            case Some(q) => c in q.threads && !q.threads[c].alive && Outside(s, q) && q.pending == s.pending
  {
    hide Next, Run, Poll, HandleEntry;
    FirstPoll(cfg, s, c, r, e, msg);
    RunOne(cfg, s, PollOne(c, 1));
    var s1 := Next(cfg, s, PollOne(c, 1)).value;
    FirstStart(cfg, s1, c, Poll(r, e, [msg]), e);
    RunThen(cfg, s, [PollOne(c, 1)], s1, StartHandling(c, [e]));
    var s2 := Next(cfg, s1, StartHandling(c, [e])).value;
    FirstHandle(cfg, s2, c, Poll(r, e, [msg]), e);
    RunThen(cfg, s, [PollOne(c, 1)] + [StartHandling(c, [e])], s2, HandleOne(c));
    assert [PollOne(c, 1)] + [StartHandling(c, [e])] + [HandleOne(c)] == [PollOne(c, 1), StartHandling(c, [e]), HandleOne(c)];
  }

  // ---- Stranded ----

  lemma SeatedStarts(cfg: Config, s: System, q: System, e: Endpoint, h: Handshake, c: string)
    requires s == Init(map[], s.topics) && HandedOver(cfg, Ready(cfg, s, e, h, c), q, NewUser(cfg, e, h, c), [])
    ensures c in q.threads && Starting(q, c, NewUser(cfg, e, h, c)) && q.accept.Idle?
    ensures q.conns.Keys == {e} && q.endMsgs == map[] && q.accounts == map[h.nick := cfg.hash(h.password)]
  {
    hide NickLine, UserLine, PassLine;
    var u := NewUser(cfg, e, h, c);
    HandedOverMeans(cfg, Ready(cfg, s, e, h, c), q, u, []);
    HandedOverKeys(cfg, Ready(cfg, s, e, h, c), q, u);
    assert [] + [Early(u, [])] == [Early(u, [])] && [] + [e] == [e];
  }

  lemma HandedOverKeys(cfg: Config, s: System, q: System, u: User)
    requires u.endpt in s.conns && HandedOver(cfg, s, q, u, [])
    ensures q.conns.Keys == s.conns.Keys
  {
  }

  /** From the start: one user's first message ends its channel's servlet, and the next user, a conforming one, is published
      to a dead servlet. From there on it waits, whatever happens. */
  lemma SecondUserStranded(cfg: Config, topics: map<string, string>, c: string, e1: Endpoint, h1: Handshake,
                           e2: Endpoint, h2: Handshake, msg: string, later: seq<Step>, q: System)
    requires e1 != e2 && h1.nick != h2.nick && !Recognised(msg)
    requires ParseHandshake(NickLine(h1), UserLine(h1), PassLine(h1)) == Some(h1)
    requires ParseHandshake(NickLine(h2), UserLine(h2), PassLine(h2)) == Some(h2)
    requires Run(cfg, Init(map[], topics), SeatSteps(e1, h1, c) + LifeSteps(e1, c, msg) + SeatSteps(e2, h2, c) + later) == Some(q)
    ensures c in q.threads && !q.threads[c].alive && [Early(NewUser(cfg, e2, h2, c), [])] <= PendingAt(q.pending, c)
  {
    hide Run, ParseHandshake, SeatSteps, LifeSteps, HandedOver, Starting, Recognised, NickLine, UserLine, PassLine, PendingAt;
    var s := Init(map[], topics);
    StrandedRun(cfg, topics, c, e1, h1, e2, h2, msg);
    var steps := SeatSteps(e1, h1, c) + LifeSteps(e1, c, msg) + SeatSteps(e2, h2, c);
    RunConcat(cfg, s, steps, later);
    DeadForEver(cfg, Run(cfg, s, steps).value, later, q, c);
  }

  lemma StrandedRun(cfg: Config, topics: map<string, string>, c: string, e1: Endpoint, h1: Handshake,
                    e2: Endpoint, h2: Handshake, msg: string)
    requires e1 != e2 && h1.nick != h2.nick && !Recognised(msg)
    requires ParseHandshake(NickLine(h1), UserLine(h1), PassLine(h1)) == Some(h1)
    requires ParseHandshake(NickLine(h2), UserLine(h2), PassLine(h2)) == Some(h2)
    ensures match Run(cfg, Init(map[], topics), SeatSteps(e1, h1, c) + LifeSteps(e1, c, msg) + SeatSteps(e2, h2, c))
            case None => false
            case Some(q) => c in q.threads && !q.threads[c].alive
                            && PendingAt(q.pending, c) == [Early(NewUser(cfg, e2, h2, c), [])]
  {
    hide Run, ParseHandshake, SeatSteps, LifeSteps, HandedOver, Starting, Recognised, NickLine, UserLine, PassLine;
    var s := Init(map[], topics);
    assert CanSeat(s, e1, h1);
    SeatRun(cfg, s, e1, h1, c);
    var a := SeatSteps(e1, h1, c);
    var s1 := Run(cfg, s, a).value;
    SeatedStarts(cfg, s, s1, e1, h1, c);
    var u1, u2 := NewUser(cfg, e1, h1, c), NewUser(cfg, e2, h2, c);
    LifeRun(cfg, s1, c, u1, msg);
    RunConcat(cfg, s, a, LifeSteps(e1, c, msg));
    a := a + LifeSteps(e1, c, msg);
    var s2 := Run(cfg, s, a).value;
    assert e2 !in s2.conns;
    assert CanSeat(s2, e2, h2);
    SeatRun(cfg, s2, e2, h2, c);
    RunConcat(cfg, s, a, SeatSteps(e2, h2, c));
    var q := Run(cfg, s2, SeatSteps(e2, h2, c)).value;
    HandedOverMeans(cfg, Ready(cfg, s2, e2, h2, c), q, u2, []);
    assert [] + [Early(u2, [])] == [Early(u2, [])];
  }

  /** "ann" says HELLO without PRIVMSG; "bob" comes after her. */
  lemma HelloStrandsBob(topics: map<string, string>)
    ensures var cfg := Config("10.0.0.1", "", p => p);
            var e1, e2 := Endpoint("10.0.0.2", 4000), Endpoint("10.0.0.3", 4000);
            var ann, bob := Handshake("ann", "a", "A", "x"), Handshake("bob", "b", "B", "y");
            match Run(cfg, Init(map[], topics), SeatSteps(e1, ann, "#c") + LifeSteps(e1, "#c", "HELLO") + SeatSteps(e2, bob, "#c"))
            case None => false
            case Some(q) => "#c" in q.threads && !q.threads["#c"].alive
                            && PendingAt(q.pending, "#c") == [Early(NewUser(cfg, e2, bob, "#c"), [])]
  {
    hide Run, SeatSteps, LifeSteps, PendingAt, NewUser, ParseHandshake;
    var cfg := Config("10.0.0.1", "", p => p);
    var e1, e2 := Endpoint("10.0.0.2", 4000), Endpoint("10.0.0.3", 4000);
    var ann, bob := Handshake("ann", "a", "A", "x"), Handshake("bob", "b", "B", "y");
    assert ann.nick[0] != bob.nick[0];
    assert e1.addr[7] != e2.addr[7];
    ShortNamesParse(ann);
    ShortNamesParse(bob);
    HelloIsUnrecognised();
    StrandedRun(cfg, topics, "#c", e1, ann, e2, bob, "HELLO");
  }

  lemma HelloIsUnrecognised()
    ensures !Recognised("HELLO")
  {
    assert "HELLO"[0..4][0] == 'H' && "HELLO"[0..5][0] == 'H';
  }
}
