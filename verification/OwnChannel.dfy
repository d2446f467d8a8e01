/** Every event on a member's screen: who did it, in which channel, and with which text (src/server/Server.cpp:117-121, 146-158;
    src/server/Servlet.cpp:205-254; src/client/Client.cpp:184-244). */
module OwnChannel {
  import opened Strings
  import opened Sockio
  import opened Irc
  import opened Registration
  import opened Room
  import opened RoomInvariant
  import opened ClientParsers
  import opened BroadcastCodec
  import opened EndToEnd
  import opened TidyRooms
  import opened Chitter
  import opened Handoff
  import opened HandoffInvariant
  import opened HandoffTheorems
  import opened HistoryRuns
  import opened Conformance
  import opened HonestScreens
  import opened Relays
  import opened Typing
  import Delivery

  // ---- Members of a channel asked for it ----

  /** The last message that the accept loop consumed from the connection names the channel. */
  predicate Named(c: Conn, chan: string) {
    c.consumed != [] && After5(c.consumed[|c.consumed| - 1]) == Some(chan)
  }

  ghost predicate ConnsNamed(conns: map<Endpoint, Conn>) {
    forall e | e in conns && (conns[e].place.Pending? || conns[e].place.Member?) :: Named(conns[e], conns[e].place.chan)
  }

  ghost predicate AllNamed(s: System) {
    && ConnsNamed(s.conns)
    && (s.accept.Publishing? ==> s.accept.user.endpt in s.conns && Named(s.conns[s.accept.user.endpt], s.accept.user.chan))
  }

  /** A change of a connection that is neither pending nor a member afterwards. */
  lemma ConnNamed(s: System, q: System, e: Endpoint, x: Conn)
    requires ConnsNamed(s.conns) && q.conns == s.conns[e := x] && !x.place.Pending? && !x.place.Member?
    requires q.accept.Publishing? ==> q.accept.user.endpt == e && Named(x, q.accept.user.chan)
    ensures AllNamed(q)
  {
    hide Named;
  }

  lemma AtServerNow(s: System, e: Endpoint)
    requires AcceptOk(s.accept, s.endMsgs, s.conns)
    requires (s.accept.Reading? && s.accept.sock == e) || (s.accept.Joining? && s.accept.user.endpt == e)
    ensures e in s.conns && s.conns[e].place.AtServer?
  {
    hide InOrder, OnlyAtServer;
  }

  lemma HandshakeNamed(s: System, e: Endpoint, got: seq<string>, t: Taken)
    requires AllNamed(s) && e in s.conns && s.conns[e].place.AtServer?
    ensures AllNamed(HandshakeTaken(s, e, got, t))
  {
    hide Named, After5, AllNamed;
    var q, x := HandshakeTaken(s, e, got, t), AfterTake(s.conns[e], t);
    assert ConnsNamed(s.conns) by { NamedConns(s); }
    ConnNamed(s, q, e, q.conns[e]);
  }

  lemma NamedConns(s: System)
    requires AllNamed(s)
    ensures ConnsNamed(s.conns)
  {
  }

  lemma ReadNamed(s: System, k: nat)
    requires SystemOk(s) && AllNamed(s) && DoServerRead(s, k).Some?
    ensures AllNamed(DoServerRead(s, k).value)
  {
    hide AllNamed, Take, HandshakeTaken, QueueAt, SystemOk;
    var e := s.accept.sock;
    assert s.conns[e].place.AtServer? by { AcceptIsOk(s); AtServerNow(s, e); }
    HandshakeNamed(s, e, s.accept.got, Take(QueueAt(s.endMsgs, e), s.conns[e].unread, k).value);
  }

  lemma AcceptIsOk(s: System)
    requires SystemOk(s)
    ensures AcceptOk(s.accept, s.endMsgs, s.conns)
  {
    hide AcceptOk, PendingOk, SocksOk, ThreadsOk, FlagsOk, AuthOk;
  }

  lemma RegisterNamed(cfg: Config, s: System)
    requires AllNamed(s) && DoRegister(cfg, s).Some?
    ensures AllNamed(DoRegister(cfg, s).value)
  {
    hide AllNamed, ParseHandshake, Registered;
    var e, got := s.accept.sock, s.accept.got;
    NamedConns(s);
    match ParseHandshake(got[0], got[1], got[2])
    case None => ConnNamed(s, DoRegister(cfg, s).value, e, Dropped(s.conns[e]));
    case Some(h) => RegisteredNamed(cfg, s, e, h);
  }

  lemma RegisteredNamed(cfg: Config, s: System, e: Endpoint, h: Handshake)
    requires ConnsNamed(s.conns) && e in s.conns
    ensures AllNamed(Registered(cfg, s, e, h))
  {
    hide LoginResult, Named, AllNamed, ConnsNamed;
    var q := Registered(cfg, s, e, h);
    if q.accept.Joining? {
      SameConnsNamed(s, q);
    } else {
      ConnNamed(s, q, e, Dropped(s.conns[e]));
    }
  }

  lemma SameConnsNamed(s: System, q: System)
    requires ConnsNamed(s.conns) && q.conns == s.conns && !q.accept.Publishing?
    ensures AllNamed(q)
  {
    hide ConnsNamed;
  }

  lemma JoinTakenNamed(s: System, user: User, t: Taken)
    requires ConnsNamed(s.conns) && user.endpt in s.conns && s.conns[user.endpt].place.AtServer?
    ensures AllNamed(JoinTaken(s, user, t))
  {
    hide AllNamed, ConnsNamed, After5;
    var q := JoinTaken(s, user, t);
    ConnNamed(s, q, user.endpt, q.conns[user.endpt]);
  }

  lemma JoinNamed(s: System, k: nat)
    requires SystemOk(s) && AllNamed(s) && DoReadJoin(s, k).Some?
    ensures AllNamed(DoReadJoin(s, k).value)
  {
    hide AllNamed, Take, JoinTaken, QueueAt, SystemOk;
    var user := s.accept.user;
    var e := user.endpt;
    assert s.conns[e].place.AtServer? by { AcceptIsOk(s); AtServerNow(s, e); }
    NamedConns(s);
    JoinTakenNamed(s, user, Take(QueueAt(s.endMsgs, e), s.conns[e].unread, k).value);
  }

  lemma QuietNamed(cfg: Config, s: System, step: Step)
    requires AllNamed(s) && Next(cfg, s, step).Some?
    requires step.ClientSend? || step.AcceptClient? || step.Publish? || step.Notify? || step.Spawn?
    ensures AllNamed(Next(cfg, s, step).value)
  {
    hide After5, QueueAt, PendingAt, NewRoom;
  }

  /** A servlet's step hands connections on within their channel, or ends them. */
  lemma ServletNamed(s: System, q: System)
    requires AllNamed(s) && q.accept == s.accept && q.conns.Keys == s.conns.Keys
    requires forall e | e in s.conns ::
               && q.conns[e].consumed == s.conns[e].consumed
               && (q.conns[e].place.Pending? || q.conns[e].place.Member? ==>
                     (s.conns[e].place.Pending? || s.conns[e].place.Member?) && s.conns[e].place.chan == q.conns[e].place.chan)
    ensures AllNamed(q)
  {
    hide After5;
    forall e | e in q.conns && (q.conns[e].place.Pending? || q.conns[e].place.Member?)
      ensures Named(q.conns[e], q.conns[e].place.chan)
    {
      assert Named(s.conns[e], s.conns[e].place.chan);
    }
  }

  lemma GrabNamed(s: System, c: string)
    requires SystemOk(s) && AllNamed(s) && DoGrab(s, c).Some?
    ensures AllNamed(DoGrab(s, c).value)
  {
    hide ThreadsOk, FlagsOk, AuthOk, AcceptOk, SocksOk, Grab, Unclaimed, NewEnds, AllNamed;
    forall e | e in s.conns && e in NewEnds(PendingAt(s.pending, c))
      ensures s.conns[e].place == Pending(c)
    {
      PendingIsNew(s, c, e);
      PendingPlace(s, c, e);
    }
    hide PendingOk;
    ServletNamed(s, DoGrab(s, c).value);
  }

  lemma HandledConns(s: System, c: string)
    requires DoHandle(s, c).Some?
    ensures var q, t := DoHandle(s, c).value, s.threads[c];
            var e := t.phase.todo[0];
            && q.accept == s.accept && e in s.conns
            && match HandleEntry(t.room, e)
               case None => q.conns == Drop(s.conns, t.room.users)
               case Some(room) =>
                 q.conns == s.conns[e := s.conns[e].(place := if Has(room.users, e) then s.conns[e].place else Place.Left(c))]
  {
    hide HandleEntry, Emptied, Has, Drop;
  }

  lemma HandledPlaces(s: System, c: string)
    requires DoHandle(s, c).Some?
    ensures var q := DoHandle(s, c).value;
            && q.accept == s.accept && q.conns.Keys == s.conns.Keys
            && forall e | e in s.conns ::
                 && q.conns[e].consumed == s.conns[e].consumed
                 && (q.conns[e].place == s.conns[e].place || q.conns[e].place.Left? || q.conns[e].place.Closed?)
  {
    hide HandleEntry, Has, Drop;
    HandledConns(s, c);
    var t := s.threads[c];
    assert c in s.threads && t.phase.todo != [];
    hide DoHandle;
    DropEnds(s.conns, t.room.users);
  }

  lemma HandleNamed(s: System, c: string)
    requires AllNamed(s) && DoHandle(s, c).Some?
    ensures AllNamed(DoHandle(s, c).value)
  {
    hide AllNamed, DoHandle;
    HandledPlaces(s, c);
    ServletNamed(s, DoHandle(s, c).value);
  }

  lemma DropEnds(conns: map<Endpoint, Conn>, us: seq<User>)
    ensures var after := Drop(conns, us);
            && after.Keys == conns.Keys
            && forall e | e in conns ::
                 after[e].consumed == conns[e].consumed && (after[e].place == conns[e].place || after[e].place == Closed)
  {
    hide Has;
  }

  lemma OtherNamed(cfg: Config, s: System, step: Step)
    requires AllNamed(s) && Next(cfg, s, step).Some?
    requires step.CheckFlag? || step.Greet? || step.PollOne? || step.StartHandling? || step.EndIteration?
    ensures AllNamed(Next(cfg, s, step).value)
  {
    hide AllNamed, HandleNewUsers, Poll, NoDup;
    ServletNamed(s, Next(cfg, s, step).value);
  }

  lemma StepKeepsNamed(cfg: Config, s: System, step: Step)
    requires SystemOk(s) && AllNamed(s) && Next(cfg, s, step).Some?
    ensures AllNamed(Next(cfg, s, step).value)
  {
    hide SystemOk, AllNamed;
    match step
    case ServerRead(k) => ReadNamed(s, k);
    case Register => RegisterNamed(cfg, s);
    case ReadJoin(k) => JoinNamed(s, k);
    case GrabNew(c) => GrabNamed(s, c);
    case HandleOne(c) => HandleNamed(s, c);
    case CheckFlag(_) => OtherNamed(cfg, s, step);
    case Greet(_) => OtherNamed(cfg, s, step);
    case PollOne(_, _) => OtherNamed(cfg, s, step);
    case StartHandling(_, _) => OtherNamed(cfg, s, step);
    case EndIteration(_) => OtherNamed(cfg, s, step);
    case _ => QuietNamed(cfg, s, step);
  }

  lemma {:induction false} EveryRunNamed(cfg: Config, accounts: Accounts, topics: map<string, string>, steps: seq<Step>, s: System)
    requires Reached(cfg, accounts, topics, steps, s)
    ensures AllNamed(s)
    decreases |steps|
  {
    hide SystemOk, Next, AllNamed;
    if steps == [] {
      NobodyNamed(accounts, topics);
    } else {
      var shorter := steps[..|steps| - 1];
      var before := Run(cfg, Init(accounts, topics), shorter).value;
      EveryRunOk(cfg, accounts, topics, shorter, before);
      EveryRunNamed(cfg, accounts, topics, shorter, before);
      StepKeepsNamed(cfg, before, steps[|steps| - 1]);
    }
  }

  lemma NobodyNamed(accounts: Accounts, topics: map<string, string>)
    ensures AllNamed(Init(accounts, topics))
  {
  }

  /** In every run whoever is pending for a channel or a member of it has named it in the last message before. */
  lemma MembersAskedForIt(cfg: Config, accounts: Accounts, topics: map<string, string>, steps: seq<Step>, s: System,
                          c: string, e: Endpoint)
    requires Reached(cfg, accounts, topics, steps, s) && (IsPending(s, c, e) || IsMember(s, c, e))
    ensures e in s.conns
    ensures var last := s.conns[e].consumed;
            && last != [] && |last[|last| - 1]| >= 5 && last[|last| - 1][5..] == c
  {
    hide Reached, IsPending, IsMember;
    EveryRunOk(cfg, accounts, topics, steps, s);
    EveryRunNamed(cfg, accounts, topics, steps, s);
    PlaceOf(s, c, e);
    hide SystemOk;
    assert Named(s.conns[e], c);
  }

  lemma PlaceOf(s: System, c: string, e: Endpoint)
    requires SystemOk(s) && (IsPending(s, c, e) || IsMember(s, c, e))
    ensures e in s.conns && (s.conns[e].place == Pending(c) || s.conns[e].place == Member(c))
  {
    hide AcceptOk, SocksOk, FlagsOk, AuthOk, IsPending, IsMember, ThreadsOk, PendingOk;
    PendingPlace(s, c, e);
    MemberPlace(s, c, e);
  }

  // ---- Clients that part their own channel ----

  /** After its JOIN a client parts the channel that the JOIN names, and no other. */
  predicate PartsItsOwn(sent: seq<string>) {
    forall i | 4 <= i < |sent| && IsPart(sent[i]) :: |sent[3]| >= 5 && sent[i] == "PART " + sent[3][5..]
  }

  ghost predicate AllPartTheirOwn(conns: map<Endpoint, Conn>) {
    forall e | e in conns :: PartsItsOwn(conns[e].sent)
  }

  /** At every moment of the run. */
  ghost predicate AlwaysPartTheirOwn(cfg: Config, init: System, steps: seq<Step>) {
    forall n | 0 <= n <= |steps| :: match Run(cfg, init, steps[..n])
                                    case None => true
                                    case Some(s) => AllPartTheirOwn(s.conns)
  }

  /** What the client of this project carries on a connection is such. */
  lemma CarriedPartsItsOwn(h: Handshake, typed: seq<string>, n: nat)
    requires n <= |Carried(h, typed)|
    ensures PartsItsOwn(Carried(h, typed)[..n])
  {
    hide Talked, IsPart, ChannelOf, NickLine, UserLine, PassLine;
    if typed != [] {
      var chan, all := ChannelOf(typed[0]), Carried(h, typed);
      assert all[3] == "JOIN " + chan && all[3][5..] == chan;
      assert all[4..] == Talked(typed[1..], chan);
      TalkedParts(typed[1..], chan);
      forall i | 4 <= i < n && IsPart(all[i])
        ensures all[i] == "PART " + chan
      {
        assert all[i] == all[4..][i - 4];
      }
    }
  }

  lemma {:induction false} TalkedParts(typed: seq<string>, chan: string)
    ensures forall m | m in Talked(typed, chan) && IsPart(m) :: m == "PART " + chan
    decreases |typed|
  {
    hide IsPart, Asks, Answers;
    if typed != [] {
      AskedPart(typed[0], typed[1..], chan);
      if !Ends(typed[0]) {
        TalkedParts(typed[1..][Answers(typed[0], typed[1..])..], chan);
      }
    }
  }

  lemma AskedPart(line: string, more: seq<string>, chan: string)
    ensures forall m | m in Asks(line, more, chan) && IsPart(m) :: m == "PART " + chan
  {
    hide IsPart;
    forall m | m in Asks(line, more, chan) && IsPart(m)
      ensures m == "PART " + chan
    {
      if m != "PART " + chan {
        NoPartAsked(m, chan);
      }
    }
  }

  lemma NoPartAsked(m: string, chan: string)
    requires m != "PART " + chan
    requires (exists text :: m == "PRIVMSG " + chan + " :" + text) || (exists text :: m == "TOPIC " + chan + " :" + text)
    ensures !IsPart(m)
  {
    if text :| m == "PRIVMSG " + chan + " :" + text {
      assert m[0] == 'P' && m[1] == 'R';
      assert m[0..7] == "PRIVMSG";
      OnlyOneKeyword(m, "PRIVMSG", "PART", 1);
    } else {
      var text :| m == "TOPIC " + chan + " :" + text;
      assert m[0..5] == "TOPIC";
      OnlyOneKeyword(m, "TOPIC", "PART", 0);
    }
  }

  lemma {:induction false} HonestSoFar(cfg: Config, init: System, steps: seq<Step>, n: nat)
    requires HonestRun(cfg, init, steps) && n <= |steps|
    ensures HonestRun(cfg, init, steps[..n])
    decreases |steps|
  {
    hide HonestStep, Run;
    if n == |steps| {
      assert steps[..n] == steps;
    } else {
      var shorter := steps[..|steps| - 1];
      HonestSoFar(cfg, init, shorter, n);
      assert shorter[..n] == steps[..n];
    }
  }

  /** A PART among the messages of a conforming client comes after its JOIN. */
  lemma PartIsLate(sent: seq<string>, i: nat)
    requires Conforming(sent) && i < |sent| && IsPart(sent[i])
    ensures i >= 4
  {
    hide Find;
    assert FitsAt(sent, i);
    if i == 0 {
      OnlyOneKeyword(sent[0], "NICK ", "PART", 0);
    } else if i == 1 {
      OnlyOneKeyword(sent[1], "USER ", "PART", 0);
    } else if i == 2 {
      OnlyOneKeyword(sent[2], "PASS ", "PART", 2);
    } else if i == 3 {
      OnlyOneKeyword(sent[3], "JOIN ", "PART", 0);
    }
  }

  lemma HonestConn(s: System, e: Endpoint)
    requires HonestOk(s) && e in s.conns
    ensures s.conns[e].stale == [] && Conforming(s.conns[e].sent)
  {
    hide Conforming;
  }

  /** A member's client has sent its JOIN, and it names the channel. */
  lemma MemberJoined(cfg: Config, accounts: Accounts, topics: map<string, string>, steps: seq<Step>, s: System, c: string, u: User)
    requires HonestlyReached(cfg, accounts, topics, steps, s) && c in s.threads && u in s.threads[c].room.users && u.endpt in s.conns
    ensures var conn := s.conns[u.endpt];
            && conn.stale == [] && Conforming(conn.sent)
            && |conn.sent| >= 4 && |conn.sent[3]| >= 5 && conn.sent[3][5..] == c
  {
    hide Reached, HonestRun, SystemOk, HonestOk, Conforming, Handled, Queued, Has;
    var conn := s.conns[u.endpt];
    assert IsMember(s, c, u.endpt) by { InHas(s.threads[c].room.users, u); }
    HonestRunsOk(cfg, accounts, topics, steps, s);
    HonestConn(s, u.endpt);
    MembersAskedForIt(cfg, accounts, topics, steps, s, c, u.endpt);
    Delivery.MemberIsLive(s, c, u.endpt);
    HonestNothingLost(cfg, accounts, topics, steps, s, u.endpt);
    Fourth(conn.consumed, Handled(s, u.endpt), Queued(s, u.endpt), conn.unread, conn.sent);
  }

  /** The PART of a member of `c` names `c`. */
  lemma PartNames(cfg: Config, accounts: Accounts, topics: map<string, string>, steps: seq<Step>, s: System,
                  c: string, u: User, line: string)
    requires HonestlyReached(cfg, accounts, topics, steps, s) && AllPartTheirOwn(s.conns)
    requires c in s.threads && u in s.threads[c].room.users && u.endpt in s.conns
    requires line in s.conns[u.endpt].stale + s.conns[u.endpt].sent && IsPart(line)
    ensures line == "PART " + c
  {
    hide HonestlyReached, Conforming, IsPart, PartsItsOwn;
    var conn := s.conns[u.endpt];
    MemberJoined(cfg, accounts, topics, steps, s, c, u);
    assert conn.stale + conn.sent == conn.sent;
    var i :| 0 <= i < |conn.sent| && conn.sent[i] == line;
    PartIsLate(conn.sent, i);
    OwnPart(conn.sent, i);
  }

  lemma OwnPart(sent: seq<string>, i: nat)
    requires PartsItsOwn(sent) && 4 <= i < |sent| && IsPart(sent[i])
    ensures |sent[3]| >= 5 && sent[i] == "PART " + sent[3][5..]
  {
  }

  lemma Fourth<T>(a: seq<T>, b: seq<T>, c: seq<T>, d: seq<T>, all: seq<T>)
    requires |a| == 4 && a + b + c + d == all
    ensures |all| >= 4 && all[3] == a[3]
  {
  }

  /** With conforming clients that part their own channel, every PART that a settled member of `c` is told of names `c`. */
  lemma PartedHere(cfg: Config, accounts: Accounts, topics: map<string, string>, steps: seq<Step>, s: System,
                   c: string, v: User, p: Reply)
    requires HonestlyReached(cfg, accounts, topics, steps, s) && AlwaysPartTheirOwn(cfg, Init(accounts, topics), steps)
    requires Settled(s, c, v) && v.endpt in s.threads[c].room.streams && p in s.threads[c].room.streams[v.endpt].replies && p.Parted?
    ensures p.line == "PART " + c
  {
    hide HonestRun, AllPartTheirOwn, IsPart, IsPriv, Settled, Run;
    var init := Init(accounts, topics);
    NothingMadeUp(cfg, accounts, topics, steps, s, c, v, p);
    var n :| 0 <= n <= |steps| && WasSent(cfg, init, steps[..n], c, p.from, p.line);
    HonestSoFar(cfg, init, steps, n);
    PartNames(cfg, accounts, topics, steps[..n], Run(cfg, init, steps[..n]).value, c, p.from, p.line);
  }

  // ---- Event by event ----

  /** A session shows one event for every message after the greeting, and it is that message, parsed. */
  lemma {:induction false} EventsAre(msgs: seq<string>, chan: string)
    requires |msgs| >= 4 && Session(msgs, chan).Some?
    ensures var events := Session(msgs, chan).value.events;
            && |events| == |msgs| - 4
            && forall i | 4 <= i < |msgs| :: ParseSession(msgs[i], chan) == Shown(events[i - 4])
    decreases |msgs|
  {
    hide ParseSession, Opening;
    if |msgs| > 4 {
      EventsAre(msgs[..|msgs| - 1], chan);
    } else {
      NoEvents(msgs[1], msgs[2]);
    }
  }

  lemma NoEvents(topicMsg: string, namesMsg: string)
    ensures Opening(topicMsg, namesMsg).events == []
  {
  }

  /** What a client shows for one reply. */
  lemma EventIs(p: Reply, chan: string, event: Event)
    requires RelayedIn(p, chan) && WellTold(p) && ParseSession(Line(p), chan) == Shown(event)
    requires p.Said? ==> Contains(p.line, ":")
    requires p.Parted? ==> p.line == "PART " + chan
    ensures p.Retitled? ==> event == Topic(p.from.nick, p.topic)
    ensures p.Said? ==> event == Talk(p.from.nick, LoggedText(p.line))
    ensures p.Parted? ==> event.Leave? && event.nick == p.from.nick
                          && (event == Leave(p.from.nick, chan) <==> !Contains(p.from.nick, "PART") && !Contains(p.from.whoami, "PART"))
    ensures p.Joined? ==> event.Join_? && event.nick == p.user.nick
                          && (event == Join_(p.user.nick, chan) <==> !Contains(p.user.nick, "JOIN") && !Contains(p.user.whoami, "JOIN"))
  {
    hide WellNamed, ParseSession, Line, Contains, LoggedText, TalkText;
    match p
    case Joined(u) => JoinedIsJoin(u, chan);
    case Said(u, line) =>
      SaidIsTalk(u, line, chan);
      ShownTextIsLoggedText(u, line);
    case Parted(u, line) => PartedIsLeave(u, chan, chan);
    case Retitled(u, c, topic) => RetitledIsTopic(u, chan, topic);
    case _ =>
  }

  /** In every run with conforming, tidy clients that part their own channel, however the bytes are cut between reads: a settled
      member's client shows one event for every reply after the greeting, in order. A change of topic and a message are shown with
      their sender and text. A PART or a JOIN is shown with its sender, and with this channel exactly when the keyword is not in
      the sender's names. */
  lemma EveryEventIsRight(cfg: Config, accounts: Accounts, topics: map<string, string>, steps: seq<Step>, s: System,
                          c: string, v: User, chunks: seq<string>, i: nat)
    requires TidilyReached(cfg, accounts, topics, steps, s) && AlwaysPartTheirOwn(cfg, Init(accounts, topics), steps)
    requires Settled(s, c, v) && v.endpt in s.threads[c].room.streams
    requires Concat(chunks) == Frame(Lines(s.threads[c].room.streams[v.endpt].replies))
    requires forall b | b in chunks :: EndsWithCrlf(b)
    requires 4 <= i < |s.threads[c].room.streams[v.endpt].replies|
    ensures |ReadAll(chunks)| >= 4 && Session(ReadAll(chunks), c).Some?
    ensures var rs, events := s.threads[c].room.streams[v.endpt].replies, Session(ReadAll(chunks), c).value.events;
            && |events| == |rs| - 4
            && var p, event := rs[i], events[i - 4];
               && (p.Retitled? ==> event == Topic(p.from.nick, p.topic))
               && (p.Said? ==> event == Talk(p.from.nick, LoggedText(p.line)))
               && (p.Parted? ==>
                     event.Leave? && event.nick == p.from.nick
                     && (event == Leave(p.from.nick, c) <==> !Contains(p.from.nick, "PART") && !Contains(p.from.whoami, "PART")))
               && (p.Joined? ==>
                     event.Join_? && event.nick == p.user.nick
                     && (event == Join_(p.user.nick, c) <==> !Contains(p.user.nick, "JOIN") && !Contains(p.user.whoami, "JOIN")))
               && !p.TopicIs? && !p.Names? && !p.EndOfNames?
  {
    hide Reached, HonestRun, TidyRun, TidyConfig, TidyTopics, Concat, Frame, ReadAll;
    hide Session, Lines, Line, ParseSession, Contains, LoggedText, WellTold, RelayedIn, AlwaysPartTheirOwn;
    var rs := s.threads[c].room.streams[v.endpt].replies;
    SessionRead(cfg, accounts, topics, steps, s, c, v, chunks);
    ReplyRead(cfg, accounts, topics, steps, s, c, v, i);
    EventsAre(Lines(rs), c);
    LinesAt(rs, i);
    if rs[i].Parted? {
      PartedHere(cfg, accounts, topics, steps, s, c, v, rs[i]);
    }
    RelayedOnly(rs[i], c);
    EventIs(rs[i], c, Session(Lines(rs), c).value.events[i - 4]);
  }

  /** The client reads its stream and shows it. */
  lemma SessionRead(cfg: Config, accounts: Accounts, topics: map<string, string>, steps: seq<Step>, s: System,
                    c: string, v: User, chunks: seq<string>)
    requires TidilyReached(cfg, accounts, topics, steps, s)
    requires Settled(s, c, v) && v.endpt in s.threads[c].room.streams
    requires Concat(chunks) == Frame(Lines(s.threads[c].room.streams[v.endpt].replies))
    requires forall b | b in chunks :: EndsWithCrlf(b)
    ensures var rs := s.threads[c].room.streams[v.endpt].replies;
            ReadAll(chunks) == Lines(rs) && |rs| >= 4 && Session(Lines(rs), c).Some?
  {
    hide SystemOk, HonestOk, TidySystem, TidyRoom, Reached, HonestRun, TidyRun, Written, Concat, Frame, ReadAll;
    hide Session, Lines, NoColons, PlainNicks, Line, Roster, LastTopic, Heard, AllWellTold, Regular, Nicks, TidyUser, TidyLog;
    TidyRunsOk(cfg, accounts, topics, steps, s);
    MembersKnow(cfg, accounts, topics, steps, s, c, v);
    var r := s.threads[c].room;
    MemberIsTidy(s, c, v);
    TidyStreamShows(r, v);
    StreamArrives(r.streams[v.endpt].replies, chunks);
    ClientShowsItsStream(r.streams[v.endpt].replies, v, r.host, c);
  }

  /** Every reply after the greeting is a relay that the client can read. */
  lemma ReplyRead(cfg: Config, accounts: Accounts, topics: map<string, string>, steps: seq<Step>, s: System,
                  c: string, v: User, i: nat)
    requires TidilyReached(cfg, accounts, topics, steps, s)
    requires Settled(s, c, v) && v.endpt in s.threads[c].room.streams
    requires 4 <= i < |s.threads[c].room.streams[v.endpt].replies|
    ensures var p := s.threads[c].room.streams[v.endpt].replies[i];
            RelayedIn(p, c) && WellTold(p) && (p.Said? ==> Contains(p.line, ":"))
  {
    hide SystemOk, HonestOk, TidySystem, TidyRoom, Reached, HonestRun, TidyRun, Written;
    hide NoColons, PlainNicks, Roster, LastTopic, Heard, Nicks, TidyUser, TidyLog, WellTold, RelayedIn, Contains;
    TidyRunsOk(cfg, accounts, topics, steps, s);
    MembersKnow(cfg, accounts, topics, steps, s, c, v);
    MemberIsTidy(s, c, v);
    TidyStreamShows(s.threads[c].room, v);
    SaidHasColon(s.threads[c].room, v, c, i);
  }

  lemma RelayedOnly(p: Reply, chan: string)
    requires RelayedIn(p, chan)
    ensures !p.TopicIs? && !p.Names? && !p.EndOfNames?
  {
  }

  lemma SaidHasColon(r: Room, v: User, chan: string, i: nat)
    requires TidyRoom(r) && v.endpt in r.streams && 4 <= i < |r.streams[v.endpt].replies|
    requires RelayedIn(r.streams[v.endpt].replies[i], chan)
    ensures var p := r.streams[v.endpt].replies[i]; p.Said? ==> Contains(p.line, ":")
  {
    hide Contains, TidyUser, IsPriv, NoCrlf, TidyHost;
    var p := r.streams[v.endpt].replies[i];
    assert p in r.streams[v.endpt].replies;
    assert TidyReply(p);
  }
}
