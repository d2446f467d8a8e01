/** The server and its clients as a whole: when every client keeps to the grammar, and to names and texts that the parsers
    can read back, every member's screen is right, in every run. */
module HonestScreens {
  import opened Strings
  import opened Sockio
  import opened Irc
  import opened Registration
  import opened Room
  import opened RoomInvariant
  import opened ClientParsers
  import opened BroadcastCodec
  import opened EndToEnd
  import opened TidyRooms
  import opened Chitter
  import opened Handoff
  import opened HandoffInvariant
  import opened HandoffTheorems
  import opened Conformance

  // ---- Tidy clients ----

  /** The whoami of a USER message. */
  predicate TidyWhoami(m: string) {
    match Find(m, USER_DELIM, 0)
    case None => false
    case Some(i) => i >= 5 && IsRun(m[5..i], false)
  }

  /** Every message is one message on the wire; nick and whoami are words, the channel has no colon, and the messages of the
      session are tidy. */
  predicate TidyAt(sent: seq<string>, i: nat)
    requires i < |sent|
  {
    && NoCrlf(sent[i])
    && (i == 0 ==> |sent[0]| >= 5 && IsRun(sent[0][5..], false))
    && (i == 1 ==> TidyWhoami(sent[1]))
    && (i == 3 ==> ':' !in sent[3])
    && (i >= 4 ==> TidyMsg(sent[i]))
  }

  predicate TidySent(sent: seq<string>) {
    forall i | 0 <= i < |sent| :: TidyAt(sent, i)
  }

  ghost predicate TidyStep(s: System, step: Step) {
    match step
    case ClientSend(e, msg) => e in s.conns ==> TidySent(s.conns[e].sent + [msg])
    case AcceptClient(e) => IsQuad(e.addr)
    case _ => true
  }

  ghost predicate TidyRun(cfg: Config, s: System, steps: seq<Step>) {
    steps != [] ==>
      var before := Run(cfg, s, steps[..|steps| - 1]);
      && TidyRun(cfg, s, steps[..|steps| - 1])
      && (before.Some? ==> TidyStep(before.value, steps[|steps| - 1]))
  }

  predicate TidyConfig(cfg: Config) {
    TidyHost(cfg.host) && NoCrlf(cfg.defaultTopic)
  }

  predicate TidyTopics(topics: map<string, string>) {
    forall c | c in topics :: NoCrlf(topics[c])
  }

  // ---- The invariant ----

  ghost predicate TidyConns(conns: map<Endpoint, Conn>) {
    forall e | e in conns :: TidySent(conns[e].sent) && IsQuad(e.addr)
  }

  ghost predicate TidyAccept(accept: Accept) {
    match accept
    case Joining(u) => IsRun(u.nick, false) && IsRun(u.whoami, false)
    case Publishing(u, _) => TidyUser(u)
    case Notifying(c) => NoCrlf(c)
    case Spawning(c) => NoCrlf(c)
    case _ => true
  }

  ghost predicate TidyPending(pending: map<string, seq<Early>>) {
    forall c, p | p in PendingAt(pending, c) :: TidyUser(p.user)
  }

  ghost predicate TidyThreads(threads: map<string, Thread>) {
    forall c | c in threads :: TidyRoom(threads[c].room)
  }

  ghost predicate TidySystem(s: System) {
    && TidyConns(s.conns)
    && TidyAccept(s.accept)
    && TidyPending(s.pending)
    && TidyThreads(s.threads)
    && TidyTopics(s.topics)
  }

  /** What every state of such a run satisfies. */
  ghost predicate GoodSystem(s: System) {
    SystemOk(s) && HonestOk(s) && TidySystem(s)
  }

  // ---- Steps of clients and of the accept loop ----

  lemma SendTidy(s: System, e: Endpoint, msg: string)
    requires TidySystem(s) && TidyStep(s, ClientSend(e, msg)) && DoSend(s, e, msg).Some?
    ensures TidySystem(DoSend(s, e, msg).value)
  {
    hide TidySent, TidyAccept, TidyPending, TidyThreads, TidyTopics, IsQuad;
  }

  lemma AcceptTidy(s: System, e: Endpoint)
    requires TidySystem(s) && TidyStep(s, AcceptClient(e)) && DoAccept(s, e).Some?
    ensures TidySystem(DoAccept(s, e).value)
  {
    hide TidyPending, TidyThreads, TidyTopics, IsQuad, TidyAt;
  }

  /** Changing nothing of a connection but what is done with it. */
  lemma ConnTidy(s: System, e: Endpoint, x: Conn)
    requires TidyConns(s.conns) && e in s.conns && x.sent == s.conns[e].sent
    ensures TidyConns(s.conns[e := x])
  {
    hide TidySent, IsQuad;
  }

  lemma HandshakeTakenTidy(s: System, e: Endpoint, got: seq<string>, t: Taken)
    requires TidySystem(s) && e in s.conns
    ensures TidySystem(HandshakeTaken(s, e, got, t))
  {
    hide TidyConns, TidyPending, TidyThreads, TidyTopics, After5;
    ConnTidy(s, e, AfterTake(s.conns[e], t));
    ConnTidy(s, e, Dropped(AfterTake(s.conns[e], t)));
  }

  lemma ReadTidy(s: System, k: nat)
    requires TidySystem(s) && DoServerRead(s, k).Some?
    ensures TidySystem(DoServerRead(s, k).value)
  {
    hide TidySystem, Take, HandshakeTaken, QueueAt;
    var e := s.accept.sock;
    HandshakeTakenTidy(s, e, s.accept.got, Take(QueueAt(s.endMsgs, e), s.conns[e].unread, k).value);
  }

  /** The user that a tidy handshake builds has tidy names. */
  lemma HandshakeNames(sent: seq<string>, h: Handshake)
    requires |sent| >= 3 && TidySent(sent) && ParseHandshake(sent[0], sent[1], sent[2]) == Some(h)
    ensures IsRun(h.nick, false) && IsRun(h.whoami, false)
  {
    hide Split, Find, IsRun, NoCrlf, TidyMsg;
    assert TidyAt(sent, 0) && TidyAt(sent, 1);
    var i := Find(sent[1], USER_DELIM, 0).value;
    SplitSome(sent[1], USER_DELIM, i);
    assert sent[1][..i][5..] == sent[1][5..i];
  }

  lemma RegisteredTidy(cfg: Config, s: System, e: Endpoint, h: Handshake)
    requires TidySystem(s) && e in s.conns && IsRun(h.nick, false) && IsRun(h.whoami, false)
    ensures TidySystem(Registered(cfg, s, e, h))
  {
    hide TidyConns, TidyPending, TidyThreads, TidyTopics, IsRun, LoginResult;
    ConnTidy(s, e, Dropped(s.conns[e]));
  }

  lemma ReadSoFar(s: System)
    requires SystemOk(s) && HonestOk(s) && s.accept.Reading? && |s.accept.got| == 3
    ensures var e := s.accept.sock; e in s.conns && |s.conns[e].sent| >= 3 && s.accept.got == s.conns[e].sent[..3]
  {
    hide PendingOk, SocksOk, ThreadsOk, FlagsOk, AuthOk, Conforming;
    var e := s.accept.sock;
    var c := s.conns[e];
    NothingQueued(c, QueueAt(s.endMsgs, e));
  }

  lemma RegisterTidy(cfg: Config, s: System)
    requires GoodSystem(s) && DoRegister(cfg, s).Some?
    ensures TidySystem(DoRegister(cfg, s).value)
  {
    hide SystemOk, HonestOk, ParseHandshake, Registered, TidySent, TidyPending, TidyThreads, TidyTopics, IsQuad, IsRun;
    ReadSoFar(s);
    var e, got := s.accept.sock, s.accept.got;
    match ParseHandshake(got[0], got[1], got[2])
    case None =>
    case Some(h) =>
      HandshakeNames(s.conns[e].sent, h);
      RegisteredTidy(cfg, s, e, h);
  }

  lemma JoinMessage(s: System, k: nat)
    requires SystemOk(s) && HonestOk(s) && DoReadJoin(s, k).Some?
    ensures var e := s.accept.user.endpt;
            && e in s.conns && |s.conns[e].sent| > 3
            && var t := Take(QueueAt(s.endMsgs, e), s.conns[e].unread, k); t.Some? && t.value.msg == s.conns[e].sent[3]
  {
    hide PendingOk, SocksOk, ThreadsOk, FlagsOk, AuthOk, Take, Conforming, InOrder;
    var e := s.accept.user.endpt;
    TakenIsNext(s.conns[e], QueueAt(s.endMsgs, e), k);
  }

  lemma JoinTakenTidy(s: System, user: User, t: Taken)
    requires TidySystem(s) && user.endpt in s.conns && IsRun(user.nick, false) && IsRun(user.whoami, false)
    requires NoCrlf(t.msg) && ':' !in t.msg
    ensures TidySystem(JoinTaken(s, user, t))
  {
    hide TidySent, TidyPending, TidyThreads, TidyTopics, IsQuad, IsRun, NoCrlf;
    if |t.msg| >= 5 {
      SuffixHasNoCrlf(t.msg, 5);
    }
  }

  lemma JoinTidy(s: System, k: nat)
    requires GoodSystem(s) && DoReadJoin(s, k).Some?
    ensures TidySystem(DoReadJoin(s, k).value)
  {
    hide SystemOk, HonestOk, JoinTaken, TidyPending, TidyThreads, TidyTopics, IsQuad, IsRun, Take, TidyMsg, NoCrlf;
    JoinMessage(s, k);
    var user := s.accept.user;
    var e := user.endpt;
    assert TidyAt(s.conns[e].sent, 3);
    JoinTakenTidy(s, user, Take(QueueAt(s.endMsgs, e), s.conns[e].unread, k).value);
  }

  lemma PublishTidy(s: System)
    requires TidySystem(s) && DoPublish(s).Some?
    ensures TidySystem(DoPublish(s).value)
  {
    hide TidySent, TidyThreads, TidyTopics, WellNamed, NoCrlf;
    var q, c := DoPublish(s).value, s.accept.user.chan;
    forall d, p | p in PendingAt(q.pending, d)
      ensures TidyUser(p.user)
    {
      assert p in PendingAt(s.pending, d) || p.user == s.accept.user;
    }
  }

  lemma NotifyTidy(s: System)
    requires TidySystem(s) && DoNotify(s).Some?
    ensures TidySystem(DoNotify(s).value)
  {
    hide TidyConns, TidyPending, TidyThreads, TidyTopics;
  }

  lemma SpawnTidy(cfg: Config, s: System)
    requires TidySystem(s) && TidyConfig(cfg) && DoSpawn(cfg, s).Some?
    ensures TidySystem(DoSpawn(cfg, s).value)
  {
    hide TidyConns, TidyPending, TidyRoom, NewRoom, NoCrlf, TidyHost;
    var c := s.accept.chan;
    var topic := if c in s.topics then s.topics[c] else cfg.defaultTopic;
    NewRoomTidy(c, cfg.host, topic);
  }

  lemma NewRoomTidy(c: string, host: string, topic: string)
    requires TidyHost(host) && NoCrlf(c) && NoCrlf(topic)
    ensures TidyRoom(NewRoom(c, host, topic))
  {
    hide TidyHost, NoCrlf;
  }

  // ---- Steps of the servlets ----

  /** A servlet's step that leaves the accept loop alone and its room tidy. */
  lemma ServletTidy(s: System, q: System, c: string)
    requires TidySystem(s) && c in q.threads && q.threads == s.threads[c := q.threads[c]] && TidyRoom(q.threads[c].room)
    requires q.accept == s.accept && q.topics == s.topics
    requires q.conns.Keys == s.conns.Keys && forall e | e in s.conns :: q.conns[e].sent == s.conns[e].sent
    requires q.pending == s.pending || q.pending == s.pending[c := []]
    ensures TidySystem(q)
  {
    hide TidySent, TidyPending, TidyRoom, IsQuad, TidyAccept;
    PendingCleared(s.pending, c);
  }

  lemma PendingCleared(pending: map<string, seq<Early>>, c: string)
    requires TidyPending(pending)
    ensures TidyPending(pending[c := []])
  {
    hide TidyUser;
    var after := pending[c := []];
    forall d, p | p in PendingAt(after, d)
      ensures TidyUser(p.user)
    {
      assert p in PendingAt(pending, d);
    }
  }

  lemma GrabTidy(s: System, c: string)
    requires TidySystem(s) && DoGrab(s, c).Some?
    ensures TidySystem(DoGrab(s, c).value)
  {
    hide TidySystem, TidyRoom, Grab, Unclaimed, NewEnds, TidyUser, PendingAt;
    TidyParts(s);
    AdmitTidy(s.threads[c].room, PendingAt(s.pending, c), s.socks);
    ServletTidy(s, DoGrab(s, c).value, c);
  }

  lemma TidyParts(s: System)
    requires TidySystem(s)
    ensures TidyThreads(s.threads) && TidyPending(s.pending) && TidyConns(s.conns)
  {
  }

  lemma GreetTidy(s: System, c: string)
    requires TidySystem(s) && DoGreet(s, c).Some?
    ensures TidySystem(DoGreet(s, c).value)
  {
    hide TidySystem, TidyRoom, HandleNewUsers;
    TidyParts(s);
    HandleNewUsersTidy(s.threads[c].room);
    ServletTidy(s, DoGreet(s, c).value, c);
  }

  lemma PollsTidy(s: System, c: string, k: nat)
    requires TidySystem(s) && DoPoll(s, c, k).Some?
    ensures TidySystem(DoPoll(s, c, k).value)
  {
    hide TidySystem, TidyRoom, Poll;
    TidyParts(s);
    var t := s.threads[c];
    var e := t.phase.todo[0];
    PollTidy(t.room, e, s.conns[e].unread[..k]);
    ServletTidy(s, DoPoll(s, c, k).value, c);
  }

  lemma PhaseTidy(cfg: Config, s: System, step: Step)
    requires TidySystem(s) && (step.CheckFlag? || step.StartHandling? || step.EndIteration?) && Next(cfg, s, step).Some?
    ensures TidySystem(Next(cfg, s, step).value)
  {
    hide TidySystem, TidyRoom, NoDup;
    TidyParts(s);
    ServletTidy(s, Next(cfg, s, step).value, step.c);
  }

  lemma LaterTidy(c: Conn, handled: seq<string>, queue: seq<string>)
    requires InOrder(c, handled, queue) && c.stale == [] && |c.consumed| == 4 && TidySent(c.sent)
    ensures forall m | m in queue :: TidyMsg(m)
  {
    hide InOrder, TidyMsg, NoCrlf, TidyWhoami, IsRun;
    forall m | m in queue
      ensures TidyMsg(m)
    {
      var i :| 0 <= i < |queue| && queue[i] == m;
      QueuedAt(c, handled, queue, i);
      assert TidyAt(c.sent, 4 + |handled| + i);
    }
  }

  /** What a servlet is about to handle is tidy. */
  lemma NextQueueIsTidy(s: System, c: string)
    requires GoodSystem(s) && DoHandle(s, c).Some?
    ensures var t := s.threads[c]; forall m | m in QueueAt(t.room.queues, t.phase.todo[0]) :: TidyMsg(m)
  {
    hide Conforming, PendingOk, SocksOk, FlagsOk, AuthOk, AcceptOk, InOrder, HandleEntry, RoomOk, Has, NoDup, TidySent, TidyMsg;
    hide AcceptHonest, NothingLeft, TidyAccept, TidyPending, TidyThreads, TidyTopics, IsQuad;
    var t := s.threads[c];
    var e := t.phase.todo[0];
    assert ThreadOk(t, c, s.conns);
    HandlingRoom(t, c, s.conns);
    MembersPlace(t, c, s.conns);
    assert s.conns[e].place == Member(c);
    LaterTidy(s.conns[e], QueueAt(t.room.handled, e), QueueAt(t.room.queues, e));
  }

  lemma EmptiedTidy(r: Room)
    requires TidyRoom(r)
    ensures TidyRoom(Emptied(r))
  {
    hide TidyReply, TidyUser, NoCrlf, TidyHost;
  }

  lemma HandleTidy(s: System, c: string)
    requires GoodSystem(s) && DoHandle(s, c).Some?
    ensures TidySystem(DoHandle(s, c).value)
  {
    hide SystemOk, HonestOk, TidySystem, TidyRoom, TidyMsg, HandleEntry, Emptied;
    NextQueueIsTidy(s, c);
    TidyParts(s);
    var t := s.threads[c];
    assert c in s.threads;
    hide DoHandle;
    EntryTidy(t.room, t.phase.todo[0]);
    EmptiedTidy(t.room);
    HandledOnly(s, c);
    ServletTidy(s, DoHandle(s, c).value, c);
  }

  lemma HandledOnly(s: System, c: string)
    requires DoHandle(s, c).Some?
    ensures var q, t := DoHandle(s, c).value, s.threads[c];
            && c in q.threads && q.threads == s.threads[c := q.threads[c]]
            && q.accept == s.accept && q.topics == s.topics && q.pending == s.pending
            && q.conns.Keys == s.conns.Keys && (forall e | e in s.conns :: q.conns[e].sent == s.conns[e].sent)
            && match HandleEntry(t.room, t.phase.todo[0])
               case None => q.threads[c].room == Emptied(t.room)
               case Some(room) => q.threads[c].room == room
  {
    hide HandleEntry, Has, Emptied, Drop;
    DropKeepsSent(s.conns, s.threads[c].room.users);
  }

  lemma DropKeepsSent(conns: map<Endpoint, Conn>, us: seq<User>)
    ensures var after := Drop(conns, us);
            after.Keys == conns.Keys && forall e | e in conns :: after[e].sent == conns[e].sent
  {
    hide Has;
  }

  lemma StepKeepsTidy(cfg: Config, s: System, step: Step)
    requires GoodSystem(s) && TidyConfig(cfg) && TidyStep(s, step) && Next(cfg, s, step).Some?
    ensures TidySystem(Next(cfg, s, step).value)
  {
    hide SystemOk, HonestOk, TidySystem, TidyStep;
    match step
    case ClientSend(e, msg) => SendTidy(s, e, msg);
    case AcceptClient(e) => AcceptTidy(s, e);
    case ServerRead(k) => ReadTidy(s, k);
    case Register => RegisterTidy(cfg, s);
    case ReadJoin(k) => JoinTidy(s, k);
    case Publish => PublishTidy(s);
    case Notify => NotifyTidy(s);
    case Spawn => SpawnTidy(cfg, s);
    case GrabNew(c) => GrabTidy(s, c);
    case Greet(c) => GreetTidy(s, c);
    case PollOne(c, k) => PollsTidy(s, c, k);
    case HandleOne(c) => HandleTidy(s, c);
    case _ => PhaseTidy(cfg, s, step);
  }

  // ---- The main result ----

  /** A run in which every client keeps to the grammar, with tidy names and texts. */
  ghost predicate TidilyReached(cfg: Config, accounts: Accounts, topics: map<string, string>, steps: seq<Step>, s: System) {
    && HonestlyReached(cfg, accounts, topics, steps, s)
    && TidyConfig(cfg) && TidyTopics(topics) && TidyRun(cfg, Init(accounts, topics), steps)
  }

  lemma InitTidy(accounts: Accounts, topics: map<string, string>)
    requires TidyTopics(topics)
    ensures TidySystem(Init(accounts, topics))
  {
    hide NoCrlf;
  }

  lemma {:induction false} TidyRunsOk(cfg: Config, accounts: Accounts, topics: map<string, string>, steps: seq<Step>, s: System)
    requires TidilyReached(cfg, accounts, topics, steps, s)
    ensures GoodSystem(s)
    decreases |steps|
  {
    hide SystemOk, HonestOk, Next, HonestStep, TidyStep, TidySystem, TidyConfig, TidyTopics;
    HonestRunsOk(cfg, accounts, topics, steps, s);
    if steps == [] {
      InitTidy(accounts, topics);
    } else {
      var shorter := steps[..|steps| - 1];
      var before := Run(cfg, Init(accounts, topics), shorter).value;
      TidyRunsOk(cfg, accounts, topics, shorter, before);
      StepKeepsTidy(cfg, before, steps[|steps| - 1]);
    }
  }

  lemma {:induction false} ByOthersHaveColons(log: seq<Entry>, e: Endpoint)
    requires TidyLog(log)
    ensures AllHaveColons(ByOthers(log, e))
  {
    hide Contains;
    if log != [] {
      var n := |log| - 1;
      ByOthersHaveColons(log[..n], e);
      assert log[n] in log;
      assert ByOthers(log[..n], e) + [] == ByOthers(log[..n], e);
    }
  }

  lemma MemberIsTidy(s: System, c: string, u: User)
    requires TidySystem(s) && c in s.threads && u in s.threads[c].room.users
    ensures TidyRoom(s.threads[c].room) && TidyUser(u) && TidyLog(s.threads[c].room.log)
  {
    hide TidyConns, TidyAccept, TidyPending, TidyTopics, TidyStreams;
  }

  /** In every such run, for every settled member of every channel, however its bytes are cut between reads: its client does
      not fail; its topic is the stored topic; its talk is the rows logged since it was admitted, without its own; and its
      names and events add up to the members' nicks. */
  lemma EveryHonestScreenIsRight(cfg: Config, accounts: Accounts, topics: map<string, string>, steps: seq<Step>, s: System,
                                 c: string, u: User, chunks: seq<string>)
    requires TidilyReached(cfg, accounts, topics, steps, s)
    requires c in s.threads && u in s.threads[c].room.users && u !in s.threads[c].room.newusers
    requires u.endpt in s.threads[c].room.streams
    requires Concat(chunks) == Frame(Lines(s.threads[c].room.streams[u.endpt].replies))
    requires forall b | b in chunks :: EndsWithCrlf(b)
    ensures var r := s.threads[c].room;
            var mark := r.streams[u.endpt].mark;
            && mark <= |r.log| && |r.newusers| <= |r.users|
            && |ReadAll(chunks)| >= 4 && Session(ReadAll(chunks), c).Some?
            && var sc := Session(ReadAll(chunks), c).value;
               && sc.topic == r.stored
               && Talks(sc.events) == Rows(ByOthers(r.log[mark..], u.endpt))
               && RosterOnScreen(multiset(NamesOnScreen(sc.names)), sc.events) == multiset(Nicks(r.users[..OldCount(r)]))
  {
    hide SystemOk, HonestOk, TidySystem, TidyRoom, TidyUser, TidyLog, Reached, HonestRun, TidyRun, Written, Concat, Frame, ReadAll;
    hide AllWellTold, Session, Lines, NoColons, Renamed, NamesOnScreen, Talks, Rows, RosterOnScreen, AllHaveColons, ByOthers, Nicks;
    hide PlainNicks, Line, Roster, LastTopic, Heard;
    TidyRunsOk(cfg, accounts, topics, steps, s);
    MembersKnow(cfg, accounts, topics, steps, s, c, u);
    var r := s.threads[c].room;
    var st := r.streams[u.endpt];
    MemberIsTidy(s, c, u);
    TidyStreamShows(r, u);
    EveryScreenIsRight(cfg, accounts, topics, steps, s, c, u, chunks);
    LaterLogTidy(r.log, st.mark);
    ByOthersHaveColons(r.log[st.mark..], u.endpt);
  }

  lemma LaterLogTidy(log: seq<Entry>, k: nat)
    requires TidyLog(log) && k <= |log|
    ensures TidyLog(log[k..])
  {
    hide Contains;
    assert forall x | x in log[k..] :: x in log;
  }
}
