/** What every connection of the client loop sends (src/client/Client.cpp:74-99, 123-177, 269-315, 360-379), and what
    the server can rely on when all its clients keep to it. */
module Conformance {
  import opened Strings
  import opened Sockio
  import opened Irc
  import opened Registration
  import opened Room
  import opened RoomInvariant
  import opened RoomEffects
  import opened Chitter
  import opened Handoff
  import opened HandoffInvariant
  import opened HandoffTheorems

  // ---- The grammar of a connection ----

  predicate IsNick(m: string) { StartsWith(m, "NICK ") }
  predicate IsPass(m: string) { StartsWith(m, "PASS ") }
  predicate IsJoin(m: string) { StartsWith(m, "JOIN ") }
  predicate IsChat(m: string) { IsPriv(m) || IsTopic(m) }

  /** USER, with the first delimiter after the command. */
  predicate IsUser(m: string) {
    match Find(m, USER_DELIM, 0)
    case None => false
    case Some(i) => i >= 5 && StartsWith(m, "USER ")
  }

  predicate FitsAt(sent: seq<string>, i: nat)
    requires i < |sent|
  {
    if i == 0 then IsNick(sent[0])
    else if i == 1 then IsUser(sent[1])
    else if i == 2 then IsPass(sent[2])
    else if i == 3 then IsJoin(sent[3])
    else IsChat(sent[i]) || (IsPart(sent[i]) && i == |sent| - 1)
  }

  /** A prefix of NICK USER PASS JOIN (PRIVMSG or TOPIC)* PART. */
  predicate Conforming(sent: seq<string>) {
    forall i | 0 <= i < |sent| :: FitsAt(sent, i)
  }

  lemma ChatIsNoPart(m: string)
    requires IsChat(m)
    ensures IsPriv(m) || !IsPart(m)
    ensures Recognised(m)
  {
    if IsTopic(m) {
      OnlyOneKeyword(m, "TOPIC", "PART", 0);
    }
  }

  // ---- Runs with such clients ----

  /** A client keeps to the grammar, and sends JOIN only after it was told that it is logged in. */
  ghost predicate HonestStep(s: System, step: Step) {
    match step
    case ClientSend(e, msg) =>
      e in s.conns ==>
        && Conforming(s.conns[e].sent + [msg])
        && (|s.conns[e].sent| == 3 ==> s.accept.Joining? && s.accept.user.endpt == e)
    case _ => true
  }

  ghost predicate HonestRun(cfg: Config, s: System, steps: seq<Step>) {
    steps != [] ==>
      var before := Run(cfg, s, steps[..|steps| - 1]);
      && HonestRun(cfg, s, steps[..|steps| - 1])
      && (before.Some? ==> HonestStep(before.value, steps[|steps| - 1]))
  }

  ghost predicate SentOk(conns: map<Endpoint, Conn>) {
    forall e | e in conns :: conns[e].stale == [] && Conforming(conns[e].sent)
  }

  /** The handshake and the JOIN are consumed before a connection is handed over. */
  ghost predicate CountOk(conns: map<Endpoint, Conn>) {
    forall e | e in conns && (conns[e].place.Pending? || conns[e].place.Member?) :: |conns[e].consumed| == 4
  }

  ghost predicate AcceptHonest(accept: Accept, conns: map<Endpoint, Conn>) {
    match accept
    case Stopped => false
    case Reading(e, _) => e in conns && |conns[e].sent| <= 3
    case Joining(u) => u.endpt in conns && |conns[u.endpt].consumed| == 3
    case Publishing(u, _) => u.endpt in conns && |conns[u.endpt].consumed| == 4
    case _ => true
  }

  predicate WorksOn(accept: Accept, e: Endpoint) {
    match accept
    case Reading(x, _) => x == e
    case Joining(u) => u.endpt == e
    case _ => false
  }

  /** No message is left behind in the accept loop's queues. */
  ghost predicate NothingLeft(accept: Accept, endMsgs: map<Endpoint, seq<string>>) {
    forall e | e in endMsgs && endMsgs[e] != [] :: WorksOn(accept, e)
  }

  ghost predicate AllAlive(threads: map<string, Thread>) {
    forall c | c in threads :: threads[c].alive
  }

  ghost predicate HonestOk(s: System) {
    && SentOk(s.conns)
    && CountOk(s.conns)
    && AcceptHonest(s.accept, s.conns)
    && NothingLeft(s.accept, s.endMsgs)
    && AllAlive(s.threads)
  }

  // ---- Clients ----

  lemma SendHonest(s: System, e: Endpoint, msg: string)
    requires SystemOk(s) && HonestOk(s) && HonestStep(s, ClientSend(e, msg)) && DoSend(s, e, msg).Some?
    ensures HonestOk(DoSend(s, e, msg).value)
  {
    hide Conforming, PendingOk, SocksOk, ThreadsOk, FlagsOk, AuthOk, InOrder;
    if s.accept.Reading? && s.accept.sock != e {
      assert OnlyAtServer(s.conns, s.accept.sock);
    }
  }

  // ---- The accept loop ----

  /** What is taken is the next message that the client sent. */
  lemma TakenIsNext(c: Conn, queue: seq<string>, k: nat)
    requires InOrder(c, [], queue) && c.stale == [] && Take(queue, c.unread, k).Some?
    ensures var t := Take(queue, c.unread, k).value;
            |c.consumed| < |c.sent| && t.msg == c.sent[|c.consumed|]
  {
    var all := c.consumed + [] + queue + c.unread;
    assert c.stale + c.sent == c.sent;
    assert all[|c.consumed|] == (queue + c.unread)[0];
  }

  lemma ReadHonest(s: System, k: nat)
    requires SystemOk(s) && HonestOk(s) && DoServerRead(s, k).Some?
    ensures HonestOk(DoServerRead(s, k).value)
  {
    hide PendingOk, SocksOk, ThreadsOk, FlagsOk, AuthOk, Take, Conforming, InOrder;
    var e, got := s.accept.sock, s.accept.got;
    var c := s.conns[e];
    TakenIsNext(c, QueueAt(s.endMsgs, e), k);
    FitsNext(c.sent, |got|);
  }

  lemma FitsNext(sent: seq<string>, i: nat)
    requires Conforming(sent) && i < |sent|
    ensures i == 0 || i == 2 || i == 3 ==> After5(sent[i]).Some?
  {
    assert FitsAt(sent, i);
  }

  /** A conforming handshake can be parsed. */
  lemma HandshakeParses(sent: seq<string>)
    requires Conforming(sent) && |sent| >= 3
    ensures ParseHandshake(sent[0], sent[1], sent[2]).Some?
  {
    hide Split, Find;
    assert FitsAt(sent, 0) && FitsAt(sent, 1) && FitsAt(sent, 2);
    SplitSome(sent[1], USER_DELIM, Find(sent[1], USER_DELIM, 0).value);
  }

  /** After the handshake of a client that waits for the verdict nothing else has arrived. */
  lemma NothingQueued(c: Conn, queue: seq<string>)
    requires InOrder(c, [], queue) && c.stale == [] && |c.sent| <= 3 && |c.consumed| == 3
    ensures queue == [] && c.sent == c.consumed && |c.sent| == 3
  {
    var all := c.consumed + [] + queue + c.unread;
    assert c.stale + c.sent == c.sent;
    assert |all| == 3 + |queue| + |c.unread|;
    assert all[..3] == c.consumed;
  }

  lemma JoiningHonest(s: System, user: User, accounts: Accounts)
    requires HonestOk(s) && user.endpt in s.conns && |s.conns[user.endpt].consumed| == 3
    requires forall x | x in s.endMsgs :: s.endMsgs[x] == []
    ensures HonestOk(s.(accept := Joining(user), accounts := accounts))
  {
    hide SentOk, CountOk, AllAlive;
  }

  lemma RefusedHonest(s: System, e: Endpoint, accounts: Accounts)
    requires HonestOk(s) && e in s.conns
    requires forall x | x in s.endMsgs :: s.endMsgs[x] == []
    ensures HonestOk(s.(accept := Idle, accounts := accounts, conns := s.conns[e := Dropped(s.conns[e])]))
  {
    hide Conforming, AllAlive;
  }

  lemma RegisteredHonest(cfg: Config, s: System, e: Endpoint, h: Handshake)
    requires HonestOk(s) && e in s.conns && |s.conns[e].consumed| == 3
    requires forall x | x in s.endMsgs :: s.endMsgs[x] == []
    ensures HonestOk(Registered(cfg, s, e, h))
  {
    hide HonestOk, LoginResult;
    var user := User(h.nick, h.whoami, h.realName, cfg.hash(h.password), "", e);
    var outcome := LoginResult(s.accounts, Login(user.nick, user.pass));
    JoiningHonest(s, user, outcome.accounts);
    RefusedHonest(s, e, outcome.accounts);
  }

  lemma RegisterHonest(cfg: Config, s: System)
    requires SystemOk(s) && HonestOk(s) && DoRegister(cfg, s).Some?
    ensures HonestOk(DoRegister(cfg, s).value)
  {
    hide PendingOk, SocksOk, ThreadsOk, FlagsOk, AuthOk, Conforming, InOrder, ParseHandshake, Registered, HonestOk;
    var e, got := s.accept.sock, s.accept.got;
    var queue := QueueAt(s.endMsgs, e);
    HonestReading(s, e, got);
    NothingQueued(s.conns[e], queue);
    HandshakeParses(s.conns[e].sent);
    RegisteredHonest(cfg, s, e, ParseHandshake(got[0], got[1], got[2]).value);
  }

  lemma HonestReading(s: System, e: Endpoint, got: seq<string>)
    requires HonestOk(s) && s.accept == Reading(e, got)
    ensures e in s.conns && s.conns[e].stale == [] && Conforming(s.conns[e].sent) && |s.conns[e].sent| <= 3
    ensures forall x | x in s.endMsgs && x != e :: s.endMsgs[x] == []
  {
  }

  lemma JoinHonest(s: System, k: nat)
    requires SystemOk(s) && HonestOk(s) && DoReadJoin(s, k).Some?
    ensures HonestOk(DoReadJoin(s, k).value)
  {
    hide PendingOk, SocksOk, ThreadsOk, FlagsOk, AuthOk, Take, Conforming, InOrder;
    var e := s.accept.user.endpt;
    var c := s.conns[e];
    TakenIsNext(c, QueueAt(s.endMsgs, e), k);
    FitsNext(c.sent, 3);
  }

  lemma AcceptHonestly(s: System, e: Endpoint)
    requires HonestOk(s) && DoAccept(s, e).Some?
    ensures HonestOk(DoAccept(s, e).value)
  {
  }

  lemma PublishHonest(s: System)
    requires HonestOk(s) && DoPublish(s).Some?
    ensures HonestOk(DoPublish(s).value)
  {
    hide Conforming;
  }

  lemma NotifyHonest(s: System)
    requires HonestOk(s) && DoNotify(s).Some?
    ensures HonestOk(DoNotify(s).value)
  {
    hide SentOk, CountOk, AllAlive;
  }

  lemma SpawnAlive(cfg: Config, s: System)
    requires AllAlive(s.threads) && DoSpawn(cfg, s).Some?
    ensures AllAlive(DoSpawn(cfg, s).value.threads)
  {
  }

  lemma SpawnHonest(cfg: Config, s: System)
    requires HonestOk(s) && DoSpawn(cfg, s).Some?
    ensures HonestOk(DoSpawn(cfg, s).value)
  {
    hide SentOk, CountOk, AllAlive;
    SpawnAlive(cfg, s);
  }

  // ---- The servlets ----

  /** A servlet's step changes at most who holds a connection and what of it is unread. */
  ghost predicate ConnsKept(before: map<Endpoint, Conn>, after: map<Endpoint, Conn>) {
    && after.Keys == before.Keys
    && forall e | e in before ::
         && after[e].sent == before[e].sent && after[e].stale == before[e].stale && after[e].consumed == before[e].consumed
         && (after[e].place.Pending? || after[e].place.Member? ==> before[e].place.Pending? || before[e].place.Member?)
  }

  lemma KeptHonest(s: System, q: System)
    requires HonestOk(s) && ConnsKept(s.conns, q.conns)
    requires q.accept == s.accept && q.endMsgs == s.endMsgs && AllAlive(q.threads)
    ensures HonestOk(q)
  {
    hide Conforming;
  }

  lemma GrabKept(s: System, c: string)
    requires SystemOk(s) && HonestOk(s) && DoGrab(s, c).Some?
    ensures HonestOk(DoGrab(s, c).value)
  {
    hide HonestOk, ThreadsOk, FlagsOk, AuthOk, AcceptOk, SocksOk, Grab, Unclaimed, NewEnds;
    var q := DoGrab(s, c).value;
    assert AllAlive(s.threads) by { HonestFacts(s); }
    forall e | e in s.conns && e in NewEnds(PendingAt(s.pending, c))
      ensures s.conns[e].place.Pending?
    {
      PendingIsNew(s, c, e);
      PendingPlace(s, c, e);
    }
    hide PendingOk;
    KeptHonest(s, q);
  }

  lemma HonestFacts(s: System)
    requires HonestOk(s)
    ensures AllAlive(s.threads) && SentOk(s.conns) && CountOk(s.conns)
  {
  }

  lemma QuietServletHonest(cfg: Config, s: System, step: Step)
    requires HonestOk(s) && OfSomeServlet(step) && !step.GrabNew? && !step.HandleOne? && Next(cfg, s, step).Some?
    ensures HonestOk(Next(cfg, s, step).value)
  {
    hide HonestOk, HandleNewUsers, Poll, NoDup;
    HonestFacts(s);
    KeptHonest(s, Next(cfg, s, step).value);
  }

  lemma FitsLater(sent: seq<string>, i: nat)
    requires Conforming(sent) && 4 <= i < |sent|
    ensures Recognised(sent[i]) && (i < |sent| - 1 ==> IsPriv(sent[i]) || !IsPart(sent[i]))
  {
    hide IsPriv, IsPart, IsTopic, Find;
    assert FitsAt(sent, i);
    if IsChat(sent[i]) {
      ChatIsNoPart(sent[i]);
    }
  }

  lemma QueuedAt(c: Conn, handled: seq<string>, queue: seq<string>, i: nat)
    requires InOrder(c, handled, queue) && c.stale == [] && i < |queue|
    ensures var n := |c.consumed| + |handled|;
            n + |queue| <= |c.sent| && c.sent[n + i] == queue[i]
  {
    var all := c.consumed + handled + queue + c.unread;
    assert c.stale + c.sent == c.sent;
    assert all[|c.consumed| + |handled| + i] == queue[i];
  }

  /** What a conforming client has in its queue after the handshake can be handled safely. */
  lemma QueueIsSafe(c: Conn, handled: seq<string>, queue: seq<string>)
    requires InOrder(c, handled, queue) && c.stale == [] && Conforming(c.sent) && |c.consumed| == 4
    ensures AllRecognised(queue) && PartLast(queue)
  {
    hide IsPriv, IsPart, Recognised, InOrder, Conforming;
    forall i | 0 <= i < |queue|
      ensures Recognised(queue[i]) && (i < |queue| - 1 ==> IsPriv(queue[i]) || !IsPart(queue[i]))
    {
      QueuedAt(c, handled, queue, i);
      FitsLater(c.sent, 4 + |handled| + i);
    }
  }

  /** The queue that a servlet is about to handle. */
  lemma NextQueueIsSafe(s: System, c: string)
    requires SystemOk(s) && HonestOk(s) && DoHandle(s, c).Some?
    ensures var t := s.threads[c];
            && RoomOk(t.room, |t.room.users|) && Has(t.room.users, t.phase.todo[0]) && NoDup(t.room.socks)
            && AllRecognised(QueueAt(t.room.queues, t.phase.todo[0])) && PartLast(QueueAt(t.room.queues, t.phase.todo[0]))
  {
    hide Conforming, PendingOk, SocksOk, FlagsOk, AuthOk, AcceptOk, InOrder, HandleEntry, RoomOk, Has, NoDup, AllRecognised, PartLast;
    hide AcceptHonest, NothingLeft;
    var t := s.threads[c];
    var e := t.phase.todo[0];
    assert ThreadOk(t, c, s.conns);
    HandlingRoom(t, c, s.conns);
    MembersPlace(t, c, s.conns);
    assert s.conns[e].place == Member(c);
    QueueIsSafe(s.conns[e], QueueAt(t.room.handled, e), QueueAt(t.room.queues, e));
  }

  lemma HandleHonest(s: System, c: string)
    requires SystemOk(s) && HonestOk(s) && DoHandle(s, c).Some?
    ensures HonestOk(DoHandle(s, c).value)
  {
    hide HonestOk, SystemOk, RoomOk, Has, NoDup, AllRecognised, PartLast, HandleQueue, UntilPart;
    NextQueueIsSafe(s, c);
    var t := s.threads[c];
    var e := t.phase.todo[0];
    var queue := QueueAt(t.room.queues, e);
    UntilPartIsAll(queue);
    ThrowsExactlyWhenUnrecognised(t.room, e, queue);
    HonestFacts(s);
    HandledStays(s, c);
    KeptHonest(s, DoHandle(s, c).value);
  }

  /** A handled entry leaves its connection where it was, or marks it as left. */
  lemma HandledStays(s: System, c: string)
    requires DoHandle(s, c).Some? && AllAlive(s.threads)
    requires HandleEntry(s.threads[c].room, s.threads[c].phase.todo[0]).Some?
    ensures var q := DoHandle(s, c).value;
            ConnsKept(s.conns, q.conns) && AllAlive(q.threads) && q.accept == s.accept && q.endMsgs == s.endMsgs
  {
    hide HandleEntry, Has;
  }

  lemma StepKeepsHonest(cfg: Config, s: System, step: Step)
    requires SystemOk(s) && HonestOk(s) && HonestStep(s, step) && Next(cfg, s, step).Some?
    ensures HonestOk(Next(cfg, s, step).value)
  {
    hide SystemOk, HonestOk, HonestStep;
    match step
    case ClientSend(e, msg) => SendHonest(s, e, msg);
    case AcceptClient(e) => AcceptHonestly(s, e);
    case ServerRead(k) => ReadHonest(s, k);
    case Register => RegisterHonest(cfg, s);
    case ReadJoin(k) => JoinHonest(s, k);
    case Publish => PublishHonest(s);
    case Notify => NotifyHonest(s);
    case Spawn => SpawnHonest(cfg, s);
    case GrabNew(c) => GrabKept(s, c);
    case HandleOne(c) => HandleHonest(s, c);
    case _ => QuietServletHonest(cfg, s, step);
  }

  // ---- The results ----

  /** A run from a started server in which every client keeps to the grammar. */
  ghost predicate HonestlyReached(cfg: Config, accounts: Accounts, topics: map<string, string>, steps: seq<Step>, s: System) {
    Reached(cfg, accounts, topics, steps, s) && HonestRun(cfg, Init(accounts, topics), steps)
  }

  lemma {:induction false} HonestRunsOk(cfg: Config, accounts: Accounts, topics: map<string, string>, steps: seq<Step>, s: System)
    requires HonestlyReached(cfg, accounts, topics, steps, s)
    ensures SystemOk(s) && HonestOk(s)
    decreases |steps|
  {
    hide SystemOk, Next, HonestStep;
    EveryRunOk(cfg, accounts, topics, steps, s);
    if steps == [] {
      hide Run;
    } else {
      hide HonestOk;
      var shorter := steps[..|steps| - 1];
      var before := Run(cfg, Init(accounts, topics), shorter).value;
      HonestRunsOk(cfg, accounts, topics, shorter, before);
      StepKeepsHonest(cfg, before, steps[|steps| - 1]);
    }
  }

  /** With conforming clients the accept loop never stops and no servlet ever dies. */
  lemma ServersStayUp(cfg: Config, accounts: Accounts, topics: map<string, string>, steps: seq<Step>, s: System)
    requires HonestlyReached(cfg, accounts, topics, steps, s)
    ensures !s.accept.Stopped? && forall c | c in s.threads :: Running(s, c)
  {
    hide HonestlyReached, SystemOk;
    HonestRunsOk(cfg, accounts, topics, steps, s);
  }

  /** With conforming clients nothing is lost, added or reordered: the four messages of the handshake, those handled, those
      queued and those unread are exactly what a live client sent. */
  lemma HonestNothingLost(cfg: Config, accounts: Accounts, topics: map<string, string>, steps: seq<Step>, s: System, e: Endpoint)
    requires HonestlyReached(cfg, accounts, topics, steps, s) && Live(s, e)
    ensures var c := s.conns[e];
            && c.consumed + Handled(s, e) + Queued(s, e) + c.unread == c.sent
            && (c.place.Pending? || c.place.Member? ==> |c.consumed| == 4)
  {
    hide SystemOk, Handled, Queued, Reached, HonestRun;
    HonestRunsOk(cfg, accounts, topics, steps, s);
    NothingLostOrReordered(cfg, accounts, topics, steps, s, e);
  }

  /** With conforming clients every lookup of a sender in `_users` succeeds, whatever queue a servlet handles next; the
      whole queue is handled, and no exception is thrown. */
  lemma HonestLookupsSafe(cfg: Config, accounts: Accounts, topics: map<string, string>, steps: seq<Step>, s: System, c: string)
    requires HonestlyReached(cfg, accounts, topics, steps, s) && DoHandle(s, c).Some?
    ensures var t := s.threads[c];
            var e := t.phase.todo[0];
            var queue := QueueAt(t.room.queues, e);
            LookupsSafe(t.room, e, queue) && UntilPart(queue) == queue && HandleEntry(t.room, e).Some?
  {
    hide HonestlyReached, SystemOk, HonestOk, RoomOk, Has, NoDup, PartLast, HandleQueue, UntilPart, LookupsSafe;
    HonestRunsOk(cfg, accounts, topics, steps, s);
    NextQueueIsSafe(s, c);
    var t := s.threads[c];
    var queue := QueueAt(t.room.queues, t.phase.todo[0]);
    SafeExactlyWhenPartLast(t.room, t.phase.todo[0], queue);
    ThrowsExactlyWhenUnrecognised(t.room, t.phase.todo[0], queue);
    UntilPartIsAll(queue);
  }

  // ---- Without them ----

  /** What a refused client had sent beyond its handshake, as far as it was read, is taken for the first messages of the
      next client that connects from the same endpoint. */
  lemma LeftoversGoToTheNext(cfg: Config, s: System, h: Handshake)
    requires SystemOk(s) && s.accept.Reading? && |s.accept.got| == 3 && s.accept.sock in s.conns
    requires ParseHandshake(s.accept.got[0], s.accept.got[1], s.accept.got[2]) == Some(h)
    requires h.nick in s.accounts && s.accounts[h.nick] != cfg.hash(h.password)
    ensures var e := s.accept.sock;
            match Run(cfg, s, [Register, AcceptClient(e)])
            case None => false
            case Some(q) => q.conns[e].sent == [] && q.conns[e].stale == QueueAt(s.endMsgs, e)
  {
    hide SystemOk, ParseHandshake;
    var e := s.accept.sock;
    var steps := [Register, AcceptClient(e)];
    assert steps[..1] == [Register] && [Register][..0] == [];
    assert Run(cfg, s, [Register]) == Next(cfg, s, Register) by {
      assert Run(cfg, s, []) == Some(s);
    }
    assert Run(cfg, s, steps) == Next(cfg, Next(cfg, s, Register).value, AcceptClient(e));
  }

  // ---- Coming back ----

  lemma {:induction false} HashStays(cfg: Config, s: System, steps: seq<Step>, q: System, nick: string)
    requires nick in s.accounts && Run(cfg, s, steps) == Some(q)
    ensures nick in q.accounts && q.accounts[nick] == s.accounts[nick]
    decreases |steps|
  {
    hide Next;
    if steps != [] {
      var before := Run(cfg, s, steps[..|steps| - 1]).value;
      HashStays(cfg, s, steps[..|steps| - 1], before, nick);
      HashIsFixed(cfg, before, steps[|steps| - 1], nick);
    }
  }

  /** The client ignores the verdict when it switches channels. It may: whoever got in once gets in again with the same
      password, however much later, so the verdict it ignores is always a welcome. */
  lemma ReconnectSucceeds(cfg: Config, s: System, h: Handshake, steps: seq<Step>, q: System, again: Handshake)
    requires h.nick in s.accounts && s.accounts[h.nick] == cfg.hash(h.password)
    requires Run(cfg, s, steps) == Some(q) && again.nick == h.nick && again.password == h.password
    requires q.accept.Reading? && |q.accept.got| == 3 && q.accept.sock in q.conns
    requires ParseHandshake(q.accept.got[0], q.accept.got[1], q.accept.got[2]) == Some(again)
    ensures DoRegister(cfg, q).Some? && DoRegister(cfg, q).value.accept.Joining?
  {
    hide ParseHandshake, Run;
    HashStays(cfg, s, steps, q, h.nick);
    LoginSucceedsExactly(cfg, q, again);
  }
}
