/** In every run every channel is explained by a sequence of what its members did, and nothing in it is made up
    (src/server/Server.cpp:160-195, src/server/Servlet.cpp:124-291). */
module HistoryRuns {
  import opened Strings
  import opened Sockio
  import opened Irc
  import opened Room
  import opened RoomInvariant
  import opened History
  import opened Chitter
  import opened Handoff
  import opened HandoffInvariant
  import opened HandoffTheorems
  import opened Delivery

  // ---- The topic that a channel starts with ----

  /** What was stored when the server started stays as the accept loop reads it; beyond that only the default topic is stored, for
      channels that have a servlet. */
  ghost predicate TopicsKept(cfg: Config, topics: map<string, string>, s: System) {
    && (forall c | c in topics :: c in s.topics && s.topics[c] == topics[c])
    && (forall c | c in s.topics && c !in topics :: c in s.threads && s.topics[c] == cfg.defaultTopic)
  }

  lemma SameServlets(cfg: Config, s: System, step: Step)
    requires !OfSomeServlet(step) && !step.Spawn? && Next(cfg, s, step).Some?
    ensures Next(cfg, s, step).value.threads == s.threads && Next(cfg, s, step).value.topics == s.topics
  {
    hide PendingAt, DoRegister, DoServerRead, DoReadJoin, DoNotify, DoSend, DoAccept;
    match step
    case Register => ThreadsAfterRegister(cfg, s);
    case Publish =>
    case _ => QuietFrame(cfg, s, step);
  }

  lemma TopicsKeptBySpawn(cfg: Config, topics: map<string, string>, s: System)
    requires TopicsKept(cfg, topics, s) && DoSpawn(cfg, s).Some?
    ensures TopicsKept(cfg, topics, DoSpawn(cfg, s).value)
  {
    hide NewRoom;
  }

  lemma NextIsSpawn(cfg: Config, s: System)
    ensures Next(cfg, s, Spawn) == DoSpawn(cfg, s)
  {
    hide DoSpawn;
  }

  /** In no run a stored topic is overwritten by starting a servlet. */
  lemma {:induction false} StoredTopicsStay(cfg: Config, accounts: Accounts, topics: map<string, string>, steps: seq<Step>, s: System)
    requires Reached(cfg, accounts, topics, steps, s)
    ensures forall c | c in topics :: c in s.topics && s.topics[c] == topics[c]
    ensures forall c | c in s.topics && c !in topics :: c in s.threads && s.topics[c] == cfg.defaultTopic
    decreases |steps|
  {
    hide Next;
    if steps != [] {
      var n := |steps| - 1;
      var before := Run(cfg, Init(accounts, topics), steps[..n]).value;
      StoredTopicsStay(cfg, accounts, topics, steps[..n], before);
      assert TopicsKept(cfg, topics, before);
      if OfSomeServlet(steps[n]) {
        ServletFrame(cfg, before, steps[n]);
      } else if steps[n].Spawn? {
        NextIsSpawn(cfg, before);
        TopicsKeptBySpawn(cfg, topics, before);
      } else {
        SameServlets(cfg, before, steps[n]);
      }
    }
  }

  /** The topic of a new servlet. */
  function StartTopic(cfg: Config, topics: map<string, string>, c: string): string {
    if c in topics then topics[c] else cfg.defaultTopic
  }

  // ---- Where lines come from ----

  /** After these steps `u` is a member of `c`, and the line is among what reached the server from its connection. */
  ghost predicate WasSent(cfg: Config, init: System, steps: seq<Step>, c: string, u: User, line: string) {
    match Run(cfg, init, steps)
    case None => false
    case Some(s) =>
      && c in s.threads && u in s.threads[c].room.users && u.endpt in s.conns
      && line in s.conns[u.endpt].stale + s.conns[u.endpt].sent
  }

  ghost predicate HasOrigin(cfg: Config, init: System, steps: seq<Step>, c: string, u: User, line: string) {
    exists n | 0 <= n <= |steps| :: WasSent(cfg, init, steps[..n], c, u, line)
  }

  ghost predicate Sourced(cfg: Config, init: System, steps: seq<Step>, c: string, h: seq<Act>) {
    forall a | a in h && !a.Came? :: HasOrigin(cfg, init, steps, c, a.user, a.line)
  }

  lemma OriginStays(cfg: Config, init: System, steps: seq<Step>, step: Step, c: string, u: User, line: string)
    requires HasOrigin(cfg, init, steps, c, u, line)
    ensures HasOrigin(cfg, init, steps + [step], c, u, line)
  {
    hide WasSent;
    var n :| 0 <= n <= |steps| && WasSent(cfg, init, steps[..n], c, u, line);
    assert (steps + [step])[..n] == steps[..n];
  }

  lemma SourcedStays(cfg: Config, init: System, steps: seq<Step>, step: Step, c: string, h: seq<Act>)
    requires Sourced(cfg, init, steps, c, h)
    ensures Sourced(cfg, init, steps + [step], c, h)
  {
    hide HasOrigin;
    forall a | a in h && !a.Came?
      ensures HasOrigin(cfg, init, steps + [step], c, a.user, a.line)
    {
      OriginStays(cfg, init, steps, step, c, a.user, a.line);
    }
  }

  // ---- Every run ----

  /** The history explains the channel of `c`, whose topic was `start` at first, and its lines were all sent. */
  ghost predicate ExplainedBy(cfg: Config, init: System, start: string, steps: seq<Step>, s: System, c: string, h: seq<Act>) {
    && c in s.threads
    && var r := s.threads[c].room;
       && r.chan == c && r.host == cfg.host && |r.newusers| <= |r.users|
       && Explains(h, r, OldCount(r), start) && Sourced(cfg, init, steps, c, h)
  }

  ghost predicate Explicable(cfg: Config, init: System, start: string, steps: seq<Step>, s: System, c: string) {
    exists h :: ExplainedBy(cfg, init, start, steps, s, c, h)
  }

  /** The servlet's room did not change. */
  lemma StillExplained(cfg: Config, init: System, start: string, steps: seq<Step>, s: System, step: Step, q: System, c: string)
    requires Explicable(cfg, init, start, steps, s, c) && c in s.threads && c in q.threads && q.threads[c].room == s.threads[c].room
    ensures Explicable(cfg, init, start, steps + [step], q, c)
  {
    hide Explains, Sourced;
    var h :| ExplainedBy(cfg, init, start, steps, s, c, h);
    SourcedStays(cfg, init, steps, step, c, h);
    assert ExplainedBy(cfg, init, start, steps + [step], q, c, h);
  }

  lemma NewServletExplained(cfg: Config, init: System, topics: map<string, string>, steps: seq<Step>, s: System, c: string)
    requires TopicsKept(cfg, topics, s) && s.accept == Spawning(c) && c !in s.threads && DoSpawn(cfg, s).Some?
    ensures Explicable(cfg, init, StartTopic(cfg, topics, c), steps, DoSpawn(cfg, s).value, c)
  {
    hide Explains;
    var q := DoSpawn(cfg, s).value;
    NoHistory(c, cfg.host, StartTopic(cfg, topics, c));
    assert ExplainedBy(cfg, init, StartTopic(cfg, topics, c), steps, q, c, []);
  }

  lemma SpawnsOnly(cfg: Config, s: System, c: string)
    requires DoSpawn(cfg, s).Some? && c in DoSpawn(cfg, s).value.threads && c !in s.threads
    ensures s.accept == Spawning(c)
  {
    hide NewRoom;
  }

  lemma AcceptExplained(cfg: Config, init: System, topics: map<string, string>, steps: seq<Step>, s: System, step: Step, c: string)
    requires TopicsKept(cfg, topics, s) && !OfSomeServlet(step) && Next(cfg, s, step).Some?
    requires c in Next(cfg, s, step).value.threads
    requires c in s.threads ==> Explicable(cfg, init, StartTopic(cfg, topics, c), steps, s, c)
    ensures Explicable(cfg, init, StartTopic(cfg, topics, c), steps + [step], Next(cfg, s, step).value, c)
  {
    hide Explicable, TopicsKept, Next, PendingAt, StartTopic;
    var q := Next(cfg, s, step).value;
    if c in s.threads {
      AcceptFrame(cfg, s, step);
      StillExplained(cfg, init, StartTopic(cfg, topics, c), steps, s, step, q, c);
    } else if step.Spawn? {
      NextIsSpawn(cfg, s);
      SpawnsOnly(cfg, s, c);
      NewServletExplained(cfg, init, topics, steps + [step], s, c);
    } else {
      SameServlets(cfg, s, step);
    }
  }

  // ---- A servlet's steps ----

  lemma Grabbed(cfg: Config, init: System, start: string, steps: seq<Step>, s: System, c: string, h: seq<Act>)
    requires SystemOk(s) && ExplainedBy(cfg, init, start, steps, s, c, h) && DoGrab(s, c).Some?
    ensures ExplainedBy(cfg, init, start, steps, DoGrab(s, c).value, c, h)
  {
    hide SystemOk, Explains, Sourced, Admissible, Newcomers, Unclaimed, Claim, KeysMatch;
    PendingCanJoin(s, c);
    NobodyNew(s, c);
    var r, list := s.threads[c].room, PendingAt(s.pending, c);
    GrabExplained(r, list, s.socks, h, start);
    GrabSeats(r, list, s.socks);
  }

  lemma GrabSeats(r: Room, list: seq<Early>, socks: seq<Endpoint>)
    ensures var q := Grab(r, list, socks);
            |q.newusers| <= |q.users| && |q.users| == |r.users| + |q.newusers| && q.chan == r.chan && q.host == r.host
  {
    hide Claimed;
  }

  lemma NobodyNew(s: System, c: string)
    requires SystemOk(s) && c in s.threads && !s.threads[c].phase.Greeting?
    ensures s.threads[c].room.newusers == [] && KeysMatch(s.threads[c].room)
    ensures RoomOk(s.threads[c].room, |s.threads[c].room.users|)
  {
    hide AcceptOk, PendingOk, SocksOk, FlagsOk, AuthOk, ThreadOk, RoomOk, KeysMatch;
    assert ThreadOk(s.threads[c], c, s.conns);
    SettledRoom(s.threads[c], c, s.conns);
    RoomKeys(s.threads[c].room, |s.threads[c].room.users|);
  }

  lemma SettledRoom(t: Thread, c: string, conns: map<Endpoint, Conn>)
    requires ThreadOk(t, c, conns) && !t.phase.Greeting?
    ensures t.room.newusers == [] && RoomOk(t.room, |t.room.users|)
  {
    hide RoomOk, MembersInOrder, OwnsMembers;
  }

  lemma RoomKeys(r: Room, n: nat)
    requires RoomOk(r, n)
    ensures KeysMatch(r)
  {
    hide KeysMatch, Distinct, AllOk, Untold;
  }

  lemma Welcomed(cfg: Config, init: System, start: string, steps: seq<Step>, s: System, c: string, h: seq<Act>)
    requires SystemOk(s) && ExplainedBy(cfg, init, start, steps, s, c, h) && DoGreet(s, c).Some?
    ensures ExplainedBy(cfg, init, start, steps, DoGreet(s, c).value, c, h + Arrivals(s.threads[c].room.newusers))
  {
    hide SystemOk, Explains, RoomOk, InJoinLoop, GreetUpto;
    var r := s.threads[c].room;
    JoinLoopOf(s, c);
    HandleNewUsersExplained(r, h, start);
    var more := h + Arrivals(r.newusers);
    assert forall a | a in more && !a.Came? :: a in h;
  }

  lemma JoinLoopOf(s: System, c: string)
    requires SystemOk(s) && c in s.threads
    ensures InJoinLoop(s.threads[c].room) && RoomOk(s.threads[c].room, OldCount(s.threads[c].room))
  {
    hide AcceptOk, PendingOk, SocksOk, FlagsOk, AuthOk, RoomOk, MembersInOrder, OwnsMembers, PhaseOk;
    assert ThreadOk(s.threads[c], c, s.conns);
  }

  lemma Polled(cfg: Config, init: System, start: string, steps: seq<Step>, s: System, c: string, k: nat, h: seq<Act>)
    requires ExplainedBy(cfg, init, start, steps, s, c, h) && DoPoll(s, c, k).Some?
    ensures ExplainedBy(cfg, init, start, steps, DoPoll(s, c, k).value, c, h)
  {
    hide Explains, Sourced;
    var r, q := s.threads[c].room, DoPoll(s, c, k).value;
    SameExplained(r, q.threads[c].room, OldCount(r), h, start);
  }

  /** The member whose queue is handled, and where its messages come from. */
  lemma QueueSent(s: System, c: string) returns (u: User)
    requires SystemOk(s) && DoHandle(s, c).Some?
    ensures var r, e := s.threads[c].room, s.threads[c].phase.todo[0];
            && u in r.users && u.endpt == e && e in s.conns && RoomOk(r, |r.users|)
            && forall m | m in QueueAt(r.queues, e) :: m in s.conns[e].stale + s.conns[e].sent
  {
    hide AcceptOk, PendingOk, SocksOk, FlagsOk, AuthOk, RoomSettled, RoomOk, HandleEntry, NoDup;
    var t := s.threads[c];
    var r, e := t.room, t.phase.todo[0];
    assert ThreadOk(t, c, s.conns);
    HandlingRoom(t, c, s.conns);
    u := r.users[IndexOf(r.users, e)];
    InTheMiddle(s.conns[e].consumed, QueueAt(r.handled, e), QueueAt(r.queues, e), s.conns[e].unread);
  }

  lemma InTheMiddle<T>(a: seq<T>, b: seq<T>, c: seq<T>, d: seq<T>)
    ensures forall m | m in c :: m in a + b + c + d
  {
  }

  lemma HandledExplained(cfg: Config, init: System, start: string, steps: seq<Step>, s: System, c: string, h: seq<Act>)
      returns (longer: seq<Act>)
    requires SystemOk(s) && Run(cfg, init, steps) == Some(s) && ExplainedBy(cfg, init, start, steps, s, c, h)
    requires DoHandle(s, c).Some? && Running(DoHandle(s, c).value, c)
    ensures ExplainedBy(cfg, init, start, steps, DoHandle(s, c).value, c, longer)
  {
    hide SystemOk, Run, Explains, RoomOk, HandleEntry, Emptied, Drop, Has;
    var r, e := s.threads[c].room, s.threads[c].phase.todo[0];
    var u := QueueSent(s, c);
    NobodyNew(s, c);
    var q := HandleEntry(r, e).value;
    var acts := EntryExplained(r, u, q, h, start);
    longer := h + acts;
    EntryKeepsNames(r, e);
    forall a | a in longer && !a.Came?
      ensures HasOrigin(cfg, init, steps, c, a.user, a.line)
    {
      if a !in h {
        var i :| 0 <= i < |acts| && acts[i] == a;
        assert QueueAt(r.queues, e)[i] in QueueAt(r.queues, e);
        assert steps[..|steps|] == steps;
        assert WasSent(cfg, init, steps[..|steps|], c, a.user, a.line);
      }
    }
  }

  lemma EntryKeepsNames(r: Room, e: Endpoint)
    requires HandleEntry(r, e).Some?
    ensures var q := HandleEntry(r, e).value; q.chan == r.chan && q.host == r.host && q.newusers == r.newusers
  {
    hide HandleQueue;
    QueueKeepsNames(r, e, QueueAt(r.queues, e));
  }

  lemma {:induction false} QueueKeepsNames(r: Room, e: Endpoint, msgs: seq<string>)
    requires HandleQueue(r, e, msgs).Some?
    ensures var q := HandleQueue(r, e, msgs).value; q.chan == r.chan && q.host == r.host && q.newusers == r.newusers
    decreases |msgs|
  {
    hide HandleMsg, Has;
    if msgs != [] && Has(r.users, e) {
      MsgKeepsNames(r, e, msgs[0]);
      QueueKeepsNames(HandleMsg(r, e, msgs[0]).value, e, msgs[1..]);
    }
  }

  lemma MsgKeepsNames(r: Room, e: Endpoint, msg: string)
    requires Has(r.users, e) && HandleMsg(r, e, msg).Some?
    ensures var q := HandleMsg(r, e, msg).value; q.chan == r.chan && q.host == r.host && q.newusers == r.newusers
  {
    hide Deliver, Others, NewTopic, IsPriv, IsPart, IsTopic, Has, RemoveAt, WithoutSock;
  }

  lemma ServletExplained(cfg: Config, init: System, start: string, steps: seq<Step>, s: System, step: Step)
    requires SystemOk(s) && Run(cfg, init, steps) == Some(s) && OfSomeServlet(step) && Next(cfg, s, step).Some?
    requires Explicable(cfg, init, start, steps, s, step.c) && Running(Next(cfg, s, step).value, step.c)
    ensures Explicable(cfg, init, start, steps + [step], Next(cfg, s, step).value, step.c)
  {
    hide SystemOk, Run, ExplainedBy, DoGrab, DoGreet, DoPoll, DoHandle;
    var c, q := step.c, Next(cfg, s, step).value;
    ServletFrame(cfg, s, step);
    var h :| ExplainedBy(cfg, init, start, steps, s, c, h);
    match step
    case GrabNew(_) =>
      Grabbed(cfg, init, start, steps, s, c, h);
      OneStepOn(cfg, init, start, steps, step, q, c, h);
    case Greet(_) =>
      Welcomed(cfg, init, start, steps, s, c, h);
      OneStepOn(cfg, init, start, steps, step, q, c, h + Arrivals(s.threads[c].room.newusers));
    case PollOne(_, k) =>
      Polled(cfg, init, start, steps, s, c, k, h);
      OneStepOn(cfg, init, start, steps, step, q, c, h);
    case HandleOne(_) =>
      var longer := HandledExplained(cfg, init, start, steps, s, c, h);
      OneStepOn(cfg, init, start, steps, step, q, c, longer);
    case _ =>
      SameRoom(cfg, s, step);
      StillExplained(cfg, init, start, steps, s, step, q, c);
  }

  lemma OneStepOn(cfg: Config, init: System, start: string, steps: seq<Step>, step: Step, s: System, c: string, h: seq<Act>)
    requires ExplainedBy(cfg, init, start, steps, s, c, h)
    ensures Explicable(cfg, init, start, steps + [step], s, c)
  {
    hide Explains, Sourced;
    SourcedStays(cfg, init, steps, step, c, h);
    assert ExplainedBy(cfg, init, start, steps + [step], s, c, h);
  }

  lemma SameRoom(cfg: Config, s: System, step: Step)
    requires (step.CheckFlag? || step.StartHandling? || step.EndIteration?) && Next(cfg, s, step).Some?
    ensures var q := Next(cfg, s, step).value;
            step.c in s.threads && step.c in q.threads && q.threads[step.c].room == s.threads[step.c].room
  {
    hide NoDup;
  }

  lemma StepExplained(cfg: Config, init: System, topics: map<string, string>, steps: seq<Step>, s: System, step: Step, c: string)
    requires SystemOk(s) && TopicsKept(cfg, topics, s) && Run(cfg, init, steps) == Some(s) && Next(cfg, s, step).Some?
    requires Running(Next(cfg, s, step).value, c)
    requires Running(s, c) ==> Explicable(cfg, init, StartTopic(cfg, topics, c), steps, s, c)
    ensures Explicable(cfg, init, StartTopic(cfg, topics, c), steps + [step], Next(cfg, s, step).value, c)
  {
    hide SystemOk, TopicsKept, Run, Next, Explicable, StartTopic, PendingAt;
    var q := Next(cfg, s, step).value;
    if !OfSomeServlet(step) {
      if c in s.threads {
        AcceptFrame(cfg, s, step);
      }
      AcceptExplained(cfg, init, topics, steps, s, step, c);
    } else {
      ServletFrame(cfg, s, step);
      if step.c == c {
        ServletExplained(cfg, init, StartTopic(cfg, topics, c), steps, s, step);
      } else {
        StillExplained(cfg, init, StartTopic(cfg, topics, c), steps, s, step, q, c);
      }
    }
  }

  /** In every run, for every channel with a running servlet there is a sequence of arrivals and messages that explains it: the
      members, the topic, the log, and reply by reply everything each settled member was told; and every line in it was sent by
      the member it is ascribed to. */
  lemma {:induction false} EveryChannelExplained(cfg: Config, accounts: Accounts, topics: map<string, string>, steps: seq<Step>,
                                                 s: System, c: string)
    requires Reached(cfg, accounts, topics, steps, s) && Running(s, c)
    ensures exists h :: ExplainedBy(cfg, Init(accounts, topics), StartTopic(cfg, topics, c), steps, s, c, h)
    decreases |steps|
  {
    hide SystemOk, Next, ExplainedBy, StartTopic;
    var init := Init(accounts, topics);
    if steps != [] {
      var n := |steps| - 1;
      var before := Run(cfg, init, steps[..n]).value;
      EveryRunOk(cfg, accounts, topics, steps[..n], before);
      StoredTopicsStay(cfg, accounts, topics, steps[..n], before);
      if Running(before, c) {
        EveryChannelExplained(cfg, accounts, topics, steps[..n], before, c);
      }
      StepExplained(cfg, init, topics, steps[..n], before, steps[n], c);
      assert steps[..n] + [steps[n]] == steps;
      assert Explicable(cfg, init, StartTopic(cfg, topics, c), steps, s, c);
    }
  }
}
