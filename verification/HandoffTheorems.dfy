/** What holds in every run of the server, whatever the clients send and however the threads interleave. */
module HandoffTheorems {
  import opened Strings
  import opened Sockio
  import opened Irc
  import opened Registration
  import opened Room
  import opened RoomInvariant
  import opened RoomEffects
  import opened Chitter
  import opened Handoff
  import opened HandoffInvariant
  import opened HandoffGrab

  lemma StepKeepsSystem(cfg: Config, s: System, step: Step)
    requires SystemOk(s) && Next(cfg, s, step).Some?
    ensures SystemOk(Next(cfg, s, step).value)
  {
    hide SystemOk;
    match step
    case ClientSend(e, msg) => SendOk(s, e, msg);
    case AcceptClient(e) => AcceptClientOk(s, e);
    case ServerRead(k) => ServerReadOk(s, k);
    case Register => RegisterOk(cfg, s);
    case ReadJoin(k) => ReadJoinOk(s, k);
    case Publish => PublishOk(s);
    case Notify => NotifyOk(s);
    case Spawn => SpawnOk(cfg, s);
    case CheckFlag(c) => CheckOk(s, c);
    case GrabNew(c) => GrabOk(s, c);
    case Greet(c) => GreetOk(s, c);
    case PollOne(c, k) => PollOk(s, c, k);
    case StartHandling(c, order) => StartHandlingOk(s, c, order);
    case HandleOne(c) => HandleOk(s, c);
    case EndIteration(c) => EndOk(s, c);
  }

  ghost predicate Reached(cfg: Config, accounts: Accounts, topics: map<string, string>, steps: seq<Step>, s: System) {
    Run(cfg, Init(accounts, topics), steps) == Some(s)
  }

  lemma {:induction false} EveryRunOk(cfg: Config, accounts: Accounts, topics: map<string, string>, steps: seq<Step>, s: System)
    requires Reached(cfg, accounts, topics, steps, s)
    ensures SystemOk(s)
    decreases |steps|
  {
    hide SystemOk, Next;
    if steps == [] {
      InitOk(accounts, topics);
    } else {
      var n := |steps| - 1;
      var before := Run(cfg, Init(accounts, topics), steps[..n]).value;
      EveryRunOk(cfg, accounts, topics, steps[..n], before);
      StepKeepsSystem(cfg, before, steps[n]);
    }
  }

  // ---- Ownership ----

  /** The endpoints of the users pending for `c`, of the members of `c`, and of the shared sockets. */
  ghost predicate IsPending(s: System, c: string, e: Endpoint) {
    Has(Newcomers(PendingAt(s.pending, c)), e)
  }

  ghost predicate IsMember(s: System, c: string, e: Endpoint) {
    c in s.threads && Has(s.threads[c].room.users, e)
  }

  lemma PendingPlace(s: System, c: string, e: Endpoint)
    requires PendingOk(s.pending, s.conns)
    ensures IsPending(s, c, e) <==> e in s.conns && s.conns[e].place == Pending(c)
  {
    hide InOrder, Newcomers, Distinct, Has;
    var list := PendingAt(s.pending, c);
    assert ListOk(list, c, s.conns);
    NewcomersAre(list, e);
    if e in NewEnds(list) {
      var p :| p in list && p.user.endpt == e;
      assert EarlyOk(p, c, s.conns);
    }
  }

  lemma MemberPlace(s: System, c: string, e: Endpoint)
    requires ThreadsOk(s.threads, s.conns)
    ensures IsMember(s, c, e) <==> e in s.conns && s.conns[e].place == Member(c)
  {
    hide RoomSettled, MembersInOrder, PhaseOk, Has, NoDup;
    if c in s.threads {
      assert ThreadOk(s.threads[c], c, s.conns);
    }
  }

  /** Outside the lock the shared sockets are exactly those of the pending users, each once; the users, sockets and
      queues of every servlet have one and the same duplicate-free set of endpoints; and all these sets are disjoint. */
  lemma SocketsMatchUsers(cfg: Config, accounts: Accounts, topics: map<string, string>, steps: seq<Step>, s: System)
    requires Reached(cfg, accounts, topics, steps, s)
    ensures NoDup(s.socks)
    ensures forall e :: e in s.socks <==> exists c :: IsPending(s, c, e)
    ensures forall c :: Distinct(Newcomers(PendingAt(s.pending, c)))
    ensures forall c | c in s.threads ::
              var r := s.threads[c].room;
              && Distinct(r.users) && NoDup(r.socks)
              && (forall e :: e in r.socks <==> Has(r.users, e))
              && (forall e :: e in r.queues <==> Has(r.users, e))
    ensures forall c, d, e | IsMember(s, c, e) :: !IsPending(s, d, e) && (IsMember(s, d, e) ==> c == d)
    ensures forall c, d, e | IsPending(s, c, e) && IsPending(s, d, e) :: c == d
  {
    EveryRunOk(cfg, accounts, topics, steps, s);
    hide ThreadOk, ListOk, FlagsOk, AuthOk, AcceptOk, Has, Distinct, NoDup, IsPending, IsMember, Newcomers, Reached;
    forall c, e
      ensures IsPending(s, c, e) <==> e in s.conns && s.conns[e].place == Pending(c)
      ensures IsMember(s, c, e) <==> e in s.conns && s.conns[e].place == Member(c)
    {
      PendingPlace(s, c, e);
      MemberPlace(s, c, e);
    }
    forall e
      ensures e in s.socks <==> exists c :: IsPending(s, c, e)
    {
      if e in s.socks {
        assert IsPending(s, s.conns[e].place.chan, e);
      }
    }
    forall c
      ensures Distinct(Newcomers(PendingAt(s.pending, c)))
    {
      ListDistinct(PendingAt(s.pending, c), c, s.conns);
    }
    forall c | c in s.threads
      ensures var r := s.threads[c].room;
              && Distinct(r.users) && NoDup(r.socks)
              && (forall e :: e in r.socks <==> Has(r.users, e))
              && (forall e :: e in r.queues <==> Has(r.users, e))
    {
      ThreadShape(s.threads[c], c, s.conns);
    }
  }

  lemma ListDistinct(list: seq<Early>, c: string, conns: map<Endpoint, Conn>)
    requires ListOk(list, c, conns)
    ensures Distinct(Newcomers(list))
  {
  }

  lemma ThreadShape(t: Thread, c: string, conns: map<Endpoint, Conn>)
    requires ThreadOk(t, c, conns)
    ensures Shape(t.room) && OwnsMembers(t.room, c, conns)
  {
  }

  /** A grab takes the sockets of its own channel's pending users and leaves the others in their order. */
  lemma GrabTakesItsOwn(cfg: Config, accounts: Accounts, topics: map<string, string>, steps: seq<Step>, s: System, c: string)
    requires Reached(cfg, accounts, topics, steps, s) && DoGrab(s, c).Some?
    ensures var q := DoGrab(s, c).value;
            var claimed := Claimed(s.socks, q.threads[c].room.users);
            && q.threads[c].room.socks == s.threads[c].room.socks + claimed
            && (forall e :: e in claimed <==> IsPending(s, c, e))
            && q.socks == Unclaimed(s.socks, q.threads[c].room.users)
            && (forall e :: e in q.socks <==> e in s.socks && !IsPending(s, c, e))
            && InOrderOf(claimed, s.socks) && InOrderOf(q.socks, s.socks)
            && PendingAt(q.pending, c) == []
  {
    EveryRunOk(cfg, accounts, topics, steps, s);
    hide FlagsOk, AuthOk, AcceptOk, Has, Distinct, NoDup, Newcomers, Reached, ThreadOk, ListOk, IsPending, NewEnds, InOrderOf;
    var t, list := s.threads[c], PendingAt(s.pending, c);
    assert ThreadOk(t, c, s.conns);
    ThreadShape(t, c, s.conns);
    var us := Admit(t.room, list).users;
    ClaimedInOrder(s.socks, us);
    forall e
      ensures e in Claimed(s.socks, us) <==> IsPending(s, c, e)
      ensures e in Unclaimed(s.socks, us) <==> e in s.socks && !IsPending(s, c, e)
    {
      ClaimedAre(s.socks, us, e);
      GrabbedUsers(t.room, list, e);
      PendingPlace(s, c, e);
      PendingIsNew(s, c, e);
    }
  }

  lemma PendingIsNew(s: System, c: string, e: Endpoint)
    ensures IsPending(s, c, e) <==> e in NewEnds(PendingAt(s.pending, c))
  {
    NewcomersAre(PendingAt(s.pending, c), e);
  }

  // ---- First in, first out ----

  /** Everything the server holds of a connection's messages after the handshake: queued at the accept loop, in the
      pending tuple, or in the servlet's queue. */
  function Queued(s: System, e: Endpoint): seq<string>
    requires e in s.conns
  {
    match s.conns[e].place
    case AtServer => if s.accept.Publishing? then s.accept.early else QueueAt(s.endMsgs, e)
    case Pending(c) => QueueOf(PendingAt(s.pending, c), e)
    case Member(c) => if c in s.threads then QueueAt(s.threads[c].room.queues, e) else []
    case _ => []
  }

  function Handled(s: System, e: Endpoint): seq<string>
    requires e in s.conns
  {
    match s.conns[e].place
    case Member(c) => if c in s.threads then QueueAt(s.threads[c].room.handled, e) else []
    case Left(c) => if c in s.threads then QueueAt(s.threads[c].room.handled, e) else []
    case _ => []
  }

  lemma PendingQueued(s: System, c: string, e: Endpoint)
    requires PendingOk(s.pending, s.conns) && e in s.conns && s.conns[e].place == Pending(c)
    ensures InOrder(s.conns[e], [], QueueOf(PendingAt(s.pending, c), e))
  {
    hide InOrder, Newcomers, Distinct, QueueOf;
    var list := PendingAt(s.pending, c);
    assert ListOk(list, c, s.conns);
    var p :| p in list && p.user.endpt == e;
    assert EarlyOk(p, c, s.conns);
    QueueOfOne(list, p);
  }

  /** The same with the two sums named. */
  lemma StaleOrSent(c: Conn, held: seq<string>)
    requires held == c.stale + c.sent
    ensures held == c.sent <==> c.stale == []
  {
    if c.stale == [] {
      assert c.stale + c.sent == c.sent;
    } else {
      assert |held| > |c.sent|;
    }
  }

  lemma LiveInOrder(s: System, e: Endpoint)
    requires SystemOk(s) && Live(s, e)
    ensures var c := s.conns[e];
            c.consumed + Handled(s, e) + Queued(s, e) + c.unread == c.stale + c.sent
  {
    hide FlagsOk, AuthOk, ListOk, RoomSettled, PhaseOk, OwnsMembers;
    match s.conns[e].place {
      case Pending(d) =>
        PendingQueued(s, d, e);
      case Member(d) =>
        assert ThreadOk(s.threads[d], d, s.conns);
      case _ =>
    }
  }

  /** For every live connection: the handshake's messages, those handled, those queued and those unread are, in this
      order, exactly what its client sent, if and only if no message of an earlier connection was left under its endpoint
      when it was accepted. What a departed client had handled up to its PART begins what it sent in the same sense. */
  lemma NothingLostOrReordered(cfg: Config, accounts: Accounts, topics: map<string, string>, steps: seq<Step>, s: System, e: Endpoint)
    requires Reached(cfg, accounts, topics, steps, s) && e in s.conns
    ensures var c := s.conns[e];
            var held := c.consumed + Handled(s, e) + Queued(s, e) + c.unread;
            && (Live(s, e) ==> held == c.stale + c.sent)
            && (Live(s, e) ==> (held == c.sent <==> c.stale == []))
            && (c.place.Left? ==> c.consumed + Handled(s, e) <= c.stale + c.sent)
  {
    hide FlagsOk, AuthOk, Reached, PendingOk, RoomSettled, PhaseOk, OwnsMembers, AcceptOk, SocksOk, Queued;
    EveryRunOk(cfg, accounts, topics, steps, s);
    var c := s.conns[e];
    if Live(s, e) {
      LiveInOrder(s, e);
      StaleOrSent(c, c.consumed + Handled(s, e) + Queued(s, e) + c.unread);
    } else if c.place.Left? {
      assert ThreadOk(s.threads[c.place.chan], c.place.chan, s.conns);
    }
  }

  // ---- What members have been told ----

  lemma SettledMember(r: Room, u: User)
    requires RoomSettled(r) && u in r.users && u !in r.newusers
    ensures MemberOk(r, r.users[..OldCount(r)], u) && r.topic == r.stored
  {
    assert r.users == r.users[..OldCount(r)] + r.newusers;
    assert u in r.users[..OldCount(r)];
  }

  /** In every run, for every member of every channel that is past its greeting: its stream begins with the greeting;
      the chat messages in it are the channel's log since it was admitted, without its own, in log order; the roster
      it adds up to is the multiset of the members' nicks; and the last topic in it is the stored topic. */
  lemma MembersKnow(cfg: Config, accounts: Accounts, topics: map<string, string>, steps: seq<Step>, s: System,
                    c: string, u: User)
    requires Reached(cfg, accounts, topics, steps, s)
    requires c in s.threads && u in s.threads[c].room.users && u !in s.threads[c].room.newusers
    ensures var r := s.threads[c].room;
            && u.endpt in r.streams && |r.newusers| <= |r.users|
            && var st := r.streams[u.endpt];
               && Greeted(st.replies, u, r.host) && Regular(st.replies, c)
               && st.mark <= |r.log| && Heard(st.replies) == ByOthers(r.log[st.mark..], u.endpt)
               && Roster(st.replies) == multiset(Nicks(r.users[..OldCount(r)]))
               && LastTopic(st.replies) == Some(r.stored)
  {
    EveryRunOk(cfg, accounts, topics, steps, s);
    hide FlagsOk, AuthOk, Reached, PendingOk, AcceptOk, SocksOk;
    assert ThreadOk(s.threads[c], c, s.conns);
    SettledMember(s.threads[c].room, u);
  }

  lemma {:induction false} ByOthersConcat(a: seq<Entry>, b: seq<Entry>, e: Endpoint)
    ensures ByOthers(a + b, e) == ByOthers(a, e) + ByOthers(b, e)
  {
    if b == [] {
      assert a + b == a;
    } else {
      var n := |b| - 1;
      assert (a + b)[..|a + b| - 1] == a + b[..n];
      ByOthersConcat(a, b[..n], e);
    }
  }

  lemma {:induction false} ByOthersCommute(log: seq<Entry>, d: Endpoint, e: Endpoint)
    ensures ByOthers(ByOthers(log, d), e) == ByOthers(ByOthers(log, e), d)
  {
    if log != [] {
      var n := |log| - 1;
      var last := if log[n].from.endpt == d then [] else [log[n]];
      var last' := if log[n].from.endpt == e then [] else [log[n]];
      ByOthersCommute(log[..n], d, e);
      ByOthersConcat(ByOthers(log[..n], d), last, e);
      ByOthersConcat(ByOthers(log[..n], e), last', d);
      assert ByOthers([log[n]], d) == ByOthers([], d) + last;
      assert ByOthers([log[n]], e) == ByOthers([], e) + last';
    }
  }

  /** Two members agree: what the later one heard is, apart from the two members' own messages, how what the earlier one
      heard ends. */
  lemma MembersAgreeOnOrder(r: Room, n: nat, u: User, v: User)
    requires RoomOk(r, n) && u in r.users[..n] && v in r.users[..n]
    requires r.streams[u.endpt].mark <= r.streams[v.endpt].mark
    ensures var su, sv := r.streams[u.endpt], r.streams[v.endpt];
            sv.mark <= |r.log| &&
            ByOthers(Heard(su.replies), v.endpt)
            == ByOthers(ByOthers(r.log[su.mark..sv.mark], u.endpt), v.endpt) + ByOthers(Heard(sv.replies), u.endpt)
  {
    hide Roster, LastTopic, Greeted, Heard, ByOthers, KeysMatch, Distinct;
    assert MemberOk(r, r.users[..n], u) && MemberOk(r, r.users[..n], v);
    var su, sv := r.streams[u.endpt], r.streams[v.endpt];
    assert r.log[su.mark..] == r.log[su.mark..sv.mark] + r.log[sv.mark..];
    ByOthersConcat(r.log[su.mark..sv.mark], r.log[sv.mark..], u.endpt);
    ByOthersConcat(ByOthers(r.log[su.mark..sv.mark], u.endpt), ByOthers(r.log[sv.mark..], u.endpt), v.endpt);
    ByOthersCommute(r.log[sv.mark..], u.endpt, v.endpt);
  }

  // ---- Nobody is stranded ----

  /** Unless the accept loop is just about to notify or start it, a channel with pending users has a servlet, which
      holds the very flag of the notifier's entry, no other channel's, and that flag is true. */
  lemma PendingHasServlet(cfg: Config, accounts: Accounts, topics: map<string, string>, steps: seq<Step>, s: System, c: string)
    requires Reached(cfg, accounts, topics, steps, s)
    requires PendingAt(s.pending, c) != [] && s.accept != Notifying(c) && s.accept != Spawning(c)
    ensures c in s.threads && c in s.notifier && s.threads[c].flag == s.notifier[c]
    ensures s.notifier[c] in s.flags && s.flags[s.notifier[c]]
    ensures forall d | d in s.threads && d != c :: s.threads[d].flag != s.threads[c].flag
  {
    EveryRunOk(cfg, accounts, topics, steps, s);
    hide AuthOk, Reached, PendingOk, AcceptOk, SocksOk, ThreadsOk;
  }

  /** A running servlet never skips grab_new once its flag exists: it was created true and nobody resets it. */
  lemma CheckAlwaysGrabs(cfg: Config, accounts: Accounts, topics: map<string, string>, steps: seq<Step>, s: System, c: string)
    requires Reached(cfg, accounts, topics, steps, s) && Running(s, c) && s.threads[c].phase.Checking?
    ensures match DoCheck(s, c)
            case None => false
            case Some(q) => q.threads[c].phase == Grabbing && q == s.(threads := q.threads)
  {
    EveryRunOk(cfg, accounts, topics, steps, s);
    hide AuthOk, Reached, PendingOk, AcceptOk, SocksOk, ThreadsOk;
  }

  predicate OfSomeServlet(step: Step) {
    step.CheckFlag? || step.GrabNew? || step.Greet? || step.PollOne? || step.StartHandling? || step.HandleOne? || step.EndIteration?
  }

  /** A step of the servlet of `d` leaves the other servlets and the accept loop alone; only its grab touches what is pending. */
  ghost predicate ServletStep(s: System, q: System, step: Step, d: string) {
    && d in s.threads && s.threads[d].alive
    && q.accounts == s.accounts && q.accept == s.accept && q.notifier == s.notifier && q.flags == s.flags && q.topics == s.topics
    && d in q.threads && q.threads == s.threads[d := q.threads[d]]
    && (s.threads[d].phase.Grabbing? <==> step == GrabNew(d))
    && q.pending == if step == GrabNew(d) then s.pending[d := []] else s.pending
  }

  lemma HandleFrame(cfg: Config, s: System, c: string)
    requires DoHandle(s, c).Some?
    ensures ServletStep(s, DoHandle(s, c).value, HandleOne(c), c)
  {
    hide HandleEntry, Drop, Emptied, Has;
    match HandleEntry(s.threads[c].room, s.threads[c].phase.todo[0])
    case None =>
    case Some(room) =>
  }

  lemma ServletFrame(cfg: Config, s: System, step: Step)
    requires OfSomeServlet(step) && Next(cfg, s, step).Some?
    ensures ServletStep(s, Next(cfg, s, step).value, step, step.c)
  {
    hide HandleEntry, Grab, HandleNewUsers, Claim, Drop, Unclaimed, Poll, Emptied, Has, NewEnds, NoDup, Live, PendingAt, DoHandle;
    if step.HandleOne? {
      HandleFrame(cfg, s, step.c);
    } else if step.GrabNew? {
    } else {
    }
  }

  ghost predicate AcceptKept(s: System, q: System) {
    && (forall c | c in s.threads :: c in q.threads && q.threads[c] == s.threads[c])
    && (forall c :: PendingAt(s.pending, c) <= PendingAt(q.pending, c))
    && (forall n | n in s.accounts :: n in q.accounts && q.accounts[n] == s.accounts[n])
  }

  ghost predicate Quiet(s: System, q: System) {
    q.threads == s.threads && q.pending == s.pending && q.accounts == s.accounts && q.topics == s.topics
  }

  lemma HandshakeFrame(s: System, e: Endpoint, got: seq<string>, t: Taken)
    requires e in s.conns
    ensures Quiet(s, HandshakeTaken(s, e, got, t))
  {
    hide After5, AfterTake, Dropped, Quiet;
    ReadingOnly(s, HandshakeTaken(s, e, got, t));
  }

  lemma ReadingOnly(s: System, q: System)
    requires q == s.(accept := q.accept, endMsgs := q.endMsgs, conns := q.conns)
    ensures Quiet(s, q)
  {
  }

  lemma JoinFrame(s: System, user: User, t: Taken)
    requires user.endpt in s.conns
    ensures Quiet(s, JoinTaken(s, user, t))
  {
    hide After5, AfterTake, Dropped, Quiet;
    ReadingOnly(s, JoinTaken(s, user, t));
  }

  lemma ReadFrame(s: System, k: nat)
    requires DoServerRead(s, k).Some?
    ensures Quiet(s, DoServerRead(s, k).value)
  {
    hide Take, QueueAt, HandshakeTaken, Quiet;
    HandshakeFrame(s, s.accept.sock, s.accept.got, Take(QueueAt(s.endMsgs, s.accept.sock), s.conns[s.accept.sock].unread, k).value);
  }

  lemma ReadJoinFrame(s: System, k: nat)
    requires DoReadJoin(s, k).Some?
    ensures Quiet(s, DoReadJoin(s, k).value)
  {
    hide Take, QueueAt, JoinTaken, Quiet;
    var u := s.accept.user;
    JoinFrame(s, u, Take(QueueAt(s.endMsgs, u.endpt), s.conns[u.endpt].unread, k).value);
  }

  lemma QuietFrame(cfg: Config, s: System, step: Step)
    requires step.ClientSend? || step.AcceptClient? || step.ServerRead? || step.ReadJoin? || step.Notify?
    requires Next(cfg, s, step).Some?
    ensures Quiet(s, Next(cfg, s, step).value)
  {
    hide Live, QueueAt, DoServerRead, DoReadJoin;
    match step
    case ServerRead(k) => ReadFrame(s, k);
    case ReadJoin(k) => ReadJoinFrame(s, k);
    case _ =>
  }

  /** A step of a client or of the accept loop leaves the servlets alone and only adds to what is pending. */
  lemma AcceptFrame(cfg: Config, s: System, step: Step)
    requires !OfSomeServlet(step) && Next(cfg, s, step).Some?
    ensures AcceptKept(s, Next(cfg, s, step).value)
  {
    hide DoSend, DoAccept, DoServerRead, DoReadJoin, DoNotify, DoRegister, DoPublish, DoSpawn, PendingAt;
    match step
    case Register => RegisterFrame(cfg, s);
    case Publish => PublishFrame(s);
    case Spawn => SpawnFrame(cfg, s);
    case _ => QuietFrame(cfg, s, step);
  }

  lemma RegisterFrame(cfg: Config, s: System)
    requires DoRegister(cfg, s).Some?
    ensures AcceptKept(s, DoRegister(cfg, s).value)
  {
    hide ParseHandshake, Registered, PendingAt;
    var got := s.accept.got;
    match ParseHandshake(got[0], got[1], got[2])
    case None =>
    case Some(h) =>
      RegisteredFrame(cfg, s, s.accept.sock, h);
  }

  lemma RegisteredFrame(cfg: Config, s: System, e: Endpoint, h: Handshake)
    requires e in s.conns
    ensures AcceptKept(s, Registered(cfg, s, e, h))
  {
    hide PendingAt;
  }

  lemma PublishFrame(s: System)
    requires DoPublish(s).Some?
    ensures AcceptKept(s, DoPublish(s).value)
  {
  }

  lemma SpawnFrame(cfg: Config, s: System)
    requires DoSpawn(cfg, s).Some?
    ensures AcceptKept(s, DoSpawn(cfg, s).value)
  {
    hide PendingAt;
  }

  /** Until a servlet grabs, whatever else happens, its pending users wait in the same order, and it stays about to grab. */
  lemma PendingWaits(cfg: Config, s: System, step: Step, c: string)
    requires Next(cfg, s, step).Some? && step != GrabNew(c)
    ensures var q := Next(cfg, s, step).value;
            && PendingAt(s.pending, c) <= PendingAt(q.pending, c)
            && (Running(s, c) && s.threads[c].phase.Grabbing? ==> Running(q, c) && q.threads[c] == s.threads[c])
  {
    hide Next;
    if OfSomeServlet(step) {
      ServletFrame(cfg, s, step);
    } else {
      AcceptFrame(cfg, s, step);
    }
  }

  /** One grab and one greeting seat everybody who was pending: the list is empty, and they are settled members. */
  lemma GrabAndGreetSeatEverybody(cfg: Config, accounts: Accounts, topics: map<string, string>, steps: seq<Step>, s: System,
                                  c: string)
    requires Reached(cfg, accounts, topics, steps, s) && Running(s, c) && s.threads[c].phase.Grabbing?
    ensures DoGrab(s, c).Some?
    ensures var q := DoGrab(s, c).value;
            && PendingAt(q.pending, c) == []
            && c in q.threads && q.threads[c].room.users == s.threads[c].room.users + Newcomers(PendingAt(s.pending, c))
            && match DoGreet(q, c)
               case None => false
               case Some(g) => GreetedEverybody(q, g, c)
  {
    hide SystemOk, Reached, Grab, Unclaimed, Claim;
    EveryRunOk(cfg, accounts, topics, steps, s);
    GrabOk(s, c);
    GrabUsers(s.threads[c].room, PendingAt(s.pending, c), s.socks);
    GreetSeats(DoGrab(s, c).value, c);
  }

  lemma GrabUsers(r: Room, list: seq<Early>, socks: seq<Endpoint>)
    ensures Grab(r, list, socks).users == r.users + Newcomers(list)
  {
  }

  lemma GreetSeats(q: System, c: string)
    requires SystemOk(q) && Running(q, c) && q.threads[c].phase.Greeting?
    ensures match DoGreet(q, c)
            case None => false
            case Some(g) => GreetedEverybody(q, g, c)
  {
    hide AuthOk, PendingOk, AcceptOk, SocksOk, FlagsOk, ThreadOk, RoomOk, GreetOne, HandleNewUsers;
    assert ThreadOk(q.threads[c], c, q.conns);
    GreetingSettles(q.threads[c], c, q.conns);
  }

  ghost predicate GreetedEverybody(q: System, g: System, c: string) {
    && c in q.threads && c in g.threads
    && g.threads[c].room.users == q.threads[c].room.users
    && g.threads[c].room.newusers == []
    && RoomOk(g.threads[c].room, |g.threads[c].room.users|)
  }

  lemma GreetingSettles(t: Thread, c: string, conns: map<Endpoint, Conn>)
    requires ThreadOk(t, c, conns)
    ensures var g := HandleNewUsers(t.room);
            g.users == t.room.users && g.newusers == [] && RoomOk(g, |g.users|)
  {
    hide RoomOk, GreetOne;
    HandleNewUsersKeepsRoom(t.room);
  }

  /** The one way to be stranded: the servlet died. It stays dead, and its pending users wait for ever. */
  lemma DeadServletStrands(cfg: Config, s: System, step: Step, c: string)
    requires c in s.threads && !s.threads[c].alive && Next(cfg, s, step).Some?
    ensures var q := Next(cfg, s, step).value;
            c in q.threads && !q.threads[c].alive && PendingAt(s.pending, c) <= PendingAt(q.pending, c)
  {
    hide Next;
    if OfSomeServlet(step) {
      ServletFrame(cfg, s, step);
    } else {
      AcceptFrame(cfg, s, step);
    }
  }

  /** In every run that goes on from there it stays dead, and its pending users keep waiting in their order. */
  lemma {:induction false} DeadForEver(cfg: Config, s: System, steps: seq<Step>, q: System, c: string)
    requires c in s.threads && !s.threads[c].alive && Run(cfg, s, steps) == Some(q)
    ensures c in q.threads && !q.threads[c].alive && PendingAt(s.pending, c) <= PendingAt(q.pending, c)
    decreases |steps|
  {
    hide Next, PendingAt;
    if steps != [] {
      var n := |steps| - 1;
      var before := Run(cfg, s, steps[..n]).value;
      DeadForEver(cfg, s, steps[..n], before, c);
      DeadServletStrands(cfg, before, steps[n], c);
    }
  }

  lemma HandlingRoom(t: Thread, c: string, conns: map<Endpoint, Conn>)
    requires ThreadOk(t, c, conns) && t.phase.Handling? && t.phase.todo != []
    ensures RoomOk(t.room, |t.room.users|) && Has(t.room.users, t.phase.todo[0]) && NoDup(t.room.socks)
  {
    hide RoomOk, Has, NoDup;
    assert t.phase.todo[0] in t.phase.todo;
  }

  /** A servlet dies in a step exactly when it comes to a queue with an unrecognised message before the first PART. */
  lemma DiesExactlyWhenUnrecognised(cfg: Config, accounts: Accounts, topics: map<string, string>, steps: seq<Step>, s: System,
                                    c: string)
    requires Reached(cfg, accounts, topics, steps, s) && DoHandle(s, c).Some?
    ensures var t := s.threads[c];
            Running(DoHandle(s, c).value, c)
            <==> AllRecognised(UntilPart(QueueAt(t.room.queues, t.phase.todo[0])))
  {
    hide AuthOk, Reached, PendingOk, AcceptOk, SocksOk, FlagsOk, ThreadOk, HandleQueue, UntilPart, AllRecognised, RoomOk, Has, NoDup;
    EveryRunOk(cfg, accounts, topics, steps, s);
    var t := s.threads[c];
    assert ThreadOk(t, c, s.conns);
    HandlingRoom(t, c, s.conns);
    ThrowsExactlyWhenUnrecognised(t.room, t.phase.todo[0], QueueAt(t.room.queues, t.phase.todo[0]));
  }

  /** In every run all lookups of the queue that a servlet comes to succeed exactly when no message in it follows a PART, or
      an unrecognised message before that PART ends the thread first. */
  lemma LookupsSafeExactly(cfg: Config, accounts: Accounts, topics: map<string, string>, steps: seq<Step>, s: System, c: string)
    requires Reached(cfg, accounts, topics, steps, s) && DoHandle(s, c).Some?
    ensures var t := s.threads[c];
            var queue := QueueAt(t.room.queues, t.phase.todo[0]);
            LookupsSafe(t.room, t.phase.todo[0], queue) <==> PartLast(queue) || !AllRecognised(UntilPart(queue))
  {
    hide AuthOk, Reached, PendingOk, AcceptOk, SocksOk, FlagsOk, ThreadOk, LookupsSafe, UntilPart, AllRecognised, PartLast, RoomOk;
    hide Has, NoDup, HandleEntry;
    EveryRunOk(cfg, accounts, topics, steps, s);
    var t := s.threads[c];
    assert ThreadOk(t, c, s.conns);
    HandlingRoom(t, c, s.conns);
    SafeExactlyWhenPartLast(t.room, t.phase.todo[0], QueueAt(t.room.queues, t.phase.todo[0]));
  }

  // ---- Passwords ----

  /** Once a nick has a stored hash, no step changes it. */
  lemma HashIsFixed(cfg: Config, s: System, step: Step, nick: string)
    requires nick in s.accounts && Next(cfg, s, step).Some?
    ensures var q := Next(cfg, s, step).value; nick in q.accounts && q.accounts[nick] == s.accounts[nick]
  {
    hide Next;
    if OfSomeServlet(step) {
      ServletFrame(cfg, s, step);
    } else {
      AcceptFrame(cfg, s, step);
    }
  }

  /** Registering succeeds exactly for a new nick or the stored hash, and leaves that hash stored. */
  lemma LoginSucceedsExactly(cfg: Config, s: System, h: Handshake)
    requires s.accept.Reading? && |s.accept.got| == 3 && s.accept.sock in s.conns
    requires ParseHandshake(s.accept.got[0], s.accept.got[1], s.accept.got[2]) == Some(h)
    ensures match DoRegister(cfg, s)
            case None => false
            case Some(q) =>
              && (q.accept.Joining? <==> h.nick !in s.accounts || s.accounts[h.nick] == cfg.hash(h.password))
              && (q.accept.Joining? ==> h.nick in q.accounts && q.accounts[h.nick] == cfg.hash(h.password))
              && (!q.accept.Joining? ==> q.accept.Idle? && q.accounts == s.accounts && q.conns[s.accept.sock].place == Closed)
  {
    hide ParseHandshake;
  }

  /** In every run every user pending for or held by a servlet carries the stored hash of its nick. */
  lemma EveryUserIsLoggedIn(cfg: Config, accounts: Accounts, topics: map<string, string>, steps: seq<Step>, s: System)
    requires Reached(cfg, accounts, topics, steps, s)
    ensures forall c, p | p in PendingAt(s.pending, c) :: LoggedIn(p.user, s.accounts)
    ensures forall c, u | c in s.threads && u in s.threads[c].room.users :: LoggedIn(u, s.accounts)
  {
    EveryRunOk(cfg, accounts, topics, steps, s);
    hide LoggedIn, Reached, PendingOk, AcceptOk, SocksOk, FlagsOk, ThreadsOk;
  }
}
