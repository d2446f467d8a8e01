/** What every state of the accept loop and the servlets satisfies. */
module HandoffInvariant {
  import opened Strings
  import opened Sockio
  import opened Irc
  import opened Registration
  import opened Room
  import opened RoomInvariant
  import opened RoomEffects
  import opened Chitter
  import opened Handoff
  import BatchJoin

  // ---- The invariant ----

  /** Nothing is lost or reordered: consumed, then handled, then queued, then unread is what was left over from an
      earlier connection followed by what the client sent. */
  ghost predicate InOrder(c: Conn, handled: seq<string>, queued: seq<string>) {
    c.consumed + handled + queued + c.unread == c.stale + c.sent
  }

  ghost predicate OnlyAtServer(conns: map<Endpoint, Conn>, e: Endpoint) {
    forall x | x in conns && conns[x].place.AtServer? :: x == e
  }

  ghost predicate NoneAtServer(conns: map<Endpoint, Conn>) {
    forall x | x in conns :: !conns[x].place.AtServer?
  }

  ghost predicate AtServerOk(conns: map<Endpoint, Conn>, e: Endpoint, queued: seq<string>) {
    && e in conns && conns[e].place.AtServer?
    && InOrder(conns[e], [], queued)
    && OnlyAtServer(conns, e)
  }

  /** The accept loop works on at most one connection. */
  ghost predicate AcceptOk(accept: Accept, endMsgs: map<Endpoint, seq<string>>, conns: map<Endpoint, Conn>) {
    match accept
    case Reading(e, got) => AtServerOk(conns, e, QueueAt(endMsgs, e)) && |got| <= 3 && conns[e].consumed == got
    case Joining(u) => AtServerOk(conns, u.endpt, QueueAt(endMsgs, u.endpt))
    case Publishing(u, early) => AtServerOk(conns, u.endpt, early)
    case _ => NoneAtServer(conns)
  }

  ghost predicate EarlyOk(p: Early, c: string, conns: map<Endpoint, Conn>) {
    var e := p.user.endpt;
    && p.user.chan == c
    && e in conns && conns[e].place == Pending(c)
    && InOrder(conns[e], [], p.msgs)
  }

  ghost predicate ListOk(list: seq<Early>, c: string, conns: map<Endpoint, Conn>) {
    && Distinct(Newcomers(list))
    && (forall p | p in list :: EarlyOk(p, c, conns))
    && (forall e | e in conns && conns[e].place == Pending(c) :: e in NewEnds(list))
  }

  /** The users pending for a channel are exactly the connections waiting for it. */
  ghost predicate PendingOk(pending: map<string, seq<Early>>, conns: map<Endpoint, Conn>) {
    forall c :: ListOk(PendingAt(pending, c), c, conns)
  }

  /** The shared deque of sockets holds exactly the pending connections, each once. */
  ghost predicate SocksOk(socks: seq<Endpoint>, conns: map<Endpoint, Conn>) {
    && NoDup(socks)
    && (forall e :: e in socks <==> e in conns && conns[e].place.Pending?)
  }

  /** The users, the sockets and the queues of a servlet belong to the same connections: its members. */
  ghost predicate OwnsMembers(r: Room, c: string, conns: map<Endpoint, Conn>) {
    && NoDup(r.socks)
    && (forall e :: Has(r.users, e) <==> e in conns && conns[e].place == Member(c))
    && (forall e :: e in r.socks <==> Has(r.users, e))
  }

  ghost predicate MembersInOrder(r: Room, c: string, conns: map<Endpoint, Conn>) {
    && (forall e | e in conns && conns[e].place == Member(c) ::
          InOrder(conns[e], QueueAt(r.handled, e), QueueAt(r.queues, e)))
    && (forall e | e in conns && conns[e].place == Left(c) ::
          conns[e].consumed + QueueAt(r.handled, e) <= conns[e].stale + conns[e].sent)
  }

  ghost predicate PhaseOk(t: Thread) {
    && (!t.phase.Greeting? ==> t.room.newusers == [])
    && (!t.alive ==> t.room.users == [])
    && match t.phase
       case Polling(todo) => forall e | e in todo :: Has(t.room.users, e)
       case Handling(todo) => NoDup(todo) && forall e | e in todo :: Has(t.room.users, e)
       case _ => true
  }

  ghost predicate RoomSettled(r: Room) {
    InJoinLoop(r) && RoomOk(r, OldCount(r))
  }

  ghost predicate ThreadOk(t: Thread, c: string, conns: map<Endpoint, Conn>) {
    && t.room.chan == c
    && RoomSettled(t.room)
    && OwnsMembers(t.room, c, conns)
    && MembersInOrder(t.room, c, conns)
    && PhaseOk(t)
  }

  ghost predicate ThreadsOk(threads: map<string, Thread>, conns: map<Endpoint, Conn>) {
    && (forall c | c in threads :: ThreadOk(threads[c], c, conns))
    && (forall e | e in conns && conns[e].place.Member? :: conns[e].place.chan in threads)
    && (forall e | e in conns && conns[e].place.Left? :: conns[e].place.chan in threads)
  }

  ghost predicate FlagMapOk(notifier: map<string, nat>, flags: map<nat, bool>) {
    && (forall id | id in flags :: flags[id] && id < |notifier|)
    && (forall c | c in notifier :: notifier[c] in flags)
    && (forall c, d | c in notifier && d in notifier && c != d :: notifier[c] != notifier[d])
  }

  /** A servlet holds the flag of its channel. */
  ghost predicate ThreadFlagsOk(threads: map<string, Thread>, notifier: map<string, nat>) {
    forall c | c in threads :: c in notifier && threads[c].flag == notifier[c]
  }

  /** Whoever is pending has a servlet, or the accept loop is about to notify and start it. */
  ghost predicate Served(pending: map<string, seq<Early>>, threads: map<string, Thread>, accept: Accept) {
    forall c | PendingAt(pending, c) != [] :: c in threads || accept == Notifying(c) || accept == Spawning(c)
  }

  /** Flags are created true and never reset. */
  ghost predicate FlagsOk(s: System) {
    && FlagMapOk(s.notifier, s.flags)
    && ThreadFlagsOk(s.threads, s.notifier)
    && Served(s.pending, s.threads, s.accept)
    && (s.accept.Spawning? ==> s.accept.chan in s.notifier)
  }

  ghost predicate LoggedIn(u: User, accounts: Accounts) {
    u.nick in accounts && accounts[u.nick] == u.pass
  }

  ghost predicate AcceptLoggedIn(accept: Accept, accounts: Accounts) {
    match accept
    case Joining(u) => LoggedIn(u, accounts)
    case Publishing(u, _) => LoggedIn(u, accounts)
    case _ => true
  }

  ghost predicate PendingLoggedIn(pending: map<string, seq<Early>>, accounts: Accounts) {
    forall c, p | p in PendingAt(pending, c) :: LoggedIn(p.user, accounts)
  }

  ghost predicate ThreadsLoggedIn(threads: map<string, Thread>, accounts: Accounts) {
    forall c, u | c in threads && u in threads[c].room.users :: LoggedIn(u, accounts)
  }

  /** Every user that got past registration carries the stored hash of its nick. */
  ghost predicate AuthOk(s: System) {
    && AcceptLoggedIn(s.accept, s.accounts)
    && PendingLoggedIn(s.pending, s.accounts)
    && ThreadsLoggedIn(s.threads, s.accounts)
  }

  ghost predicate SystemOk(s: System) {
    && AcceptOk(s.accept, s.endMsgs, s.conns)
    && PendingOk(s.pending, s.conns)
    && SocksOk(s.socks, s.conns)
    && ThreadsOk(s.threads, s.conns)
    && FlagsOk(s)
    && AuthOk(s)
  }

  lemma InitOk(accounts: Accounts, topics: map<string, string>)
    ensures SystemOk(Init(accounts, topics))
  {
  }

  // ---- Changing one connection that a component does not hold ----

  lemma PendingFrame(pending: map<string, seq<Early>>, conns: map<Endpoint, Conn>, e: Endpoint, x: Conn)
    requires PendingOk(pending, conns)
    requires e in conns ==> !conns[e].place.Pending?
    requires !x.place.Pending?
    ensures PendingOk(pending, conns[e := x])
  {
    hide InOrder, Newcomers, NewEnds, Distinct, PendingAt;
    forall c
      ensures ListOk(PendingAt(pending, c), c, conns[e := x])
    {
      assert ListOk(PendingAt(pending, c), c, conns);
    }
  }

  lemma SocksFrame(socks: seq<Endpoint>, conns: map<Endpoint, Conn>, e: Endpoint, x: Conn)
    requires SocksOk(socks, conns)
    requires e in conns ==> !conns[e].place.Pending?
    requires !x.place.Pending?
    ensures SocksOk(socks, conns[e := x])
  {
    hide NoDup;
  }

  lemma ThreadFrame(t: Thread, c: string, conns: map<Endpoint, Conn>, e: Endpoint, x: Conn)
    requires ThreadOk(t, c, conns)
    requires e in conns ==> conns[e].place != Member(c)
    requires x.place != Member(c) && x.place != Left(c)
    ensures ThreadOk(t, c, conns[e := x])
  {
    hide RoomSettled, PhaseOk, InOrder, NoDup, Has;
  }

  lemma ThreadsFrame(threads: map<string, Thread>, conns: map<Endpoint, Conn>, e: Endpoint, x: Conn)
    requires ThreadsOk(threads, conns)
    requires e in conns ==> !conns[e].place.Member?
    requires !x.place.Member? && !x.place.Left?
    ensures ThreadsOk(threads, conns[e := x])
  {
    hide ThreadOk;
    forall c | c in threads
      ensures ThreadOk(threads[c], c, conns[e := x])
    {
      ThreadFrame(threads[c], c, conns, e, x);
    }
  }

  // ---- Clients sending ----

  function Sent(c: Conn, msg: string): Conn {
    c.(sent := c.sent + [msg], unread := c.unread + [msg])
  }

  lemma SentInOrder(c: Conn, handled: seq<string>, queued: seq<string>, msg: string)
    requires InOrder(c, handled, queued)
    ensures InOrder(Sent(c, msg), handled, queued)
  {
    var d := Sent(c, msg);
    assert d.consumed + handled + queued + d.unread == (c.consumed + handled + queued + c.unread) + [msg];
    assert d.stale + d.sent == (c.stale + c.sent) + [msg];
  }

  lemma SendKeepsPending(pending: map<string, seq<Early>>, conns: map<Endpoint, Conn>, e: Endpoint, msg: string)
    requires PendingOk(pending, conns) && e in conns
    ensures PendingOk(pending, conns[e := Sent(conns[e], msg)])
  {
    hide InOrder, Newcomers, NewEnds, Distinct, PendingAt;
    forall c
      ensures ListOk(PendingAt(pending, c), c, conns[e := Sent(conns[e], msg)])
    {
      assert ListOk(PendingAt(pending, c), c, conns);
      forall p | p in PendingAt(pending, c)
        ensures EarlyOk(p, c, conns[e := Sent(conns[e], msg)])
      {
        assert EarlyOk(p, c, conns);
        if p.user.endpt == e {
          SentInOrder(conns[e], [], p.msgs, msg);
        }
      }
    }
  }

  lemma SendKeepsThread(t: Thread, c: string, conns: map<Endpoint, Conn>, e: Endpoint, msg: string)
    requires ThreadOk(t, c, conns) && e in conns && !conns[e].place.Left?
    ensures ThreadOk(t, c, conns[e := Sent(conns[e], msg)])
  {
    hide RoomSettled, PhaseOk, InOrder, NoDup, Has, QueueAt;
    if conns[e].place == Member(c) {
      SentInOrder(conns[e], QueueAt(t.room.handled, e), QueueAt(t.room.queues, e), msg);
    }
  }

  lemma SendKeepsAccept(s: System, e: Endpoint, msg: string)
    requires AcceptOk(s.accept, s.endMsgs, s.conns) && e in s.conns
    ensures AcceptOk(s.accept, s.endMsgs, s.conns[e := Sent(s.conns[e], msg)])
  {
    hide InOrder;
    match s.accept
    case Reading(x, _) => SentInOrder(s.conns[x], [], QueueAt(s.endMsgs, x), msg);
    case Joining(u) => SentInOrder(s.conns[u.endpt], [], QueueAt(s.endMsgs, u.endpt), msg);
    case Publishing(u, early) => SentInOrder(s.conns[u.endpt], [], early, msg);
    case _ =>
  }

  lemma SendKeepsThreads(threads: map<string, Thread>, conns: map<Endpoint, Conn>, e: Endpoint, msg: string)
    requires ThreadsOk(threads, conns) && e in conns && !conns[e].place.Left?
    ensures ThreadsOk(threads, conns[e := Sent(conns[e], msg)])
  {
    hide ThreadOk;
    forall c | c in threads
      ensures ThreadOk(threads[c], c, conns[e := Sent(conns[e], msg)])
    {
      SendKeepsThread(threads[c], c, conns, e, msg);
    }
  }

  lemma SendOk(s: System, e: Endpoint, msg: string)
    requires SystemOk(s) && DoSend(s, e, msg).Some?
    ensures SystemOk(DoSend(s, e, msg).value)
  {
    hide ThreadsOk, PendingOk, AcceptOk, NoDup, FlagMapOk, ThreadFlagsOk, Served, AcceptLoggedIn, PendingLoggedIn, ThreadsLoggedIn;
    assert DoSend(s, e, msg).value.conns == s.conns[e := Sent(s.conns[e], msg)];
    SendKeepsAccept(s, e, msg);
    SendKeepsPending(s.pending, s.conns, e, msg);
    SendKeepsThreads(s.threads, s.conns, e, msg);
  }

  // ---- The accept loop ----

  /** A change of one connection that is neither pending nor a member, before and after. */
  lemma ConnFrame(s: System, e: Endpoint, x: Conn)
    requires SystemOk(s)
    requires e in s.conns ==> !s.conns[e].place.Pending? && !s.conns[e].place.Member?
    requires !x.place.Pending? && !x.place.Member? && !x.place.Left?
    ensures PendingOk(s.pending, s.conns[e := x])
    ensures SocksOk(s.socks, s.conns[e := x])
    ensures ThreadsOk(s.threads, s.conns[e := x])
  {
    hide ThreadsOk, PendingOk, AcceptOk, FlagsOk, SocksOk, AuthOk;
    PendingFrame(s.pending, s.conns, e, x);
    SocksFrame(s.socks, s.conns, e, x);
    ThreadsFrame(s.threads, s.conns, e, x);
  }

  /** Pending users stay served while the accept loop is away from notifying. */
  lemma AcceptMoves(s: System, accept: Accept)
    requires FlagsOk(s) && !s.accept.Notifying? && !s.accept.Spawning? && !accept.Spawning?
    ensures FlagsOk(s.(accept := accept))
  {
    hide FlagMapOk, ThreadFlagsOk;
  }

  lemma FlagsFrame(s: System, q: System)
    requires FlagsOk(s)
    requires q.notifier == s.notifier && q.flags == s.flags && q.threads == s.threads
    requires q.pending == s.pending && q.accept == s.accept
    ensures FlagsOk(q)
  {
  }

  lemma AcceptClientOk(s: System, e: Endpoint)
    requires SystemOk(s) && DoAccept(s, e).Some?
    ensures SystemOk(DoAccept(s, e).value)
  {
    hide ThreadsOk, PendingOk, SocksOk, FlagsOk, PendingLoggedIn, ThreadsLoggedIn;
    var q := DoAccept(s, e).value;
    var x := Conn(AtServer, [], QueueAt(s.endMsgs, e), [], []);
    ConnFrame(s, e, x);
    AcceptMoves(s, q.accept);
    FlagsFrame(s.(accept := q.accept), q);
    assert InOrder(x, [], QueueAt(s.endMsgs, e));
  }

  lemma TakeInOrder(c: Conn, queue: seq<string>, k: nat)
    requires InOrder(c, [], queue) && Take(queue, c.unread, k).Some?
    ensures var t := Take(queue, c.unread, k).value;
            InOrder(AfterTake(c, t), [], t.queue)
  {
    var t := Take(queue, c.unread, k).value;
    assert [t.msg] + t.queue + t.unread == queue + c.unread;
    assert c.consumed + [t.msg] + [] + t.queue + t.unread == c.consumed + ([t.msg] + t.queue + t.unread);
    assert c.consumed + [] + queue + c.unread == c.consumed + (queue + c.unread);
  }

  /** A step of the accept loop before publishing touches only its own connection. */
  lemma AcceptStep(s: System, q: System, e: Endpoint, x: Conn)
    requires SystemOk(s) && !s.accept.Notifying? && !s.accept.Spawning? && !q.accept.Spawning?
    requires q == s.(accept := q.accept, endMsgs := q.endMsgs, accounts := q.accounts, conns := s.conns[e := x])
    requires e in s.conns && s.conns[e].place.AtServer? && (x.place.AtServer? || x.place.Closed?)
    requires AcceptOk(q.accept, q.endMsgs, q.conns) && AuthOk(q)
    ensures SystemOk(q)
  {
    hide ThreadsOk, PendingOk, SocksOk, FlagsOk, AcceptOk, AuthOk;
    ConnFrame(s, e, x);
    AcceptMoves(s, q.accept);
    FlagsFrame(s.(accept := q.accept), q);
  }

  lemma NobodyAtServer(conns: map<Endpoint, Conn>, e: Endpoint, x: Conn)
    requires OnlyAtServer(conns, e) && !x.place.AtServer?
    ensures NoneAtServer(conns[e := x])
  {
  }

  lemma StillOnlyAtServer(conns: map<Endpoint, Conn>, e: Endpoint, x: Conn)
    requires OnlyAtServer(conns, e)
    ensures OnlyAtServer(conns[e := x], e)
  {
  }

  lemma ServerReadAccept(s: System, k: nat)
    requires AcceptOk(s.accept, s.endMsgs, s.conns) && DoServerRead(s, k).Some?
    ensures var q, e := DoServerRead(s, k).value, s.accept.sock;
            && e in q.conns
            && q == s.(accept := q.accept, endMsgs := q.endMsgs, conns := s.conns[e := q.conns[e]])
            && (q.accept.Reading? || q.accept.Stopped?)
            && (q.conns[e].place.AtServer? || q.conns[e].place.Closed?)
            && AcceptOk(q.accept, q.endMsgs, q.conns)
  {
    hide InOrder, Take, OnlyAtServer;
    var e := s.accept.sock;
    var q := DoServerRead(s, k).value;
    var t := Take(QueueAt(s.endMsgs, e), s.conns[e].unread, k).value;
    var c := s.conns[e];
    TakeInOrder(c, QueueAt(s.endMsgs, e), k);
    StillOnlyAtServer(s.conns, e, AfterTake(c, t));
    NobodyAtServer(s.conns, e, Dropped(AfterTake(c, t)));
  }

  lemma ServerReadOk(s: System, k: nat)
    requires SystemOk(s) && DoServerRead(s, k).Some?
    ensures SystemOk(DoServerRead(s, k).value)
  {
    assert s.accept.Reading?;
    hide ThreadsOk, PendingOk, SocksOk, FlagsOk, PendingLoggedIn, ThreadsLoggedIn, InOrder, OnlyAtServer, DoServerRead;
    var q := DoServerRead(s, k).value;
    ServerReadAccept(s, k);
    AcceptStep(s, q, s.accept.sock, q.conns[s.accept.sock]);
  }

  lemma StaysLoggedIn(u: User, accounts: Accounts, login: Login)
    requires LoggedIn(u, accounts)
    ensures LoggedIn(u, LoginResult(accounts, login).accounts)
  {
  }

  lemma AccountsGrow(s: System, login: Login)
    requires AuthOk(s)
    ensures PendingLoggedIn(s.pending, LoginResult(s.accounts, login).accounts)
    ensures ThreadsLoggedIn(s.threads, LoginResult(s.accounts, login).accounts)
  {
    hide LoggedIn, LoginResult;
    forall c, p | p in PendingAt(s.pending, c)
      ensures LoggedIn(p.user, LoginResult(s.accounts, login).accounts)
    {
      StaysLoggedIn(p.user, s.accounts, login);
    }
    forall c, u | c in s.threads && u in s.threads[c].room.users
      ensures LoggedIn(u, LoginResult(s.accounts, login).accounts)
    {
      StaysLoggedIn(u, s.accounts, login);
    }
  }

  /** What registering may do to the accept loop and its connection. */
  ghost predicate RegisterStep(s: System, q: System, e: Endpoint) {
    && e in s.conns && e in q.conns
    && q == s.(accept := q.accept, accounts := q.accounts, conns := s.conns[e := q.conns[e]])
    && (q.accept.Joining? || q.accept.Stopped? || q.accept.Idle?)
    && (q.conns[e].place.AtServer? || q.conns[e].place.Closed?)
    && AcceptOk(q.accept, q.endMsgs, q.conns)
  }

  lemma JoiningStep(s: System, user: User, accounts: Accounts)
    requires AtServerOk(s.conns, user.endpt, QueueAt(s.endMsgs, user.endpt))
    ensures RegisterStep(s, s.(accept := Joining(user), accounts := accounts), user.endpt)
  {
    hide InOrder, QueueAt, OnlyAtServer;
    assert s.conns == s.conns[user.endpt := s.conns[user.endpt]];
  }

  lemma RefusedStep(s: System, e: Endpoint, accounts: Accounts)
    requires AtServerOk(s.conns, e, QueueAt(s.endMsgs, e))
    ensures RegisterStep(s, s.(accept := Idle, accounts := accounts, conns := s.conns[e := Dropped(s.conns[e])]), e)
  {
    hide AtServerOk, QueueAt;
    AtServerFacts(s.conns, e, QueueAt(s.endMsgs, e));
  }

  lemma RegisteredAccept(cfg: Config, s: System, e: Endpoint, h: Handshake)
    requires AtServerOk(s.conns, e, QueueAt(s.endMsgs, e)) && e in s.conns
    ensures RegisterStep(s, Registered(cfg, s, e, h), e)
  {
    hide LoginResult, AtServerOk, RegisterStep, QueueAt;
    var user := User(h.nick, h.whoami, h.realName, cfg.hash(h.password), "", e);
    var outcome := LoginResult(s.accounts, Login(user.nick, user.pass));
    JoiningStep(s, user, outcome.accounts);
    RefusedStep(s, e, outcome.accounts);
  }

  lemma RegisterAccept(cfg: Config, s: System)
    requires AcceptOk(s.accept, s.endMsgs, s.conns) && DoRegister(cfg, s).Some?
    ensures RegisterStep(s, DoRegister(cfg, s).value, s.accept.sock)
  {
    hide ParseHandshake, AtServerOk, Registered;
    var e, got := s.accept.sock, s.accept.got;
    AtServerFacts(s.conns, e, QueueAt(s.endMsgs, e));
    match ParseHandshake(got[0], got[1], got[2])
    case None =>
    case Some(h) =>
      RegisteredAccept(cfg, s, e, h);
  }

  lemma AtServerFacts(conns: map<Endpoint, Conn>, e: Endpoint, queue: seq<string>)
    requires AtServerOk(conns, e, queue)
    ensures e in conns && conns[e].place.AtServer?
    ensures NoneAtServer(conns[e := Dropped(conns[e])])
  {
    hide InOrder;
  }

  lemma RegisteredAuth(cfg: Config, s: System, e: Endpoint, h: Handshake)
    requires AuthOk(s) && e in s.conns
    ensures AuthOk(Registered(cfg, s, e, h))
  {
    hide PendingLoggedIn, ThreadsLoggedIn;
    AccountsGrow(s, Login(h.nick, cfg.hash(h.password)));
  }

  lemma RegisterAuth(cfg: Config, s: System)
    requires AuthOk(s) && DoRegister(cfg, s).Some?
    ensures AuthOk(DoRegister(cfg, s).value)
  {
    hide ParseHandshake, PendingLoggedIn, ThreadsLoggedIn, Registered;
    var got := s.accept.got;
    match ParseHandshake(got[0], got[1], got[2])
    case None =>
    case Some(h) =>
      RegisteredAuth(cfg, s, s.accept.sock, h);
  }

  lemma RegisterOk(cfg: Config, s: System)
    requires SystemOk(s) && DoRegister(cfg, s).Some?
    ensures SystemOk(DoRegister(cfg, s).value)
  {
    assert s.accept.Reading?;
    hide ThreadsOk, PendingOk, SocksOk, FlagsOk, AuthOk, InOrder, OnlyAtServer, DoRegister;
    var q := DoRegister(cfg, s).value;
    RegisterAccept(cfg, s);
    RegisterAuth(cfg, s);
    AcceptStep(s, q, s.accept.sock, q.conns[s.accept.sock]);
  }

  lemma ReadJoinAccept(s: System, k: nat)
    requires AcceptOk(s.accept, s.endMsgs, s.conns) && DoReadJoin(s, k).Some?
    ensures var q, u := DoReadJoin(s, k).value, s.accept.user;
            && u.endpt in q.conns
            && q == s.(accept := q.accept, endMsgs := q.endMsgs, conns := s.conns[u.endpt := q.conns[u.endpt]])
            && (q.accept.Stopped? || (q.accept.Publishing? && q.accept.user == u.(chan := q.accept.user.chan)))
            && (q.conns[u.endpt].place.AtServer? || q.conns[u.endpt].place.Closed?)
            && AcceptOk(q.accept, q.endMsgs, q.conns)
  {
    hide InOrder, Take, OnlyAtServer;
    var e := s.accept.user.endpt;
    var q := DoReadJoin(s, k).value;
    var t := Take(QueueAt(s.endMsgs, e), s.conns[e].unread, k).value;
    var c := s.conns[e];
    TakeInOrder(c, QueueAt(s.endMsgs, e), k);
    StillOnlyAtServer(s.conns, e, AfterTake(c, t));
    NobodyAtServer(s.conns, e, Dropped(AfterTake(c, t)));
  }

  lemma ReadJoinOk(s: System, k: nat)
    requires SystemOk(s) && DoReadJoin(s, k).Some?
    ensures SystemOk(DoReadJoin(s, k).value)
  {
    assert s.accept.Joining?;
    hide ThreadsOk, PendingOk, SocksOk, FlagsOk, PendingLoggedIn, ThreadsLoggedIn, InOrder, OnlyAtServer, DoReadJoin;
    var q := DoReadJoin(s, k).value;
    var e := s.accept.user.endpt;
    ReadJoinAccept(s, k);
    assert LoggedIn(s.accept.user, s.accounts);
    AcceptStep(s, q, e, q.conns[e]);
  }

  // ---- Publishing ----

  lemma ListPublished(list: seq<Early>, c: string, conns: map<Endpoint, Conn>, p: Early)
    requires ListOk(list, c, conns)
    requires var e := p.user.endpt;
             e in conns && conns[e].place.AtServer? && p.user.chan == c && InOrder(conns[e], [], p.msgs)
    ensures var e := p.user.endpt;
            ListOk(list + [p], c, conns[e := conns[e].(place := Pending(c))])
  {
    hide InOrder, Newcomers;
    var e := p.user.endpt;
    var after := conns[e := conns[e].(place := Pending(c))];
    forall o | o in list
      ensures EarlyOk(o, c, after)
    {
      assert EarlyOk(o, c, conns);
    }
    assert e !in NewEnds(list);
    BatchJoin.NewcomersMore(list, p);
    NewcomersAre(list, e);
    HasNobodyElse(list, p);
    forall x | x in after && after[x].place == Pending(c)
      ensures x in NewEnds(list + [p])
    {
      assert x != e ==> x in NewEnds(list);
    }
    InOrderPlace(conns[e], [], p.msgs, Pending(c));
  }

  lemma InOrderPlace(c: Conn, handled: seq<string>, queued: seq<string>, place: Place)
    requires InOrder(c, handled, queued)
    ensures InOrder(c.(place := place), handled, queued)
  {
  }

  lemma HasNobodyElse(list: seq<Early>, p: Early)
    requires Distinct(Newcomers(list)) && !Has(Newcomers(list), p.user.endpt)
    ensures Distinct(Newcomers(list + [p]))
  {
    BatchJoin.NewcomersMore(list, p);
    AdmitDistinct(Newcomers([p]), []);
    forall i | 0 <= i < |Newcomers(list)|
      ensures Newcomers(list)[i].endpt != p.user.endpt
    {
    }
  }

  lemma ListElsewhere(list: seq<Early>, d: string, conns: map<Endpoint, Conn>, e: Endpoint, place: Place)
    requires ListOk(list, d, conns) && e in conns && conns[e].place != Pending(d) && place != Pending(d)
    ensures ListOk(list, d, conns[e := conns[e].(place := place)])
  {
    hide InOrder, Newcomers, NewEnds, Distinct;
    forall o | o in list
      ensures EarlyOk(o, d, conns[e := conns[e].(place := place)])
    {
      assert EarlyOk(o, d, conns);
    }
  }

  lemma PublishKeepsPending(s: System)
    requires SystemOk(s) && DoPublish(s).Some?
    ensures PendingOk(DoPublish(s).value.pending, DoPublish(s).value.conns)
  {
    hide InOrder, Newcomers, NewEnds, Distinct, ListOk, SocksOk, ThreadsOk, FlagsOk, AuthOk, OnlyAtServer;
    var q := DoPublish(s).value;
    var user := s.accept.user;
    var e, c := user.endpt, user.chan;
    forall d
      ensures ListOk(PendingAt(q.pending, d), d, q.conns)
    {
      if d == c {
        ListPublished(PendingAt(s.pending, c), c, s.conns, Early(user, s.accept.early));
      } else {
        ListElsewhere(PendingAt(s.pending, d), d, s.conns, e, Pending(c));
      }
    }
  }

  lemma PublishKeepsSocks(socks: seq<Endpoint>, conns: map<Endpoint, Conn>, e: Endpoint, c: string)
    requires SocksOk(socks, conns) && e in conns && !conns[e].place.Pending?
    ensures SocksOk(socks + [e], conns[e := conns[e].(place := Pending(c))])
  {
  }

  lemma PublishKeepsFlags(s: System)
    requires FlagsOk(s) && DoPublish(s).Some?
    ensures FlagsOk(DoPublish(s).value)
  {
    hide FlagMapOk, ThreadFlagsOk;
  }

  lemma PublishKeepsAuth(s: System)
    requires AuthOk(s) && DoPublish(s).Some?
    ensures AuthOk(DoPublish(s).value)
  {
    hide ThreadsLoggedIn, LoggedIn;
    assert LoggedIn(s.accept.user, s.accounts);
    var q, c := DoPublish(s).value, s.accept.user.chan;
    forall d, p | p in PendingAt(q.pending, d)
      ensures LoggedIn(p.user, s.accounts)
    {
      assert p in PendingAt(s.pending, d) || p.user == s.accept.user;
    }
  }

  lemma PublishOk(s: System)
    requires SystemOk(s) && DoPublish(s).Some?
    ensures SystemOk(DoPublish(s).value)
  {
    PublishKeepsPending(s);
    hide InOrder, PendingOk, SocksOk, ThreadsOk, FlagsOk, AuthOk;
    var q := DoPublish(s).value;
    var e := s.accept.user.endpt;
    PublishKeepsFlags(s);
    PublishKeepsAuth(s);
    ThreadsFrame(s.threads, s.conns, e, q.conns[e]);
    PublishKeepsSocks(s.socks, s.conns, e, s.accept.user.chan);
  }

  // ---- Notifying and spawning ----

  lemma NotifyKeepsFlagMap(notifier: map<string, nat>, flags: map<nat, bool>, c: string)
    requires FlagMapOk(notifier, flags)
    ensures c in notifier ==> FlagMapOk(notifier, flags[notifier[c] := true])
    ensures c !in notifier ==> FlagMapOk(notifier[c := |notifier|], flags[|notifier| := true])
  {
    if c !in notifier {
      assert |notifier[c := |notifier|]| == |notifier| + 1;
    }
  }

  lemma NotifyKeepsFlags(s: System)
    requires FlagsOk(s) && DoNotify(s).Some?
    ensures FlagsOk(DoNotify(s).value)
  {
    hide FlagMapOk, PendingAt;
    NotifyKeepsFlagMap(s.notifier, s.flags, s.accept.chan);
  }

  lemma NotifyKeepsRest(s: System)
    requires AcceptOk(s.accept, s.endMsgs, s.conns) && DoNotify(s).Some?
    ensures var q := DoNotify(s).value;
            && AcceptOk(q.accept, q.endMsgs, q.conns)
            && q.pending == s.pending && q.socks == s.socks && q.threads == s.threads && q.conns == s.conns
  {
    hide NoneAtServer;
  }

  lemma NotifyOk(s: System)
    requires SystemOk(s) && DoNotify(s).Some?
    ensures SystemOk(DoNotify(s).value)
  {
    hide PendingOk, SocksOk, ThreadsOk, AuthOk, FlagsOk, AcceptOk, DoNotify;
    NotifyKeepsRest(s);
    NotifyKeepsFlags(s);
    NotifyKeepsAuth(s);
  }

  lemma NotifyKeepsAuth(s: System)
    requires AuthOk(s) && DoNotify(s).Some?
    ensures AuthOk(DoNotify(s).value)
  {
    hide PendingLoggedIn, ThreadsLoggedIn, LoggedIn;
  }

  lemma NewThreadOk(c: string, host: string, topic: string, flag: nat, conns: map<Endpoint, Conn>)
    requires forall e | e in conns :: conns[e].place != Member(c) && conns[e].place != Left(c)
    ensures ThreadOk(Thread(flag, true, Checking, NewRoom(c, host, topic)), c, conns)
  {
  }

  lemma SpawnKeepsThreads(cfg: Config, s: System)
    requires ThreadsOk(s.threads, s.conns) && DoSpawn(cfg, s).Some?
    requires s.accept.chan !in s.threads
    ensures ThreadsOk(DoSpawn(cfg, s).value.threads, s.conns)
  {
    hide ThreadOk;
    var q := DoSpawn(cfg, s).value;
    var c := s.accept.chan;
    NewThreadOk(c, cfg.host, q.threads[c].room.topic, q.threads[c].flag, s.conns);
  }

  lemma SpawnKeepsFlags(cfg: Config, s: System)
    requires FlagsOk(s) && DoSpawn(cfg, s).Some?
    ensures FlagsOk(DoSpawn(cfg, s).value)
  {
    hide FlagMapOk;
    SpawnServes(s, DoSpawn(cfg, s).value.threads[s.accept.chan]);
  }

  lemma SpawnServes(s: System, t: Thread)
    requires Served(s.pending, s.threads, s.accept) && s.accept.Spawning?
    ensures s.accept.chan in s.threads ==> Served(s.pending, s.threads, Idle)
    ensures Served(s.pending, s.threads[s.accept.chan := t], Idle)
  {
    hide PendingAt;
  }

  lemma EmptyRoomLoggedIn(threads: map<string, Thread>, accounts: Accounts, c: string, t: Thread)
    requires ThreadsLoggedIn(threads, accounts) && t.room.users == []
    ensures ThreadsLoggedIn(threads[c := t], accounts)
  {
    hide LoggedIn;
  }

  lemma SpawnKeepsAuth(cfg: Config, s: System)
    requires AuthOk(s) && DoSpawn(cfg, s).Some?
    ensures AuthOk(DoSpawn(cfg, s).value)
  {
    hide PendingLoggedIn, ThreadsLoggedIn;
    var q, c := DoSpawn(cfg, s).value, s.accept.chan;
    if c !in s.threads {
      EmptyRoomLoggedIn(s.threads, s.accounts, c, q.threads[c]);
    }
  }

  lemma SpawnOk(cfg: Config, s: System)
    requires SystemOk(s) && DoSpawn(cfg, s).Some?
    ensures SystemOk(DoSpawn(cfg, s).value)
  {
    hide PendingOk, SocksOk, ThreadsOk, FlagsOk, AuthOk;
    if s.accept.chan !in s.threads {
      SpawnKeepsThreads(cfg, s);
    }
    SpawnKeepsFlags(cfg, s);
    SpawnKeepsAuth(cfg, s);
  }

  // ---- One servlet iteration ----

  /** A step of the servlet of `c` that changes no connection, nor anything shared. */
  lemma ThreadStep(s: System, c: string, t: Thread)
    requires SystemOk(s) && c in s.threads && t.flag == s.threads[c].flag
    requires ThreadOk(t, c, s.conns)
    requires forall u | u in t.room.users :: u in s.threads[c].room.users
    ensures SystemOk(s.(threads := s.threads[c := t]))
  {
    hide PendingOk, SocksOk, AcceptOk, FlagMapOk, ThreadOk, PendingLoggedIn, AcceptLoggedIn, LoggedIn;
  }

  lemma CheckOk(s: System, c: string)
    requires SystemOk(s) && DoCheck(s, c).Some?
    ensures SystemOk(DoCheck(s, c).value)
  {
    var q := DoCheck(s, c).value;
    assert ThreadOk(s.threads[c], c, s.conns);
    ThreadPhase(s.threads[c], q.threads[c], c, s.conns);
    ThreadStep(s, c, q.threads[c]);
  }

  /** A change of phase only. */
  lemma ThreadPhase(t: Thread, u: Thread, c: string, conns: map<Endpoint, Conn>)
    requires ThreadOk(t, c, conns) && u.room == t.room && PhaseOk(u)
    ensures ThreadOk(u, c, conns)
  {
  }

  lemma EndOk(s: System, c: string)
    requires SystemOk(s) && DoEnd(s, c).Some?
    ensures SystemOk(DoEnd(s, c).value)
  {
    var q := DoEnd(s, c).value;
    assert ThreadOk(s.threads[c], c, s.conns);
    ThreadPhase(s.threads[c], q.threads[c], c, s.conns);
    ThreadStep(s, c, q.threads[c]);
  }

  lemma StartHandlingOk(s: System, c: string, order: seq<Endpoint>)
    requires SystemOk(s) && DoStartHandling(s, c, order).Some?
    ensures SystemOk(DoStartHandling(s, c, order).value)
  {
    var q := DoStartHandling(s, c, order).value;
    assert ThreadOk(s.threads[c], c, s.conns);
    assert KeysMatch(s.threads[c].room);
    assert forall e | e in order :: e in s.threads[c].room.queues;
    ThreadPhase(s.threads[c], q.threads[c], c, s.conns);
    ThreadStep(s, c, q.threads[c]);
  }

  lemma GreetKeepsSettled(r: Room)
    requires RoomSettled(r)
    ensures RoomSettled(HandleNewUsers(r))
  {
    hide RoomOk, GreetOne;
    HandleNewUsersKeepsRoom(r);
  }

  lemma GreetKeepsThread(t: Thread, c: string, conns: map<Endpoint, Conn>)
    requires ThreadOk(t, c, conns) && t.phase.Greeting?
    ensures var room := HandleNewUsers(t.room);
            ThreadOk(t.(phase := Polling(room.socks), room := room), c, conns)
  {
    hide RoomSettled, GreetOne, InOrder, Has, NoDup, QueueAt;
    GreetKeepsSettled(t.room);
  }

  lemma GreetOk(s: System, c: string)
    requires SystemOk(s) && DoGreet(s, c).Some?
    ensures SystemOk(DoGreet(s, c).value)
  {
    hide ThreadOk, GreetUpto;
    var q := DoGreet(s, c).value;
    assert ThreadOk(s.threads[c], c, s.conns);
    GreetKeepsThread(s.threads[c], c, s.conns);
    ThreadStep(s, c, q.threads[c]);
  }

  /** A servlet does not notice changes of connections that are neither its members nor its former members. */
  lemma ThreadSame(t: Thread, d: string, conns: map<Endpoint, Conn>, after: map<Endpoint, Conn>)
    requires ThreadOk(t, d, conns) && after.Keys == conns.Keys
    requires forall e | e in conns && after[e] != conns[e] ::
               conns[e].place != Member(d) && after[e].place != Member(d) && after[e].place != Left(d)
    ensures ThreadOk(t, d, after)
  {
    hide RoomSettled, PhaseOk, InOrder, NoDup, Has, QueueAt;
  }

  // ---- Polling ----

  lemma PollInOrder(c: Conn, handled: seq<string>, queued: seq<string>, k: nat)
    requires InOrder(c, handled, queued) && k <= |c.unread|
    ensures InOrder(c.(unread := c.unread[k..]), handled, queued + c.unread[..k])
  {
    assert c.unread == c.unread[..k] + c.unread[k..];
    assert c.consumed + handled + (queued + c.unread[..k]) + c.unread[k..] == c.consumed + handled + queued + c.unread;
  }

  lemma PollKeepsSettled(r: Room, e: Endpoint, msgs: seq<string>)
    requires RoomSettled(r) && Has(r.users, e)
    ensures RoomSettled(Poll(r, e, msgs))
  {
    hide MemberOk, Has, Distinct, QueueAt;
    assert e in r.queues by { SettledKeys(r); }
    assert r.queues[e := QueueAt(r.queues, e) + msgs].Keys == r.queues.Keys;
    KnowledgeOnly(r, Poll(r, e, msgs), OldCount(r));
  }

  lemma PollKeepsOrder(r: Room, c: string, conns: map<Endpoint, Conn>, e: Endpoint, k: nat)
    requires MembersInOrder(r, c, conns) && e in conns && conns[e].place == Member(c) && k <= |conns[e].unread|
    ensures MembersInOrder(Poll(r, e, conns[e].unread[..k]), c, conns[e := conns[e].(unread := conns[e].unread[k..])])
  {
    hide InOrder, QueueAt;
    PollInOrder(conns[e], QueueAt(r.handled, e), QueueAt(r.queues, e), k);
    var queue := QueueAt(r.queues, e) + conns[e].unread[..k];
    forall x
      ensures QueueAt(r.queues[e := queue], x) == if x == e then queue else QueueAt(r.queues, x)
    {
      QueueUpdated(r.queues, e, queue, x);
    }
  }

  lemma PollKeepsOwnership(r: Room, c: string, conns: map<Endpoint, Conn>, e: Endpoint, msgs: seq<string>, unread: seq<string>)
    requires OwnsMembers(r, c, conns) && e in conns
    ensures OwnsMembers(Poll(r, e, msgs), c, conns[e := conns[e].(unread := unread)])
  {
    hide Has, NoDup, QueueAt;
  }

  lemma PollPhase(t: Thread, e: Endpoint, msgs: seq<string>)
    requires PhaseOk(t) && t.alive && t.phase.Polling? && t.phase.todo != []
    ensures PhaseOk(t.(phase := Polling(t.phase.todo[1..]), room := Poll(t.room, e, msgs)))
  {
    hide Has, QueueAt;
    assert forall x | x in t.phase.todo[1..] :: x in t.phase.todo;
  }

  lemma PollKeepsThread(t: Thread, c: string, conns: map<Endpoint, Conn>, k: nat)
    requires ThreadOk(t, c, conns) && t.alive && t.phase.Polling? && t.phase.todo != []
    requires var e := t.phase.todo[0]; e in conns && k <= |conns[e].unread|
    ensures var e := t.phase.todo[0];
            var conn := conns[e];
            && conn.place == Member(c)
            && ThreadOk(t.(phase := Polling(t.phase.todo[1..]), room := Poll(t.room, e, conn.unread[..k])), c,
                        conns[e := conn.(unread := conn.unread[k..])])
  {
    var e := t.phase.todo[0];
    assert Has(t.room.users, e);
    MembersPlace(t, c, conns);
    hide RoomSettled, OwnsMembers, MembersInOrder, PhaseOk, Has;
    var msgs := conns[e].unread[..k];
    PollKeepsSettled(t.room, e, msgs);
    PollKeepsOrder(t.room, c, conns, e, k);
    PollKeepsOwnership(t.room, c, conns, e, msgs, conns[e].unread[k..]);
    PollPhase(t, e, msgs);
  }

  lemma QueueUpdated(queues: map<Endpoint, seq<string>>, e: Endpoint, queue: seq<string>, x: Endpoint)
    ensures QueueAt(queues[e := queue], x) == if x == e then queue else QueueAt(queues, x)
  {
  }

  lemma OthersFrame(s: System, c: string, e: Endpoint, x: Conn, t: Thread)
    requires ThreadsOk(s.threads, s.conns) && c in s.threads && e in s.conns && s.conns[e].place == Member(c)
    requires x.place == Member(c) || x.place == Left(c)
    requires ThreadOk(t, c, s.conns[e := x])
    ensures ThreadsOk(s.threads[c := t], s.conns[e := x])
  {
    hide ThreadOk;
    forall d | d in s.threads && d != c
      ensures ThreadOk(s.threads[d], d, s.conns[e := x])
    {
      ThreadFrame(s.threads[d], d, s.conns, e, x);
    }
  }

  /** A step of the servlet of `c` that changes one of its members' connections. */
  lemma MemberStep(s: System, c: string, t: Thread, e: Endpoint, x: Conn)
    requires SystemOk(s) && c in s.threads && t.flag == s.threads[c].flag
    requires e in s.conns && s.conns[e].place == Member(c) && (x.place == Member(c) || x.place == Left(c))
    requires ThreadOk(t, c, s.conns[e := x])
    requires forall u | u in t.room.users :: u in s.threads[c].room.users
    ensures SystemOk(s.(threads := s.threads[c := t], conns := s.conns[e := x]))
  {
    OthersFrame(s, c, e, x, t);
    MemberStepShared(s, c, t, e, x);
    PendingFrame(s.pending, s.conns, e, x);
    SocksFrame(s.socks, s.conns, e, x);
    hide PendingOk, SocksOk, ThreadsOk, FlagsOk, AuthOk;
  }

  lemma MemberStepShared(s: System, c: string, t: Thread, e: Endpoint, x: Conn)
    requires SystemOk(s) && c in s.threads && t.flag == s.threads[c].flag
    requires e in s.conns && s.conns[e].place == Member(c) && (x.place == Member(c) || x.place == Left(c))
    requires forall u | u in t.room.users :: u in s.threads[c].room.users
    ensures var q := s.(threads := s.threads[c := t], conns := s.conns[e := x]);
            AcceptOk(q.accept, q.endMsgs, q.conns) && FlagsOk(q) && AuthOk(q)
  {
    hide PendingOk, SocksOk, ThreadsOk, FlagMapOk, PendingLoggedIn, AcceptLoggedIn, LoggedIn, InOrder;
  }

  lemma PollOk(s: System, c: string, k: nat)
    requires SystemOk(s) && DoPoll(s, c, k).Some?
    ensures SystemOk(DoPoll(s, c, k).value)
  {
    hide AcceptOk, PendingOk, SocksOk, FlagsOk, AuthOk, ThreadOk;
    var t := s.threads[c];
    var e := t.phase.todo[0];
    var q := DoPoll(s, c, k).value;
    assert ThreadOk(t, c, s.conns);
    PollKeepsThread(t, c, s.conns, k);
    MemberStep(s, c, q.threads[c], e, q.conns[e]);
  }

  // ---- Handling ----

  lemma HandledInOrder(c: Conn, handled: seq<string>, queue: seq<string>)
    requires InOrder(c, handled, queue)
    ensures UntilPart(queue) == queue ==> InOrder(c, handled + UntilPart(queue), [])
    ensures c.consumed + (handled + UntilPart(queue)) <= c.stale + c.sent
  {
    UntilPartIsAll(queue);
    var rest := queue[|UntilPart(queue)|..];
    assert queue == UntilPart(queue) + rest;
    assert c.consumed + handled + queue + c.unread == c.consumed + (handled + UntilPart(queue)) + (rest + c.unread);
    assert c.consumed + (handled + queue) + [] + c.unread == c.consumed + handled + queue + c.unread;
  }

  lemma {:induction false} NoPartAllHandled(queue: seq<string>)
    requires !HasPart(queue)
    ensures UntilPart(queue) == queue
  {
    hide IsPriv, IsPart;
    forall i | 0 <= i < |queue| - 1
      ensures IsPriv(queue[i]) || !IsPart(queue[i])
    {
    }
    UntilPartIsAll(queue);
  }

  /** The connection of `e` after its entry was handled. */
  function AfterEntry(conn: Conn, room: Room, e: Endpoint, c: string): Conn {
    conn.(place := if Has(room.users, e) then conn.place else Left(c))
  }

  lemma HandleKeepsOwnership(r: Room, q: Room, c: string, conns: map<Endpoint, Conn>, e: Endpoint)
    requires OwnsMembers(r, c, conns) && Has(r.users, e) && EntryDone(r, q, e) && e in conns
    ensures OwnsMembers(q, c, conns[e := AfterEntry(conns[e], q, e, c)])
  {
    hide Has, NoDup, UntilPart, HasPart, QueueAt;
  }

  lemma HandleKeepsOrder(r: Room, q: Room, c: string, conns: map<Endpoint, Conn>, e: Endpoint)
    requires OwnsMembers(r, c, conns) && MembersInOrder(r, c, conns) && KeysMatch(r) && KeysMatch(q)
    requires Has(r.users, e) && EntryDone(r, q, e) && e in conns
    ensures MembersInOrder(q, c, conns[e := AfterEntry(conns[e], q, e, c)])
  {
    hide Has, NoDup, UntilPart, HasPart, InOrder;
    var queue := QueueAt(r.queues, e);
    HandledInOrder(conns[e], QueueAt(r.handled, e), queue);
    if !HasPart(queue) {
      NoPartAllHandled(queue);
    }
  }

  lemma HandleKeepsRoom(r: Room, q: Room, e: Endpoint)
    requires RoomSettled(r) && r.newusers == [] && Has(r.users, e) && NoDup(r.socks)
    requires HandleEntry(r, e) == Some(q)
    ensures RoomSettled(q) && q.newusers == [] && EntryDone(r, q, e) && KeysMatch(q)
  {
    hide MemberOk, EntryDone, HandleEntry, Has, NoDup, Distinct;
    EntryKeepsRoom(r, e);
    EntryEffect(r, e);
    assert q.newusers == r.newusers by {
      DoneKeepsNewusers(r, q, e);
    }
    assert q.users[|q.users|..] == [];
  }

  lemma DoneKeepsNewusers(r: Room, q: Room, e: Endpoint)
    requires EntryDone(r, q, e)
    ensures q.newusers == r.newusers && q.chan == r.chan
    ensures forall u | u in q.users :: u in r.users
    ensures forall x | x != e :: Has(q.users, x) <==> Has(r.users, x)
  {
  }

  lemma SettledKeys(r: Room)
    requires RoomSettled(r)
    ensures KeysMatch(r)
  {
  }

  lemma HandleKeepsThread(t: Thread, c: string, conns: map<Endpoint, Conn>, room: Room)
    requires ThreadOk(t, c, conns) && t.alive && t.phase.Handling? && t.phase.todo != []
    requires t.phase.todo[0] in conns && HandleEntry(t.room, t.phase.todo[0]) == Some(room)
    ensures var e := t.phase.todo[0];
            && conns[e].place == Member(c)
            && (forall u | u in room.users :: u in t.room.users)
            && ThreadOk(t.(phase := Handling(t.phase.todo[1..]), room := room), c, conns[e := AfterEntry(conns[e], room, e, c)])
  {
    var e := t.phase.todo[0];
    MembersPlace(t, c, conns);
    assert Has(t.room.users, e);
    hide RoomSettled, MembersInOrder, EntryDone, HandleEntry, Has, NoDup, AfterEntry;
    HandleKeepsRoom(t.room, room, e);
    SettledKeys(t.room);
    DoneKeepsNewusers(t.room, room, e);
    HandleKeepsOwnership(t.room, room, c, conns, e);
    HandleKeepsOrder(t.room, room, c, conns, e);
    HandlePhase(t, room, e);
    hide OwnsMembers, PhaseOk;
  }

  lemma HandlePhase(t: Thread, room: Room, e: Endpoint)
    requires PhaseOk(t) && t.alive && t.phase.Handling? && t.phase.todo != [] && e == t.phase.todo[0]
    requires room.newusers == t.room.newusers
    requires forall x | x != e :: Has(room.users, x) <==> Has(t.room.users, x)
    ensures PhaseOk(t.(phase := Handling(t.phase.todo[1..]), room := room))
  {
    hide Has;
    var todo := t.phase.todo;
    forall x | x in todo[1..]
      ensures Has(room.users, x)
    {
      var i :| 0 <= i < |todo[1..]| && todo[1..][i] == x;
      assert todo[i + 1] == x && todo[0] != todo[i + 1];
    }
  }

  lemma EmptiedSettled(r: Room)
    requires RoomSettled(r)
    ensures RoomSettled(Emptied(r))
  {
    hide MemberOk;
    var q := Emptied(r);
    assert q.users[..0] == [] && q.users[0..] == [];
  }

  lemma EmptiedOwns(t: Thread, c: string, conns: map<Endpoint, Conn>)
    requires OwnsMembers(t.room, c, conns) && MembersInOrder(t.room, c, conns)
    ensures OwnsMembers(Emptied(t.room), c, Drop(conns, t.room.users))
    ensures MembersInOrder(Emptied(t.room), c, Drop(conns, t.room.users))
  {
    hide InOrder;
    var after := Drop(conns, t.room.users);
    assert forall e | e in after :: after[e].place != Member(c);
    assert forall e | e in after && after[e].place == Left(c) :: conns[e] == after[e];
  }

  lemma EmptiedOk(t: Thread, c: string, conns: map<Endpoint, Conn>)
    requires ThreadOk(t, c, conns)
    ensures ThreadOk(t.(alive := false, phase := Checking, room := Emptied(t.room)), c, Drop(conns, t.room.users))
  {
    hide RoomSettled, OwnsMembers, MembersInOrder, Drop;
    EmptiedSettled(t.room);
    EmptiedOwns(t, c, conns);
  }

  lemma MembersPlace(t: Thread, c: string, conns: map<Endpoint, Conn>)
    requires ThreadOk(t, c, conns)
    ensures forall e | e in conns && Has(t.room.users, e) :: conns[e].place == Member(c)
  {
    hide RoomSettled, MembersInOrder, PhaseOk, Has;
  }

  lemma DeathKeepsThreads(s: System, c: string)
    requires ThreadsOk(s.threads, s.conns) && c in s.threads
    ensures var t := s.threads[c];
            ThreadsOk(s.threads[c := t.(alive := false, phase := Checking, room := Emptied(t.room))], Drop(s.conns, t.room.users))
  {
    hide ThreadOk, Has, Emptied;
    var t := s.threads[c];
    var after := Drop(s.conns, t.room.users);
    EmptiedOk(t, c, s.conns);
    MembersPlace(t, c, s.conns);
    forall d | d in s.threads && d != c
      ensures ThreadOk(s.threads[d], d, after)
    {
      ThreadSame(s.threads[d], d, s.conns, after);
    }
  }

  lemma DeathKeepsPending(s: System, us: seq<User>, c: string)
    requires PendingOk(s.pending, s.conns) && SocksOk(s.socks, s.conns)
    requires forall e | e in s.conns && Has(us, e) :: s.conns[e].place == Member(c)
    ensures PendingOk(s.pending, Drop(s.conns, us)) && SocksOk(s.socks, Drop(s.conns, us))
  {
    hide Has, InOrder, Newcomers, NewEnds, Distinct, PendingAt, NoDup;
    forall d
      ensures ListOk(PendingAt(s.pending, d), d, Drop(s.conns, us))
    {
      assert ListOk(PendingAt(s.pending, d), d, s.conns);
      forall p | p in PendingAt(s.pending, d)
        ensures EarlyOk(p, d, Drop(s.conns, us))
      {
        assert EarlyOk(p, d, s.conns);
      }
    }
  }

  lemma DeathKeepsShared(s: System, c: string, us: seq<User>, t: Thread)
    requires AcceptOk(s.accept, s.endMsgs, s.conns) && FlagsOk(s) && AuthOk(s)
    requires c in s.threads && t.flag == s.threads[c].flag && t.room.users == []
    requires forall e | e in s.conns && Has(us, e) :: s.conns[e].place == Member(c)
    ensures var q := s.(threads := s.threads[c := t], conns := Drop(s.conns, us));
            AcceptOk(q.accept, q.endMsgs, q.conns) && FlagsOk(q) && AuthOk(q)
  {
    hide Has, FlagMapOk, PendingLoggedIn, AcceptLoggedIn, LoggedIn, InOrder;
  }

  lemma DeathOk(s: System, c: string)
    requires SystemOk(s) && c in s.threads
    ensures var t := s.threads[c];
            SystemOk(s.(threads := s.threads[c := t.(alive := false, phase := Checking, room := Emptied(t.room))],
                        conns := Drop(s.conns, t.room.users)))
  {
    var t := s.threads[c];
    hide AcceptOk, PendingOk, SocksOk, ThreadOk, FlagsOk, AuthOk, Has;
    MembersPlace(t, c, s.conns);
    DeathKeepsThreads(s, c);
    DeathKeepsPending(s, t.room.users, c);
    DeathKeepsShared(s, c, t.room.users, t.(alive := false, phase := Checking, room := Emptied(t.room)));
  }

  lemma HandleOk(s: System, c: string)
    requires SystemOk(s) && DoHandle(s, c).Some?
    ensures SystemOk(DoHandle(s, c).value)
  {
    hide AcceptOk, PendingOk, SocksOk, FlagsOk, AuthOk, ThreadOk, HandleEntry, Has;
    var t := s.threads[c];
    var e := t.phase.todo[0];
    var q := DoHandle(s, c).value;
    assert ThreadOk(t, c, s.conns);
    match HandleEntry(t.room, e)
    case None =>
      DeathOk(s, c);
    case Some(room) =>
      HandleKeepsThread(t, c, s.conns, room);
      MemberStep(s, c, q.threads[c], e, q.conns[e]);
  }
}
