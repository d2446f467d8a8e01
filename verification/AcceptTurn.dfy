/** One call of Server.InnerScopeRun is one turn of the transition system's accept loop: the steps of a turn that seats a
    client do to the shared structures what the method promises. */
module AcceptTurn {
  import opened Strings
  import opened Sockio
  import opened Irc
  import opened Registration
  import opened Room
  import opened Chitter
  import opened Handoff
  import opened Iteration

  /** What reading from a connection will still give: what is queued, then what is unread. */
  function Incoming(s: System, e: Endpoint): seq<string>
    requires e in s.conns
  {
    QueueAt(s.endMsgs, e) + s.conns[e].unread
  }

  /** Everything but the accept loop's own state is as before. */
  predicate SharedSame(s: System, q: System) {
    && q.pending == s.pending && q.socks == s.socks && q.notifier == s.notifier && q.flags == s.flags
    && q.threads == s.threads && q.topics == s.topics
  }

  lemma TakenFirst(queue: seq<string>, unread: seq<string>, k: nat)
    requires Take(queue, unread, k).Some?
    ensures var t, all := Take(queue, unread, k).value, queue + unread;
            all != [] && t.msg == all[0] && t.queue + t.unread == all[1..]
  {
  }

  lemma ReadOnce(s: System, e: Endpoint, got: seq<string>, k: nat)
    requires s.accept == Reading(e, got) && e in s.conns && DoServerRead(s, k).Some?
    requires !DoServerRead(s, k).value.accept.Stopped?
    ensures var q, inc := DoServerRead(s, k).value, Incoming(s, e);
            && inc != [] && q.accept == Reading(e, got + [inc[0]])
            && e in q.conns && Incoming(q, e) == inc[1..]
            && SharedSame(s, q) && q.accounts == s.accounts
  {
    hide Take, HandshakeTaken, QueueAt, SharedSame;
    var queue := QueueAt(s.endMsgs, e);
    TakenFirst(queue, s.conns[e].unread, k);
    HandshakeTakes(s, e, got, Take(queue, s.conns[e].unread, k).value);
  }

  lemma HandshakeTakes(s: System, e: Endpoint, got: seq<string>, t: Taken)
    requires e in s.conns && !HandshakeTaken(s, e, got, t).accept.Stopped?
    ensures var q := HandshakeTaken(s, e, got, t);
            && q.accept == Reading(e, got + [t.msg]) && e in q.conns && Incoming(q, e) == t.queue + t.unread
            && SharedSame(s, q) && q.accounts == s.accounts
  {
    hide After5, SharedSame;
    var conn := AfterTake(s.conns[e], t);
    var q := s.(accept := Reading(e, got + [t.msg]), endMsgs := s.endMsgs[e := t.queue], conns := s.conns[e := conn]);
    assert HandshakeTaken(s, e, got, t) == q;
    QueueNow(s, q, e, t);
    assert SharedSame(s, q) by { SharedByDefinition(s, q); }
  }

  lemma QueueNow(s: System, q: System, e: Endpoint, t: Taken)
    requires e in q.conns && q.conns[e].unread == t.unread && q.endMsgs == s.endMsgs[e := t.queue]
    ensures Incoming(q, e) == t.queue + t.unread
  {
  }

  lemma SharedByDefinition(s: System, q: System)
    requires q == s.(accept := q.accept, endMsgs := q.endMsgs, conns := q.conns)
    ensures SharedSame(s, q)
  {
  }

  // ---- One step at a time ----

  lemma NextIs(cfg: Config, s: System)
    ensures Next(cfg, s, Publish) == DoPublish(s) && Next(cfg, s, Notify) == DoNotify(s) && Next(cfg, s, Spawn) == DoSpawn(cfg, s)
    ensures Next(cfg, s, Register) == DoRegister(cfg, s)
    ensures forall k :: Next(cfg, s, ServerRead(k)) == DoServerRead(s, k)
    ensures forall k :: Next(cfg, s, ReadJoin(k)) == DoReadJoin(s, k)
  {
    hide DoPublish, DoNotify, DoSpawn, DoRegister, DoServerRead, DoReadJoin;
  }

  /** What registering does when it succeeds. */
  lemma RegisterDoes(cfg: Config, s: System, e: Endpoint, got: seq<string>)
    requires s.accept == Reading(e, got) && DoRegister(cfg, s).Some? && DoRegister(cfg, s).value.accept.Joining?
    ensures |got| == 3 && e in s.conns && ParseHandshake(got[0], got[1], got[2]).Some?
    ensures var q, h := DoRegister(cfg, s).value, ParseHandshake(got[0], got[1], got[2]).value;
            && LoginResult(s.accounts, Login(h.nick, cfg.hash(h.password))).ok
            && q == s.(accept := Joining(User(h.nick, h.whoami, h.realName, cfg.hash(h.password), "", e)),
                       accounts := s.accounts[h.nick := cfg.hash(h.password)])
  {
    hide ParseHandshake;
  }

  lemma JoinNeedsJoining(s: System, k: nat)
    requires DoReadJoin(s, k).Some?
    ensures s.accept.Joining?
  {
    hide Take, QueueAt;
  }

  /** What reading JOIN does when it succeeds: the rest of the queue becomes the early messages. */
  lemma JoinDoes(s: System, user: User, k: nat)
    requires s.accept == Joining(user) && DoReadJoin(s, k).Some? && DoReadJoin(s, k).value.accept.Publishing?
    ensures user.endpt in s.conns && user.endpt in DoReadJoin(s, k).value.conns
    ensures var q, inc := DoReadJoin(s, k).value, Incoming(s, user.endpt);
            && inc != [] && After5(inc[0]).Some?
            && q.accept == Publishing(user.(chan := After5(inc[0]).value), q.accept.early)
            && q.accept.early + q.conns[user.endpt].unread == inc[1..]
            && SharedSame(s, q) && q.accounts == s.accounts && q.endMsgs == s.endMsgs - {user.endpt}
  {
    hide Take, QueueAt, After5;
    TakenFirst(QueueAt(s.endMsgs, user.endpt), s.conns[user.endpt].unread, k);
  }

  lemma PublishNeedsPublishing(s: System)
    requires DoPublish(s).Some?
    ensures s.accept.Publishing?
  {
  }

  ghost predicate Notified(s: System, q: System, c: string) {
    && q == s.(accept := Spawning(c), notifier := q.notifier, flags := q.flags)
    && c in q.notifier && q.notifier[c] in q.flags && q.flags[q.notifier[c]]
    && (forall d | d in s.notifier :: d in q.notifier && q.notifier[d] == s.notifier[d])
  }

  lemma NotifyDoes(s: System, c: string)
    requires s.accept == Notifying(c)
    ensures DoNotify(s).Some? && Notified(s, DoNotify(s).value, c)
  {
  }

  /** A new servlet holds its channel's flag and starts in an empty room, with the stored topic or else the default one,
      which is then stored; the same predicate says so of the server's own turn. */
  ghost predicate Started(cfg: Config, s: System, q: System, c: string)
    requires c in q.threads && c in q.notifier
  {
    var r := q.threads[c].room;
    && q.threads[c].alive && q.threads[c].phase.Checking? && q.threads[c].flag == q.notifier[c]
    && r == NewRoom(c, cfg.host, r.topic) && TopicGiven(s.topics, q.topics, c, cfg.defaultTopic, r.topic)
    && (c in s.topics ==> q.topics == s.topics && r.topic == r.stored == s.topics[c])
    && (c !in s.topics ==> q.topics == s.topics[c := cfg.defaultTopic] && r.topic == r.stored == cfg.defaultTopic)
  }

  ghost predicate Spawned(cfg: Config, s: System, q: System, c: string) {
    && q == s.(accept := Idle, topics := q.topics, threads := q.threads)
    && c in q.threads && (c !in s.threads ==> c in q.notifier && Started(cfg, s, q, c))
    && (c in s.threads ==> q.topics == s.topics)
    && (forall d | d in s.threads :: d in q.threads && q.threads[d] == s.threads[d])
  }

  lemma SpawnDoes(cfg: Config, s: System, c: string)
    requires s.accept == Spawning(c) && c in s.notifier
    ensures DoSpawn(cfg, s).Some? && Spawned(cfg, s, DoSpawn(cfg, s).value, c)
  {
  }

  function Published(s: System, user: User, early: seq<string>): System
    requires user.endpt in s.conns
  {
    var e, c := user.endpt, user.chan;
    s.(accept := Notifying(c),
       pending := s.pending[c := PendingAt(s.pending, c) + [Early(user, early)]],
       socks := s.socks + [e],
       conns := s.conns[e := s.conns[e].(place := Pending(c))])
  }

  /** The user is pending with its early messages, its socket is shared, its channel has a flag that is true and a servlet
      that holds this flag; nothing else that is shared changed. */
  ghost predicate HandedOver(cfg: Config, s: System, q: System, user: User, early: seq<string>)
    requires user.endpt in s.conns
  {
    exists m :: Notified(Published(s, user, early), m, user.chan) && Spawned(cfg, m, q, user.chan)
  }

  lemma HandOverSteps(cfg: Config, s: System, user: User, early: seq<string>)
    requires s.accept == Publishing(user, early) && user.endpt in s.conns
    ensures match Run(cfg, s, [Publish, Notify, Spawn])
            case None => false
            case Some(q) => HandedOver(cfg, s, q, user, early)
  {
    hide Next, Run, PendingAt, DoNotify, DoSpawn, Notified, Spawned;
    var c := user.chan;
    NextIs(cfg, s);
    var s1 := Published(s, user, early);
    RunOne(cfg, s, Publish);
    NextIs(cfg, s1);
    NotifyDoes(s1, c);
    var s2 := DoNotify(s1).value;
    RunThen(cfg, s, [Publish], s1, Notify);
    NextIs(cfg, s2);
    NotifiedEntry(s1, s2, c);
    SpawnDoes(cfg, s2, c);
    RunThen(cfg, s, [Publish] + [Notify], s2, Spawn);
    assert [Publish] + [Notify] + [Spawn] == [Publish, Notify, Spawn];
  }

  lemma NotifiedEntry(s: System, q: System, c: string)
    requires Notified(s, q, c)
    ensures q.accept == Spawning(c) && c in q.notifier
  {
  }

  // ---- The whole turn ----

  lemma {:induction false} RunPrefix(cfg: Config, s: System, a: seq<Step>, b: seq<Step>)
    requires Run(cfg, s, a + b).Some?
    ensures Run(cfg, s, a).Some?
    decreases |b|
  {
    hide Next;
    if b == [] {
      assert a + b == a;
    } else {
      var n := |b| - 1;
      assert (a + b)[..|a + b| - 1] == a + b[..n];
      RunPrefix(cfg, s, a, b[..n]);
    }
  }

  /** One more step of a run that goes on. */
  lemma StepOf(cfg: Config, s: System, step: Step, rest: seq<Step>)
    requires Run(cfg, s, [step] + rest).Some?
    ensures Next(cfg, s, step).Some? && Run(cfg, s, [step] + rest) == Run(cfg, Next(cfg, s, step).value, rest)
  {
    hide Next, Run;
    RunPrefix(cfg, s, [step], rest);
    RunOne(cfg, s, step);
    RunConcat(cfg, s, [step], rest);
  }

  /** A read that is followed by another step of the turn. */
  lemma ReadGoesOn(cfg: Config, s: System, e: Endpoint, got: seq<string>, k: nat, rest: seq<Step>)
    requires s.accept == Reading(e, got) && e in s.conns && Run(cfg, s, [ServerRead(k)] + rest).Some?
    requires rest != [] && (rest[0].ServerRead? || rest[0].Register?)
    ensures DoServerRead(s, k).Some? && Incoming(s, e) != []
    ensures var q, inc := DoServerRead(s, k).value, Incoming(s, e);
            && Run(cfg, s, [ServerRead(k)] + rest) == Run(cfg, q, rest)
            && q.accept == Reading(e, got + [inc[0]]) && e in q.conns && Incoming(q, e) == inc[1..]
            && SharedSame(s, q) && q.accounts == s.accounts
  {
    hide Next, Run, DoServerRead, DoRegister, Incoming, SharedSame;
    StepOf(cfg, s, ServerRead(k), rest);
    NextIs(cfg, s);
    var q := DoServerRead(s, k).value;
    assert rest == [rest[0]] + rest[1..];
    StepOf(cfg, q, rest[0], rest[1..]);
    NextIs(cfg, q);
    NotStopped(cfg, q, rest[0]);
    ReadOnce(s, e, got, k);
  }

  lemma NotStopped(cfg: Config, s: System, step: Step)
    requires step.ServerRead? || step.Register?
    requires Next(cfg, s, step).Some?
    ensures s.accept.Reading?
  {
    hide Take, QueueAt, ParseHandshake, Registered;
  }

  function TurnSteps(k0: nat, k1: nat, k2: nat, k3: nat): seq<Step> {
    ReadSteps(k0, k1, k2, [Register] + ([ReadJoin(k3)] + [Publish, Notify, Spawn]))
  }

  /** What a turn that seats its client has done, in terms of what the client sent. */
  ghost predicate TurnDone(cfg: Config, s: System, q: System, e: Endpoint, inc: seq<string>) {
    && |inc| >= 4 && ParseHandshake(inc[0], inc[1], inc[2]).Some? && After5(inc[3]).Some?
    && var h, c := ParseHandshake(inc[0], inc[1], inc[2]).value, After5(inc[3]).value;
    && var user := User(h.nick, h.whoami, h.realName, cfg.hash(h.password), c, e);
    && LoginResult(s.accounts, Login(user.nick, user.pass)).ok && q.accounts == s.accounts[user.nick := user.pass]
    && q.accept.Idle? && e in q.conns && q.conns[e].place == Pending(c) && e !in q.endMsgs
    && (exists early :: q.pending == s.pending[c := PendingAt(s.pending, c) + [Early(user, early)]]
                        && early + q.conns[e].unread == inc[4..])
    && q.socks == s.socks + [e]
    && c in q.notifier && q.notifier[c] in q.flags && q.flags[q.notifier[c]]
    && (forall d | d in s.notifier :: d in q.notifier && q.notifier[d] == s.notifier[d])
    && c in q.threads && (c !in s.threads ==> Started(cfg, s, q, c)) && (c in s.threads ==> q.topics == s.topics)
    && (forall d | d in s.threads :: d in q.threads && q.threads[d] == s.threads[d])
  }

  lemma HandedOverMeans(cfg: Config, s: System, q: System, user: User, early: seq<string>)
    requires user.endpt in s.conns && HandedOver(cfg, s, q, user, early)
    ensures var e, c := user.endpt, user.chan;
            && q.accounts == s.accounts && q.endMsgs == s.endMsgs && q.accept.Idle?
            && q.pending == s.pending[c := PendingAt(s.pending, c) + [Early(user, early)]] && q.socks == s.socks + [e]
            && e in q.conns && q.conns[e] == s.conns[e].(place := Pending(c))
            && c in q.notifier && q.notifier[c] in q.flags && q.flags[q.notifier[c]]
            && (forall d | d in s.notifier :: d in q.notifier && q.notifier[d] == s.notifier[d])
            && c in q.threads && (c !in s.threads ==> Started(cfg, s, q, c)) && (c in s.threads ==> q.topics == s.topics)
            && (forall d | d in s.threads :: d in q.threads && q.threads[d] == s.threads[d])
  {
    hide PendingAt;
    var m :| Notified(Published(s, user, early), m, user.chan) && Spawned(cfg, m, q, user.chan);
  }

  /** The tail of a turn, from registration on. */
  lemma TurnAfterReads(cfg: Config, s: System, e: Endpoint, got: seq<string>, k: nat, q: System)
    requires s.accept == Reading(e, got) && e in s.conns
    requires Run(cfg, s, [Register] + ([ReadJoin(k)] + [Publish, Notify, Spawn])) == Some(q)
    ensures |got| == 3 && TurnDone(cfg, s, q, e, got + Incoming(s, e))
  {
    hide Next, Run, DoRegister, DoReadJoin, DoPublish, ParseHandshake, After5, LoginResult, HandedOver, PendingAt;
    var last := [Publish, Notify, Spawn];
    StepOf(cfg, s, Register, [ReadJoin(k)] + last);
    NextIs(cfg, s);
    var s1 := DoRegister(cfg, s).value;
    StepOf(cfg, s1, ReadJoin(k), last);
    NextIs(cfg, s1);
    JoinNeedsJoining(s1, k);
    RegisterDoes(cfg, s, e, got);
    var s2 := DoReadJoin(s1, k).value;
    assert last == [Publish] + [Notify, Spawn];
    StepOf(cfg, s2, Publish, [Notify, Spawn]);
    NextIs(cfg, s2);
    PublishNeedsPublishing(s2);
    JoinDoes(s1, s1.accept.user, k);
    HandOverSteps(cfg, s2, s2.accept.user, s2.accept.early);
    HandedOverMeans(cfg, s2, q, s2.accept.user, s2.accept.early);
    SplitIncoming(got, Incoming(s, e));
  }

  lemma SplitIncoming(got: seq<string>, inc: seq<string>)
    requires |got| == 3 && inc != []
    ensures var all := got + inc;
            all[0] == got[0] && all[1] == got[1] && all[2] == got[2] && all[3] == inc[0] && all[4..] == inc[1..]
  {
  }

  lemma ThreeOf(inc: seq<string>)
    requires |inc| >= 3
    ensures [] + [inc[0]] + [inc[1..][0]] + [inc[1..][1..][0]] + inc[1..][1..][1..] == inc
  {
  }

  /** The three reads of a turn that goes on to register. */
  lemma ReadsGoOn(cfg: Config, s: System, e: Endpoint, k0: nat, k1: nat, k2: nat, rest: seq<Step>) returns (m: System)
    requires s.accept == Reading(e, []) && e in s.conns && rest != [] && rest[0].Register?
    requires Run(cfg, s, [ServerRead(k0)] + ([ServerRead(k1)] + ([ServerRead(k2)] + rest))).Some?
    ensures var inc := Incoming(s, e);
            && |inc| >= 3 && After5(inc[0]).Some? && After5(inc[2]).Some?
            && m.accept == Reading(e, inc[..3]) && e in m.conns && Incoming(m, e) == inc[3..]
            && SharedSame(s, m) && m.accounts == s.accounts
            && Run(cfg, s, [ServerRead(k0)] + ([ServerRead(k1)] + ([ServerRead(k2)] + rest))) == Run(cfg, m, rest)
  {
    hide Next, Run, DoServerRead, Incoming;
    ReadGoesOn(cfg, s, e, [], k0, [ServerRead(k1)] + ([ServerRead(k2)] + rest));
    var s1 := DoServerRead(s, k0).value;
    ReadGoesOn(cfg, s1, e, s1.accept.got, k1, [ServerRead(k2)] + rest);
    var s2 := DoServerRead(s1, k1).value;
    ReadGoesOn(cfg, s2, e, s2.accept.got, k2, rest);
    m := DoServerRead(s2, k2).value;
    ReadChecked(s, e, [], k0);
    ReadChecked(s2, e, s2.accept.got, k2);
    ThreeOf(Incoming(s, e));
  }

  /** A read stops the accept loop exactly when it takes a NICK or PASS that is too short. */
  lemma ReadChecked(s: System, e: Endpoint, got: seq<string>, k: nat)
    requires s.accept == Reading(e, got) && e in s.conns && DoServerRead(s, k).Some?
    ensures var q, inc := DoServerRead(s, k).value, Incoming(s, e);
            && inc != [] && (q.accept.Stopped? <==> |got| != 1 && After5(inc[0]).None?)
            && SharedSame(s, q) && q.accounts == s.accounts
  {
    hide Take, After5, QueueAt;
    TakenFirst(QueueAt(s.endMsgs, e), s.conns[e].unread, k);
  }

  /** Registering stops the accept loop on a USER or PASS that is too short, refuses the client, or lets it on to JOIN. */
  lemma RegisterEnds(cfg: Config, s: System, e: Endpoint, got: seq<string>)
    requires s.accept == Reading(e, got) && e in s.conns && DoRegister(cfg, s).Some?
    ensures |got| == 3
    ensures var q := DoRegister(cfg, s).value;
            && SharedSame(s, q) && e in q.conns && Incoming(q, e) == Incoming(s, e)
            && match ParseHandshake(got[0], got[1], got[2])
               case None => q.accept.Stopped? && q.accounts == s.accounts
               case Some(h) =>
                 var login := Login(h.nick, cfg.hash(h.password));
                 && (q.accept.Joining? <==> LoginResult(s.accounts, login).ok)
                 && (!q.accept.Joining? ==> q.accept.Idle? && q.conns[e].place.Closed? && q.accounts == s.accounts)
  {
    hide ParseHandshake, Registered, SharedSame, Incoming;
    match ParseHandshake(got[0], got[1], got[2])
    case None => ClosedOnly(s, s.(accept := Stopped, conns := s.conns[e := Dropped(s.conns[e])]), e);
    case Some(h) => RegisteredEnds(cfg, s, e, h);
  }

  lemma RegisteredEnds(cfg: Config, s: System, e: Endpoint, h: Handshake)
    requires e in s.conns
    ensures var q, login := Registered(cfg, s, e, h), Login(h.nick, cfg.hash(h.password));
            && SharedSame(s, q) && e in q.conns && Incoming(q, e) == Incoming(s, e)
            && (q.accept.Joining? <==> LoginResult(s.accounts, login).ok)
            && (!q.accept.Joining? ==> q.accept.Idle? && q.conns[e].place.Closed? && q.accounts == s.accounts)
  {
    hide SharedSame, Incoming;
    var q := Registered(cfg, s, e, h);
    if q.accept.Joining? {
      JoiningOnly(s, q, e);
    } else {
      ClosedOnly(s, q, e);
    }
  }

  lemma JoiningOnly(s: System, q: System, e: Endpoint)
    requires e in s.conns && q == s.(accept := q.accept, accounts := q.accounts)
    ensures SharedSame(s, q) && Incoming(q, e) == Incoming(s, e)
  {
  }

  lemma ClosedOnly(s: System, q: System, e: Endpoint)
    requires e in s.conns && q == s.(accept := q.accept, accounts := q.accounts, conns := s.conns[e := Dropped(s.conns[e])])
    ensures SharedSame(s, q) && e in q.conns && Incoming(q, e) == Incoming(s, e)
  {
  }

  /** The messages make the turn throw: as a handshake, or as a handshake that is accepted and a JOIN that is too short. */
  ghost predicate Throws(cfg: Config, s: System, inc: seq<string>) {
    && Readable(inc)
    && match FirstHandshake(inc)
       case None => true
       case Some(h) => LoginResult(s.accounts, Login(h.nick, cfg.hash(h.password))).ok && |inc| >= 4 && After5(inc[3]).None?
  }

  /** The messages make the turn refuse the client. */
  ghost predicate Refuses(cfg: Config, s: System, inc: seq<string>) {
    && Readable(inc)
    && match FirstHandshake(inc)
       case None => false
       case Some(h) => !LoginResult(s.accounts, Login(h.nick, cfg.hash(h.password))).ok
  }

  function ReadSteps(k0: nat, k1: nat, k2: nat, rest: seq<Step>): seq<Step> {
    [ServerRead(k0)] + ([ServerRead(k1)] + ([ServerRead(k2)] + rest))
  }

  /** A turn after which the accept loop is idle again without having read JOIN has refused its client, as
      Server.InnerScopeRun says, and a turn that stops there has met a handshake on which it throws. */
  lemma RefusalIsSteps(cfg: Config, s: System, e: Endpoint, k0: nat, k1: nat, k2: nat, q: System)
    requires s.accept == Reading(e, []) && e in s.conns && Run(cfg, s, ReadSteps(k0, k1, k2, [Register])) == Some(q)
    ensures var inc := Incoming(s, e);
            && Readable(inc) && SharedSame(s, q)
            && (q.accept.Idle? <==> Refuses(cfg, s, inc))
            && (q.accept.Idle? ==> q.accounts == s.accounts && e in q.conns && q.conns[e].place.Closed?
                                   && Incoming(q, e) == inc[3..])
            && (q.accept.Stopped? <==> FirstHandshake(inc).None?)
  {
    hide Next, Run, DoRegister, ParseHandshake, LoginResult, Incoming, After5;
    var m := ReadsGoOn(cfg, s, e, k0, k1, k2, [Register]);
    RunOne(cfg, m, Register);
    NextIs(cfg, m);
    RegisterEnds(cfg, m, e, m.accept.got);
  }

  /** A turn that stops at its first or third read, at registering, or at JOIN has met messages on which
      Server.InnerScopeRun throws; nothing that is shared has changed. */
  lemma StopAtFirstRead(cfg: Config, s: System, e: Endpoint, k0: nat, q: System)
    requires s.accept == Reading(e, []) && e in s.conns && Run(cfg, s, [ServerRead(k0)]) == Some(q) && q.accept.Stopped?
    ensures Throws(cfg, s, Incoming(s, e)) && SharedSame(s, q) && q.accounts == s.accounts
  {
    hide Next, Run, DoServerRead, Incoming, After5;
    RunOne(cfg, s, ServerRead(k0));
    NextIs(cfg, s);
    ReadChecked(s, e, [], k0);
  }

  lemma StopAtThirdRead(cfg: Config, s: System, e: Endpoint, k0: nat, k1: nat, k2: nat, q: System)
    requires s.accept == Reading(e, []) && e in s.conns
    requires Run(cfg, s, ReadSteps(k0, k1, k2, [])) == Some(q) && q.accept.Stopped?
    ensures Throws(cfg, s, Incoming(s, e)) && SharedSame(s, q) && q.accounts == s.accounts
  {
    hide Next, Run, DoServerRead, Incoming;
    assert ReadSteps(k0, k1, k2, []) == [ServerRead(k0)] + ([ServerRead(k1)] + [ServerRead(k2)]);
    ReadGoesOn(cfg, s, e, [], k0, [ServerRead(k1)] + [ServerRead(k2)]);
    var s1 := DoServerRead(s, k0).value;
    ReadGoesOn(cfg, s1, e, s1.accept.got, k1, [ServerRead(k2)]);
    var s2 := DoServerRead(s1, k1).value;
    RunOne(cfg, s2, ServerRead(k2));
    NextIs(cfg, s2);
    ReadChecked(s, e, [], k0);
    ReadChecked(s2, e, s2.accept.got, k2);
    ShortPass(Incoming(s, e));
  }

  lemma ShortPass(inc: seq<string>)
    requires |inc| >= 3 && After5(inc[1..][1..][0]).None?
    ensures Readable(inc) && FirstHandshake(inc).None?
  {
    hide Split;
  }

  lemma JoinChecked(s: System, user: User, k: nat)
    requires s.accept == Joining(user) && user.endpt in s.conns && DoReadJoin(s, k).Some?
    ensures var q, inc := DoReadJoin(s, k).value, Incoming(s, user.endpt);
            && inc != [] && (q.accept.Stopped? <==> After5(inc[0]).None?) && SharedSame(s, q) && q.accounts == s.accounts
  {
    hide Take, After5, QueueAt;
    TakenFirst(QueueAt(s.endMsgs, user.endpt), s.conns[user.endpt].unread, k);
  }

  lemma StopAtJoin(cfg: Config, s: System, e: Endpoint, k0: nat, k1: nat, k2: nat, k3: nat, q: System)
    requires s.accept == Reading(e, []) && e in s.conns
    requires Run(cfg, s, ReadSteps(k0, k1, k2, [Register] + [ReadJoin(k3)])) == Some(q) && q.accept.Stopped?
    ensures Throws(cfg, s, Incoming(s, e)) && SharedSame(s, q)
  {
    hide Next, Run, DoRegister, DoReadJoin, ParseHandshake, LoginResult, Incoming, After5;
    var m := ReadsGoOn(cfg, s, e, k0, k1, k2, [Register] + [ReadJoin(k3)]);
    StepOf(cfg, m, Register, [ReadJoin(k3)]);
    NextIs(cfg, m);
    RegisterEnds(cfg, m, e, m.accept.got);
    var r := DoRegister(cfg, m).value;
    RunOne(cfg, r, ReadJoin(k3));
    NextIs(cfg, r);
    JoinNeedsJoining(r, k3);
    RegisterDoes(cfg, m, e, m.accept.got);
    JoinChecked(r, r.accept.user, k3);
    var inc := Incoming(s, e);
    assert inc[3..][0] == inc[3];
  }

  /** A turn that runs to its end has seated a client, exactly as Server.InnerScopeRun promises for the messages it reads. */
  lemma TurnIsSteps(cfg: Config, s: System, e: Endpoint, k0: nat, k1: nat, k2: nat, k3: nat, q: System)
    requires s.accept == Reading(e, []) && e in s.conns && Run(cfg, s, TurnSteps(k0, k1, k2, k3)) == Some(q)
    ensures TurnDone(cfg, s, q, e, Incoming(s, e))
  {
    hide Next, Run, TurnDone, Incoming;
    var m := ReadsGoOn(cfg, s, e, k0, k1, k2, [Register] + ([ReadJoin(k3)] + [Publish, Notify, Spawn]));
    TurnAfterReads(cfg, m, e, m.accept.got, k3, q);
    var inc := Incoming(s, e);
    assert inc[..3] + inc[3..] == inc;
    SharedTurn(cfg, s, m, q, e, inc);
  }

  lemma SharedTurn(cfg: Config, s: System, m: System, q: System, e: Endpoint, inc: seq<string>)
    requires SharedSame(s, m) && m.accounts == s.accounts && TurnDone(cfg, m, q, e, inc)
    ensures TurnDone(cfg, s, q, e, inc)
  {
    hide ParseHandshake, After5, LoginResult;
  }
}
