/** From what a client sent to what the others heard: a handled message is carried out, not just ticked off
    (src/server/Servlet.cpp:179-275). */
module Delivery {
  import opened Sockio
  import opened Irc
  import opened Room
  import opened RoomInvariant
  import opened Chitter
  import opened Handoff
  import opened HandoffInvariant
  import opened HandoffTheorems
  import HandoffGrab
  import Registration
  import opened Conformance

  // ---- What handled messages ask for, and what became of them ----

  function Privs(msgs: seq<string>): seq<string> {
    if msgs == [] then []
    else
      var m := msgs[|msgs| - 1];
      Privs(msgs[..|msgs| - 1]) + if IsPriv(m) then [m] else []
  }

  /** The topics that the TOPIC messages set. */
  function TopicsSet(chan: string, msgs: seq<string>): seq<string> {
    if msgs == [] then []
    else
      var m := msgs[|msgs| - 1];
      TopicsSet(chan, msgs[..|msgs| - 1]) + if !IsPriv(m) && !IsPart(m) && IsTopic(m) then [NewTopic(chan, m)] else []
  }

  function EntriesOf(u: User, lines: seq<string>): seq<Entry> {
    if lines == [] then [] else EntriesOf(u, lines[..|lines| - 1]) + [Entry(u, lines[|lines| - 1])]
  }

  /** The log's messages of one endpoint. */
  function SaidBy(log: seq<Entry>, e: Endpoint): seq<Entry> {
    if log == [] then []
    else
      var last := log[|log| - 1];
      SaidBy(log[..|log| - 1], e) + if last.from.endpt == e then [last] else []
  }

  function TitleIn(p: Reply, e: Endpoint): seq<string> {
    match p
    case Retitled(u, _, topic) => if u.endpt == e then [topic] else []
    case _ => []
  }

  /** The topics of one endpoint's broadcasts. */
  function TitlesBy(rs: seq<Reply>, e: Endpoint): seq<string> {
    if rs == [] then [] else TitlesBy(rs[..|rs| - 1], e) + TitleIn(rs[|rs| - 1], e)
  }

  /** Since it was admitted, exactly the PRIVMSGs handled for `u` were logged as `u`'s, and exactly the TOPICs handled for it
      were broadcast as `u`'s, both in order. */
  ghost predicate CarriedFor(r: Room, u: User) {
    && u.endpt in r.streams
    && var st, done := r.streams[u.endpt], QueueAt(r.handled, u.endpt);
       && st.mark <= |r.log|
       && SaidBy(r.log[st.mark..], u.endpt) == EntriesOf(u, Privs(done))
       && TitlesBy(st.replies, u.endpt) == TopicsSet(r.chan, done)
  }

  ghost predicate CarriedOut(r: Room) {
    forall u | u in r.users :: CarriedFor(r, u)
  }

  // ---- One more message ----

  lemma HandledMore(chan: string, msgs: seq<string>, m: string)
    ensures Privs(msgs + [m]) == Privs(msgs) + if IsPriv(m) then [m] else []
    ensures TopicsSet(chan, msgs + [m])
         == TopicsSet(chan, msgs) + if !IsPriv(m) && !IsPart(m) && IsTopic(m) then [NewTopic(chan, m)] else []
  {
    hide NewTopic, IsPriv, IsPart, IsTopic;
    assert (msgs + [m])[..|msgs|] == msgs;
  }

  lemma EntriesMore(u: User, lines: seq<string>, line: string)
    ensures EntriesOf(u, lines + [line]) == EntriesOf(u, lines) + [Entry(u, line)]
  {
    assert (lines + [line])[..|lines|] == lines;
  }

  lemma SaidMore(log: seq<Entry>, k: nat, x: Entry, e: Endpoint)
    requires k <= |log|
    ensures SaidBy((log + [x])[k..], e) == SaidBy(log[k..], e) + if x.from.endpt == e then [x] else []
  {
    assert (log + [x])[k..] == log[k..] + [x];
    assert (log[k..] + [x])[..|log| - k] == log[k..];
  }

  lemma TitlesMore(rs: seq<Reply>, p: Reply, e: Endpoint)
    ensures TitlesBy(rs + [p], e) == TitlesBy(rs, e) + TitleIn(p, e)
  {
    assert (rs + [p])[..|rs|] == rs;
  }

  lemma PrivCarried(r: Room, client: User, msg: string, u: User)
    requires CarriedFor(r, u) && IsPriv(msg) && (u.endpt == client.endpt ==> u == client)
    ensures CarriedFor(HandlePriv(Record(r, client.endpt, msg), client, msg), u)
  {
    hide Privs, TopicsSet, EntriesOf, SaidBy, TitlesBy, Has, Others, IsPriv;
    var e := u.endpt;
    var st, done := r.streams[e], QueueAt(r.handled, e);
    SaidMore(r.log, st.mark, Entry(client, msg), e);
    HandledMore(r.chan, done, msg);
    EntriesMore(u, Privs(done), msg);
    TitlesMore(st.replies, Said(client, msg), e);
    assert TitlesBy(st.replies, e) + [] == TitlesBy(st.replies, e);
    assert TopicsSet(r.chan, done) + [] == TopicsSet(r.chan, done);
    assert SaidBy(r.log[st.mark..], e) + [] == SaidBy(r.log[st.mark..], e);
  }

  lemma PartCarried(r: Room, client: User, msg: string, u: User)
    requires CarriedFor(r, u) && Has(r.users, client.endpt) && u.endpt != client.endpt
    ensures CarriedFor(HandlePart(Record(r, client.endpt, msg), client, msg), u)
  {
    hide Privs, TopicsSet, EntriesOf, SaidBy, TitlesBy, Has, Others, RemoveAt;
    var st := r.streams[u.endpt];
    TitlesMore(st.replies, Parted(client, msg), u.endpt);
    assert TitlesBy(st.replies, u.endpt) + [] == TitlesBy(st.replies, u.endpt);
  }

  lemma TopicCarried(r: Room, client: User, msg: string, u: User)
    requires CarriedFor(r, u) && Has(r.users, client.endpt) && Has(r.users, u.endpt)
    requires !IsPriv(msg) && !IsPart(msg) && IsTopic(msg)
    ensures CarriedFor(HandleTopic(Record(r, client.endpt, msg), client, msg), u)
  {
    hide Privs, TopicsSet, EntriesOf, SaidBy, TitlesBy, Has, NewTopic, IsPriv, IsPart, IsTopic;
    var e := u.endpt;
    var st, done := r.streams[e], QueueAt(r.handled, e);
    HandledMore(r.chan, done, msg);
    TitlesMore(st.replies, Retitled(client, r.chan, NewTopic(r.chan, msg)), e);
    assert Privs(done) + [] == Privs(done);
    assert TitlesBy(st.replies, e) + [] == TitlesBy(st.replies, e);
  }

  /** handle_msg carries out what it handles. */
  lemma MsgCarried(r: Room, e: Endpoint, msg: string)
    requires RoomOk(r, |r.users|) && CarriedOut(r) && Has(r.users, e)
    ensures match HandleMsg(r, e, msg)
            case None => true
            case Some(q) => CarriedOut(q)
  {
    hide RoomOk, CarriedFor, HandlePriv, HandlePart, HandleTopic, IsPriv, IsPart, IsTopic, Distinct;
    assert Distinct(r.users) by { RoomDistinct(r); }
    var client := r.users[IndexOf(r.users, e)];
    match HandleMsg(r, e, msg)
    case None =>
    case Some(q) =>
      UsersLeft(r, e, msg);
      forall u | u in q.users
        ensures CarriedFor(q, u)
      {
        InHas(r.users, u);
        if u.endpt == client.endpt {
          DistinctMembers(r.users, u, client);
        }
        if IsPriv(msg) {
          PrivCarried(r, client, msg, u);
        } else if IsPart(msg) {
          PartCarried(r, client, msg, u);
        } else if IsTopic(msg) {
          TopicCarried(r, client, msg, u);
        }
      }
  }

  lemma RoomDistinct(r: Room)
    requires RoomOk(r, |r.users|)
    ensures Distinct(r.users)
  {
  }

  lemma UsersLeft(r: Room, e: Endpoint, msg: string)
    requires Distinct(r.users) && Has(r.users, e) && HandleMsg(r, e, msg).Some?
    ensures var q := HandleMsg(r, e, msg).value;
            && (forall u | u in q.users :: u in r.users)
            && (!IsPriv(msg) && IsPart(msg) ==> forall u | u in q.users :: u.endpt != e)
  {
    hide IsPriv, IsPart, IsTopic, Deliver, Others, NewTopic, Distinct, RemoveAt, Has;
    var k := IndexOf(r.users, e);
    forall u | u in RemoveAt(r.users, k)
      ensures u in r.users && u.endpt != e
    {
      InRemainder(r.users, k, u);
      InHas(RemoveAt(r.users, k), u);
      RemovedHas(r.users, k, u.endpt);
    }
  }

  lemma {:induction false} QueueCarried(r: Room, e: Endpoint, msgs: seq<string>)
    requires RoomOk(r, |r.users|) && CarriedOut(r)
    ensures match HandleQueue(r, e, msgs)
            case None => true
            case Some(q) => CarriedOut(q)
    decreases |msgs|
  {
    hide RoomOk, CarriedOut, HandleMsg, Has;
    if msgs != [] && Has(r.users, e) {
      MsgCarried(r, e, msgs[0]);
      MsgKeepsRoom(r, e, msgs[0]);
      match HandleMsg(r, e, msgs[0])
      case None =>
      case Some(q) => QueueCarried(q, e, msgs[1..]);
    }
  }

  /** What members were told and what was handled do not depend on queues, sockets or the servlet's local variables. */
  lemma SameCarried(r: Room, q: Room)
    requires CarriedOut(r) && q == r.(queues := q.queues, socks := q.socks, newusers := q.newusers)
    ensures CarriedOut(q)
  {
    hide SaidBy, EntriesOf, Privs, TitlesBy, TopicsSet;
    forall u | u in q.users
      ensures CarriedFor(q, u)
    {
      assert CarriedFor(r, u);
    }
  }

  lemma EntryCarried(r: Room, e: Endpoint)
    requires RoomOk(r, |r.users|) && CarriedOut(r)
    ensures match HandleEntry(r, e)
            case None => true
            case Some(q) => CarriedOut(q)
  {
    hide RoomOk, CarriedOut, HandleQueue;
    QueueCarried(r, e, QueueAt(r.queues, e));
    match HandleQueue(r, e, QueueAt(r.queues, e))
    case None =>
    case Some(d) => SameCarried(d, d.(queues := d.queues[e := []]));
  }

  // ---- Joining ----

  /** Greeting replies are nobody's topics. */
  lemma DeliverCarried(r: Room, us: seq<User>, p: Reply)
    requires CarriedOut(r) && !p.Retitled?
    ensures CarriedOut(r.(streams := Deliver(r.streams, us, p)))
  {
    hide SaidBy, EntriesOf, Privs, TitlesBy, TopicsSet, Has;
    forall u | u in r.users
      ensures CarriedFor(r.(streams := Deliver(r.streams, us, p)), u)
    {
      assert CarriedFor(r, u);
      var rs := r.streams[u.endpt].replies;
      TitlesMore(rs, p, u.endpt);
      assert TitlesBy(rs, u.endpt) + [] == TitlesBy(rs, u.endpt);
    }
  }

  lemma GreetOneCarried(r: Room, i: nat)
    requires CarriedOut(r) && i < |r.newusers|
    ensures CarriedOut(GreetOne(r, i))
  {
    hide CarriedOut, Deliver, Audience, Nicks;
    var u, audience := r.newusers[i], Audience(r.users, r.newusers, r.newusers[..i + 1]);
    var r1 := r.(streams := Deliver(r.streams, audience, Joined(u)));
    DeliverCarried(r, audience, Joined(u));
    var r2 := r1.(streams := Deliver(r1.streams, [u], TopicIs(r.host, u, r.topic)));
    DeliverCarried(r1, [u], TopicIs(r.host, u, r.topic));
    var r3 := r2.(streams := Deliver(r2.streams, [u], Names(r.host, u, Nicks(audience))));
    DeliverCarried(r2, [u], Names(r.host, u, Nicks(audience)));
    DeliverCarried(r3, [u], EndOfNames(r.host, u));
  }

  lemma {:induction false} GreetUptoCarried(r: Room, n: nat)
    requires CarriedOut(r) && n <= |r.newusers|
    ensures CarriedOut(GreetUpto(r, n))
  {
    hide CarriedOut, GreetOne;
    if n > 0 {
      GreetUptoCarried(r, n - 1);
      GreetOneCarried(GreetUpto(r, n - 1), n - 1);
    }
  }

  lemma HandleNewUsersCarried(r: Room)
    requires CarriedOut(r)
    ensures CarriedOut(HandleNewUsers(r))
  {
    hide CarriedOut, GreetUpto;
    GreetUptoCarried(r, |r.newusers|);
    SameCarried(GreetUpto(r, |r.newusers|), HandleNewUsers(r));
  }

  lemma AdmitCarried(r: Room, list: seq<Early>)
    requires CarriedOut(r) && Admissible(r, list)
    ensures CarriedOut(Admit(r, list))
  {
    hide SaidBy, EntriesOf, Privs, TitlesBy, TopicsSet, QueueOf, Newcomers, Distinct;
    var q := Admit(r, list);
    forall u | u in q.users
      ensures CarriedFor(q, u)
    {
      if u in r.users {
        assert CarriedFor(r, u);
        InHas(r.users, u);
        assert u.endpt !in NewEnds(list);
      } else {
        InHas(Newcomers(list), u);
        NewcomersAre(list, u.endpt);
        NothingYet(r.log, r.chan, u);
      }
    }
  }

  lemma NothingYet(log: seq<Entry>, chan: string, u: User)
    ensures SaidBy(log[|log|..], u.endpt) == [] == EntriesOf(u, Privs([]))
    ensures TitlesBy([], u.endpt) == [] == TopicsSet(chan, [])
  {
  }

  lemma GrabCarried(r: Room, list: seq<Early>, socks: seq<Endpoint>)
    requires CarriedOut(r) && Admissible(r, list)
    ensures CarriedOut(Grab(r, list, socks))
  {
    hide CarriedOut, Admissible, Admit, Claimed;
    AdmitCarried(r, list);
    SameCarried(Admit(r, list), Grab(r, list, socks));
  }

  // ---- Runs ----

  ghost predicate AllCarried(threads: map<string, Thread>) {
    forall c | c in threads :: CarriedOut(threads[c].room)
  }

  lemma AcceptCarried(cfg: Config, s: System, step: Step)
    requires AllCarried(s.threads) && !OfSomeServlet(step) && Next(cfg, s, step).Some?
    ensures AllCarried(Next(cfg, s, step).value.threads)
  {
    hide CarriedOut;
    match step
    case Register => ThreadsAfterRegister(cfg, s);
    case Publish =>
    case Spawn => SpawnCarried(cfg, s);
    case _ => QuietFrame(cfg, s, step);
  }

  lemma ThreadsAfterRegister(cfg: Config, s: System)
    requires DoRegister(cfg, s).Some?
    ensures DoRegister(cfg, s).value.threads == s.threads && DoRegister(cfg, s).value.topics == s.topics
  {
    hide Registration.ParseHandshake, Registered;
    var e, got := s.accept.sock, s.accept.got;
    match Registration.ParseHandshake(got[0], got[1], got[2])
    case None =>
    case Some(h) => ThreadsAfterRegistered(cfg, s, e, h);
  }

  lemma ThreadsAfterRegistered(cfg: Config, s: System, e: Endpoint, h: Registration.Handshake)
    requires e in s.conns
    ensures Registered(cfg, s, e, h).threads == s.threads && Registered(cfg, s, e, h).topics == s.topics
  {
    hide LoginResult, Dropped;
  }

  lemma SpawnCarried(cfg: Config, s: System)
    requires AllCarried(s.threads) && DoSpawn(cfg, s).Some?
    ensures AllCarried(DoSpawn(cfg, s).value.threads)
  {
    hide CarriedOut, NewRoom;
    var c := s.accept.chan;
    NewRoomCarried(c, cfg.host, if c in s.topics then s.topics[c] else cfg.defaultTopic);
  }

  lemma NewRoomCarried(c: string, host: string, topic: string)
    ensures CarriedOut(NewRoom(c, host, topic))
  {
  }

  /** The room of the servlet that takes a step. */
  lemma ServletCarried(cfg: Config, s: System, step: Step)
    requires SystemOk(s) && AllCarried(s.threads) && OfSomeServlet(step) && Next(cfg, s, step).Some?
    ensures var q := Next(cfg, s, step).value;
            step.c in q.threads && CarriedOut(q.threads[step.c].room)
  {
    hide SystemOk, CarriedOut, Grab, HandleNewUsers, Poll, HandleEntry, NoDup, Has, Emptied;
    var c := step.c;
    match step
    case GrabNew(_) =>
      PendingCanJoin(s, c);
      GrabCarried(s.threads[c].room, PendingAt(s.pending, c), s.socks);
    case Greet(_) => HandleNewUsersCarried(s.threads[c].room);
    case PollOne(_, k) =>
      var e := s.threads[c].phase.todo[0];
      PollCarried(s.threads[c].room, e, s.conns[e].unread[..k]);
    case HandleOne(_) =>
      HandledRoom(s, c);
      EntryCarried(s.threads[c].room, s.threads[c].phase.todo[0]);
      EmptiedCarried(s.threads[c].room);
    case _ =>
  }

  lemma PollCarried(r: Room, e: Endpoint, msgs: seq<string>)
    requires CarriedOut(r)
    ensures CarriedOut(Poll(r, e, msgs))
  {
    hide CarriedOut;
    SameCarried(r, Poll(r, e, msgs));
  }

  lemma EmptiedCarried(r: Room)
    ensures CarriedOut(Emptied(r))
  {
  }

  lemma PendingCanJoin(s: System, c: string)
    requires SystemOk(s) && c in s.threads
    ensures Admissible(s.threads[c].room, PendingAt(s.pending, c))
  {
    hide AcceptOk, SocksOk, FlagsOk, AuthOk, ListOk, RoomSettled, MembersInOrder, PhaseOk, OwnsMembers;
    assert ThreadOk(s.threads[c], c, s.conns);
    HandoffGrab.PendingAdmissible(s.threads[c].room, c, PendingAt(s.pending, c), s.conns);
  }

  lemma HandledRoom(s: System, c: string)
    requires SystemOk(s) && DoHandle(s, c).Some?
    ensures RoomOk(s.threads[c].room, |s.threads[c].room.users|)
  {
    hide AcceptOk, PendingOk, SocksOk, FlagsOk, AuthOk, ThreadOk, RoomOk, HandleEntry;
    assert ThreadOk(s.threads[c], c, s.conns);
    HandlingRoom(s.threads[c], c, s.conns);
  }

  lemma StepCarried(cfg: Config, s: System, step: Step)
    requires SystemOk(s) && AllCarried(s.threads) && Next(cfg, s, step).Some?
    ensures AllCarried(Next(cfg, s, step).value.threads)
  {
    hide SystemOk, Next, CarriedOut;
    if OfSomeServlet(step) {
      ServletFrame(cfg, s, step);
      ServletCarried(cfg, s, step);
    } else {
      AcceptCarried(cfg, s, step);
    }
  }

  /** In every run every servlet has carried out what it handled. */
  lemma {:induction false} EveryRunCarried(cfg: Config, accounts: Accounts, topics: map<string, string>, steps: seq<Step>, s: System)
    requires Reached(cfg, accounts, topics, steps, s)
    ensures AllCarried(s.threads)
    decreases |steps|
  {
    hide SystemOk, Next, CarriedOut;
    if steps != [] {
      var shorter := steps[..|steps| - 1];
      var before := Run(cfg, Init(accounts, topics), shorter).value;
      EveryRunOk(cfg, accounts, topics, shorter, before);
      EveryRunCarried(cfg, accounts, topics, shorter, before);
      StepCarried(cfg, before, steps[|steps| - 1]);
    }
  }

  // ---- Who heard what ----

  lemma {:induction false} SaidByConcat(a: seq<Entry>, b: seq<Entry>, e: Endpoint)
    ensures SaidBy(a + b, e) == SaidBy(a, e) + SaidBy(b, e)
  {
    if b == [] {
      assert a + b == a;
    } else {
      var n := |b| - 1;
      assert (a + b)[..|a + b| - 1] == a + b[..n];
      SaidByConcat(a, b[..n], e);
    }
  }

  lemma {:induction false} SaidByAmongOthers(log: seq<Entry>, d: Endpoint, e: Endpoint)
    requires d != e
    ensures SaidBy(ByOthers(log, d), e) == SaidBy(log, e)
  {
    if log != [] {
      var n := |log| - 1;
      var last := if log[n].from.endpt == d then [] else [log[n]];
      SaidByAmongOthers(log[..n], d, e);
      SaidByConcat(ByOthers(log[..n], d), last, e);
      assert SaidBy([log[n]], e) == SaidBy([], e) + if log[n].from.endpt == e then [log[n]] else [];
    }
  }

  lemma SplitLog(log: seq<Entry>, i: nat, j: nat, e: Endpoint)
    requires i <= j <= |log|
    ensures SaidBy(log[i..], e) == SaidBy(log[i..j], e) + SaidBy(log[j..], e)
  {
    hide SaidBy;
    assert log[i..] == log[i..j] + log[j..];
    SaidByConcat(log[i..j], log[j..], e);
  }

  /** In every run, what a settled member `v` heard from another member `u` is exactly the PRIVMSGs handled for `u`, in order:
      those since `v` was admitted when `u` was there first, and all of them, after what an earlier user of the endpoint
      said to `v`, when `v` was. */
  lemma HeardIsHandled(cfg: Config, accounts: Accounts, topics: map<string, string>, steps: seq<Step>, s: System,
                       c: string, u: User, v: User)
    requires Reached(cfg, accounts, topics, steps, s)
    requires c in s.threads && u in s.threads[c].room.users && v in s.threads[c].room.users && u.endpt != v.endpt
    requires v !in s.threads[c].room.newusers
    ensures var r := s.threads[c].room;
            && u.endpt in r.streams && v.endpt in r.streams
            && var su, sv := r.streams[u.endpt], r.streams[v.endpt];
               var heard, done := SaidBy(Heard(sv.replies), u.endpt), EntriesOf(u, Privs(QueueAt(r.handled, u.endpt)));
               && su.mark <= |r.log| && sv.mark <= |r.log|
               && (su.mark <= sv.mark ==> done == SaidBy(r.log[su.mark..sv.mark], u.endpt) + heard)
               && (sv.mark <= su.mark ==> heard == SaidBy(r.log[sv.mark..su.mark], u.endpt) + done)
  {
    hide Reached, Roster, LastTopic, Heard, SaidBy, EntriesOf, Privs, ByOthers, TitlesBy, TopicsSet, Greeted, Regular, Nicks;
    EveryRunCarried(cfg, accounts, topics, steps, s);
    MembersKnow(cfg, accounts, topics, steps, s, c, v);
    var r := s.threads[c].room;
    assert CarriedFor(r, u);
    var su, sv := r.streams[u.endpt], r.streams[v.endpt];
    SaidByAmongOthers(r.log[sv.mark..], v.endpt, u.endpt);
    if su.mark <= sv.mark {
      SplitLog(r.log, su.mark, sv.mark, u.endpt);
    }
    if sv.mark <= su.mark {
      SplitLog(r.log, sv.mark, su.mark, u.endpt);
    }
  }

  lemma HandledIsSent(c: Conn, handled: seq<string>, queued: seq<string>)
    requires c.consumed + handled + queued + c.unread == c.sent && |c.consumed| == 4
    ensures 4 + |handled| <= |c.sent| && handled == c.sent[4..4 + |handled|]
  {
    assert c.sent == c.consumed + (handled + (queued + c.unread));
  }

  /** With conforming clients, end to end: what was handled for a member is what its client sent after its JOIN, as far as it
      came, so that what another member heard from it is what the client sent, unaltered and in order. */
  lemma HeardIsWhatWasSent(cfg: Config, accounts: Accounts, topics: map<string, string>, steps: seq<Step>, s: System,
                           c: string, u: User, v: User)
    requires HonestlyReached(cfg, accounts, topics, steps, s)
    requires c in s.threads && u in s.threads[c].room.users && v in s.threads[c].room.users && u.endpt != v.endpt
    requires v !in s.threads[c].room.newusers
    ensures var r := s.threads[c].room;
            && u.endpt in r.streams && v.endpt in r.streams && u.endpt in s.conns
            && var su, sv, sent := r.streams[u.endpt], r.streams[v.endpt], s.conns[u.endpt].sent;
               var n := 4 + |QueueAt(r.handled, u.endpt)|;
               && n <= |sent| && su.mark <= |r.log| && sv.mark <= |r.log|
               && var heard, said := SaidBy(Heard(sv.replies), u.endpt), EntriesOf(u, Privs(sent[4..n]));
                  && (su.mark <= sv.mark ==> said == SaidBy(r.log[su.mark..sv.mark], u.endpt) + heard)
                  && (sv.mark <= su.mark ==> heard == SaidBy(r.log[sv.mark..su.mark], u.endpt) + said)
  {
    hide Reached, HonestRun, SystemOk, Heard, SaidBy, EntriesOf, Privs, Queued, Has;
    HeardIsHandled(cfg, accounts, topics, steps, s, c, u, v);
    EveryRunOk(cfg, accounts, topics, steps, s);
    assert IsMember(s, c, u.endpt) by { InHas(s.threads[c].room.users, u); }
    MemberIsLive(s, c, u.endpt);
    HonestNothingLost(cfg, accounts, topics, steps, s, u.endpt);
    HandledIsSent(s.conns[u.endpt], QueueAt(s.threads[c].room.handled, u.endpt), Queued(s, u.endpt));
  }

  lemma MemberIsLive(s: System, c: string, e: Endpoint)
    requires SystemOk(s) && IsMember(s, c, e)
    ensures Live(s, e) && s.conns[e].place == Member(c) && Handled(s, e) == QueueAt(s.threads[c].room.handled, e)
  {
    hide AcceptOk, PendingOk, SocksOk, FlagsOk, AuthOk, ThreadOk, Has;
    MemberPlace(s, c, e);
  }
}
