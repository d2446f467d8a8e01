/** src/server/Servlet.cpp as the object it is: each method changes the fields in place, and does to them what the
    functions of the module Room say. */
module Servlets {
  import opened Strings
  import opened Sockio
  import opened Irc
  import opened Room
  import Spec = Room
  import opened RoomInvariant
  import opened RoomEffects
  import opened BatchJoin
  import opened Handoff
  import opened HandoffGrab
  import opened Notifiers

  // ---- Sockets and what was written to them ----

  function Remotes(socks: seq<Socket>): (ends: seq<Endpoint>)
    ensures |ends| == |socks|
  {
    seq(|socks|, i requires 0 <= i < |socks| => socks[i].remote)
  }

  /** The writes that put replies on the wire. */
  function Wire(rs: seq<Reply>): seq<string> {
    if rs == [] then [] else Wire(rs[..|rs| - 1]) + [Line(rs[|rs| - 1]) + CRLF]
  }

  predicate EndsWithAll(written: seq<string>, last: seq<string>) {
    |last| <= |written| && written[|written| - |last|..] == last
  }

  lemma WroteOneMore(written: seq<string>, rs: seq<Reply>, p: Reply)
    requires EndsWithAll(written, Wire(rs))
    ensures EndsWithAll(written + [Line(p) + CRLF], Wire(rs + [p]))
  {
    hide Line;
    var m := Line(p) + CRLF;
    assert (rs + [p])[..|rs|] == rs;
    assert Wire(rs + [p]) == Wire(rs) + [m];
    assert (written + [m])[|written| - |Wire(rs)|..] == written[|written| - |Wire(rs)|..] + [m];
  }

  lemma LineEndsInCrlf(p: Reply)
    ensures EndsWithCrlf(Line(p) + CRLF)
  {
    hide Line;
    var m := Line(p) + CRLF;
    assert m[|m| - 2..] == CRLF;
  }

  lemma SameRemote(socks: seq<Socket>, s: Socket, t: Socket)
    requires NoDup(Remotes(socks)) && s in socks && t in socks && s.remote == t.remote
    ensures s == t
  {
    var i :| 0 <= i < |socks| && socks[i] == s;
    var j :| 0 <= j < |socks| && socks[j] == t;
    assert Remotes(socks)[i] == Remotes(socks)[j];
  }

  // ---- Delivering to one more user ----

  lemma DeliverOne(streams: map<Endpoint, Stream>, u: User, reply: Reply)
    ensures var d := Deliver(streams, [u], reply);
            && d.Keys == streams.Keys
            && (u.endpt in streams ==> d[u.endpt].replies == streams[u.endpt].replies + [reply])
            && (forall e | e in streams && e != u.endpt :: d[e] == streams[e])
  {
    HasOne(u, u.endpt);
  }

  lemma DeliverNobody(streams: map<Endpoint, Stream>, reply: Reply)
    ensures Deliver(streams, [], reply) == streams
  {
  }

  lemma DeliverMore(streams: map<Endpoint, Stream>, us: seq<User>, u: User, reply: Reply)
    requires !Has(us, u.endpt)
    ensures Deliver(Deliver(streams, us, reply), [u], reply) == Deliver(streams, us + [u], reply)
  {
    forall e | e in streams
      ensures Has(us + [u], e) <==> Has(us, e) || u.endpt == e
      ensures Has([u], e) <==> u.endpt == e
    {
      HasConcat(us, [u], e);
      HasOne(u, e);
    }
  }

  lemma OthersStep(us: seq<User>, i: nat, e: Endpoint)
    requires Distinct(us) && i < |us|
    ensures Others(us[..i + 1], e) == Others(us[..i], e) + if us[i].endpt == e then [] else [us[i]]
    ensures !Has(Others(us[..i], e), us[i].endpt)
  {
    hide Distinct, Has;
    PrefixStep(us, i);
    EarlierDiffer(us, i, i);
    OthersAre(us[..i], e, us[i].endpt);
  }

  lemma NoOthers(us: seq<User>, e: Endpoint)
    ensures Others(us[..0], e) == []
  {
  }

  lemma IndexIs(us: seq<User>, e: Endpoint, k: nat)
    requires k < |us| && us[k].endpt == e && forall i | 0 <= i < k :: us[i].endpt != e
    ensures Has(us, e) && IndexOf(us, e) == k
  {
    var n := IndexOf(us, e);
    assert forall i | 0 <= i < n :: us[..n][i] == us[i];
  }

  // ---- Giving up a socket ----

  lemma RemotesTail(socks: seq<Socket>)
    requires socks != []
    ensures Remotes(socks)[0] == socks[0].remote && Remotes(socks)[1..] == Remotes(socks[1..])
  {
  }

  lemma RemotesCons(s: Socket, socks: seq<Socket>)
    ensures Remotes([s] + socks) == [s.remote] + Remotes(socks)
  {
  }

  lemma TailWithout(socks: seq<Socket>, k: nat)
    requires 0 < k < |socks|
    ensures socks[..k] + socks[k + 1..] == [socks[0]] + (socks[1..][..k - 1] + socks[1..][k..])
  {
  }

  lemma {:induction false} WithoutSockAt(socks: seq<Socket>, e: Endpoint, k: nat)
    requires k < |socks| && socks[k].remote == e && forall i | 0 <= i < k :: socks[i].remote != e
    ensures WithoutSock(Remotes(socks), e) == Remotes(socks[..k] + socks[k + 1..])
  {
    hide Remotes;
    RemotesTail(socks);
    if k == 0 {
      assert socks[..0] + socks[1..] == socks[1..];
    } else {
      WithoutSockAt(socks[1..], e, k - 1);
      TailWithout(socks, k);
      RemotesCons(socks[0], socks[1..][..k - 1] + socks[1..][k..]);
    }
  }

  lemma {:induction false} WithoutSockNone(ends: seq<Endpoint>, e: Endpoint)
    requires e !in ends
    ensures WithoutSock(ends, e) == ends
  {
    if ends != [] {
      WithoutSockNone(ends[1..], e);
    }
  }

  /** The users that stay still have their sockets. */
  lemma SeatsStay(us: seq<User>, k: nat, ends: seq<Endpoint>)
    requires k < |us| && Distinct(us) && NoDup(ends) && forall u | u in us :: u.endpt in ends
    ensures Distinct(RemoveAt(us, k)) && NoDup(WithoutSock(ends, us[k].endpt))
    ensures forall u | u in RemoveAt(us, k) :: u.endpt in WithoutSock(ends, us[k].endpt)
  {
    hide RemoveAt, Distinct, NoDup, Has;
    var e := us[k].endpt;
    RemovedDistinct(us, k);
    SockRemoved(ends, e, e);
    forall u | u in RemoveAt(us, k)
      ensures u.endpt in WithoutSock(ends, e)
    {
      InRemainder(us, k, u);
      InHas(RemoveAt(us, k), u);
      RemovedHas(us, k, u.endpt);
      SockRemoved(ends, e, u.endpt);
    }
  }

  // ---- Taking sockets over ----

  function TakenSocks(socks: seq<Socket>, us: seq<User>): seq<Socket> {
    if socks == [] then []
    else
      var last := socks[|socks| - 1];
      TakenSocks(socks[..|socks| - 1], us) + if Has(us, last.remote) then [last] else []
  }

  function LeftSocks(socks: seq<Socket>, us: seq<User>): seq<Socket> {
    if socks == [] then []
    else
      var last := socks[|socks| - 1];
      LeftSocks(socks[..|socks| - 1], us) + if Has(us, last.remote) then [] else [last]
  }

  lemma RemotesSnoc(socks: seq<Socket>, s: Socket)
    ensures Remotes(socks + [s]) == Remotes(socks) + [s.remote]
  {
  }

  lemma RemotesConcat(a: seq<Socket>, b: seq<Socket>)
    ensures Remotes(a + b) == Remotes(a) + Remotes(b)
  {
  }

  lemma RemotesInit(socks: seq<Socket>)
    requires socks != []
    ensures var n := |socks| - 1;
            Remotes(socks)[..n] == Remotes(socks[..n]) && Remotes(socks)[n] == socks[n].remote
  {
  }

  lemma {:induction false} TakenRemotes(socks: seq<Socket>, us: seq<User>)
    ensures Remotes(TakenSocks(socks, us)) == Claimed(Remotes(socks), us)
    ensures Remotes(LeftSocks(socks, us)) == Unclaimed(Remotes(socks), us)
  {
    hide Has, Remotes;
    if socks == [] {
      NoRemotes();
      assert |Remotes(socks)| == 0;
    } else {
      var n := |socks| - 1;
      RemotesInit(socks);
      TakenRemotes(socks[..n], us);
      RemotesSnoc(TakenSocks(socks[..n], us), socks[n]);
      RemotesSnoc(LeftSocks(socks[..n], us), socks[n]);
      assert TakenSocks(socks[..n], us) + [] == TakenSocks(socks[..n], us);
      assert LeftSocks(socks[..n], us) + [] == LeftSocks(socks[..n], us);
    }
  }

  lemma RemoteIn(socks: seq<Socket>, s: Socket)
    requires s in socks
    ensures s.remote in Remotes(socks)
  {
    var i :| 0 <= i < |socks| && socks[i] == s;
    assert Remotes(socks)[i] == s.remote;
  }

  lemma EmptyWire(written: seq<string>)
    ensures EndsWithAll(written, Wire([]))
  {
  }

  lemma NoRemotes()
    ensures Remotes([]) == []
  {
  }

  lemma {:induction false} TakenAre(socks: seq<Socket>, us: seq<User>)
    ensures forall s | s in TakenSocks(socks, us) :: s in socks && Has(us, s.remote)
    ensures forall s | s in LeftSocks(socks, us) :: s in socks
  {
    hide Has;
    if socks != [] {
      TakenAre(socks[..|socks| - 1], us);
    }
  }

  lemma TakenStep(socks: seq<Socket>, us: seq<User>, n: nat)
    requires n < |socks|
    ensures TakenSocks(socks[..n + 1], us) == TakenSocks(socks[..n], us) + if Has(us, socks[n].remote) then [socks[n]] else []
    ensures LeftSocks(socks[..n + 1], us) == LeftSocks(socks[..n], us) + if Has(us, socks[n].remote) then [] else [socks[n]]
  {
    hide Has;
    PrefixStep(socks, n);
  }

  lemma NothingTaken(socks: seq<Socket>, us: seq<User>)
    ensures TakenSocks(socks[..0], us) == [] == LeftSocks(socks[..0], us)
  {
  }

  lemma AdmitOneQueue(queues: map<Endpoint, seq<string>>, p: Early)
    ensures AdmitQueues(queues, [p]) == queues[p.user.endpt := QueueAt(queues, p.user.endpt) + p.msgs]
  {
    NewcomersMore([], p);
    assert [p][..0] == [];
    forall e
      ensures QueueOf([p], e) == if p.user.endpt == e then p.msgs else []
    {
      assert QueueOf([], e) == [];
    }
    forall e | e in queues
      ensures QueueAt(queues, e) + [] == queues[e]
    {
    }
  }

  lemma AdmitStep(queues: map<Endpoint, seq<string>>, list: seq<Early>, i: nat)
    requires i < |list|
    ensures AdmitQueues(queues, list[..i + 1])
         == var q, p := AdmitQueues(queues, list[..i]), list[i];
            q[p.user.endpt := QueueAt(q, p.user.endpt) + p.msgs]
    ensures Newcomers(list[..i + 1]) == Newcomers(list[..i]) + [list[i].user]
  {
    hide AdmitQueues, Newcomers, QueueAt;
    PrefixStep(list, i);
    AdmitMoreQueues(queues, list[..i], list[i]);
    AdmitOneQueue(AdmitQueues(queues, list[..i]), list[i]);
    NewcomersMore(list[..i], list[i]);
  }

  lemma AdmitNone(queues: map<Endpoint, seq<string>>, list: seq<Early>)
    ensures AdmitQueues(queues, list[..0]) == queues && Newcomers(list[..0]) == []
  {
    assert NewEnds(list[..0]) == {};
    assert forall e | e in queues :: QueueAt(queues, e) + QueueOf(list[..0], e) == queues[e];
  }

  /** What the accept loop guarantees about the pending users of a channel and their sockets when a servlet of this
      channel holds the lock. */
  ghost predicate CanTake(us: seq<User>, ends: seq<Endpoint>, list: seq<Early>, shared: seq<Endpoint>) {
    && Distinct(Newcomers(list))
    && (forall p | p in list :: !Has(us, p.user.endpt) && p.user.endpt in shared)
    && NoDup(ends) && NoDup(shared)
    && forall e | e in ends :: e !in shared
  }

  lemma SeatsForNewcomers(us: seq<User>, ends: seq<Endpoint>, list: seq<Early>, shared: seq<Endpoint>)
    requires CanTake(us, ends, list, shared) && Distinct(us) && forall u | u in us :: u.endpt in ends
    ensures var all := us + Newcomers(list);
            && Distinct(all)
            && NoDup(ends + Claimed(shared, all))
            && forall u | u in all :: u.endpt in ends + Claimed(shared, all)
  {
    hide Distinct, NoDup, Has, Newcomers;
    var ns := Newcomers(list);
    forall i | 0 <= i < |ns|
      ensures !Has(us, ns[i].endpt) && ns[i].endpt in shared
    {
      NewcomerAt(list, i);
      assert list[i] in list;
    }
    AdmitDistinct(us, ns);
    var all := us + ns;
    ClaimedNoDup(shared, all);
    forall e | e in Claimed(shared, all)
      ensures e !in ends
    {
      ClaimedAre(shared, all, e);
    }
    ConcatNoDup(ends, Claimed(shared, all));
    forall u | u in all
      ensures u.endpt in ends + Claimed(shared, all)
    {
      if u in us {
      } else {
        InHas(all, u);
        ClaimedAre(shared, all, u.endpt);
      }
    }
  }

  /** A taken socket belongs to a new user, whose stream is still empty; the streams of the others did not change. */
  lemma StreamOfSocket(us: seq<User>, ends: seq<Endpoint>, list: seq<Early>, shared: seq<Endpoint>,
                       streams: map<Endpoint, Stream>, mark: nat, e: Endpoint)
    requires CanTake(us, ends, list, shared) && forall u | u in us :: u.endpt in ends
    requires e in AdmitStreams(streams, list, mark)
    ensures e in ends ==> e in streams && AdmitStreams(streams, list, mark)[e] == streams[e]
    ensures e in shared ==> e !in ends
    ensures e !in ends && Has(us + Newcomers(list), e) ==> AdmitStreams(streams, list, mark)[e] == Stream([], mark)
  {
    hide Newcomers, Distinct, NoDup;
    NewcomersAre(list, e);
    HasConcat(us, Newcomers(list), e);
  }

  // ---- Greeting ----

  lemma AudienceStep(us: seq<User>, ns: seq<User>, hs: seq<User>, j: nat)
    requires Distinct(us) && j < |us|
    ensures Audience(us[..j + 1], ns, hs)
         == Audience(us[..j], ns, hs) + if Has(ns, us[j].endpt) && !Has(hs, us[j].endpt) then [] else [us[j]]
    ensures !Has(Audience(us[..j], ns, hs), us[j].endpt)
  {
    hide Distinct, Has;
    PrefixStep(us, j);
    EarlierDiffer(us, j, j);
    AudienceIsPart(us[..j], ns, hs, us[j].endpt);
  }

  lemma {:induction false} AudienceIsPart(us: seq<User>, ns: seq<User>, hs: seq<User>, e: Endpoint)
    ensures Has(Audience(us, ns, hs), e) ==> Has(us, e)
  {
    if us != [] {
      var n := |us| - 1;
      assert us == us[..n] + [us[n]];
      HasConcat(us[..n], [us[n]], e);
      HasConcat(Audience(us[..n], ns, hs), [us[n]], e);
      AudienceIsPart(us[..n], ns, hs, e);
      assert Audience(us[..n], ns, hs) + [] == Audience(us[..n], ns, hs);
    }
  }

  lemma GreetNobody(r: Room)
    ensures GreetUpto(r, 0) == r
  {
  }

  lemma GreetOneMore(r: Room, i: nat)
    requires i < |r.newusers|
    ensures var g := GreetUpto(r, i);
            && GreetUpto(r, i + 1) == g.(streams := Greetings(g, r.newusers[i], Audience(r.users, r.newusers, r.newusers[..i + 1])))
  {
  }

  lemma GrabbedAreUsers(r: Room, list: seq<Early>, socks: seq<Endpoint>)
    ensures var q := Grab(r, list, socks); forall u | u in q.newusers :: u in q.users
  {
    hide Newcomers, Claimed;
  }

  lemma EndLine(host: string, u: User, msg: string)
    requires msg == host + " " + RPL_ENDOFNAMES + " " + u.nick + " " + u.chan + " " + ":End of NAMES list\r\n"
    ensures msg == Line(EndOfNames(host, u)) + CRLF
  {
    var head := host + " " + RPL_ENDOFNAMES + " " + u.nick + " " + u.chan + " ";
    assert ":End of NAMES list\r\n" == ":End of NAMES list" + CRLF;
    assert msg == head + ":End of NAMES list" + CRLF;
  }

  lemma NamedOneMore(us: seq<User>, u: User)
    ensures NamesText(Nicks(us + [u])) == NamesText(Nicks(us)) + ("@" + u.nick + " ")
  {
    assert (us + [u])[..|us|] == us;
    var nicks := Nicks(us + [u]);
    assert nicks == Nicks(us) + [u.nick];
    assert nicks[..|nicks| - 1] == Nicks(us);
  }

  lemma NobodyNamed(us: seq<User>, ns: seq<User>, hs: seq<User>)
    ensures Audience(us[..0], ns, hs) == [] && NamesText(Nicks([])) == ""
  {
  }

  // ---- Queues ----

  lemma NoEntry(r: Room, e: Endpoint)
    requires e !in r.queues
    ensures Spec.HandleEntry(r, e) == Some(r)
  {
  }

  predicate NothingQueued(r: Room) {
    forall e | e in r.queues :: r.queues[e] == []
  }

  lemma NobodyInOrder()
    ensures NoDup<Endpoint>([])
  {
  }

  lemma HandleNobody(r: Room)
    ensures HandleAll(r, []) == Some(r)
  {
  }

  lemma OtherSockets(socks: seq<Socket>, i: nat)
    requires NoDup(Remotes(socks)) && i < |socks|
    ensures forall j | 0 <= j < |socks| && j != i :: socks[j] != socks[i]
  {
    forall j | 0 <= j < |socks| && j != i
      ensures socks[j] != socks[i]
    {
      assert Remotes(socks)[i] != Remotes(socks)[j];
    }
  }

  lemma PollNone(r: Room, ends: seq<Endpoint>)
    ensures PollAll(r, ends[..0], []) == r
  {
  }

  lemma PollStep(r: Room, ends: seq<Endpoint>, brought: seq<seq<string>>, more: seq<string>, i: nat)
    requires i < |ends| && |brought| == i
    ensures PollAll(r, ends[..i + 1], brought + [more]) == Poll(PollAll(r, ends[..i], brought), ends[i], more)
  {
    PrefixStep(ends, i);
    assert (brought + [more])[..i] == brought;
  }

  /** With empty queues handle_endmsgs would change nothing, so skipping it makes no difference. */
  lemma {:induction false} NothingToHandle(r: Room, order: seq<Endpoint>)
    requires NothingQueued(r)
    ensures HandleAll(r, order) == Some(r)
    decreases |order|
  {
    if order != [] {
      var e := order[0];
      assert e in r.queues ==> r.queues[e := []] == r.queues;
      NothingToHandle(r, order[1..]);
    }
  }

  /** What the threads share, guarded by the lock. */
  class Comms {
    var pending: map<string, seq<Early>>
    var socks: seq<Socket>

    constructor ()
      ensures pending == map[] && socks == []
    {
      pending := map[];
      socks := [];
    }
  }

  class Servlet {
    const channel: string
    const host: string
    var topic: string
    var users: seq<User>
    var socks: seq<Socket>
    var endMsgs: map<Endpoint, seq<string>>

    /** This channel's rows of Channels and ChatLogs. */
    var storedTopic: string
    var rows: seq<Spoken>

    /** The log that `rows` shows, what was written to and handled for every member, and the local variable
        `newusers` of handle_newusers. */
    ghost var log: seq<Entry>
    ghost var streams: map<Endpoint, Stream>
    ghost var handled: map<Endpoint, seq<string>>
    ghost var newusers: seq<User>

    ghost function View(): Room
      reads this
    {
      Spec.Room.Room(channel, host, topic, storedTopic, users, Remotes(socks), endMsgs, log, streams, handled, newusers)
    }

    /** What was last written to every socket is its member's stream. */
    ghost predicate Wired()
      reads this, socks
    {
      forall s | s in socks && s.remote in streams :: EndsWithAll(s.written, Wire(streams[s.remote].replies))
    }

    ghost predicate Seated()
      reads this
    {
      && Distinct(users)
      && NoDup(Remotes(socks))
      && forall u | u in users :: u.endpt in Remotes(socks)
    }

    ghost predicate Valid()
      reads this, socks
    {
      Seated() && Wired() && rows == Rows(log)
    }

    constructor (channel: string, host: string, topic: string)
      ensures Valid() && View() == NewRoom(channel, host, topic)
      ensures this.channel == channel && this.host == host && this.topic == storedTopic == topic
      ensures users == [] && socks == [] && endMsgs == map[] && rows == [] && streams == map[]
    {
      this.channel := channel;
      this.host := host;
      this.topic := topic;
      users := [];
      socks := [];
      endMsgs := map[];
      storedTopic := topic;
      rows := [];
      log := [];
      streams := map[];
      handled := map[];
      newusers := [];
    }

    method GetSockForUser(user: User) returns (k: nat)
      ensures k <= |socks| && (k < |socks| ==> socks[k].remote == user.endpt)
      ensures forall i | 0 <= i < k :: socks[i].remote != user.endpt
    {
      k := 0;
      while k < |socks| && socks[k].remote != user.endpt
        invariant k <= |socks|
        invariant forall i | 0 <= i < k :: socks[i].remote != user.endpt
      {
        k := k + 1;
      }
    }

    /** try_writing; `reply` is the message's meaning. */
    method TryWriting(user: User, msg: string, ghost reply: Reply)
      requires Valid() && user.endpt in Remotes(socks)
      requires msg == Line(reply) + CRLF
      modifies `streams, socks`written
      ensures Valid()
      ensures streams == Deliver(old(streams), [user], reply)
    {
      hide EndsWithAll, EndsWithCrlf, Wire, Deliver, Distinct, Rows, Line, NoDup;
      var k := GetSockForUser(user);
      assert k < |socks| by {
        var i :| 0 <= i < |socks| && Remotes(socks)[i] == user.endpt;
      }
      LineEndsInCrlf(reply);
      var ok := TryWritingToSock(socks[k], msg);
      streams := Deliver(streams, [user], reply);
      DeliverOne(old(streams), user, reply);
      forall s | s in socks && s.remote in streams
        ensures EndsWithAll(s.written, Wire(streams[s.remote].replies))
      {
        if s == socks[k] {
          WroteOneMore(old(s.written), old(streams)[s.remote].replies, reply);
        } else if s.remote == user.endpt {
          SameRemote(socks, s, socks[k]);
        }
      }
    }

    /** The loops of handle_priv and handle_part: everyone but `end` gets the message. */
    method WriteToOthers(end: Endpoint, msg: string, ghost reply: Reply)
      requires Valid() && msg == Line(reply) + CRLF
      modifies `streams, socks`written
      ensures Valid()
      ensures streams == Deliver(old(streams), Others(users, end), reply)
    {
      hide Deliver, Others, Wire, Line, EndsWithAll, Distinct, NoDup, Rows, Has;
      DeliverNobody(streams, reply);
      assert Others(users[..0], end) == [] by { NoOthers(users, end); }
      for i := 0 to |users|
        invariant Valid()
        invariant streams == Deliver(old(streams), Others(users[..i], end), reply)
      {
        OthersStep(users, i, end);
        if users[i].endpt != end {
          assert users[i] in users;
          DeliverMore(old(streams), Others(users[..i], end), users[i], reply);
          TryWriting(users[i], msg, reply);
        } else {
          assert Others(users[..i], end) + [] == Others(users[..i], end);
        }
      }
      assert users[..|users|] == users;
    }

    /** The loop of handle_topic: everyone gets the message. */
    method WriteToAll(msg: string, ghost reply: Reply)
      requires Valid() && msg == Line(reply) + CRLF
      modifies `streams, socks`written
      ensures Valid()
      ensures streams == Deliver(old(streams), users, reply)
    {
      hide Deliver, Wire, Line, EndsWithAll, Distinct, NoDup, Rows, Has;
      DeliverNobody(streams, reply);
      for i := 0 to |users|
        invariant Valid()
        invariant streams == Deliver(old(streams), users[..i], reply)
      {
        assert users[i] in users;
        EarlierDiffer(users, i, i);
        PrefixStep(users, i);
        DeliverMore(old(streams), users[..i], users[i], reply);
        TryWriting(users[i], msg, reply);
      }
      assert users[..|users|] == users;
    }

    /** handle_priv: relay, then log the text after the first colon. */
    method HandlePriv(msg: string, client: User)
      requires Valid()
      modifies `streams, `log, `rows, socks`written
      ensures Valid() && View() == Spec.HandlePriv(old(View()), client, msg)
      ensures rows == old(rows) + [Spoken(client.nick, LoggedText(msg))]
      ensures forall v | v in users && v.endpt in old(streams) ::
                v.endpt in streams && streams[v.endpt].replies
                == old(streams)[v.endpt].replies + if v.endpt == client.endpt then [] else [Said(client, msg)]
    {
      hide Deliver, Others, Wire, EndsWithAll, Distinct, NoDup, Rows, Has, Find;
      var end := client.endpt;
      var clientIp := end.addr;
      var reply := ":" + client.nick + "!" + client.whoami + "@" + clientIp + " " + msg + "\r\n";
      assert reply == Line(Said(client, msg)) + CRLF;
      WriteToOthers(end, reply, Said(client, msg));
      var pos := Find(msg, ":", 0);
      var text := if pos.Some? then msg[pos.value + 1..] else msg;
      RowAppended(log, Entry(client, msg));
      rows := rows + [Spoken(client.nick, text)];
      log := log + [Entry(client, msg)];
      PrivSpelled(old(View()), client, msg);
    }

    /** The std::find_if that remove_trace_of and handle_msg dereference. */
    method FindUser(end: Endpoint) returns (k: nat)
      requires Has(users, end)
      ensures k < |users| && k == IndexOf(users, end)
    {
      k := 0;
      while users[k].endpt != end
        invariant k < |users| && forall i | 0 <= i < k :: users[i].endpt != end
        decreases |users| - k
      {
        k := k + 1;
      }
      IndexIs(users, end, k);
    }

    /** The loop of remove_trace_of over the sockets. */
    method CloseSock(end: Endpoint)
      modifies `socks
      ensures Remotes(socks) == WithoutSock(Remotes(old(socks)), end)
      ensures forall i | 0 <= i < |socks| :: socks[i] in old(socks)
    {
      hide WithoutSock;
      var i := 0;
      while i < |socks| && socks[i].remote != end
        invariant i <= |socks| && socks == old(socks) && forall j | 0 <= j < i :: socks[j].remote != end
      {
        i := i + 1;
      }
      if i < |socks| {
        WithoutSockAt(socks, end, i);
        socks := socks[..i] + socks[i + 1..];
      } else {
        WithoutSockNone(Remotes(socks), end);
      }
    }

    /** remove_trace_of: the lookup in `_users` must find the user. */
    method RemoveTraceOf(user: User)
      requires Valid() && Has(users, user.endpt)
      modifies `users, `socks, `endMsgs, `streams
      ensures Valid() && View() == Spec.RemoveTrace(old(View()), user.endpt)
      ensures forall i | 0 <= i < |socks| :: socks[i] in old(socks)
    {
      hide Wire, EndsWithAll, Distinct, NoDup, Rows, WithoutSock, Remotes;
      var endPoint := user.endpt;
      var k := FindUser(endPoint);
      SeatsStay(users, k, Remotes(socks));
      users := users[..k] + users[k + 1..];
      endMsgs := endMsgs - {endPoint};
      streams := streams - {endPoint};
      CloseSock(endPoint);
    }

    /** handle_part: relay, then forget the client. */
    method HandlePart(msg: string, client: User)
      requires Valid() && Has(users, client.endpt)
      modifies `users, `socks, `endMsgs, `streams, socks`written
      ensures Valid() && View() == Spec.HandlePart(old(View()), client, msg)
      ensures client.endpt !in streams
      ensures forall v | v in old(users) && v.endpt != client.endpt && v.endpt in old(streams) ::
                v.endpt in streams && streams[v.endpt].replies == old(streams)[v.endpt].replies + [Parted(client, msg)]
      ensures forall i | 0 <= i < |socks| :: socks[i] in old(socks)
    {
      hide Deliver, Others, Wire, EndsWithAll, Distinct, NoDup, Rows, Has, Spec.RemoveTrace;
      var end := client.endpt;
      var clientIp := end.addr;
      var reply := ":" + client.nick + "!" + client.whoami + "@" + clientIp + " " + msg + "\r\n";
      assert reply == Line(Parted(client, msg)) + CRLF;
      WriteToOthers(end, reply, Parted(client, msg));
      RemoveTraceOf(client);
      PartSpelled(old(View()), client, msg);
    }

    /** handle_topic: what follows "TOPIC <channel> :" becomes the topic, is stored, and is told to everyone. */
    method HandleTopic(msg: string, client: User)
      requires Valid()
      modifies `topic, `storedTopic, `streams, socks`written
      ensures Valid() && View() == Spec.HandleTopic(old(View()), client, msg)
      ensures topic == storedTopic == NewTopic(channel, msg)
      ensures forall v | v in users && v.endpt in old(streams) ::
                v.endpt in streams && streams[v.endpt].replies == old(streams)[v.endpt].replies + [Retitled(client, channel, topic)]
    {
      hide Deliver, Wire, EndsWithAll, Distinct, NoDup, Rows, Has, Split;
      var splitHere := "TOPIC " + channel + " :";
      var parts := SplitLoop(msg, splitHere);
      topic := parts[|parts| - 1];
      storedTopic := topic;
      var reply := client.nick + "!" + client.whoami + "@" + client.endpt.addr + " TOPIC " + channel + " :" + topic + "\r\n";
      ghost var said := Retitled(client, channel, topic);
      assert reply == Line(said) + CRLF;
      WriteToAll(reply, said);
      TopicSpelled(old(View()), client, msg);
    }

    /** handle_msg: the sender is looked up, and the message's first word decides; `false` is the exception. */
    method HandleMsg(msg: string, end: Endpoint) returns (ok: bool)
      requires Valid() && Has(users, end)
      modifies this, socks`written
      ensures match Spec.HandleMsg(old(View()), end, msg)
              case None => !ok
              case Some(q) => ok && Valid() && View() == q
      ensures forall i | 0 <= i < |socks| :: socks[i] in old(socks)
    {
      hide Wire, EndsWithAll, Distinct, NoDup, Rows, IsPriv, IsPart, IsTopic, Has;
      hide Spec.HandlePriv, Spec.HandlePart, Spec.HandleTopic;
      var k := FindUser(end);
      var client := users[k];
      handled := handled[end := QueueAt(handled, end) + [msg]];
      assert View() == Record(old(View()), end, msg);
      ok := true;
      if IsPriv(msg) {
        HandlePriv(msg, client);
      } else if IsPart(msg) {
        HandlePart(msg, client);
      } else if IsTopic(msg) {
        HandleTopic(msg, client);
      } else {
        ok := false;
      }
    }

    /** One turn of the outer loop of handle_endmsgs: the messages in order, until the endpoint's entry is erased. */
    method HandleEntry(end: Endpoint) returns (ok: bool)
      requires Valid() && end in endMsgs
      modifies this, socks`written
      ensures match Spec.HandleEntry(old(View()), end)
              case None => !ok
              case Some(q) => ok && Valid() && View() == q
      ensures forall i | 0 <= i < |socks| :: socks[i] in old(socks)
    {
      hide Wire, EndsWithAll, Distinct, NoDup, Rows, Has, Spec.HandleMsg;
      var msgList := endMsgs[end];
      ghost var before := View();
      var i := 0;
      ok := true;
      while i < |msgList| && Has(users, end)
        invariant i <= |msgList| && ok && Valid()
        invariant HandleQueue(before, end, msgList) == HandleQueue(View(), end, msgList[i..])
        invariant forall i | 0 <= i < |socks| :: socks[i] in old(socks)
      {
        assert msgList[i..][0] == msgList[i] && msgList[i..][1..] == msgList[i + 1..];
        ok := HandleMsg(msgList[i], end);
        if !ok {
          return;
        }
        i := i + 1;
      }
      if end in endMsgs {
        endMsgs := endMsgs[end := []];
      }
    }

    /** The keys of `_end_msgs`, in some order. */
    method Keys() returns (order: seq<Endpoint>)
      ensures NoDup(order) && forall e :: e in order <==> e in endMsgs
    {
      hide NoDup;
      order := [];
      NobodyInOrder();
      var left := endMsgs.Keys;
      while left != {}
        invariant left <= endMsgs.Keys
        invariant NoDup(order) && forall e :: e in order <==> e in endMsgs.Keys - left
        decreases left
      {
        var e :| e in left;
        assert forall x :: x in order + [e] <==> x in order || x == e;
        AppendNoDup(order, e);
        order := order + [e];
        left := left - {e};
      }
    }

    /** check_endmsgs. */
    method CheckEndmsgs() returns (found: bool)
      ensures found <==> exists e | e in endMsgs :: endMsgs[e] != []
    {
      var order := Keys();
      var i := 0;
      while i < |order| && endMsgs[order[i]] == []
        invariant i <= |order| && forall j | 0 <= j < i :: endMsgs[order[j]] == []
      {
        i := i + 1;
      }
      found := i < |order|;
      if found {
        assert order[i] in endMsgs;
      }
    }

    /** handle_endmsgs, over a snapshot of the keys. */
    method HandleEndmsgs() returns (ok: bool, ghost order: seq<Endpoint>)
      requires Valid()
      modifies this, socks`written
      ensures NoDup(order) && forall e :: e in order <==> e in old(endMsgs)
      ensures match HandleAll(old(View()), order)
              case None => !ok
              case Some(q) => ok && Valid() && View() == q
      ensures forall i | 0 <= i < |socks| :: socks[i] in old(socks)
    {
      hide Wire, EndsWithAll, Distinct, NoDup, Rows, Spec.HandleEntry;
      var keys := Keys();
      order := keys;
      ghost var before := View();
      ok := true;
      for i := 0 to |keys|
        invariant ok && Valid()
        invariant HandleAll(before, keys) == HandleAll(View(), keys[i..])
        invariant forall i | 0 <= i < |socks| :: socks[i] in old(socks)
      {
        assert keys[i..][0] == keys[i] && keys[i..][1..] == keys[i + 1..];
        if keys[i] in endMsgs {
          ok := HandleEntry(keys[i]);
          if !ok {
            return;
          }
        } else {
          NoEntry(View(), keys[i]);
        }
      }
    }

    method UpdateQueueOf(sock: Socket)
      modifies `endMsgs, sock`arrivals
      ensures endMsgs == old(endMsgs)[sock.remote := QueueAt(old(endMsgs), sock.remote) + NextRead(old(sock.arrivals))]
      ensures sock.arrivals == if old(sock.arrivals) == [] then [] else old(sock.arrivals)[1..]
    {
      hide NextRead, ReadAll;
      var endPoint := sock.remote;
      if endPoint !in endMsgs {
        endMsgs := endMsgs[endPoint := []];
      }
      var sockMsgs := UpdateSockMsgs(sock, endMsgs[endPoint]);
      endMsgs := endMsgs[endPoint := sockMsgs];
    }

    /** update_endmsgs: what is available is read into the queue of its socket's endpoint. */
    method UpdateEndmsgs() returns (ghost brought: seq<seq<string>>)
      requires Valid()
      modifies `endMsgs, socks`arrivals
      ensures Valid() && |brought| == |socks|
      ensures View() == PollAll(old(View()), Remotes(socks), brought)
      ensures forall i | 0 <= i < |socks| ::
                && brought[i] == NextRead(old(socks[i].arrivals))
                && socks[i].arrivals == if old(socks[i].arrivals) == [] then [] else old(socks[i].arrivals)[1..]
    {
      hide Wire, EndsWithAll, Distinct, Rows, NextRead, ReadAll, PollAll, NoDup, QueueAt;
      brought := [];
      ghost var ends := Remotes(socks);
      assert PollAll(View(), ends[..0], []) == View() by { PollNone(View(), ends); }
      for i := 0 to |socks|
        invariant |brought| == i
        invariant View() == PollAll(old(View()), ends[..i], brought)
        invariant forall j | 0 <= j < |socks| ::
                    socks[j].arrivals == if j >= i || old(socks[j].arrivals) == [] then old(socks[j].arrivals)
                                         else old(socks[j].arrivals)[1..]
        invariant forall j | 0 <= j < i :: brought[j] == NextRead(old(socks[j].arrivals))
      {
        OtherSockets(socks, i);
        UpdateQueueOf(socks[i]);
        PollStep(old(View()), ends, brought, NextRead(old(socks[i].arrivals)), i);
        brought := brought + [NextRead(old(socks[i].arrivals))];
      }
      assert ends[..|socks|] == ends;
    }

    /** The messages of one pending tuple go to the end of its endpoint's queue, which is created if need be. */
    method PushEarly(end: Endpoint, msgs: seq<string>)
      modifies `endMsgs
      ensures endMsgs == old(endMsgs)[end := QueueAt(old(endMsgs), end) + msgs]
    {
      if end !in endMsgs {
        endMsgs := endMsgs[end := []];
      }
      ghost var queue := QueueAt(old(endMsgs), end);
      assert queue + msgs[..0] == queue;
      for i := 0 to |msgs|
        invariant endMsgs == old(endMsgs)[end := queue + msgs[..i]]
      {
        PrefixStep(msgs, i);
        Assoc(queue, msgs[..i], [msgs[i]]);
        endMsgs := endMsgs[end := endMsgs[end] + [msgs[i]]];
      }
      assert msgs[..|msgs|] == msgs;
    }

    /** The first loop of grab_new. */
    method TakeUsers(list: seq<Early>) returns (taken: seq<User>)
      modifies `users, `endMsgs
      ensures taken == Newcomers(list) && users == old(users) + taken
      ensures endMsgs == AdmitQueues(old(endMsgs), list)
    {
      hide AdmitQueues, Newcomers, QueueAt;
      taken := [];
      AdmitNone(endMsgs, list);
      for i := 0 to |list|
        invariant taken == Newcomers(list[..i]) && users == old(users) + taken
        invariant endMsgs == AdmitQueues(old(endMsgs), list[..i])
      {
        AdmitStep(old(endMsgs), list, i);
        users := users + [list[i].user];
        PushEarly(list[i].user.endpt, list[i].msgs);
        taken := taken + [list[i].user];
      }
      assert list[..|list|] == list;
    }

    /** Does the socket belong to one of the users? */
    method OwnerFound(end: Endpoint, deq: seq<User>) returns (found: bool)
      ensures found <==> Has(deq, end)
    {
      var i := 0;
      while i < |deq| && deq[i].endpt != end
        invariant i <= |deq| && forall j | 0 <= j < i :: deq[j].endpt != end
      {
        i := i + 1;
      }
      found := i < |deq|;
    }

    /** The second loop of grab_new: matching sockets move over, the others stay in their order. */
    method TakeSockets(comms: Comms)
      modifies `socks, comms`socks
      ensures socks == old(socks) + TakenSocks(old(comms.socks), users)
      ensures comms.socks == LeftSocks(old(comms.socks), users)
    {
      hide TakenSocks, LeftSocks, Has;
      ghost var all := comms.socks;
      assert TakenSocks(all[..0], users) == [] == LeftSocks(all[..0], users) by { NothingTaken(all, users); }
      var j := 0;
      ghost var n := 0;
      while j < |comms.socks|
        invariant n <= |all| && j <= |comms.socks|
        invariant comms.socks[..j] == LeftSocks(all[..n], users) && comms.socks[j..] == all[n..]
        invariant socks == old(socks) + TakenSocks(all[..n], users)
        decreases |comms.socks| - j
      {
        var sock := comms.socks[j];
        assert sock == all[n];
        TakenStep(all, users, n);
        var match_ := OwnerFound(sock.remote, users);
        if match_ {
          socks := socks + [sock];
          comms.socks := comms.socks[..j] + comms.socks[j + 1..];
        } else {
          j := j + 1;
        }
        n := n + 1;
      }
      assert all[..|all|] == all;
    }

    /** grab_new, with the lock held. */
    method GrabNew(comms: Comms) returns (taken: seq<User>)
      requires Valid()
      requires CanTake(users, Remotes(socks), PendingAt(comms.pending, channel), Remotes(comms.socks))
      modifies this, comms
      ensures Valid() && taken == newusers
      ensures View() == Grab(old(View()), PendingAt(old(comms.pending), channel), Remotes(old(comms.socks)))
      ensures comms.pending == old(comms.pending)[channel := []]
      ensures Remotes(comms.socks) == Unclaimed(Remotes(old(comms.socks)), users)
      ensures forall i | 0 <= i < |socks| :: socks[i] in old(socks) || socks[i] in old(comms.socks)
    {
      hide Wire, EndsWithAll, Distinct, NoDup, Rows, AdmitQueues, AdmitStreams, AdmitHandled, Newcomers, TakenSocks, LeftSocks;
      hide Claimed, Unclaimed, Has, CanTake, Remotes;
      var list := PendingAt(comms.pending, channel);
      SeatsForNewcomers(users, Remotes(socks), list, Remotes(comms.socks));
      taken := TakeUsers(list);
      comms.pending := comms.pending[channel := []];
      TakenRemotes(comms.socks, users);
      TakenAre(comms.socks, users);
      RemotesConcat(socks, TakenSocks(comms.socks, users));
      TakeSockets(comms);
      streams := AdmitStreams(streams, list, |log|);
      handled := AdmitHandled(handled, list);
      newusers := taken;
      forall s | s in socks && s.remote in streams
        ensures EndsWithAll(s.written, Wire(streams[s.remote].replies))
      {
        StreamOfSocket(old(users), Remotes(old(socks)), list, Remotes(old(comms.socks)), old(streams), |log|, s.remote);
        if s in old(socks) {
          RemoteIn(old(socks), s);
        } else {
          RemoteIn(old(comms.socks), s);
          EmptyWire(s.written);
        }
      }
    }

    /** check_user_in. */
    method CheckUserIn(user: User, deq: seq<User>) returns (found: bool)
      ensures found <==> Has(deq, user.endpt)
    {
      found := OwnerFound(user.endpt, deq);
    }

    /** The inner loop of handle_newusers: new users that are not handled yet are neither written to nor named. */
    method AnnounceJoin(newUser: User, taken: seq<User>, greeted: seq<User>) returns (usernames: string)
      requires Valid()
      modifies `streams, socks`written
      ensures Valid()
      ensures streams == Deliver(old(streams), Audience(users, taken, greeted), Joined(newUser))
      ensures usernames == NamesText(Nicks(Audience(users, taken, greeted)))
    {
      hide Deliver, Wire, EndsWithAll, Distinct, NoDup, Rows, Has, Audience, Nicks, NamesText;
      var remIp := newUser.endpt.addr;
      var msg := newUser.nick + "!" + newUser.whoami + "@" + remIp + " JOIN " + newUser.chan + "\r\n";
      ghost var said := Joined(newUser);
      assert msg == Line(said) + CRLF;
      hide Line;
      usernames := "";
      DeliverNobody(streams, said);
      NobodyNamed(users, taken, greeted);
      for j := 0 to |users|
        invariant Valid()
        invariant streams == Deliver(old(streams), Audience(users[..j], taken, greeted), said)
        invariant usernames == NamesText(Nicks(Audience(users[..j], taken, greeted)))
      {
        var user := users[j];
        ghost var told := Audience(users[..j], taken, greeted);
        AudienceStep(users, taken, greeted, j);
        assert told + [] == told;
        var isNew := CheckUserIn(user, taken);
        var isGreeted := CheckUserIn(user, greeted);
        if !isNew || isGreeted {
          assert user in users;
          DeliverMore(old(streams), told, user, said);
          TryWriting(user, msg, said);
          NamedOneMore(told, user);
          usernames := usernames + ("@" + user.nick + " ");
        }
      }
      assert users[..|users|] == users;
    }

    /** The topic, the names and the end of the names, for the new user alone. */
    method WriteGreeting(newUser: User, usernames: string, ghost nicks: seq<string>)
      requires Valid() && newUser.endpt in Remotes(socks) && usernames == NamesText(nicks)
      modifies `streams, socks`written
      ensures Valid()
      ensures var s2 := Deliver(old(streams), [newUser], TopicIs(host, newUser, topic));
              var s3 := Deliver(s2, [newUser], Names(host, newUser, nicks));
              streams == Deliver(s3, [newUser], EndOfNames(host, newUser))
    {
      hide Deliver, Wire, EndsWithAll, Distinct, NoDup, Rows, NamesText, Remotes;
      var locIp := host;
      var msg := locIp + " " + RPL_TOPIC + " " + newUser.nick + " " + newUser.chan + " " + ":" + topic + "\r\n";
      assert msg == Line(TopicIs(host, newUser, topic)) + CRLF;
      TryWriting(newUser, msg, TopicIs(host, newUser, topic));
      msg := locIp + " " + RPL_NAMREPLY + " " + newUser.nick + " " + newUser.chan + " " + ":" + usernames + "\r\n";
      assert msg == Line(Names(host, newUser, nicks)) + CRLF;
      TryWriting(newUser, msg, Names(host, newUser, nicks));
      msg := locIp + " " + RPL_ENDOFNAMES + " " + newUser.nick + " " + newUser.chan + " " + ":End of NAMES list\r\n";
      assert msg == Line(EndOfNames(host, newUser)) + CRLF by { EndLine(host, newUser, msg); }
      TryWriting(newUser, msg, EndOfNames(host, newUser));
    }

    /** One turn of the loop of handle_newusers. */
    method GreetNewUser(newUser: User, taken: seq<User>, greeted: seq<User>)
      requires Valid() && newUser.endpt in Remotes(socks)
      modifies `streams, socks`written
      ensures Valid()
      ensures streams == Greetings(old(View()), newUser, Audience(users, taken, greeted))
    {
      hide Deliver, Wire, EndsWithAll, Distinct, NoDup, Rows, Has, Audience, Nicks, Remotes;
      var usernames := AnnounceJoin(newUser, taken, greeted);
      WriteGreeting(newUser, usernames, Nicks(Audience(users, taken, greeted)));
    }

    /** handle_newusers: claim, then greet one new user after the other. */
    method HandleNewusers(comms: Comms)
      requires Valid()
      requires CanTake(users, Remotes(socks), PendingAt(comms.pending, channel), Remotes(comms.socks))
      modifies this, comms, socks`written, comms.socks`written
      ensures Valid()
      ensures View() == HandleNewUsers(Grab(old(View()), PendingAt(old(comms.pending), channel), Remotes(old(comms.socks))))
      ensures comms.pending == old(comms.pending)[channel := []]
      ensures Remotes(comms.socks) == Unclaimed(Remotes(old(comms.socks)), users)
      ensures forall i | 0 <= i < |socks| :: socks[i] in old(socks) || socks[i] in old(comms.socks)
    {
      hide Deliver, Wire, EndsWithAll, Distinct, NoDup, Rows, Has, Audience, Nicks, CanTake, Remotes, Grab, Unclaimed, Greetings;
      hide GreetUpto;
      ghost var list := PendingAt(comms.pending, channel);
      var taken := GrabNew(comms);
      ghost var r := View();
      assert forall u | u in taken :: u in users by {
        GrabbedAreUsers(old(View()), list, Remotes(old(comms.socks)));
      }
      GreetNobody(r);
      var greeted := [];
      for i := 0 to |taken|
        invariant Valid() && greeted == taken[..i]
        invariant View() == GreetUpto(r, i)
        modifies `streams, socks`written
      {
        PrefixStep(taken, i);
        greeted := greeted + [taken[i]];
        assert taken[i] in users;
        GreetNewUser(taken[i], taken, greeted);
        GreetOneMore(r, i);
      }
      newusers := [];
    }

    /** check_newusers. */
    method CheckNewusers(notify: AtomicFlag) returns (set_: bool)
      ensures set_ == notify.value
    {
      set_ := notify.value;
    }

    /** One iteration of thread_run: join whoever is pending, read what is available, handle what is queued. `false` is the
        exception that ends the thread. `live` are the sockets that were polled and `brought` what their next reads held;
        `order` is the order of the keys, empty when there was nothing to handle. */
    method Iterate(comms: Comms, notify: AtomicFlag)
      returns (ok: bool, ghost live: seq<Socket>, ghost brought: seq<seq<string>>, ghost order: seq<Endpoint>)
      requires Valid()
      requires CanTake(users, Remotes(socks), PendingAt(comms.pending, channel), Remotes(comms.socks))
      modifies this, comms, socks, comms.socks
      ensures |brought| == |live|
      ensures forall i | 0 <= i < |live| :: live[i] in old(socks) || live[i] in old(comms.socks)
      ensures forall i | 0 <= i < |live| :: brought[i] == NextRead(old(live[i].arrivals))
      ensures forall i | 0 <= i < |live| ::
                live[i].arrivals == if old(live[i].arrivals) == [] then [] else old(live[i].arrivals)[1..]
      ensures var joined := if old(notify.value)
                            then HandleNewUsers(Grab(old(View()), PendingAt(old(comms.pending), channel), Remotes(old(comms.socks))))
                            else old(View());
              && Remotes(live) == joined.socks
              && comms.pending == (if old(notify.value) then old(comms.pending)[channel := []] else old(comms.pending))
              && Remotes(comms.socks) == (if old(notify.value) then Unclaimed(Remotes(old(comms.socks)), joined.users)
                                          else Remotes(old(comms.socks)))
              && var polled := PollAll(joined, joined.socks, brought);
                 && NoDup(order)
                 && (if NothingQueued(polled) then order == [] else forall e :: e in order <==> e in polled.queues)
                 && match HandleAll(polled, order)
                    case None => !ok
                    case Some(q) => ok && Valid() && View() == q
    {
      hide HandleAll, Wire, EndsWithAll, Distinct, NoDup, Rows, Has, CanTake, Remotes, Grab, HandleNewUsers, PollAll, PendingAt;
      hide Unclaimed, NextRead;
      var check := CheckNewusers(notify);
      if check {
        HandleNewusers(comms);
      }
      live := socks;
      brought := UpdateEndmsgs();
      ghost var polled := View();
      check := CheckEndmsgs();
      order := [];
      ok := true;
      NobodyInOrder();
      HandleNobody(polled);
      if check {
        ok, order := HandleEndmsgs();
      }
    }
  }
}
