/** One call of Servlet.Iterate is one iteration of the transition system: the same steps, the same room. */
module Iteration {
  import opened Strings
  import opened Sockio
  import opened Room
  import opened Chitter
  import opened Handoff
  import opened HandoffInvariant
  import opened HandoffTheorems
  import opened Servlets
  import opened BatchJoin

  /** What Servlet.Iterate demands of the shared structures holds in every run. */
  lemma CanTakeInEveryRun(cfg: Config, accounts: Accounts, topics: map<string, string>, steps: seq<Step>, s: System, c: string)
    requires Reached(cfg, accounts, topics, steps, s) && c in s.threads
    ensures var r := s.threads[c].room; CanTake(r.users, r.socks, PendingAt(s.pending, c), s.socks)
  {
    hide Reached, Distinct, NoDup, Newcomers, Has;
    SocketsMatchUsers(cfg, accounts, topics, steps, s);
    var r, list := s.threads[c].room, PendingAt(s.pending, c);
    forall p | p in list
      ensures !Has(r.users, p.user.endpt) && p.user.endpt in s.socks
    {
      assert p.user.endpt in NewEnds(list);
      PendingIsNew(s, c, p.user.endpt);
      assert IsPending(s, c, p.user.endpt);
      assert IsMember(s, c, p.user.endpt) ==> !IsPending(s, c, p.user.endpt);
    }
    forall e | e in r.socks
      ensures e !in s.socks
    {
      assert IsMember(s, c, e);
    }
  }

  // ---- Runs ----

  lemma {:induction false} RunConcat(cfg: Config, s: System, a: seq<Step>, b: seq<Step>)
    requires Run(cfg, s, a).Some?
    ensures Run(cfg, s, a + b) == Run(cfg, Run(cfg, s, a).value, b)
    decreases |b|
  {
    hide Next;
    if b == [] {
      assert a + b == a;
    } else {
      var n := |b| - 1;
      assert (a + b)[..|a + b| - 1] == a + b[..n];
      RunConcat(cfg, s, a, b[..n]);
    }
  }

  lemma RunOne(cfg: Config, s: System, step: Step)
    ensures Run(cfg, s, [step]) == Next(cfg, s, step)
  {
    hide Next;
    assert [step][..0] == [];
    assert Run(cfg, s, []) == Some(s);
  }

  lemma RunThen(cfg: Config, s: System, a: seq<Step>, q: System, step: Step)
    requires Run(cfg, s, a) == Some(q)
    ensures Run(cfg, s, a + [step]) == Next(cfg, q, step)
  {
    hide Next, Run;
    RunConcat(cfg, s, a, [step]);
    RunOne(cfg, q, step);
  }

  /** The servlet of `c` is in this phase with this room. */
  ghost predicate At(s: System, c: string, phase: Phase, room: Room) {
    Running(s, c) && s.threads[c].phase == phase && s.threads[c].room == room
  }

  // ---- Polling ----

  function PollSteps(c: string, ks: seq<nat>): (steps: seq<Step>) {
    if ks == [] then [] else PollSteps(c, ks[..|ks| - 1]) + [PollOne(c, ks[|ks| - 1])]
  }

  /** The reads bring the next `ks[i]` unread messages of each connection. */
  ghost predicate Available(conns: map<Endpoint, Conn>, ends: seq<Endpoint>, ks: seq<nat>) {
    |ks| == |ends| && forall i | 0 <= i < |ends| :: ends[i] in conns && ks[i] <= |conns[ends[i]].unread|
  }

  ghost function Brought(conns: map<Endpoint, Conn>, ends: seq<Endpoint>, ks: seq<nat>): (b: seq<seq<string>>)
    requires Available(conns, ends, ks)
    ensures |b| == |ends|
  {
    seq(|ends|, i requires 0 <= i < |ends| => conns[ends[i]].unread[..ks[i]])
  }

  ghost predicate SameConns(a: map<Endpoint, Conn>, b: map<Endpoint, Conn>, ends: seq<Endpoint>) {
    a.Keys == b.Keys && forall e | e in ends && e in a :: a[e].unread == b[e].unread
  }

  lemma PollOnce(cfg: Config, s: System, c: string, room: Room, ends: seq<Endpoint>, k: nat)
    requires ends != [] && At(s, c, Polling(ends), room) && ends[0] in s.conns && k <= |s.conns[ends[0]].unread|
    ensures match Next(cfg, s, PollOne(c, k))
            case None => false
            case Some(q) => At(q, c, Polling(ends[1..]), Poll(room, ends[0], s.conns[ends[0]].unread[..k]))
                            && q.conns.Keys == s.conns.Keys
                            && forall e | e in s.conns && e != ends[0] :: q.conns[e] == s.conns[e]
  {
    hide Poll;
  }

  lemma {:induction false} PollRun(cfg: Config, s: System, c: string, room: Room, ends: seq<Endpoint>, ks: seq<nat>, n: nat)
    requires At(s, c, Polling(ends), room) && NoDup(ends) && Available(s.conns, ends, ks) && n <= |ends|
    ensures match Run(cfg, s, PollSteps(c, ks[..n]))
            case None => false
            case Some(q) => At(q, c, Polling(ends[n..]), PollAll(room, ends[..n], Brought(s.conns, ends, ks)[..n]))
                            && SameConns(q.conns, s.conns, ends[n..])
    decreases n
  {
    hide Next, Poll, NoDup;
    var brought := Brought(s.conns, ends, ks);
    if n == 0 {
      assert ks[..0] == [] && ends[0..] == ends;
    } else {
      var m := n - 1;
      PollRun(cfg, s, c, room, ends, ks, m);
      var q := Run(cfg, s, PollSteps(c, ks[..m])).value;
      PrefixStep(ks, m);
      PollStep(room, ends, brought[..m], brought[m], m);
      PrefixStep(brought, m);
      assert ends[m..][0] == ends[m] && ends[m..][1..] == ends[n..];
      assert ends[m] in ends[m..];
      PollOnce(cfg, q, c, PollAll(room, ends[..m], brought[..m]), ends[m..], ks[m]);
      RunThen(cfg, s, PollSteps(c, ks[..m]), q, PollOne(c, ks[m]));
      forall e | e in ends[n..]
        ensures e in ends[m..] && e != ends[m]
      {
        LaterDiffers(ends, m, e);
      }
    }
  }

  lemma LaterDiffers(ends: seq<Endpoint>, m: nat, e: Endpoint)
    requires NoDup(ends) && m < |ends| && e in ends[m + 1..]
    ensures e in ends[m..] && e != ends[m]
  {
    var i :| 0 <= i < |ends[m + 1..]| && ends[m + 1..][i] == e;
    assert ends[m..][i + 1] == e && ends[m + 1 + i] == e;
  }

  // ---- Handling ----

  function HandleSteps(c: string, n: nat): (steps: seq<Step>) {
    if n == 0 then [] else HandleSteps(c, n - 1) + [HandleOne(c)]
  }

  lemma HandleOnce(cfg: Config, s: System, c: string, room: Room, order: seq<Endpoint>)
    requires order != [] && At(s, c, Handling(order), room) && order[0] in s.conns && HandleEntry(room, order[0]).Some?
    ensures match Next(cfg, s, HandleOne(c))
            case None => false
            case Some(q) => At(q, c, Handling(order[1..]), HandleEntry(room, order[0]).value) && q.conns.Keys == s.conns.Keys
  {
    hide HandleEntry, Has;
  }

  lemma {:induction false} HandleAllMore(room: Room, order: seq<Endpoint>, e: Endpoint)
    ensures HandleAll(room, order + [e]) == match HandleAll(room, order)
                                            case None => None
                                            case Some(q) => HandleEntry(q, e)
    decreases |order|
  {
    hide HandleEntry;
    if order == [] {
      assert ([] + [e])[1..] == [];
    } else {
      assert (order + [e])[1..] == order[1..] + [e];
      match HandleEntry(room, order[0])
      case None =>
      case Some(next) => HandleAllMore(next, order[1..], e);
    }
  }

  /** Handling the first `n` keys, if none of them ends the thread. */
  lemma {:induction false} HandleRun(cfg: Config, s: System, c: string, room: Room, order: seq<Endpoint>, n: nat)
    requires At(s, c, Handling(order), room) && n <= |order| && HandleAll(room, order[..n]).Some?
    requires forall e | e in order :: e in s.conns
    ensures match Run(cfg, s, HandleSteps(c, n))
            case None => false
            case Some(q) => At(q, c, Handling(order[n..]), HandleAll(room, order[..n]).value) && q.conns.Keys == s.conns.Keys
    decreases n
  {
    hide Next, HandleEntry, HandleAll;
    if n == 0 {
      assert order[0..] == order && order[..0] == [];
      HandleNobody(room);
    } else {
      var m := n - 1;
      PrefixStep(order, m);
      HandleAllMore(room, order[..m], order[m]);
      HandleRun(cfg, s, c, room, order, m);
      var q := Run(cfg, s, HandleSteps(c, m)).value;
      assert order[m..][0] == order[m] && order[m..][1..] == order[n..];
      HandleOnce(cfg, q, c, HandleAll(room, order[..m]).value, order[m..]);
      RunThen(cfg, s, HandleSteps(c, m), q, HandleOne(c));
    }
  }

  lemma HandleLast(cfg: Config, s: System, c: string, room: Room, order: seq<Endpoint>)
    requires order != [] && At(s, c, Handling(order), room) && order[0] in s.conns && HandleEntry(room, order[0]).None?
    ensures match Next(cfg, s, HandleOne(c))
            case None => false
            case Some(q) => Died(q, c, room)
  {
    hide HandleEntry, Drop, Emptied;
  }

  /** The thread of `c` has ended with an exception; everything it held is gone. */
  ghost predicate Died(s: System, c: string, room: Room) {
    c in s.threads && !s.threads[c].alive && s.threads[c].room == Emptied(room)
  }

  lemma {:induction false} FirstFailure(room: Room, order: seq<Endpoint>) returns (n: nat)
    requires HandleAll(room, order).None?
    ensures n < |order| && HandleAll(room, order[..n]).Some? && HandleEntry(HandleAll(room, order[..n]).value, order[n]).None?
    decreases |order|
  {
    hide HandleEntry;
    match HandleEntry(room, order[0])
    case None =>
      n := 0;
      assert order[..0] == [];
    case Some(next) =>
      var k := FirstFailure(next, order[1..]);
      n := k + 1;
      assert order[..n][1..] == order[1..][..k] && order[1..][k] == order[n];
  }

  // ---- The whole iteration ----

  function OpeningSteps(c: string, ks: seq<nat>, order: seq<Endpoint>): seq<Step> {
    [CheckFlag(c), GrabNew(c), Greet(c)] + (PollSteps(c, ks) + [StartHandling(c, order)])
  }

  function StepsOfIteration(c: string, ks: seq<nat>, order: seq<Endpoint>): seq<Step> {
    OpeningSteps(c, ks, order) + (HandleSteps(c, |order|) + [EndIteration(c)])
  }

  /** An iteration that ends in the handling of the key at `n`. */
  function StepsToDeath(c: string, ks: seq<nat>, order: seq<Endpoint>, n: nat): seq<Step> {
    OpeningSteps(c, ks, order) + (HandleSteps(c, n) + [HandleOne(c)])
  }

  ghost function JoinedRoom(s: System, c: string): Room
    requires c in s.threads
  {
    HandleNewUsers(Grab(s.threads[c].room, PendingAt(s.pending, c), s.socks))
  }

  ghost predicate SameUnread(a: map<Endpoint, Conn>, b: map<Endpoint, Conn>) {
    a.Keys == b.Keys && forall e | e in a :: a[e].unread == b[e].unread
  }

  lemma GrabGives(cfg: Config, s: System, c: string, room: Room)
    requires At(s, c, Grabbing, room)
    ensures match Next(cfg, s, GrabNew(c))
            case None => false
            case Some(q) => At(q, c, Greeting, Grab(room, PendingAt(s.pending, c), s.socks)) && SameUnread(q.conns, s.conns)
  {
    hide Grab, Unclaimed, NewEnds, PendingAt;
  }

  lemma GreetGives(cfg: Config, s: System, c: string, room: Room)
    requires At(s, c, Greeting, room)
    ensures match Next(cfg, s, Greet(c))
            case None => false
            case Some(q) => At(q, c, Polling(HandleNewUsers(room).socks), HandleNewUsers(room)) && q.conns == s.conns
  {
    hide HandleNewUsers;
  }

  /** Checking, grabbing and greeting. */
  lemma JoinSteps(cfg: Config, accounts: Accounts, topics: map<string, string>, steps: seq<Step>, s: System, c: string)
    requires Reached(cfg, accounts, topics, steps, s) && Running(s, c) && s.threads[c].phase.Checking?
    ensures match Run(cfg, s, [CheckFlag(c), GrabNew(c), Greet(c)])
            case None => false
            case Some(q) => At(q, c, Polling(JoinedRoom(s, c).socks), JoinedRoom(s, c))
                            && NoDup(JoinedRoom(s, c).socks) && SameUnread(q.conns, s.conns) && SystemOk(q)
  {
    hide Reached, SystemOk, Grab, HandleNewUsers, NoDup, Run, PendingAt;
    EveryRunOk(cfg, accounts, topics, steps, s);
    CheckAlwaysGrabs(cfg, accounts, topics, steps, s, c);
    RunOne(cfg, s, CheckFlag(c));
    var s1 := DoCheck(s, c).value;
    assert Next(cfg, s, CheckFlag(c)) == Some(s1);
    assert At(s1, c, Grabbing, s.threads[c].room);
    hide Next, DoCheck;
    GrabGives(cfg, s1, c, s.threads[c].room);
    RunThen(cfg, s, [CheckFlag(c)], s1, GrabNew(c));
    var s2 := Next(cfg, s1, GrabNew(c)).value;
    GreetGives(cfg, s2, c, s2.threads[c].room);
    RunThen(cfg, s, [CheckFlag(c)] + [GrabNew(c)], s2, Greet(c));
    var s3 := Next(cfg, s2, Greet(c)).value;
    assert [CheckFlag(c)] + [GrabNew(c)] + [Greet(c)] == [CheckFlag(c), GrabNew(c), Greet(c)];
    RunKeepsSystem(cfg, s, [CheckFlag(c), GrabNew(c), Greet(c)], s3);
    MembersConnected(s3, c);
  }

  lemma MembersConnected(s: System, c: string)
    requires SystemOk(s) && c in s.threads
    ensures NoDup(s.threads[c].room.socks)
    ensures forall e | Has(s.threads[c].room.users, e) :: e in s.conns
    ensures forall e :: e in s.threads[c].room.socks <==> Has(s.threads[c].room.users, e)
  {
    hide AcceptOk, PendingOk, SocksOk, FlagsOk, AuthOk, RoomSettled, MembersInOrder, PhaseOk, Has, NoDup;
    assert ThreadOk(s.threads[c], c, s.conns);
  }

  lemma {:induction false} RunKeepsSystem(cfg: Config, s: System, steps: seq<Step>, q: System)
    requires SystemOk(s) && Run(cfg, s, steps) == Some(q)
    ensures SystemOk(q)
    decreases |steps|
  {
    hide SystemOk, Next;
    if steps != [] {
      var before := Run(cfg, s, steps[..|steps| - 1]).value;
      RunKeepsSystem(cfg, s, steps[..|steps| - 1], before);
      StepKeepsSystem(cfg, before, steps[|steps| - 1]);
    }
  }

  lemma QueuesConnected(s: System, c: string)
    requires SystemOk(s) && c in s.threads
    ensures forall e | e in s.threads[c].room.queues :: e in s.conns
  {
    hide SystemOk, RoomSettled, Has;
    MembersConnected(s, c);
    assert RoomSettled(s.threads[c].room) by { RoomIsSettled(s, c); }
    SettledKeys(s.threads[c].room);
  }

  lemma RoomIsSettled(s: System, c: string)
    requires SystemOk(s) && c in s.threads
    ensures RoomSettled(s.threads[c].room)
  {
    hide AcceptOk, PendingOk, SocksOk, FlagsOk, AuthOk, RoomSettled, MembersInOrder, PhaseOk, OwnsMembers;
    assert ThreadOk(s.threads[c], c, s.conns);
  }

  lemma PollsThenStart(cfg: Config, s: System, c: string, room: Room, ends: seq<Endpoint>, ks: seq<nat>, order: seq<Endpoint>)
    requires SystemOk(s) && At(s, c, Polling(ends), room) && NoDup(ends) && Available(s.conns, ends, ks)
    requires NoDup(order) && (set e | e in order) == PollAll(room, ends, Brought(s.conns, ends, ks)).queues.Keys
    ensures match Run(cfg, s, PollSteps(c, ks) + [StartHandling(c, order)])
            case None => false
            case Some(q) => At(q, c, Handling(order), PollAll(room, ends, Brought(s.conns, ends, ks))) && SystemOk(q)
  {
    hide SystemOk, Run, PollAll, NoDup, PollSteps;
    var brought := Brought(s.conns, ends, ks);
    PollRun(cfg, s, c, room, ends, ks, |ends|);
    assert ks[..|ends|] == ks && ends[..|ends|] == ends && ends[|ends|..] == [] && brought[..|ends|] == brought;
    var a := PollSteps(c, ks);
    var s1 := Run(cfg, s, a).value;
    RunThen(cfg, s, a, s1, StartHandling(c, order));
    RunKeepsSystem(cfg, s, a, s1);
    StepKeepsSystem(cfg, s1, StartHandling(c, order));
  }

  lemma OrderConnected(s: System, c: string, room: Room, order: seq<Endpoint>)
    requires SystemOk(s) && c in s.threads && s.threads[c].room == room && (set e | e in order) == room.queues.Keys
    ensures forall e | e in order :: e in s.conns
  {
    hide SystemOk;
    QueuesConnected(s, c);
    forall e | e in order
      ensures e in s.conns
    {
      assert e in (set x | x in order);
    }
  }

  lemma HandlesThenEnd(cfg: Config, s: System, c: string, room: Room, order: seq<Endpoint>)
    requires SystemOk(s) && At(s, c, Handling(order), room) && HandleAll(room, order).Some?
    requires (set e | e in order) == room.queues.Keys
    ensures match Run(cfg, s, HandleSteps(c, |order|) + [EndIteration(c)])
            case None => false
            case Some(q) => At(q, c, Checking, HandleAll(room, order).value)
  {
    hide SystemOk, Run, HandleAll, HandleSteps;
    OrderConnected(s, c, room, order);
    assert order[..|order|] == order && order[|order|..] == [];
    HandleRun(cfg, s, c, room, order, |order|);
    RunThen(cfg, s, HandleSteps(c, |order|), Run(cfg, s, HandleSteps(c, |order|)).value, EndIteration(c));
  }

  lemma HandlesThenDie(cfg: Config, s: System, c: string, room: Room, order: seq<Endpoint>, n: nat)
    requires SystemOk(s) && At(s, c, Handling(order), room) && (set e | e in order) == room.queues.Keys
    requires n < |order| && HandleAll(room, order[..n]).Some? && HandleEntry(HandleAll(room, order[..n]).value, order[n]).None?
    ensures match Run(cfg, s, HandleSteps(c, n) + [HandleOne(c)])
            case None => false
            case Some(q) => Died(q, c, HandleAll(room, order[..n]).value)
  {
    hide SystemOk, Run, Next, HandleAll, HandleSteps, HandleEntry, Died;
    OrderConnected(s, c, room, order);
    HandleRun(cfg, s, c, room, order, n);
    var q := Run(cfg, s, HandleSteps(c, n)).value;
    assert order[n..][0] == order[n];
    HandleLast(cfg, q, c, HandleAll(room, order[..n]).value, order[n..]);
    RunThen(cfg, s, HandleSteps(c, n), q, HandleOne(c));
  }

  /** The room between polling and handling. */
  ghost function PolledRoom(s: System, c: string, ks: seq<nat>): Room
    requires c in s.threads && Available(s.conns, JoinedRoom(s, c).socks, ks)
  {
    var joined := JoinedRoom(s, c);
    PollAll(joined, joined.socks, Brought(s.conns, joined.socks, ks))
  }

  /** An iteration can begin: these reads are available, and this is an order of the keys. */
  ghost predicate CanIterate(s: System, c: string, ks: seq<nat>, order: seq<Endpoint>) {
    && Running(s, c) && s.threads[c].phase.Checking? && Available(s.conns, JoinedRoom(s, c).socks, ks)
    && NoDup(order) && (set e | e in order) == PolledRoom(s, c, ks).queues.Keys
  }

  lemma OpeningRun(cfg: Config, accounts: Accounts, topics: map<string, string>, steps: seq<Step>, s: System, c: string,
                   ks: seq<nat>, order: seq<Endpoint>)
    requires Reached(cfg, accounts, topics, steps, s) && CanIterate(s, c, ks, order)
    ensures match Run(cfg, s, OpeningSteps(c, ks, order))
            case None => false
            case Some(q) => At(q, c, Handling(order), PolledRoom(s, c, ks)) && SystemOk(q)
  {
    hide Reached, SystemOk, Run, PollAll, NoDup, JoinedRoom, PollSteps, Next;
    JoinSteps(cfg, accounts, topics, steps, s, c);
    var joined := JoinedRoom(s, c);
    var first := [CheckFlag(c), GrabNew(c), Greet(c)];
    var q := Run(cfg, s, first).value;
    assert Brought(q.conns, joined.socks, ks) == Brought(s.conns, joined.socks, ks);
    PollsThenStart(cfg, q, c, joined, joined.socks, ks, order);
    RunConcat(cfg, s, first, PollSteps(c, ks) + [StartHandling(c, order)]);
  }

  /** The steps of one iteration, run without interruption, leave the servlet with the room that Servlet.Iterate computes:
      the pending users joined and greeted, the sockets polled, the queues handled. */
  lemma IterationIsSteps(cfg: Config, accounts: Accounts, topics: map<string, string>, steps: seq<Step>, s: System, c: string,
                         ks: seq<nat>, order: seq<Endpoint>)
    requires Reached(cfg, accounts, topics, steps, s) && CanIterate(s, c, ks, order)
    requires HandleAll(PolledRoom(s, c, ks), order).Some?
    ensures match Run(cfg, s, StepsOfIteration(c, ks, order))
            case None => false
            case Some(q) => At(q, c, Checking, HandleAll(PolledRoom(s, c, ks), order).value)
  {
    hide Reached, SystemOk, Run, HandleAll, NoDup, PolledRoom, OpeningSteps, HandleSteps, Next, At;
    OpeningRun(cfg, accounts, topics, steps, s, c, ks, order);
    var q := Run(cfg, s, OpeningSteps(c, ks, order)).value;
    HandlesThenEnd(cfg, q, c, PolledRoom(s, c, ks), order);
    RunConcat(cfg, s, OpeningSteps(c, ks, order), HandleSteps(c, |order|) + [EndIteration(c)]);
  }

  /** When Servlet.Iterate reports an exception, the same steps end the thread, at the first key whose queue throws. */
  lemma DeathIsSteps(cfg: Config, accounts: Accounts, topics: map<string, string>, steps: seq<Step>, s: System, c: string,
                     ks: seq<nat>, order: seq<Endpoint>)
    returns (n: nat)
    requires Reached(cfg, accounts, topics, steps, s) && CanIterate(s, c, ks, order)
    requires HandleAll(PolledRoom(s, c, ks), order).None?
    ensures n < |order| && HandleAll(PolledRoom(s, c, ks), order[..n]).Some?
    ensures match Run(cfg, s, StepsToDeath(c, ks, order, n))
            case None => false
            case Some(q) => Died(q, c, HandleAll(PolledRoom(s, c, ks), order[..n]).value)
  {
    hide Reached, SystemOk, Run, HandleAll, NoDup, PolledRoom, OpeningSteps, HandleSteps, Next, At, HandleEntry, Died;
    n := FirstFailure(PolledRoom(s, c, ks), order);
    OpeningRun(cfg, accounts, topics, steps, s, c, ks, order);
    var q := Run(cfg, s, OpeningSteps(c, ks, order)).value;
    HandlesThenDie(cfg, q, c, PolledRoom(s, c, ks), order, n);
    RunConcat(cfg, s, OpeningSteps(c, ks, order), HandleSteps(c, n) + [HandleOne(c)]);
  }
}
