/** grab_new under the lock: a servlet takes exactly the users and sockets of its own channel
    (src/server/Servlet.cpp:74-116). */
module HandoffGrab {
  import opened Sockio
  import opened Irc
  import opened Room
  import opened RoomInvariant
  import opened Handoff
  import opened HandoffInvariant
  import BatchJoin

  // ---- Dividing the shared deque of sockets ----

  lemma {:induction false} ClaimedAre(socks: seq<Endpoint>, us: seq<User>, x: Endpoint)
    ensures x in Claimed(socks, us) <==> x in socks && Has(us, x)
    ensures x in Unclaimed(socks, us) <==> x in socks && !Has(us, x)
  {
    hide Has;
    if socks != [] {
      var n := |socks| - 1;
      ClaimedAre(socks[..n], us, x);
      assert socks == socks[..n] + [socks[n]];
    }
  }

  /** `x` comes before `y`. */
  predicate Follows<T(==)>(s: seq<T>, x: T, y: T) {
    exists i, j | 0 <= i < j < |s| :: s[i] == x && s[j] == y
  }

  /** What comes one after the other in `part` does so in `all`. */
  predicate InOrderOf<T(==)>(part: seq<T>, all: seq<T>) {
    forall i, j | 0 <= i < j < |part| :: Follows(all, part[i], part[j])
  }

  lemma FollowsLast<T>(s: seq<T>, x: T, y: T)
    ensures Follows(s, x, y) ==> Follows(s + [y], x, y)
    ensures x in s ==> Follows(s + [y], x, y)
  {
    if x in s {
      var i :| 0 <= i < |s| && s[i] == x;
      assert (s + [y])[i] == x && (s + [y])[|s|] == y;
    }
    if Follows(s, x, y) {
      var i, j :| 0 <= i < j < |s| && s[i] == x && s[j] == y;
      assert (s + [y])[i] == x && (s + [y])[j] == y;
    }
  }

  lemma OrderKept<T>(part: seq<T>, all: seq<T>, x: T, taken: bool)
    requires InOrderOf(part, all) && forall y | y in part :: y in all
    ensures InOrderOf(if taken then part + [x] else part, all + [x])
  {
    var longer := if taken then part + [x] else part;
    forall i, j | 0 <= i < j < |longer|
      ensures Follows(all + [x], longer[i], longer[j])
    {
      if j < |part| {
        assert Follows(all, part[i], part[j]);
        var a, b :| 0 <= a < b < |all| && all[a] == part[i] && all[b] == part[j];
        assert (all + [x])[a] == longer[i] && (all + [x])[b] == longer[j];
      } else {
        FollowsLast(all, part[i], x);
      }
    }
  }

  /** Neither the sockets that are taken nor those that are left change their order. */
  lemma {:induction false} ClaimedInOrder(socks: seq<Endpoint>, us: seq<User>)
    ensures InOrderOf(Claimed(socks, us), socks) && InOrderOf(Unclaimed(socks, us), socks)
  {
    hide Has, InOrderOf;
    if socks == [] {
      NothingInOrder(socks);
    } else {
      var n := |socks| - 1;
      ClaimedInOrder(socks[..n], us);
      assert socks == socks[..n] + [socks[n]];
      forall x | x in Claimed(socks[..n], us) || x in Unclaimed(socks[..n], us)
        ensures x in socks[..n]
      {
        ClaimedAre(socks[..n], us, x);
      }
      OrderKept(Claimed(socks[..n], us), socks[..n], socks[n], Has(us, socks[n]));
      OrderKept(Unclaimed(socks[..n], us), socks[..n], socks[n], !Has(us, socks[n]));
      assert Claimed(socks[..n], us) + [] == Claimed(socks[..n], us);
      assert Unclaimed(socks[..n], us) + [] == Unclaimed(socks[..n], us);
    }
  }

  lemma NothingInOrder<T>(all: seq<T>)
    ensures InOrderOf([], all)
  {
  }

  lemma {:induction false} ClaimedNoDup(socks: seq<Endpoint>, us: seq<User>)
    requires NoDup(socks)
    ensures NoDup(Claimed(socks, us)) && NoDup(Unclaimed(socks, us))
  {
    hide Has;
    if socks != [] {
      var n := |socks| - 1;
      ClaimedNoDup(socks[..n], us);
      ClaimedAre(socks[..n], us, socks[n]);
      NotInPrefix(socks, n);
      AppendNoDup(Claimed(socks[..n], us), socks[n]);
      AppendNoDup(Unclaimed(socks[..n], us), socks[n]);
    }
  }

  lemma NotInPrefix(socks: seq<Endpoint>, n: nat)
    requires NoDup(socks) && n < |socks|
    ensures socks[n] !in socks[..n]
  {
  }

  lemma AppendNoDup(a: seq<Endpoint>, x: Endpoint)
    requires NoDup(a) && x !in a
    ensures NoDup(a + [x])
  {
  }

  lemma ConcatNoDup(a: seq<Endpoint>, b: seq<Endpoint>)
    requires NoDup(a) && NoDup(b) && forall x | x in b :: x !in a
    ensures NoDup(a + b)
  {
    var s := a + b;
    forall i, j | 0 <= i < j < |s|
      ensures s[i] != s[j]
    {
      if i < |a| <= j {
        assert s[j] == b[j - |a|] && b[j - |a|] in b && s[i] in a;
      }
    }
  }

  // ---- The servlet's side ----

  /** The pending users of a channel can join its room. */
  lemma PendingAdmissible(r: Room, c: string, list: seq<Early>, conns: map<Endpoint, Conn>)
    requires r.chan == c && ListOk(list, c, conns) && OwnsMembers(r, c, conns)
    ensures Admissible(r, list)
    ensures forall e | e in NewEnds(list) :: e in conns && conns[e].place == Pending(c)
  {
    hide InOrder, Has, Distinct, Newcomers, NoDup;
    forall p | p in list
      ensures p.user.chan == c && !Has(r.users, p.user.endpt)
    {
      assert EarlyOk(p, c, conns);
    }
  }

  lemma GrabKeepsRoom(r: Room, list: seq<Early>, socks: seq<Endpoint>)
    requires RoomSettled(r) && r.newusers == [] && Admissible(r, list)
    ensures RoomSettled(Grab(r, list, socks))
  {
    hide MemberOk, Admissible, KeysMatch, Distinct, Claimed, AdmitQueues, AdmitStreams, AdmitHandled, Newcomers;
    AdmitKeepsRoom(r, list);
    KnowledgeOnly(Admit(r, list), Grab(r, list, socks), |r.users|);
    var q := Grab(r, list, socks);
    assert q.users[|r.users|..] == Newcomers(list);
  }

  lemma GrabbedUsers(r: Room, list: seq<Early>, e: Endpoint)
    ensures Has(Admit(r, list).users, e) <==> Has(r.users, e) || e in NewEnds(list)
  {
    hide Has, NewEnds, Newcomers;
    NewcomersAre(list, e);
    HasConcat(r.users, Newcomers(list), e);
  }

  lemma GrabKeepsOwnership(r: Room, c: string, list: seq<Early>, socks: seq<Endpoint>, conns: map<Endpoint, Conn>)
    requires OwnsMembers(r, c, conns) && SocksOk(socks, conns)
    requires forall e | e in NewEnds(list) :: e in conns && conns[e].place == Pending(c)
    ensures OwnsMembers(Grab(r, list, socks), c, Claim(conns, NewEnds(list), c))
  {
    hide Has, NoDup, NewEnds, Claimed, AdmitQueues, AdmitStreams, AdmitHandled, Newcomers;
    var us := Admit(r, list).users;
    ClaimedNoDup(socks, us);
    forall x
      ensures x in Claimed(socks, us) <==> x in NewEnds(list)
    {
      ClaimedAre(socks, us, x);
      GrabbedUsers(r, list, x);
    }
    ConcatNoDup(r.socks, Claimed(socks, us));
    forall e
      ensures Has(us, e) <==> Has(r.users, e) || e in NewEnds(list)
    {
      GrabbedUsers(r, list, e);
    }
  }

  /** The queue of a pending user is what its tuple holds. */
  lemma {:induction false} QueueOfOne(list: seq<Early>, p: Early)
    requires Distinct(Newcomers(list)) && p in list
    ensures QueueOf(list, p.user.endpt) == p.msgs
  {
    var n := |list| - 1;
    var last := list[n];
    assert list == list[..n] + [last];
    NewcomersPrefixDistinct(list);
    NewcomersAre(list[..n], last.user.endpt);
    if p == last {
      BatchJoin.NoQueueOf(list[..n], last.user.endpt);
    } else {
      assert p in list[..n];
      assert p.user.endpt in NewEnds(list[..n]);
      QueueOfOne(list[..n], p);
    }
  }

  lemma NewcomersPrefixDistinct(list: seq<Early>)
    requires list != [] && Distinct(Newcomers(list))
    ensures var n := |list| - 1;
            Distinct(Newcomers(list[..n])) && !Has(Newcomers(list[..n]), list[n].user.endpt)
  {
    var n := |list| - 1;
    var us := Newcomers(list);
    assert us == Newcomers(list[..n]) + [list[n].user];
    assert us[..n] == Newcomers(list[..n]);
    BatchJoin.EarlierDiffer(us, n, n);
  }

  lemma GrabbedNewInOrder(r: Room, c: string, list: seq<Early>, conns: map<Endpoint, Conn>, e: Endpoint)
    requires ListOk(list, c, conns) && OwnsMembers(r, c, conns) && KeysMatch(r) && e in NewEnds(list)
    ensures e in conns
    ensures var q := Admit(r, list);
            InOrder(conns[e].(place := Member(c)), QueueAt(q.handled, e), QueueAt(q.queues, e))
  {
    hide Has, NoDup, Distinct, Newcomers, QueueOf;
    var p :| p in list && p.user.endpt == e;
    assert EarlyOk(p, c, conns);
    QueueOfOne(list, p);
  }

  lemma GrabKeepsOrder(r: Room, c: string, list: seq<Early>, socks: seq<Endpoint>, conns: map<Endpoint, Conn>)
    requires ListOk(list, c, conns) && OwnsMembers(r, c, conns) && KeysMatch(r) && MembersInOrder(r, c, conns)
    requires forall e | e in NewEnds(list) :: e in conns && conns[e].place == Pending(c)
    ensures MembersInOrder(Grab(r, list, socks), c, Claim(conns, NewEnds(list), c))
  {
    hide Has, NoDup, NewEnds, Newcomers, QueueOf, InOrder, Claimed, ListOk;
    var q, after := Grab(r, list, socks), Claim(conns, NewEnds(list), c);
    forall e | e in after && after[e].place == Member(c)
      ensures InOrder(after[e], QueueAt(q.handled, e), QueueAt(q.queues, e))
    {
      if e in NewEnds(list) {
        GrabbedNewInOrder(r, c, list, conns, e);
      } else {
        BatchJoin.NoQueueOf(list, e);
        assert QueueAt(q.queues, e) == QueueAt(r.queues, e);
      }
    }
  }

  lemma GrabKeepsThread(t: Thread, c: string, list: seq<Early>, socks: seq<Endpoint>, conns: map<Endpoint, Conn>)
    requires ThreadOk(t, c, conns) && t.alive && t.phase.Grabbing? && ListOk(list, c, conns) && SocksOk(socks, conns)
    ensures var room := Grab(t.room, list, socks);
            ThreadOk(t.(phase := Greeting, room := room), c, Claim(conns, NewEnds(list), c))
  {
    SettledKeys(t.room);
    PendingAdmissible(t.room, c, list, conns);
    hide RoomSettled, OwnsMembers, MembersInOrder, Admissible, ListOk, SocksOk, Admit, KeysMatch, NewEnds;
    GrabKeepsRoom(t.room, list, socks);
    GrabKeepsOwnership(t.room, c, list, socks, conns);
    GrabKeepsOrder(t.room, c, list, socks, conns);
    GrabKeepsChan(t.room, list, socks);
  }

  lemma GrabKeepsChan(r: Room, list: seq<Early>, socks: seq<Endpoint>)
    ensures Grab(r, list, socks).chan == r.chan
  {
  }

  // ---- The shared side ----

  lemma GrabEmptiesList(list: seq<Early>, c: string, conns: map<Endpoint, Conn>)
    requires ListOk(list, c, conns)
    ensures ListOk([], c, Claim(conns, NewEnds(list), c))
  {
    hide InOrder;
  }

  lemma GrabLeavesList(list: seq<Early>, d: string, conns: map<Endpoint, Conn>, ends: set<Endpoint>, c: string)
    requires ListOk(list, d, conns) && c != d
    requires forall e | e in ends :: e in conns && conns[e].place == Pending(c)
    ensures ListOk(list, d, Claim(conns, ends, c))
  {
    hide InOrder, Newcomers, NewEnds, Distinct;
    forall p | p in list
      ensures EarlyOk(p, d, Claim(conns, ends, c))
    {
      assert EarlyOk(p, d, conns);
    }
  }

  lemma GrabKeepsPending(pending: map<string, seq<Early>>, conns: map<Endpoint, Conn>, c: string)
    requires PendingOk(pending, conns)
    requires forall e | e in NewEnds(PendingAt(pending, c)) :: e in conns && conns[e].place == Pending(c)
    ensures PendingOk(pending[c := []], Claim(conns, NewEnds(PendingAt(pending, c)), c))
  {
    hide ListOk, NewEnds;
    var after, pending' := Claim(conns, NewEnds(PendingAt(pending, c)), c), pending[c := []];
    forall d
      ensures ListOk(PendingAt(pending', d), d, after)
    {
      assert ListOk(PendingAt(pending, d), d, conns);
      if d == c {
        GrabEmptiesList(PendingAt(pending, c), c, conns);
      } else {
        GrabLeavesList(PendingAt(pending, d), d, conns, NewEnds(PendingAt(pending, c)), c);
      }
    }
  }

  lemma GrabKeepsSocks(r: Room, c: string, list: seq<Early>, socks: seq<Endpoint>, conns: map<Endpoint, Conn>)
    requires OwnsMembers(r, c, conns) && SocksOk(socks, conns)
    requires forall e | e in NewEnds(list) :: e in conns && conns[e].place == Pending(c)
    ensures SocksOk(Unclaimed(socks, Grab(r, list, socks).users), Claim(conns, NewEnds(list), c))
  {
    hide Has, NoDup, NewEnds, Unclaimed, Claimed, AdmitQueues, AdmitStreams, AdmitHandled, Newcomers;
    var us := Admit(r, list).users;
    ClaimedNoDup(socks, us);
    forall x
      ensures x in Unclaimed(socks, us) <==> x in socks && x !in NewEnds(list)
    {
      ClaimedAre(socks, us, x);
      GrabbedUsers(r, list, x);
    }
  }

  lemma GrabKeepsThreads(s: System, c: string, t: Thread, ends: set<Endpoint>)
    requires ThreadsOk(s.threads, s.conns) && c in s.threads
    requires forall e | e in ends :: e in s.conns && s.conns[e].place == Pending(c)
    requires ThreadOk(t, c, Claim(s.conns, ends, c))
    ensures ThreadsOk(s.threads[c := t], Claim(s.conns, ends, c))
  {
    hide ThreadOk;
    forall d | d in s.threads && d != c
      ensures ThreadOk(s.threads[d], d, Claim(s.conns, ends, c))
    {
      ThreadSame(s.threads[d], d, s.conns, Claim(s.conns, ends, c));
    }
  }

  lemma GrabbedFrom(r: Room, list: seq<Early>, socks: seq<Endpoint>, u: User)
    requires u in Grab(r, list, socks).users
    ensures u in r.users || exists p | p in list :: p.user == u
  {
    hide Newcomers;
    if u !in r.users {
      var i :| 0 <= i < |list| && Newcomers(list)[i] == u;
      NewcomerAt(list, i);
      assert list[i] in list;
    }
  }

  lemma GrabKeepsAccept(s: System, c: string)
    requires AcceptOk(s.accept, s.endMsgs, s.conns)
    requires forall e | e in NewEnds(PendingAt(s.pending, c)) :: e in s.conns && s.conns[e].place == Pending(c)
    ensures AcceptOk(s.accept, s.endMsgs, Claim(s.conns, NewEnds(PendingAt(s.pending, c)), c))
  {
    hide InOrder, NewEnds;
  }

  lemma GrabKeepsFlags(s: System, c: string)
    requires FlagsOk(s) && DoGrab(s, c).Some?
    ensures FlagsOk(DoGrab(s, c).value)
  {
    hide FlagMapOk, NewEnds, Grab;
  }

  lemma GrabKeepsShared(s: System, c: string)
    requires AcceptOk(s.accept, s.endMsgs, s.conns) && FlagsOk(s) && AuthOk(s) && DoGrab(s, c).Some?
    requires forall e | e in NewEnds(PendingAt(s.pending, c)) :: e in s.conns && s.conns[e].place == Pending(c)
    ensures var q := DoGrab(s, c).value;
            AcceptOk(q.accept, q.endMsgs, q.conns) && FlagsOk(q) && AuthOk(q)
  {
    hide AuthOk, FlagsOk, AcceptOk, Grab, Claim;
    GrabKeepsAccept(s, c);
    GrabKeepsFlags(s, c);
    GrabKeepsAuth(s, c);
  }

  lemma GrabKeepsAuth(s: System, c: string)
    requires AuthOk(s) && DoGrab(s, c).Some?
    ensures AuthOk(DoGrab(s, c).value)
  {
    hide LoggedIn, Grab, NewEnds;
    var q := DoGrab(s, c).value;
    forall d, u | d in q.threads && u in q.threads[d].room.users
      ensures LoggedIn(u, s.accounts)
    {
      if d == c {
        GrabbedFrom(s.threads[c].room, PendingAt(s.pending, c), s.socks, u);
      }
    }
    forall d, p | p in PendingAt(q.pending, d)
      ensures LoggedIn(p.user, s.accounts)
    {
      assert d != c && p in PendingAt(s.pending, d);
    }
  }

  lemma GrabOk(s: System, c: string)
    requires SystemOk(s) && DoGrab(s, c).Some?
    ensures SystemOk(DoGrab(s, c).value)
  {
    hide AcceptOk, FlagsOk, AuthOk, ListOk, Grab, NewEnds;
    var t, list := s.threads[c], PendingAt(s.pending, c);
    assert ThreadOk(t, c, s.conns) && ListOk(list, c, s.conns);
    PendingAdmissible(t.room, c, list, s.conns);
    GrabKeepsThread(t, c, list, s.socks, s.conns);
    GrabKeepsThreads(s, c, DoGrab(s, c).value.threads[c], NewEnds(list));
    GrabKeepsPending(s.pending, s.conns, c);
    GrabKeepsSocks(t.room, c, list, s.socks, s.conns);
    GrabKeepsShared(s, c);
    hide ThreadsOk, PendingOk, SocksOk;
  }
}
