/** handle_newusers on a batch does what single joins, one after the other, would do (src/server/Servlet.cpp:124-163). */
module BatchJoin {
  import opened Sockio
  import opened Irc
  import opened Room
  import opened RoomInvariant

  /** One user arrives and is greeted before the next one arrives. */
  function JoinOne(r: Room, p: Early): Room {
    HandleNewUsers(Admit(r, [p]))
  }

  function JoinOneByOne(r: Room, list: seq<Early>): Room {
    if list == [] then r else JoinOne(JoinOneByOne(r, list[..|list| - 1]), list[|list| - 1])
  }

  /** The two rooms differ only in what was written to the members. */
  predicate SameBut(a: Room, b: Room) {
    a == b.(streams := a.streams, newusers := a.newusers)
  }

  /** A room between two joins, and users who can join it. */
  ghost predicate Ready(r: Room, list: seq<Early>) {
    && Distinct(r.users)
    && (forall e :: e in r.streams <==> Has(r.users, e))
    && r.newusers == []
    && Admissible(r, list)
  }

  // ---- Admitting one more user ----

  lemma QueueOfMore(list: seq<Early>, p: Early, e: Endpoint)
    ensures QueueOf(list + [p], e) == QueueOf(list, e) + QueueOf([p], e)
  {
    assert (list + [p])[..|list|] == list;
    assert [p][..0] == [];
    assert QueueOf([], e) == [];
  }

  lemma NewcomersMore(list: seq<Early>, p: Early)
    ensures Newcomers(list + [p]) == Newcomers(list) + [p.user]
    ensures Newcomers([p]) == [p.user]
    ensures NewEnds(list + [p]) == NewEnds(list) + {p.user.endpt}
    ensures NewEnds([p]) == {p.user.endpt}
  {
    assert p in list + [p];
    assert (list + [p])[..|list|] == list;
  }

  lemma AdmitMoreQueue(queues: map<Endpoint, seq<string>>, list: seq<Early>, p: Early, e: Endpoint)
    ensures QueueAt(AdmitQueues(queues, list), e) + QueueOf([p], e) == QueueAt(queues, e) + QueueOf(list + [p], e)
  {
    hide QueueOf, NewEnds;
    QueueOfMore(list, p, e);
    if e !in queues.Keys + NewEnds(list) {
      NoQueueOf(list, e);
    }
  }

  lemma AdmitMoreQueues(queues: map<Endpoint, seq<string>>, list: seq<Early>, p: Early)
    ensures AdmitQueues(AdmitQueues(queues, list), [p]) == AdmitQueues(queues, list + [p])
  {
    hide QueueOf, NewEnds, QueueAt;
    var a, b := AdmitQueues(AdmitQueues(queues, list), [p]), AdmitQueues(queues, list + [p]);
    NewcomersMore(list, p);
    assert a.Keys == b.Keys;
    forall e | e in a
      ensures a[e] == b[e]
    {
      AdmitMoreQueue(queues, list, p, e);
    }
  }

  lemma AdmitMoreHandled(handled: map<Endpoint, seq<string>>, list: seq<Early>, p: Early)
    ensures AdmitHandled(AdmitHandled(handled, list), [p]) == AdmitHandled(handled, list + [p])
  {
    hide NewEnds;
    NewcomersMore(list, p);
  }

  lemma {:induction false} NoQueueOf(list: seq<Early>, e: Endpoint)
    requires e !in NewEnds(list)
    ensures QueueOf(list, e) == []
  {
    if list != [] {
      var n := |list| - 1;
      assert list[n] in list;
      assert forall p | p in list[..n] :: p in list;
      NoQueueOf(list[..n], e);
    }
  }

  lemma Assoc<T>(a: seq<T>, b: seq<T>, c: seq<T>)
    ensures a + (b + c) == a + b + c
  {
  }

  lemma AdmitMore(r: Room, list: seq<Early>, s: Room, p: Early)
    requires SameBut(s, Admit(r, list))
    ensures SameBut(Admit(s, [p]), Admit(r, list + [p]))
  {
    hide Newcomers, AdmitQueues, AdmitHandled, AdmitStreams;
    AdmitMoreQueues(r.queues, list, p);
    AdmitMoreHandled(r.handled, list, p);
    NewcomersMore(list, p);
    Assoc(r.users, Newcomers(list), [p.user]);
  }

  lemma AdmitNobody(r: Room)
    requires r.newusers == []
    ensures Admit(r, []) == r
  {
    var q := Admit(r, []);
    assert q.users == r.users;
    assert NewEnds([]) == {};
    forall e | e in r.queues
      ensures q.queues[e] == r.queues[e]
    {
      assert r.queues[e] + QueueOf([], e) == r.queues[e];
    }
    assert q.queues == r.queues;
    assert q.handled == r.handled;
    assert q.streams == r.streams;
  }

  lemma JoinOneIs(s: Room, p: Early)
    requires Distinct(s.users) && !Has(s.users, p.user.endpt)
    ensures var a := Admit(s, [p]);
            JoinOne(s, p) == a.(streams := Greetings(a, p.user, s.users + [p.user]), newusers := [])
  {
    hide Greetings, QueueOf, Audience;
    var a := Admit(s, [p]);
    assert a.newusers == [p.user];
    assert a.newusers[..1] == [p.user];
    assert GreetUpto(a, 1) == GreetOne(GreetUpto(a, 0), 0);
    AdmitDistinct(s.users, [p.user]);
    AudienceIs(s.users, [p.user], 1);
  }

  // ---- Who is new to whom ----

  lemma NewEndsAreNew(r: Room, list: seq<Early>)
    requires Ready(r, list)
    ensures r.streams.Keys !! NewEnds(list)
  {
    hide Distinct, Newcomers;
  }

  lemma AllDistinct(r: Room, list: seq<Early>)
    requires Ready(r, list)
    ensures Distinct(r.users + Newcomers(list))
  {
    hide Distinct;
    var ns := Newcomers(list);
    forall j | 0 <= j < |list|
      ensures !Has(r.users, ns[j].endpt)
    {
      NewcomerAt(list, j);
      assert list[j] in list;
    }
    AdmitDistinct(r.users, ns);
  }

  lemma PrefixStep<T>(s: seq<T>, i: nat)
    requires i < |s|
    ensures s[..i + 1] == s[..i] + [s[i]]
    ensures s[..i + 1][..i] == s[..i]
  {
  }

  lemma {:induction false} NewcomersPrefix(list: seq<Early>, i: nat)
    requires i <= |list|
    ensures Newcomers(list)[..i] == Newcomers(list[..i])
  {
    if i == |list| {
      assert list[..i] == list;
    } else {
      var n := |list| - 1;
      NewcomersPrefix(list[..n], i);
      assert list[..n][..i] == list[..i];
      assert Newcomers(list)[..i] == Newcomers(list[..n])[..i];
    }
  }

  lemma PrefixOfConcat<T>(a: seq<T>, b: seq<T>, i: nat)
    requires i <= |b|
    ensures (a + b)[..|a| + i] == a + b[..i]
  {
  }

  lemma SeatsBefore(us: seq<User>, list: seq<Early>, i: nat)
    requires i <= |list|
    ensures var all := us + Newcomers(list);
            && all[..|us| + i] == us + Newcomers(list[..i])
            && (i < |list| ==> all[|us| + i] == list[i].user)
  {
    hide Newcomers;
    NewcomersPrefix(list, i);
    PrefixOfConcat(us, Newcomers(list), i);
    if i < |list| {
      NewcomerAt(list, i);
    }
  }

  lemma SeatAfter(us: seq<User>, list: seq<Early>, i: nat)
    requires i < |list|
    ensures us + Newcomers(list[..i + 1]) == us + Newcomers(list[..i]) + [list[i].user]
  {
    hide Newcomers;
    PrefixStep(list, i);
    NewcomersMore(list[..i], list[i]);
    Assoc(us, Newcomers(list[..i]), [list[i].user]);
  }

  lemma EarlierDiffer(us: seq<User>, n: nat, j: nat)
    requires Distinct(us) && n <= j < |us|
    ensures Distinct(us[..n]) && !Has(us[..n], us[j].endpt)
  {
    forall i | 0 <= i < n
      ensures us[..n][i].endpt != us[j].endpt
    {
      assert us[..n][i] == us[i];
    }
  }

  /** The endpoint of the i-th newcomer is new to everybody before it. */
  lemma NewcomerIsNew(r: Room, list: seq<Early>, i: nat)
    requires Ready(r, list) && i < |list|
    ensures !Has(r.users + Newcomers(list[..i]), list[i].user.endpt)
    ensures Distinct(r.users + Newcomers(list[..i]))
  {
    hide Ready, Distinct, Has, Newcomers;
    AllDistinct(r, list);
    SeatsBefore(r.users, list, i);
    EarlierDiffer(r.users + Newcomers(list), |r.users| + i, |r.users| + i);
  }

  lemma LaterAreNew(r: Room, list: seq<Early>, i: nat, x: Endpoint)
    requires Ready(r, list) && i < |list| && x in NewEnds(list[i + 1..])
    ensures !Has(r.users + Newcomers(list[..i + 1]), x)
    ensures x in NewEnds(list[i..])
  {
    hide Ready, Distinct, Has, Newcomers;
    var p :| p in list[i + 1..] && p.user.endpt == x;
    var j :| i + 1 <= j < |list| && list[j] == p;
    assert list[i..][j - i] == p;
    AllDistinct(r, list);
    SeatsBefore(r.users, list, i + 1);
    SeatsBefore(r.users, list, j);
    EarlierDiffer(r.users + Newcomers(list), |r.users| + i + 1, |r.users| + j);
  }

  lemma NewEndsAt(list: seq<Early>, i: nat)
    requires i < |list|
    ensures list[i].user.endpt in NewEnds(list) && list[i].user.endpt in NewEnds(list[i..])
  {
    assert list[i] in list && list[i..][0] == list[i];
  }

  // ---- The two runs side by side ----

  ghost predicate SameKeys(r: Room, list: seq<Early>, i: nat)
    requires i <= |list|
  {
    var g, s := GreetUpto(Admit(r, list), i), JoinOneByOne(r, list[..i]);
    && SameBut(s, Admit(r, list[..i]))
    && s.newusers == []
    && s.streams.Keys == r.streams.Keys + NewEnds(list[..i])
    && g.streams.Keys == r.streams.Keys + NewEnds(list)
  }

  ghost predicate SeatedSame(r: Room, list: seq<Early>, i: nat)
    requires i <= |list|
  {
    var g, s := GreetUpto(Admit(r, list), i), JoinOneByOne(r, list[..i]);
    forall x | x in s.streams :: x in g.streams && g.streams[x] == s.streams[x]
  }

  ghost predicate WaitingUntold(r: Room, list: seq<Early>, i: nat)
    requires i <= |list|
  {
    var g := GreetUpto(Admit(r, list), i);
    forall x | x in NewEnds(list[i..]) :: x in g.streams && g.streams[x] == Stream([], |r.log|)
  }

  /** After `i` turns of the join loop: members seated so far have exactly the streams of single joins,
      the others have nothing. */
  ghost predicate InStep(r: Room, list: seq<Early>, i: nat)
    requires i <= |list|
  {
    SameKeys(r, list, i) && SeatedSame(r, list, i) && WaitingUntold(r, list, i)
  }

  lemma StartInStep(r: Room, list: seq<Early>)
    requires Ready(r, list)
    ensures InStep(r, list, 0)
  {
    hide Distinct, Admissible, Has, QueueOf, Newcomers;
    assert list[..0] == [] && list[0..] == list;
    NewEndsAreNew(r, list);
    AdmitNobody(r);
  }

  lemma TurnAudience(r: Room, list: seq<Early>, i: nat)
    requires Ready(r, list) && i < |list|
    ensures Audience(r.users + Newcomers(list), Newcomers(list), Newcomers(list)[..i + 1])
         == r.users + Newcomers(list[..i]) + [list[i].user]
  {
    hide Audience, Ready, Distinct, Newcomers;
    AllDistinct(r, list);
    SeatAfter(r.users, list, i);
    NewcomersPrefix(list, i + 1);
    AudienceIs(r.users, Newcomers(list), i + 1);
  }

  /** Turn `i` of the batch and the i-th single join write the same greeting to the same audience. */
  lemma TurnStates(r: Room, list: seq<Early>, i: nat)
    requires Ready(r, list) && i < |list| && InStep(r, list, i)
    ensures var g, s, u := GreetUpto(Admit(r, list), i), JoinOneByOne(r, list[..i]), list[i].user;
            var a, now := Admit(s, [list[i]]), s.users + [u];
            && Has(now, u.endpt)
            && SameBut(a, Admit(r, list[..i + 1]))
            && GreetUpto(Admit(r, list), i + 1) == g.(streams := Greetings(g, u, now))
            && JoinOneByOne(r, list[..i + 1]) == a.(streams := Greetings(a, u, now), newusers := [])
            && now == r.users + Newcomers(list[..i + 1])
  {
    hide Greetings, QueueOf, Has, Distinct, Audience, Newcomers, JoinOne, Ready;
    var p := list[i];
    var s := JoinOneByOne(r, list[..i]);
    PrefixStep(list, i);
    NewcomerIsNew(r, list, i);
    AdmitMore(r, list[..i], s, p);
    JoinOneIs(s, p);
    TurnAudience(r, list, i);
    SeatAfter(r.users, list, i);
    NewcomerAt(list, i);
    HasConcat(s.users, [p.user], p.user.endpt);
    HasOne(p.user, p.user.endpt);
  }

  lemma GreetingsKeys(r: Room, u: User, now: seq<User>)
    ensures Greetings(r, u, now).Keys == r.streams.Keys
  {
  }

  /** Rooms that agree on host, topic and one stream write the same greeting to it. */
  lemma StillSame(g: Room, a: Room, u: User, now: seq<User>, x: Endpoint)
    requires x in g.streams && x in a.streams && g.streams[x] == a.streams[x]
    requires g.host == a.host && g.topic == a.topic
    ensures Greetings(g, u, now)[x] == Greetings(a, u, now)[x]
  {
    hide Nicks;
  }

  lemma AdmitNewcomers(r: Room, list: seq<Early>)
    ensures |Admit(r, list).newusers| == |list|
  {
  }

  lemma WaitingStays(r: Room, list: seq<Early>, i: nat)
    requires Ready(r, list) && i < |list| && InStep(r, list, i)
    ensures WaitingUntold(r, list, i + 1)
  {
    hide Greetings, QueueOf, Has, Newcomers, JoinOneByOne, GreetUpto, Ready, NewEnds, Admit, SeatedSame;
    AdmitNewcomers(r, list);
    var g, s, u := GreetUpto(Admit(r, list), i), JoinOneByOne(r, list[..i]), list[i].user;
    TurnStates(r, list, i);
    GreetingsKeys(g, u, s.users + [u]);
    forall x | x in NewEnds(list[i + 1..])
      ensures x in g.streams && Greetings(g, u, s.users + [u])[x] == Stream([], |r.log|)
    {
      LaterAreNew(r, list, i, x);
      GreetingAt(g, u, s.users + [u], x);
    }
  }

  lemma TurnKeys(r: Room, list: seq<Early>, i: nat)
    requires Ready(r, list) && i < |list| && InStep(r, list, i)
    ensures SameKeys(r, list, i + 1)
  {
    hide Greetings, QueueOf, Has, Newcomers, JoinOneByOne, GreetUpto, Ready, NewEnds, AdmitQueues, AdmitHandled;
    hide SeatedSame, WaitingUntold;
    var g, s, u := GreetUpto(Admit(r, list), i), JoinOneByOne(r, list[..i]), list[i].user;
    var a, now := Admit(s, [list[i]]), s.users + [u];
    TurnStates(r, list, i);
    PrefixStep(list, i);
    NewcomersMore(list[..i], list[i]);
    NewcomersMore([], list[i]);
    GreetingsKeys(g, u, now);
    GreetingsKeys(a, u, now);
  }

  lemma SeatedAgree(r: Room, list: seq<Early>, i: nat)
    requires Ready(r, list) && i < |list| && InStep(r, list, i)
    ensures SeatedSame(r, list, i + 1)
  {
    hide Greetings, QueueOf, Has, Newcomers, JoinOneByOne, GreetUpto, Ready, NewEnds, AdmitQueues, AdmitHandled;
    var g, s, u := GreetUpto(Admit(r, list), i), JoinOneByOne(r, list[..i]), list[i].user;
    var a, now := Admit(s, [list[i]]), s.users + [u];
    TurnStates(r, list, i);
    NewcomersMore([], list[i]);
    NewEndsAt(list, i);
    GreetingsKeys(g, u, now);
    GreetingsKeys(a, u, now);
    forall x | x in a.streams
      ensures x in g.streams && Greetings(g, u, now)[x] == Greetings(a, u, now)[x]
    {
      StillSame(g, a, u, now, x);
    }
  }

  lemma TurnKeepsStep(r: Room, list: seq<Early>, i: nat)
    requires Ready(r, list) && i < |list| && InStep(r, list, i)
    ensures InStep(r, list, i + 1)
  {
    hide Ready, SameKeys, SeatedSame, WaitingUntold;
    TurnKeys(r, list, i);
    SeatedAgree(r, list, i);
    WaitingStays(r, list, i);
  }

  lemma {:induction false} LoopInStep(r: Room, list: seq<Early>, i: nat)
    requires Ready(r, list) && i <= |list|
    ensures InStep(r, list, i)
  {
    hide InStep;
    if i == 0 {
      StartInStep(r, list);
    } else {
      LoopInStep(r, list, i - 1);
      TurnKeepsStep(r, list, i - 1);
    }
  }

  /** A batch of any size leaves the room that single joins in the same order leave. */
  lemma BatchIsSequential(r: Room, list: seq<Early>)
    requires Ready(r, list)
    ensures HandleNewUsers(Admit(r, list)) == JoinOneByOne(r, list)
  {
    hide Admit, JoinOneByOne, GreetUpto, Ready, NewEnds, AdmitQueues, AdmitHandled;
    LoopInStep(r, list, |list|);
    assert list[..|list|] == list;
    AdmitNewcomers(r, list);
    var g, s := GreetUpto(Admit(r, list), |list|), JoinOneByOne(r, list);
    assert g.streams == s.streams;
  }
}
