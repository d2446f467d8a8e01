/** A channel as the sequence of what its members did: what every member has been told is a function of that sequence
    (src/server/Servlet.cpp:124-275). */
module History {
  import opened Strings
  import opened Sockio
  import opened Irc
  import opened Room
  import opened RoomInvariant

  /** Somebody joined, or a message of a member was handled; `line` is the client's own. */
  datatype Act =
    | Came(user: User)
    | Spoke(user: User, line: string)
    | Left(user: User, line: string)
    | Titled(user: User, line: string)

  // ---- What one message does, in full ----

  lemma PrivTold(r: Room, u: User, msg: string)
    requires RoomOk(r, |r.users|) && u in r.users && Has(r.users, u.endpt) && IsPriv(msg)
    ensures match HandleMsg(r, u.endpt, msg)
            case None => false
            case Some(q) =>
              && q == r.(log := r.log + [Entry(u, msg)], streams := q.streams,
                         handled := r.handled[u.endpt := QueueAt(r.handled, u.endpt) + [msg]])
              && forall v | v in r.users :: v.endpt in r.streams && v.endpt in q.streams
                   && q.streams[v.endpt].replies == r.streams[v.endpt].replies + if v.endpt == u.endpt then [] else [Said(u, msg)]
  {
    hide RoomOk, IsPriv, Has, Deliver, Others;
    SenderIs(r, u);
    PrivSpelled(Record(r, u.endpt, msg), u, msg);
    AllHaveStreams(r);
  }

  lemma AllHaveStreams(r: Room)
    requires RoomOk(r, |r.users|)
    ensures forall v | v in r.users :: v.endpt in r.streams
  {
    hide MemberOk, Has, Distinct;
    forall v | v in r.users
      ensures v.endpt in r.streams
    {
      InHas(r.users, v);
    }
  }

  lemma SenderIs(r: Room, u: User)
    requires RoomOk(r, |r.users|) && u in r.users && Has(r.users, u.endpt)
    ensures r.users[IndexOf(r.users, u.endpt)] == u
  {
    hide AllOk, Untold, KeysMatch;
    DistinctMembers(r.users, r.users[IndexOf(r.users, u.endpt)], u);
  }

  lemma PartTold(r: Room, u: User, msg: string)
    requires RoomOk(r, |r.users|) && u in r.users && Has(r.users, u.endpt) && !IsPriv(msg) && IsPart(msg)
    ensures match HandleMsg(r, u.endpt, msg)
            case None => false
            case Some(q) =>
              && q == r.(users := q.users, socks := q.socks, queues := r.queues - {u.endpt}, streams := q.streams,
                         handled := r.handled[u.endpt := QueueAt(r.handled, u.endpt) + [msg]])
              && (exists k | 0 <= k < |r.users| :: r.users[k] == u && q.users == r.users[..k] + r.users[k + 1..])
              && (u.endpt in r.socks ==>
                    exists k | 0 <= k < |r.socks| ::
                      r.socks[k] == u.endpt && u.endpt !in r.socks[..k] && q.socks == r.socks[..k] + r.socks[k + 1..])
              && u.endpt !in q.streams
              && forall v | v in r.users && v != u :: v.endpt in r.streams && v.endpt in q.streams
                   && q.streams[v.endpt].replies == r.streams[v.endpt].replies + [Parted(u, msg)]
  {
    hide RoomOk, IsPriv, IsPart, Has, WithoutSock;
    SenderIs(r, u);
    var k := IndexOf(r.users, u.endpt);
    var q := HandleMsg(r, u.endpt, msg).value;
    assert q.users == r.users[..k] + r.users[k + 1..];
    if u.endpt in r.socks {
      var i := SockTakenOut(r.socks, u.endpt);
    }
    PartSpelled(Record(r, u.endpt, msg), u, msg);
    AllHaveStreams(r);
    forall v | v in r.users && v != u
      ensures v.endpt != u.endpt
    {
      ApartFrom(r, u, v);
    }
  }

  lemma {:induction false} SockTakenOut(socks: seq<Endpoint>, e: Endpoint) returns (k: nat)
    requires e in socks
    ensures k < |socks| && socks[k] == e && e !in socks[..k] && WithoutSock(socks, e) == socks[..k] + socks[k + 1..]
  {
    if socks[0] == e {
      k := 0;
    } else {
      var i := SockTakenOut(socks[1..], e);
      k := i + 1;
      assert socks[..k] == [socks[0]] + socks[1..][..i];
    }
  }

  lemma ApartFrom(r: Room, u: User, v: User)
    requires RoomOk(r, |r.users|) && u in r.users && v in r.users && u != v
    ensures u.endpt != v.endpt
  {
    hide AllOk, Untold, KeysMatch;
    if u.endpt == v.endpt {
      DistinctMembers(r.users, u, v);
    }
  }

  lemma TopicTold(r: Room, u: User, msg: string)
    requires RoomOk(r, |r.users|) && u in r.users && Has(r.users, u.endpt) && !IsPriv(msg) && !IsPart(msg) && IsTopic(msg)
    ensures match HandleMsg(r, u.endpt, msg)
            case None => false
            case Some(q) =>
              var topic := NewTopic(r.chan, msg);
              && q == r.(topic := topic, stored := topic, streams := q.streams,
                         handled := r.handled[u.endpt := QueueAt(r.handled, u.endpt) + [msg]])
              && forall v | v in r.users :: v.endpt in r.streams && v.endpt in q.streams
                   && q.streams[v.endpt].replies == r.streams[v.endpt].replies + [Retitled(u, r.chan, topic)]
  {
    hide RoomOk, IsPriv, IsPart, IsTopic, Has, NewTopic;
    SenderIs(r, u);
    TopicSpelled(Record(r, u.endpt, msg), u, msg);
    AllHaveStreams(r);
  }

  /** What one turn of the join loop writes to the j-th user; the n-th is the one greeted. */
  lemma GreetedAt(r: Room, n: nat, j: nat)
    requires Distinct(r.users) && KeysMatch(r) && n < |r.users| && j < |r.users|
    ensures var u, x := r.users[n], r.users[j].endpt;
            var g := Greetings(r, u, r.users[..n + 1]);
            && x in r.streams && x in g
            && (j < n ==> g[x].replies == r.streams[x].replies + [Joined(u)])
            && (j > n ==> g[x].replies == r.streams[x].replies)
            && (j == n ==> g[x].replies == r.streams[x].replies
                           + [Joined(u), TopicIs(r.host, u, r.topic),
                              Names(r.host, u, Nicks(r.users[..n + 1])), EndOfNames(r.host, u)])
  {
    hide Nicks, Greetings, Has, KeysMatch, Distinct;
    var u, now := r.users[n], r.users[..n + 1];
    assert now[n] == u;
    InHas(now, u);
    HasStream(r, r.users[j]);
    GreetedYet(r.users, n, j);
    if j != n {
      EndpointsDiffer(r.users, n, j);
    }
    GreetingAt(r, u, now, r.users[j].endpt);
    if j == n {
      FourMore(r.streams[u.endpt].replies,
               Joined(u), TopicIs(r.host, u, r.topic), Names(r.host, u, Nicks(now)), EndOfNames(r.host, u));
    }
  }

  lemma FourMore<T>(s: seq<T>, a: T, b: T, c: T, d: T)
    ensures s + [a] + [b] + [c] + [d] == s + [a, b, c, d]
  {
  }

  lemma EndpointsDiffer(us: seq<User>, i: nat, j: nat)
    requires Distinct(us) && i < |us| && j < |us| && i != j
    ensures us[i].endpt != us[j].endpt
  {
  }

  lemma TurnIs(r: Room, i: nat)
    requires InJoinLoop(r) && i < |r.newusers| && RoomOk(r, OldCount(r) + i)
    ensures var u, n := r.newusers[i], OldCount(r) + i;
            && r.users[n] == u && GreetOne(r, i) == r.(streams := Greetings(r, u, r.users[..n + 1]))
            && Distinct(r.users) && KeysMatch(r)
            && u.endpt in r.streams && r.streams[u.endpt].replies == []
  {
    hide MemberOk, Nicks, Greetings, Audience, Has, KeysMatch;
    var n := OldCount(r) + i;
    assert r.users == r.users[..OldCount(r)] + r.newusers;
    AudienceIs(r.users[..OldCount(r)], r.newusers, i + 1);
    assert r.users[..OldCount(r)] + r.newusers[..i + 1] == r.users[..n + 1];
    assert r.users[n..][0] == r.newusers[i];
  }

  /** One turn of the join loop: the newcomer gets the four replies of its greeting, whoever was greeted before it gets its JOIN,
      and those who are greeted later get nothing yet. */
  lemma GreetTold(r: Room, i: nat)
    requires InJoinLoop(r) && i < |r.newusers| && RoomOk(r, OldCount(r) + i)
    ensures var q, u, n := GreetOne(r, i), r.newusers[i], OldCount(r) + i;
            && q == r.(streams := q.streams) && r.users[n] == u
            && forall j | 0 <= j < |r.users| ::
                 var x := r.users[j].endpt;
                 && x in r.streams && x in q.streams
                 && (j < n ==> q.streams[x].replies == r.streams[x].replies + [Joined(u)])
                 && (j > n ==> q.streams[x].replies == r.streams[x].replies)
                 && (j == n ==> q.streams[x].replies
                                == [Joined(u), TopicIs(r.host, u, r.topic),
                                    Names(r.host, u, Nicks(r.users[..n + 1])), EndOfNames(r.host, u)])
  {
    hide Nicks, Greetings, KeysMatch, Distinct, RoomOk, InJoinLoop, GreetOne;
    var n := OldCount(r) + i;
    TurnIs(r, i);
    var us, g := r.users, GreetOne(r, i).streams;
    forall j | 0 <= j < |us|
      ensures us[j].endpt in r.streams && us[j].endpt in g
      ensures j < n ==> g[us[j].endpt].replies == r.streams[us[j].endpt].replies + [Joined(us[n])]
      ensures j > n ==> g[us[j].endpt].replies == r.streams[us[j].endpt].replies
    {
      GreetedAt(r, n, j);
    }
    GreetedAt(r, n, n);
  }

  lemma HasStream(r: Room, v: User)
    requires KeysMatch(r) && v in r.users
    ensures v.endpt in r.streams
  {
    InHas(r.users, v);
  }

  lemma GreetedYet(us: seq<User>, n: nat, j: nat)
    requires Distinct(us) && n < |us| && j < |us|
    ensures Has(us[..n + 1], us[j].endpt) <==> j <= n
  {
    var now := us[..n + 1];
    if j <= n {
      assert now[j] == us[j];
    } else {
      forall i | 0 <= i < |now|
        ensures now[i].endpt != us[j].endpt
      {
        assert now[i] == us[i];
      }
    }
  }

  // ---- What follows from what was done ----

  /** The members, in the order in which they came. */
  function Present(h: seq<Act>): seq<User> {
    if h == [] then []
    else
      var before := Present(h[..|h| - 1]);
      match h[|h| - 1]
      case Came(u) => before + [u]
      case Left(u, _) => Others(before, u.endpt)
      case _ => before
  }

  /** The topic of the channel, which had `start` at first. */
  function Title(h: seq<Act>, chan: string, start: string): string {
    if h == [] then start
    else
      match h[|h| - 1]
      case Titled(_, line) => NewTopic(chan, line)
      case _ => Title(h[..|h| - 1], chan, start)
  }

  function LogOf(h: seq<Act>): seq<Entry> {
    if h == [] then []
    else
      var before := LogOf(h[..|h| - 1]);
      match h[|h| - 1]
      case Spoke(u, line) => before + [Entry(u, line)]
      case _ => before
  }

  /** The lines of the messages of one endpoint since somebody came from it. */
  function Deeds(h: seq<Act>, e: Endpoint): seq<string> {
    if h == [] then []
    else
      var a, before := h[|h| - 1], Deeds(h[..|h| - 1], e);
      if a.user.endpt != e then before else if a.Came? then [] else before + [a.line]
  }

  /** What whoever came from `e` last has been told since. */
  function Told(h: seq<Act>, chan: string, host: string, start: string, e: Endpoint): seq<Reply> {
    if h == [] then []
    else
      var earlier := h[..|h| - 1];
      var before := Told(earlier, chan, host, start, e);
      match h[|h| - 1]
      case Came(u) =>
        if u.endpt != e then before + [Joined(u)]
        else
          [Joined(u), TopicIs(host, u, Title(earlier, chan, start)),
           Names(host, u, Nicks(Present(earlier) + [u])), EndOfNames(host, u)]
      case Spoke(u, line) => if u.endpt == e then before else before + [Said(u, line)]
      case Left(u, line) => before + [Parted(u, line)]
      case Titled(u, line) => before + [Retitled(u, chan, NewTopic(chan, line))]
  }

  /** Newcomers are new, and everything else is done by members, with messages that handle_msg takes for it. */
  ghost predicate Lawful(h: seq<Act>) {
    h == [] ||
    var before := Present(h[..|h| - 1]);
    && Lawful(h[..|h| - 1])
    && match h[|h| - 1]
       case Came(u) => !Has(before, u.endpt)
       case Spoke(u, line) => u in before && IsPriv(line)
       case Left(u, line) => u in before && !IsPriv(line) && IsPart(line)
       case Titled(u, line) => u in before && !IsPriv(line) && !IsPart(line) && IsTopic(line)
  }

  lemma Acted(h: seq<Act>, a: Act, chan: string, host: string, start: string, e: Endpoint)
    ensures (h + [a])[..|h + [a]| - 1] == h
    ensures Present(h + [a])
         == if a.Came? then Present(h) + [a.user] else if a.Left? then Others(Present(h), a.user.endpt) else Present(h)
    ensures Title(h + [a], chan, start) == if a.Titled? then NewTopic(chan, a.line) else Title(h, chan, start)
    ensures LogOf(h + [a]) == if a.Spoke? then LogOf(h) + [Entry(a.user, a.line)] else LogOf(h)
    ensures Deeds(h + [a], e) == if a.user.endpt != e then Deeds(h, e) else if a.Came? then [] else Deeds(h, e) + [a.line]
    ensures var u, before := a.user, Told(h, chan, host, start, e);
            Told(h + [a], chan, host, start, e)
            == if a.Came? && u.endpt == e then
                 [Joined(u), TopicIs(host, u, Title(h, chan, start)),
                  Names(host, u, Nicks(Present(h) + [u])), EndOfNames(host, u)]
               else if a.Came? then before + [Joined(u)]
               else if a.Spoke? then if u.endpt == e then before else before + [Said(u, a.line)]
               else if a.Left? then before + [Parted(u, a.line)]
               else before + [Retitled(u, chan, NewTopic(chan, a.line))]
  {
    hide NewTopic, Nicks, Others;
    assert (h + [a])[..|h|] == h;
  }

  // ---- Histories that explain a room ----

  ghost predicate ExplainedAt(h: seq<Act>, r: Room, start: string, e: Endpoint) {
    && e in r.streams && r.streams[e].replies == Told(h, r.chan, r.host, start, e)
    && QueueAt(r.handled, e) == Deeds(h, e)
  }

  /** The first `n` users, the topic, the log, and everything that was told to and handled for each of them are what the history
      makes of them; nothing was handled yet for the users who are not greeted. */
  ghost predicate Explains(h: seq<Act>, r: Room, n: nat, start: string) {
    && Lawful(h) && n <= |r.users|
    && r.users[..n] == Present(h) && r.topic == Title(h, r.chan, start) && r.log == LogOf(h)
    && (forall j | 0 <= j < n :: ExplainedAt(h, r, start, r.users[j].endpt))
    && (forall j | n <= j < |r.users| :: QueueAt(r.handled, r.users[j].endpt) == [])
  }

  function ActOf(u: User, msg: string): Act {
    if IsPriv(msg) then Spoke(u, msg) else if IsPart(msg) then Left(u, msg) else Titled(u, msg)
  }

  lemma NoHistory(chan: string, host: string, topic: string)
    ensures Explains([], NewRoom(chan, host, topic), 0, topic)
  {
  }

  lemma {:induction false} OthersAll(us: seq<User>, e: Endpoint)
    requires !Has(us, e)
    ensures Others(us, e) == us
  {
    if us != [] {
      var n := |us| - 1;
      assert us[n].endpt != e;
      forall i | 0 <= i < n
        ensures us[..n][i].endpt != e
      {
        assert us[i].endpt != e;
      }
      OthersAll(us[..n], e);
      assert us == us[..n] + [us[n]];
    }
  }

  /** Taking a member out leaves the others in their order. */
  lemma {:induction false} OthersWithout(us: seq<User>, k: nat)
    requires Distinct(us) && k < |us|
    ensures Others(us, us[k].endpt) == us[..k] + us[k + 1..]
  {
    var n := |us| - 1;
    var e := us[k].endpt;
    if k == n {
      forall i | 0 <= i < n
        ensures us[..n][i].endpt != e
      {
        assert us[i].endpt != e;
      }
      OthersAll(us[..n], e);
      assert us[..k] + us[k + 1..] == us[..n];
    } else {
      OthersWithout(us[..n], k);
      assert us[..n][..k] == us[..k] && us[..n][k + 1..] + [us[n]] == us[k + 1..];
    }
  }

  // ---- Every operation goes on with the history ----

  lemma LawfulMore(h: seq<Act>, a: Act)
    requires Lawful(h)
    requires match a
             case Came(u) => !Has(Present(h), u.endpt)
             case Spoke(u, line) => u in Present(h) && IsPriv(line)
             case Left(u, line) => u in Present(h) && !IsPriv(line) && IsPart(line)
             case Titled(u, line) => u in Present(h) && !IsPriv(line) && !IsPart(line) && IsTopic(line)
    ensures Lawful(h + [a])
  {
    hide Has, IsPriv, IsPart, IsTopic, Present;
    assert (h + [a])[..|h|] == h;
  }

  /** One member after one message. */
  lemma MsgExplainedAt(r: Room, q: Room, u: User, msg: string, h: seq<Act>, start: string, v: User)
    requires RoomOk(r, |r.users|) && u in r.users && Has(r.users, u.endpt) && HandleMsg(r, u.endpt, msg) == Some(q)
    requires v in r.users && (!IsPriv(msg) && IsPart(msg) ==> v != u) && ExplainedAt(h, r, start, v.endpt)
    ensures ExplainedAt(h + [ActOf(u, msg)], q, start, v.endpt)
  {
    hide RoomOk, IsPriv, IsPart, IsTopic, Has, NewTopic, HandleMsg, Told, Deeds, Others, Nicks, Present, Title, LogOf;
    Acted(h, ActOf(u, msg), r.chan, r.host, start, v.endpt);
    if IsPriv(msg) {
      PrivTold(r, u, msg);
    } else if IsPart(msg) {
      PartTold(r, u, msg);
      ApartFrom(r, u, v);
    } else {
      SomeCommand(r, u, msg);
      TopicTold(r, u, msg);
    }
  }

  lemma SomeCommand(r: Room, u: User, msg: string)
    requires Has(r.users, u.endpt) && HandleMsg(r, u.endpt, msg).Some?
    ensures IsPriv(msg) || IsPart(msg) || IsTopic(msg)
  {
  }

  /** What a message does to users, topic and log. */
  lemma MsgActed(r: Room, q: Room, u: User, msg: string)
    requires RoomOk(r, |r.users|) && u in r.users && Has(r.users, u.endpt) && HandleMsg(r, u.endpt, msg) == Some(q)
    ensures var a := ActOf(u, msg);
            && q.chan == r.chan && q.host == r.host && q.newusers == r.newusers
            && q.users == (if a.Left? then Others(r.users, u.endpt) else r.users)
            && q.topic == (if a.Titled? then NewTopic(r.chan, msg) else r.topic)
            && q.log == (if a.Spoke? then r.log + [Entry(u, msg)] else r.log)
  {
    hide RoomOk, IsPriv, IsPart, IsTopic, Has, NewTopic, HandleMsg, Others, Distinct;
    if IsPriv(msg) {
      PrivTold(r, u, msg);
    } else if IsPart(msg) {
      PartTold(r, u, msg);
      var k :| 0 <= k < |r.users| && r.users[k] == u && q.users == r.users[..k] + r.users[k + 1..];
      UsersDistinct(r);
      OthersWithout(r.users, k);
    } else {
      SomeCommand(r, u, msg);
      TopicTold(r, u, msg);
    }
  }

  lemma UsersDistinct(r: Room)
    requires RoomOk(r, |r.users|)
    ensures Distinct(r.users)
  {
  }

  /** handle_msg adds one act. */
  lemma MsgExplained(r: Room, q: Room, u: User, msg: string, h: seq<Act>, start: string)
    requires RoomOk(r, |r.users|) && u in r.users && Has(r.users, u.endpt) && HandleMsg(r, u.endpt, msg) == Some(q)
    requires Explains(h, r, |r.users|, start)
    ensures Explains(h + [ActOf(u, msg)], q, |q.users|, start)
  {
    hide RoomOk, IsPriv, IsPart, IsTopic, Has, NewTopic, HandleMsg, Others, ExplainedAt, Lawful, Present, Title, LogOf;
    var a := ActOf(u, msg);
    assert r.users[..|r.users|] == r.users && q.users[..|q.users|] == q.users;
    MsgActed(r, q, u, msg);
    Acted(h, a, r.chan, r.host, start, u.endpt);
    SomeCommand(r, u, msg);
    LawfulMore(h, a);
    forall j | 0 <= j < |q.users|
      ensures ExplainedAt(h + [a], q, start, q.users[j].endpt)
    {
      var v := q.users[j];
      StillThere(r, q, u, a, v);
      var i :| 0 <= i < |r.users| && r.users[i] == v;
      MsgExplainedAt(r, q, u, msg, h, start, v);
    }
  }

  lemma StillThere(r: Room, q: Room, u: User, a: Act, v: User)
    requires v in q.users && q.users == if a.Left? then Others(r.users, u.endpt) else r.users
    ensures v in r.users && (a.Left? ==> v != u)
  {
    if a.Left? {
      AmongOthers(r.users, u.endpt, v);
    }
  }

  lemma {:induction false} AmongOthers(us: seq<User>, e: Endpoint, v: User)
    requires v in Others(us, e)
    ensures v in us && v.endpt != e
  {
    var n := |us| - 1;
    if us[n].endpt == e || v != us[n] {
      AmongOthers(us[..n], e, v);
    }
  }

  /** The acts of one entry: its messages, up to its PART. */
  lemma {:induction false} QueueExplained(r: Room, u: User, msgs: seq<string>, q: Room, h: seq<Act>, start: string)
      returns (acts: seq<Act>)
    requires RoomOk(r, |r.users|) && Explains(h, r, |r.users|, start)
    requires (Has(r.users, u.endpt) ==> u in r.users) && HandleQueue(r, u.endpt, msgs) == Some(q)
    ensures Explains(h + acts, q, |q.users|, start)
    ensures |acts| <= |msgs| && forall i | 0 <= i < |acts| :: acts[i] == ActOf(u, msgs[i])
    decreases |msgs|
  {
    hide RoomOk, Explains, HandleMsg, Has, ActOf;
    acts := [];
    assert h + [] == h;
    if msgs != [] && Has(r.users, u.endpt) {
      var next := HandleMsg(r, u.endpt, msgs[0]).value;
      MsgExplained(r, next, u, msgs[0], h, start);
      MsgKeepsRoom(r, u.endpt, msgs[0]);
      NobodyElseThere(r, next, u, msgs[0]);
      var more := QueueExplained(next, u, msgs[1..], q, h + [ActOf(u, msgs[0])], start);
      acts := [ActOf(u, msgs[0])] + more;
      assert h + acts == h + [ActOf(u, msgs[0])] + more;
    }
  }

  lemma NobodyElseThere(r: Room, q: Room, u: User, msg: string)
    requires RoomOk(r, |r.users|) && u in r.users && Has(r.users, u.endpt) && HandleMsg(r, u.endpt, msg) == Some(q)
    ensures Has(q.users, u.endpt) ==> u in q.users
  {
    hide RoomOk, HandleMsg, Has;
    MsgActed(r, q, u, msg);
    OthersAre(r.users, u.endpt, u.endpt);
  }

  /** What was told and handled does not depend on queues and sockets. */
  lemma SameExplained(r: Room, q: Room, n: nat, h: seq<Act>, start: string)
    requires Explains(h, r, n, start) && q == r.(queues := q.queues, socks := q.socks, newusers := q.newusers)
    ensures Explains(h, q, n, start)
  {
    hide Lawful, Present, Title, LogOf, Told, Deeds;
    forall j | 0 <= j < n
      ensures ExplainedAt(h, q, start, q.users[j].endpt)
    {
      assert ExplainedAt(h, r, start, r.users[j].endpt);
    }
  }

  lemma EntryExplained(r: Room, u: User, q: Room, h: seq<Act>, start: string) returns (acts: seq<Act>)
    requires RoomOk(r, |r.users|) && Explains(h, r, |r.users|, start)
    requires (Has(r.users, u.endpt) ==> u in r.users) && HandleEntry(r, u.endpt) == Some(q)
    ensures Explains(h + acts, q, |q.users|, start)
    ensures var queue := QueueAt(r.queues, u.endpt);
            |acts| <= |queue| && forall i | 0 <= i < |acts| :: acts[i] == ActOf(u, queue[i])
  {
    hide RoomOk, Explains, HandleQueue, Has, ActOf;
    var d := HandleQueue(r, u.endpt, QueueAt(r.queues, u.endpt)).value;
    acts := QueueExplained(r, u, QueueAt(r.queues, u.endpt), d, h, start);
    SameExplained(d, q, |d.users|, h + acts, start);
  }

  // ---- Joining ----

  lemma AdmitExplained(r: Room, list: seq<Early>, h: seq<Act>, start: string)
    requires KeysMatch(r) && Explains(h, r, |r.users|, start) && Admissible(r, list)
    ensures Explains(h, Admit(r, list), |r.users|, start)
  {
    hide Lawful, Present, Title, LogOf, Told, Deeds, Distinct, Has, QueueOf, Newcomers;
    var q := Admit(r, list);
    assert q.users[..|r.users|] == r.users == r.users[..|r.users|];
    forall j | 0 <= j < |q.users|
      ensures j < |r.users| ==> ExplainedAt(h, q, start, q.users[j].endpt)
      ensures j >= |r.users| ==> QueueAt(q.handled, q.users[j].endpt) == []
    {
      var v := q.users[j];
      if j < |r.users| {
        assert ExplainedAt(h, r, start, r.users[j].endpt);
        InHas(r.users, v);
        assert v.endpt !in NewEnds(list);
      } else {
        assert v == Newcomers(list)[j - |r.users|];
        InHas(Newcomers(list), v);
        NewcomersAre(list, v.endpt);
      }
    }
  }

  lemma GrabExplained(r: Room, list: seq<Early>, socks: seq<Endpoint>, h: seq<Act>, start: string)
    requires KeysMatch(r) && Explains(h, r, |r.users|, start) && Admissible(r, list)
    ensures Explains(h, Grab(r, list, socks), |r.users|, start)
  {
    hide Explains, Admissible, Admit, Claimed, KeysMatch;
    AdmitExplained(r, list, h, start);
    SameExplained(Admit(r, list), Grab(r, list, socks), |r.users|, h, start);
  }

  /** One turn of the join loop adds one arrival. */
  lemma GreetExplained(r: Room, i: nat, h: seq<Act>, start: string)
    requires InJoinLoop(r) && i < |r.newusers| && RoomOk(r, OldCount(r) + i) && Explains(h, r, OldCount(r) + i, start)
    ensures Explains(h + [Came(r.newusers[i])], GreetOne(r, i), OldCount(r) + i + 1, start)
  {
    hide RoomOk, InJoinLoop, GreetOne, Has, ExplainedAt, Lawful, Present, Title, LogOf, Nicks, Distinct, KeysMatch;
    var n, u, q := OldCount(r) + i, r.newusers[i], GreetOne(r, i);
    GreetTold(r, i);
    TurnIs(r, i);
    Acted(h, Came(u), r.chan, r.host, start, u.endpt);
    assert r.users[..n + 1] == r.users[..n] + [u];
    NewToThem(r.users, n);
    LawfulMore(h, Came(u));
    forall j | 0 <= j < n + 1
      ensures ExplainedAt(h + [Came(u)], q, start, q.users[j].endpt)
    {
      GreetExplainedAt(r, i, h, start, j);
    }
  }

  lemma NewToThem(us: seq<User>, n: nat)
    requires Distinct(us) && n < |us|
    ensures !Has(us[..n], us[n].endpt)
  {
  }

  lemma GreetExplainedAt(r: Room, i: nat, h: seq<Act>, start: string, j: nat)
    requires InJoinLoop(r) && i < |r.newusers| && RoomOk(r, OldCount(r) + i) && Explains(h, r, OldCount(r) + i, start)
    requires j < OldCount(r) + i + 1
    ensures ExplainedAt(h + [Came(r.newusers[i])], GreetOne(r, i), start, r.users[j].endpt)
  {
    hide RoomOk, InJoinLoop, GreetOne, Has, Lawful, Present, Title, LogOf, Nicks, Distinct, KeysMatch, Told, Deeds;
    var n, u := OldCount(r) + i, r.newusers[i];
    GreetTold(r, i);
    TurnIs(r, i);
    Acted(h, Came(u), r.chan, r.host, start, r.users[j].endpt);
    assert r.users[..n + 1] == r.users[..n] + [u];
    if j < n {
      EndpointsDiffer(r.users, n, j);
      assert ExplainedAt(h, r, start, r.users[j].endpt);
    }
  }

  function Arrivals(us: seq<User>): (acts: seq<Act>)
    ensures |acts| == |us| && forall i | 0 <= i < |us| :: acts[i] == Came(us[i])
  {
    seq(|us|, i requires 0 <= i < |us| => Came(us[i]))
  }

  lemma NoArrival(h: seq<Act>, us: seq<User>)
    ensures h + Arrivals(us[..0]) == h
  {
  }

  lemma OneMoreArrival(h: seq<Act>, us: seq<User>, n: nat)
    requires 0 < n <= |us|
    ensures h + Arrivals(us[..n]) == h + Arrivals(us[..n - 1]) + [Came(us[n - 1])]
  {
    var a, b := Arrivals(us[..n]), Arrivals(us[..n - 1]) + [Came(us[n - 1])];
    forall i | 0 <= i < n
      ensures a[i] == b[i]
    {
    }
    assert a == b;
  }

  lemma {:induction false} JoinLoopExplained(r: Room, n: nat, h: seq<Act>, start: string)
    requires InJoinLoop(r) && n <= |r.newusers| && RoomOk(r, OldCount(r)) && Explains(h, r, OldCount(r), start)
    ensures Explains(h + Arrivals(r.newusers[..n]), GreetUpto(r, n), OldCount(r) + n, start)
  {
    hide RoomOk, GreetOne, Explains, Arrivals;
    if n == 0 {
      NoArrival(h, r.newusers);
    } else {
      var g, u := GreetUpto(r, n - 1), r.newusers[n - 1];
      JoinLoopExplained(r, n - 1, h, start);
      JoinLoopKeepsRoom(r, n - 1);
      GreetExplained(g, n - 1, h + Arrivals(r.newusers[..n - 1]), start);
      OneMoreArrival(h, r.newusers, n);
    }
  }

  /** handle_newusers adds the arrivals of the new users, in order. */
  lemma HandleNewUsersExplained(r: Room, h: seq<Act>, start: string)
    requires InJoinLoop(r) && RoomOk(r, OldCount(r)) && Explains(h, r, OldCount(r), start)
    ensures Explains(h + Arrivals(r.newusers), HandleNewUsers(r), |r.users|, start)
  {
    hide RoomOk, GreetUpto, Explains;
    assert r.newusers[..|r.newusers|] == r.newusers;
    JoinLoopExplained(r, |r.newusers|, h, start);
    SameExplained(GreetUpto(r, |r.newusers|), HandleNewUsers(r), |r.users|, h + Arrivals(r.newusers), start);
  }
}
