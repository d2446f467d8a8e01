/** What every member of a channel has been told, kept by every operation of the channel's servlet. */
module RoomInvariant {
  import opened Strings
  import opened Sockio
  import opened Irc
  import opened Room

  // ---- What a stream of replies tells its reader ----

  function RosterAfter(before: multiset<string>, r: Reply): multiset<string> {
    match r
    case Joined(u) => before + multiset{u.nick}
    case Names(_, _, nicks) => multiset(nicks)
    case Parted(u, _) => before - multiset{u.nick}
    case _ => before
  }

  /** The nicks present, from the NAMES list and the JOINs and PARTs after it. */
  function Roster(rs: seq<Reply>): multiset<string> {
    if rs == [] then multiset{} else RosterAfter(Roster(rs[..|rs| - 1]), rs[|rs| - 1])
  }

  function TopicAfter(before: Option<string>, r: Reply): Option<string> {
    match r
    case TopicIs(_, _, t) => Some(t)
    case Retitled(_, _, t) => Some(t)
    case _ => before
  }

  function LastTopic(rs: seq<Reply>): Option<string> {
    if rs == [] then None else TopicAfter(LastTopic(rs[..|rs| - 1]), rs[|rs| - 1])
  }

  function HeardIn(r: Reply): seq<Entry> {
    match r
    case Said(u, line) => [Entry(u, line)]
    case _ => []
  }

  /** The chat messages received, in order. */
  function Heard(rs: seq<Reply>): seq<Entry> {
    if rs == [] then [] else Heard(rs[..|rs| - 1]) + HeardIn(rs[|rs| - 1])
  }

  /** The log without the messages that endpoint `e` sent. */
  function ByOthers(log: seq<Entry>, e: Endpoint): seq<Entry> {
    if log == [] then []
    else
      var last := log[|log| - 1];
      ByOthers(log[..|log| - 1], e) + if last.from.endpt == e then [] else [last]
  }

  lemma ReplyAppended(rs: seq<Reply>, r: Reply)
    ensures Roster(rs + [r]) == RosterAfter(Roster(rs), r)
    ensures LastTopic(rs + [r]) == TopicAfter(LastTopic(rs), r)
    ensures Heard(rs + [r]) == Heard(rs) + HeardIn(r)
  {
    assert (rs + [r])[..|rs|] == rs;
  }

  /** The four replies a new member reads first: its own JOIN, the topic, the names, the end of the names. */
  predicate Greeted(rs: seq<Reply>, u: User, host: string) {
    && |rs| >= 4
    && rs[0] == Joined(u)
    && rs[1].TopicIs? && rs[1].host == host && rs[1].to == u
    && rs[2].Names? && rs[2].host == host && rs[2].to == u
    && rs[3] == EndOfNames(host, u)
  }

  /** A reply that a member can get after its greeting. */
  predicate RelayedIn(p: Reply, chan: string) {
    match p
    case Joined(u) => u.chan == chan
    case Said(_, line) => IsPriv(line)
    case Parted(_, line) => IsPart(line)
    case Retitled(_, c, _) => c == chan
    case _ => false
  }

  /** After the four replies of the greeting come only what other users do in the channel. */
  predicate Regular(rs: seq<Reply>, chan: string) {
    forall i | 4 <= i < |rs| :: RelayedIn(rs[i], chan)
  }

  ghost predicate MemberOk(r: Room, settled: seq<User>, u: User) {
    && u.endpt in r.streams
    && var s := r.streams[u.endpt];
       && Greeted(s.replies, u, r.host)
       && Regular(s.replies, r.chan)
       && Roster(s.replies) == multiset(Nicks(settled))
       && LastTopic(s.replies) == Some(r.topic)
       && s.mark <= |r.log|
       && Heard(s.replies) == ByOthers(r.log[s.mark..], u.endpt)
  }

  /** The members' endpoints are the keys of the servlet's maps. */
  ghost predicate KeysMatch(r: Room) {
    && (forall e :: e in r.queues <==> Has(r.users, e))
    && (forall e :: e in r.streams <==> Has(r.users, e))
    && (forall e :: Has(r.users, e) ==> e in r.handled)
  }

  ghost predicate AllOk(r: Room, settled: seq<User>) {
    forall u | u in settled :: MemberOk(r, settled, u)
  }

  ghost predicate Untold(r: Room, us: seq<User>) {
    forall u | u in us :: u.endpt in r.streams && r.streams[u.endpt] == Stream([], |r.log|)
  }

  ghost predicate Shape(r: Room) {
    && Distinct(r.users)
    && KeysMatch(r)
    && r.topic == r.stored
    && (forall u | u in r.users :: u.chan == r.chan)
  }

  /** The first `n` users have been greeted; the others have been told nothing yet. */
  ghost predicate RoomOk(r: Room, n: nat) {
    && n <= |r.users|
    && Shape(r)
    && AllOk(r, r.users[..n])
    && Untold(r, r.users[n..])
  }

  // ---- Users and endpoints ----

  lemma InHas(us: seq<User>, u: User)
    requires u in us
    ensures Has(us, u.endpt)
  {
    var i :| 0 <= i < |us| && us[i] == u;
    assert us[i].endpt == u.endpt;
  }

  lemma HasConcat(a: seq<User>, b: seq<User>, e: Endpoint)
    ensures Has(a + b, e) <==> Has(a, e) || Has(b, e)
  {
    if Has(a, e) {
      var i :| 0 <= i < |a| && a[i].endpt == e;
      assert (a + b)[i].endpt == e;
    }
    if Has(b, e) {
      var i :| 0 <= i < |b| && b[i].endpt == e;
      assert (a + b)[|a| + i].endpt == e;
    }
    if Has(a + b, e) {
      var i :| 0 <= i < |a + b| && (a + b)[i].endpt == e;
      assert i < |a| ==> a[i].endpt == e;
      assert i >= |a| ==> b[i - |a|].endpt == e;
    }
  }

  lemma HasOne(u: User, e: Endpoint)
    ensures Has([u], e) <==> u.endpt == e
  {
    assert [u][0] == u;
  }

  lemma {:induction false} OthersAre(us: seq<User>, e: Endpoint, x: Endpoint)
    ensures Has(Others(us, e), x) <==> Has(us, x) && x != e
  {
    if us == [] {
    } else {
      var n := |us| - 1;
      OthersAre(us[..n], e, x);
      assert us == us[..n] + [us[n]];
      HasConcat(us[..n], [us[n]], x);
      HasOne(us[n], x);
      HasConcat(Others(us[..n], e), [us[n]], x);
      assert Others(us[..n], e) + [] == Others(us[..n], e);
    }
  }

  // ---- What the three commands write, spelled out ----

  /** Everybody but the sender gets the client's own line under the sender's names, and one row is logged. */
  lemma PrivSpelled(r: Room, u: User, msg: string)
    ensures var q := HandlePriv(r, u, msg);
            && q.users == r.users && q.log == r.log + [Entry(u, msg)] && q.topic == r.topic && q.stored == r.stored
            && forall v | v in r.users && v.endpt in r.streams ::
                 v.endpt in q.streams && q.streams[v.endpt].replies
                 == r.streams[v.endpt].replies + if v.endpt == u.endpt then [] else [Said(u, msg)]
  {
    hide Others, Has;
    forall v | v in r.users
      ensures Has(Others(r.users, u.endpt), v.endpt) <==> v.endpt != u.endpt
    {
      InHas(r.users, v);
      OthersAre(r.users, u.endpt, v.endpt);
    }
  }

  /** Everybody who stays gets the client's own line under the sender's names. */
  lemma PartSpelled(r: Room, u: User, msg: string)
    requires Has(r.users, u.endpt)
    ensures var q := HandlePart(r, u, msg);
            && q.log == r.log && q.topic == r.topic && q.stored == r.stored && u.endpt !in q.streams
            && forall v | v in r.users && v.endpt != u.endpt && v.endpt in r.streams ::
                 v.endpt in q.streams && q.streams[v.endpt].replies == r.streams[v.endpt].replies + [Parted(u, msg)]
  {
    hide Others, Has, RemoveAt;
    forall v | v in r.users
      ensures Has(Others(r.users, u.endpt), v.endpt) <==> v.endpt != u.endpt
    {
      InHas(r.users, v);
      OthersAre(r.users, u.endpt, v.endpt);
    }
  }

  /** The topic is set and stored, and everybody gets it under the sender's names. */
  lemma TopicSpelled(r: Room, u: User, msg: string)
    ensures var q, t := HandleTopic(r, u, msg), NewTopic(r.chan, msg);
            && q.users == r.users && q.log == r.log && q.topic == t && q.stored == t
            && forall v | v in r.users && v.endpt in r.streams ::
                 v.endpt in q.streams && q.streams[v.endpt].replies == r.streams[v.endpt].replies + [Retitled(u, r.chan, t)]
  {
    hide Has, NewTopic;
    forall v | v in r.users
      ensures Has(r.users, v.endpt)
    {
      InHas(r.users, v);
    }
  }

  lemma {:induction false} NicksConcat(a: seq<User>, b: seq<User>)
    ensures Nicks(a + b) == Nicks(a) + Nicks(b)
  {
    if b == [] {
      assert a + b == a;
    } else {
      var n := |b| - 1;
      assert (a + b)[..|a + b| - 1] == a + b[..n];
      NicksConcat(a, b[..n]);
    }
  }

  /** Two members with the same endpoint are the same member. */
  lemma DistinctMembers(us: seq<User>, u: User, v: User)
    requires Distinct(us) && u in us && v in us && u.endpt == v.endpt
    ensures u == v
  {
    var i :| 0 <= i < |us| && us[i] == u;
    var j :| 0 <= j < |us| && us[j] == v;
  }

  lemma RemovedDistinct(us: seq<User>, k: nat)
    requires Distinct(us) && k < |us|
    ensures Distinct(RemoveAt(us, k))
  {
  }

  lemma RemovedHas(us: seq<User>, k: nat, x: Endpoint)
    requires Distinct(us) && k < |us|
    ensures Has(RemoveAt(us, k), x) <==> Has(us, x) && x != us[k].endpt
  {
    var rest := RemoveAt(us, k);
    if Has(us, x) && x != us[k].endpt {
      var i :| 0 <= i < |us| && us[i].endpt == x;
      assert rest[if i < k then i else i - 1].endpt == x;
    }
    forall i | 0 <= i < |rest|
      ensures rest[i].endpt != us[k].endpt && Has(us, rest[i].endpt)
    {
      var j := if i < k then i else i + 1;
      assert us[j] == rest[i];
    }
  }

  lemma MiddleOut<T>(a: seq<T>, x: T, b: seq<T>)
    ensures multiset(a + ([x] + b)) == multiset(a + b) + multiset{x}
  {
  }

  lemma MiddleIn<T>(s: seq<T>, k: nat)
    requires k < |s|
    ensures s == s[..k] + ([s[k]] + s[k + 1..])
  {
  }

  lemma OneNick(u: User)
    ensures Nicks([u]) == [u.nick]
  {
  }

  lemma RemovedNicks(us: seq<User>, k: nat)
    requires k < |us|
    ensures multiset(Nicks(us)) == multiset(Nicks(RemoveAt(us, k))) + multiset{us[k].nick}
  {
    hide Nicks;
    var a, x, b := us[..k], us[k], us[k + 1..];
    MiddleIn(us, k);
    OneNick(x);
    NicksConcat(a, b);
    NicksConcat(a, [x] + b);
    NicksConcat([x], b);
    MiddleOut(Nicks(a), x.nick, Nicks(b));
  }

  lemma InRemainder(us: seq<User>, k: nat, u: User)
    requires k < |us| && u in RemoveAt(us, k)
    ensures u in us
  {
  }

  lemma LogAppended(log: seq<Entry>, m: nat, x: Entry, e: Endpoint)
    requires m <= |log|
    ensures ByOthers((log + [x])[m..], e) == ByOthers(log[m..], e) + if x.from.endpt == e then [] else [x]
  {
    assert (log + [x])[m..] == log[m..] + [x];
    assert (log[m..] + [x])[..|log| - m] == log[m..];
  }

  /** A member that one more reply was written to, after its channel moved on. */
  lemma MemberTold(r: Room, q: Room, settled: seq<User>, now: seq<User>, u: User, p: Reply)
    requires MemberOk(r, settled, u)
    requires u.endpt in q.streams && q.host == r.host && q.chan == r.chan && |q.log| >= |r.log|
    requires RelayedIn(p, r.chan)
    requires q.streams[u.endpt] == r.streams[u.endpt].(replies := r.streams[u.endpt].replies + [p])
    requires RosterAfter(multiset(Nicks(settled)), p) == multiset(Nicks(now))
    requires TopicAfter(Some(r.topic), p) == Some(q.topic)
    requires var m := r.streams[u.endpt].mark;
             ByOthers(q.log[m..], u.endpt) == ByOthers(r.log[m..], u.endpt) + HeardIn(p)
    ensures MemberOk(q, now, u)
  {
    hide Roster, LastTopic, Heard, ByOthers, Nicks;
    ReplyAppended(r.streams[u.endpt].replies, p);
  }

  lemma PrivKeepsMember(r: Room, client: User, msg: string, u: User)
    requires IsPriv(msg) && MemberOk(r, r.users, u) && Has(r.users, u.endpt)
    ensures MemberOk(HandlePriv(r, client, msg), r.users, u)
  {
    var q := HandlePriv(r, client, msg);
    LogAppended(r.log, r.streams[u.endpt].mark, Entry(client, msg), u.endpt);
    OthersAre(r.users, client.endpt, u.endpt);
    if u.endpt != client.endpt {
      MemberTold(r, q, r.users, r.users, u, Said(client, msg));
    }
  }

  /** handle_priv keeps what every member knows. */
  lemma PrivKeepsRoom(r: Room, client: User, msg: string)
    requires RoomOk(r, |r.users|) && IsPriv(msg)
    ensures RoomOk(HandlePriv(r, client, msg), |r.users|)
  {
    assert r.users[..|r.users|] == r.users;
    forall u | u in r.users
      ensures MemberOk(HandlePriv(r, client, msg), r.users, u)
    {
      InHas(r.users, u);
      PrivKeepsMember(r, client, msg, u);
    }
  }

  lemma TopicKeepsMember(r: Room, client: User, msg: string, u: User)
    requires MemberOk(r, r.users, u) && Has(r.users, u.endpt)
    ensures MemberOk(HandleTopic(r, client, msg), r.users, u)
  {
    hide Roster, LastTopic, Heard, ByOthers, NewTopic, Greeted;
    var q := HandleTopic(r, client, msg);
    MemberTold(r, q, r.users, r.users, u, Retitled(client, r.chan, q.topic));
  }

  /** handle_topic keeps what every member knows; the topic is stored and told to everyone. */
  lemma TopicKeepsRoom(r: Room, client: User, msg: string)
    requires RoomOk(r, |r.users|)
    ensures RoomOk(HandleTopic(r, client, msg), |r.users|)
  {
    hide MemberOk, NewTopic;
    var q := HandleTopic(r, client, msg);
    assert r.users[..|r.users|] == r.users;
    forall u | u in r.users
      ensures MemberOk(q, r.users, u)
    {
      InHas(r.users, u);
      TopicKeepsMember(r, client, msg, u);
    }
  }

  lemma PartKeepsMember(r: Room, client: User, msg: string, u: User)
    requires Has(r.users, client.endpt)
    requires var k := IndexOf(r.users, client.endpt);
             RosterAfter(multiset(Nicks(r.users)), Parted(client, msg)) == multiset(Nicks(RemoveAt(r.users, k)))
    requires MemberOk(r, r.users, u) && Has(r.users, u.endpt) && u.endpt != client.endpt && IsPart(msg)
    ensures var q := HandlePart(r, client, msg);
            MemberOk(q, q.users, u)
  {
    hide Roster, LastTopic, Heard, ByOthers, Greeted, IndexOf;
    var q := HandlePart(r, client, msg);
    OthersAre(r.users, client.endpt, u.endpt);
    MemberTold(r, q, r.users, q.users, u, Parted(client, msg));
  }

  lemma PartKeepsShape(r: Room, client: User, msg: string)
    requires Shape(r) && Has(r.users, client.endpt)
    ensures var q := HandlePart(r, client, msg);
            && Shape(q)
            && (forall x :: Has(q.users, x) <==> Has(r.users, x) && x != client.endpt)
  {
    hide RemoveAt, IndexOf, Has, Distinct;
    var q := HandlePart(r, client, msg);
    var k := IndexOf(r.users, client.endpt);
    RemovedDistinct(r.users, k);
    forall x
      ensures Has(q.users, x) <==> Has(r.users, x) && x != client.endpt
    {
      RemovedHas(r.users, k, x);
    }
    forall u | u in q.users
      ensures u.chan == r.chan
    {
      InRemainder(r.users, k, u);
    }
  }

  /** handle_part keeps what every remaining member knows. */
  lemma PartKeepsRoom(r: Room, client: User, msg: string)
    requires RoomOk(r, |r.users|) && client in r.users && Has(r.users, client.endpt) && IsPart(msg)
    ensures var q := HandlePart(r, client, msg);
            && RoomOk(q, |q.users|)
            && (forall x :: Has(q.users, x) <==> Has(r.users, x) && x != client.endpt)
  {
    hide MemberOk, Nicks, RemoveAt, Distinct, KeysMatch;
    var q := HandlePart(r, client, msg);
    var k := IndexOf(r.users, client.endpt);
    PartKeepsShape(r, client, msg);
    DistinctMembers(r.users, r.users[k], client);
    RemovedNicks(r.users, k);
    assert r.users[..|r.users|] == r.users;
    assert q.users[..|q.users|] == q.users;
    forall u | u in q.users
      ensures MemberOk(q, q.users, u)
    {
      InRemainder(r.users, k, u);
      InHas(q.users, u);
      InHas(r.users, u);
      PartKeepsMember(r, client, msg, u);
    }
  }

  /** What members know does not depend on queues, sockets or the servlet's local variables. */
  lemma KnowledgeOnly(r: Room, q: Room, n: nat)
    requires RoomOk(r, n)
    requires q == r.(queues := q.queues, socks := q.socks, newusers := q.newusers, handled := q.handled)
    requires q.queues.Keys == r.queues.Keys && r.handled.Keys <= q.handled.Keys
    ensures RoomOk(q, n)
  {
    hide Roster, LastTopic, Heard, ByOthers, Greeted, Has, Distinct;
    forall u | u in r.users[..n]
      ensures MemberOk(q, r.users[..n], u)
    {
      assert MemberOk(r, r.users[..n], u);
    }
  }

  lemma MsgKeepsRoom(r: Room, e: Endpoint, msg: string)
    requires RoomOk(r, |r.users|) && Has(r.users, e)
    ensures match HandleMsg(r, e, msg)
            case None => true
            case Some(q) => RoomOk(q, |q.users|)
  {
    var client := r.users[IndexOf(r.users, e)];
    var q := Record(r, e, msg);
    KnowledgeOnly(r, q, |r.users|);
    if IsPriv(msg) {
      PrivKeepsRoom(q, client, msg);
    } else if IsPart(msg) {
      PartKeepsRoom(q, client, msg);
    } else if IsTopic(msg) {
      TopicKeepsRoom(q, client, msg);
    }
  }

  lemma {:induction false} QueueKeepsRoom(r: Room, e: Endpoint, msgs: seq<string>)
    requires RoomOk(r, |r.users|)
    ensures match HandleQueue(r, e, msgs)
            case None => true
            case Some(q) => RoomOk(q, |q.users|)
    decreases |msgs|
  {
    if msgs != [] && Has(r.users, e) {
      MsgKeepsRoom(r, e, msgs[0]);
      match HandleMsg(r, e, msgs[0])
      case None =>
      case Some(q) =>
        QueueKeepsRoom(q, e, msgs[1..]);
    }
  }

  lemma EntryKeepsRoom(r: Room, e: Endpoint)
    requires RoomOk(r, |r.users|)
    ensures match HandleEntry(r, e)
            case None => true
            case Some(q) => RoomOk(q, |q.users|)
  {
    QueueKeepsRoom(r, e, QueueAt(r.queues, e));
    match HandleQueue(r, e, QueueAt(r.queues, e))
    case None =>
    case Some(d) =>
      if e in d.queues {
        KnowledgeOnly(d, d.(queues := d.queues[e := []]), |d.users|);
      }
  }

  // ---- Admitting and greeting new users ----

  /** New users whose endpoints are new to the channel and to each other. */
  ghost predicate Admissible(r: Room, list: seq<Early>) {
    && Distinct(Newcomers(list))
    && (forall p | p in list :: p.user.chan == r.chan && !Has(r.users, p.user.endpt))
  }

  lemma {:induction false} NewcomerAt(list: seq<Early>, i: nat)
    requires i < |list|
    ensures Newcomers(list)[i] == list[i].user
  {
    if i < |list| - 1 {
      NewcomerAt(list[..|list| - 1], i);
    }
  }

  lemma NewcomersAre(list: seq<Early>, e: Endpoint)
    ensures e in NewEnds(list) <==> Has(Newcomers(list), e)
  {
    if e in NewEnds(list) {
      var p :| p in list && p.user.endpt == e;
      var i :| 0 <= i < |list| && list[i] == p;
      NewcomerAt(list, i);
    }
    if Has(Newcomers(list), e) {
      var i :| 0 <= i < |list| && Newcomers(list)[i].endpt == e;
      NewcomerAt(list, i);
      assert list[i] in list;
    }
  }

  lemma AdmitDistinct(us: seq<User>, vs: seq<User>)
    requires Distinct(us) && Distinct(vs) && forall i | 0 <= i < |vs| :: !Has(us, vs[i].endpt)
    ensures Distinct(us + vs)
  {
    var ws := us + vs;
    forall i, j | 0 <= i < j < |ws|
      ensures ws[i].endpt != ws[j].endpt
    {
      if i < |us| <= j {
        assert ws[i] == us[i] && ws[j] == vs[j - |us|];
      }
    }
  }

  lemma AdmitKeepsKeys(r: Room, list: seq<Early>)
    requires KeysMatch(r)
    ensures KeysMatch(Admit(r, list))
  {
    hide QueueOf, Has, NewEnds, Newcomers;
    var q := Admit(r, list);
    forall e
      ensures e in q.queues <==> Has(q.users, e)
      ensures e in q.streams <==> Has(q.users, e)
      ensures Has(q.users, e) ==> e in q.handled
    {
      NewcomersAre(list, e);
      HasConcat(r.users, Newcomers(list), e);
    }
  }

  lemma AdmitKeepsShape(r: Room, list: seq<Early>)
    requires Shape(r) && Admissible(r, list)
    ensures Shape(Admit(r, list))
  {
    hide QueueOf, KeysMatch, Distinct, Has, Newcomers;
    AdmitKeepsKeys(r, list);
    forall i | 0 <= i < |list|
      ensures !Has(r.users, Newcomers(list)[i].endpt) && Newcomers(list)[i].chan == r.chan
    {
      NewcomerAt(list, i);
      assert list[i] in list;
    }
    AdmitDistinct(r.users, Newcomers(list));
  }

  lemma AdmitKeepsMember(r: Room, list: seq<Early>, u: User)
    requires MemberOk(r, r.users, u) && u.endpt !in NewEnds(list)
    ensures MemberOk(Admit(r, list), r.users, u)
  {
    hide QueueOf, Newcomers, Roster, LastTopic, Heard, ByOthers, Greeted;
  }

  /** Admitted users have been told nothing; the members know what they knew. */
  lemma AdmitKeepsRoom(r: Room, list: seq<Early>)
    requires RoomOk(r, |r.users|) && Admissible(r, list)
    ensures RoomOk(Admit(r, list), |r.users|)
  {
    hide MemberOk, QueueOf, Distinct, KeysMatch;
    var q := Admit(r, list);
    AdmitKeepsShape(r, list);
    assert r.users[..|r.users|] == r.users;
    assert q.users[..|r.users|] == r.users && q.users[|r.users|..] == Newcomers(list);
    forall u | u in r.users
      ensures MemberOk(q, r.users, u)
    {
      InHas(r.users, u);
      AdmitKeepsMember(r, list, u);
    }
    forall u | u in Newcomers(list)
      ensures u.endpt in q.streams && q.streams[u.endpt] == Stream([], |r.log|)
    {
      InHas(Newcomers(list), u);
      NewcomersAre(list, u.endpt);
    }
  }

  lemma {:induction false} AudienceConcat(a: seq<User>, b: seq<User>, ns: seq<User>, hs: seq<User>)
    ensures Audience(a + b, ns, hs) == Audience(a, ns, hs) + Audience(b, ns, hs)
  {
    if b == [] {
      assert a + b == a;
    } else {
      var n := |b| - 1;
      assert (a + b)[..|a + b| - 1] == a + b[..n];
      AudienceConcat(a, b[..n], ns, hs);
    }
  }

  lemma {:induction false} AudienceAll(us: seq<User>, ns: seq<User>, hs: seq<User>)
    requires forall i | 0 <= i < |us| :: Has(ns, us[i].endpt) ==> Has(hs, us[i].endpt)
    ensures Audience(us, ns, hs) == us
  {
    if us != [] {
      var n := |us| - 1;
      AudienceAll(us[..n], ns, hs);
      assert us == us[..n] + [us[n]];
    }
  }

  lemma {:induction false} AudienceNone(us: seq<User>, ns: seq<User>, hs: seq<User>)
    requires forall i | 0 <= i < |us| :: Has(ns, us[i].endpt) && !Has(hs, us[i].endpt)
    ensures Audience(us, ns, hs) == []
  {
    if us != [] {
      AudienceNone(us[..|us| - 1], ns, hs);
    }
  }

  /** The join loop writes to the old members and the new users handled so far, and to nobody else. */
  lemma AudienceIs(old_: seq<User>, ns: seq<User>, i: nat)
    requires Distinct(old_ + ns) && i <= |ns|
    ensures Audience(old_ + ns, ns, ns[..i]) == old_ + ns[..i]
  {
    hide Audience;
    var us := old_ + ns;
    var told, untold := us[..|old_| + i], us[|old_| + i..];
    assert us == told + untold;
    assert told == old_ + ns[..i];
    forall k | 0 <= k < |told|
      ensures Has(ns, told[k].endpt) ==> Has(ns[..i], told[k].endpt)
    {
      assert told[k] == us[k];
      if k < |old_| {
        forall j | 0 <= j < |ns|
          ensures ns[j].endpt != told[k].endpt
        {
          assert us[|old_| + j] == ns[j];
        }
      } else {
        assert ns[..i][k - |old_|] == told[k];
      }
    }
    forall k | 0 <= k < |untold|
      ensures Has(ns, untold[k].endpt) && !Has(ns[..i], untold[k].endpt)
    {
      assert ns[i + k] == untold[k] == us[|old_| + i + k];
      forall j | 0 <= j < i
        ensures ns[..i][j].endpt != untold[k].endpt
      {
        assert us[|old_| + j] == ns[..i][j];
      }
    }
    AudienceConcat(told, untold, ns, ns[..i]);
    AudienceAll(told, ns, ns[..i]);
    AudienceNone(untold, ns, ns[..i]);
  }

  /** What the greeting of `u` writes to one endpoint. */
  lemma GreetingAt(r: Room, u: User, audience: seq<User>, x: Endpoint)
    requires x in r.streams && Has(audience, u.endpt)
    ensures var g, s := Greetings(r, u, audience), r.streams[x];
            && g.Keys == r.streams.Keys
            && (x == u.endpt ==> g[x] == s.(replies := s.replies + [Joined(u)] + [TopicIs(r.host, u, r.topic)]
                                                     + [Names(r.host, u, Nicks(audience))] + [EndOfNames(r.host, u)]))
            && (x != u.endpt && Has(audience, x) ==> g[x] == s.(replies := s.replies + [Joined(u)]))
            && (!Has(audience, x) ==> g[x] == s)
  {
    hide Nicks;
    HasOne(u, x);
  }

  lemma NewMemberGreeted(r: Room, q: Room, u: User, now: seq<User>)
    requires u.endpt in r.streams && r.streams[u.endpt] == Stream([], |r.log|)
    requires q == r.(streams := q.streams) && u.endpt in q.streams
    requires q.streams[u.endpt].mark == |r.log|
    requires q.streams[u.endpt].replies == [] + [Joined(u)] + [TopicIs(r.host, u, r.topic)]
                                           + [Names(r.host, u, Nicks(now))] + [EndOfNames(r.host, u)]
    ensures MemberOk(q, now, u)
  {
    var rs: seq<Reply> := [] + [Joined(u)] + [TopicIs(r.host, u, r.topic)] + [Names(r.host, u, Nicks(now))];
    ReplyAppended(rs, EndOfNames(r.host, u));
    ReplyAppended([] + [Joined(u)] + [TopicIs(r.host, u, r.topic)], Names(r.host, u, Nicks(now)));
    ReplyAppended([] + [Joined(u)], TopicIs(r.host, u, r.topic));
    ReplyAppended([], Joined(u));
    assert r.log[|r.log|..] == [];
  }

  lemma OldMemberGreeted(r: Room, q: Room, u: User, settled: seq<User>, now: seq<User>, v: User)
    requires MemberOk(r, settled, v) && now == settled + [u] && u.chan == r.chan
    requires q == r.(streams := q.streams) && v.endpt in q.streams
    requires q.streams[v.endpt] == r.streams[v.endpt].(replies := r.streams[v.endpt].replies + [Joined(u)])
    ensures MemberOk(q, now, v)
  {
    hide Roster, LastTopic, Heard, ByOthers, Greeted;
    NicksConcat(settled, [u]);
    assert Nicks([u]) == [u.nick];
    MemberTold(r, q, settled, now, v, Joined(u));
  }

  /** The users of a room whose join loop is running: the old members, then the new users. */
  ghost predicate InJoinLoop(r: Room) {
    |r.newusers| <= |r.users| && r.users[|r.users| - |r.newusers|..] == r.newusers
  }

  function OldCount(r: Room): nat
    requires |r.newusers| <= |r.users|
  {
    |r.users| - |r.newusers|
  }

  /** Every turn of the join loop adds one member, and everyone told so far agrees on the roster. */
  lemma GreetKeepsRoom(r: Room, i: nat)
    requires InJoinLoop(r) && i < |r.newusers| && RoomOk(r, OldCount(r) + i)
    ensures RoomOk(GreetOne(r, i), OldCount(r) + i + 1)
  {
    hide MemberOk, KeysMatch, Nicks, Greetings, Audience;
    var k := OldCount(r) + i;
    var q := GreetOne(r, i);
    var u, settled, now := r.newusers[i], r.users[..k], r.users[..k + 1];
    assert r.users == r.users[..OldCount(r)] + r.newusers;
    AudienceIs(r.users[..OldCount(r)], r.newusers, i + 1);
    assert r.users[..OldCount(r)] + r.newusers[..i + 1] == now;
    assert r.users[k] == u;
    assert now == settled + [u];
    assert q.streams == Greetings(r, u, now);
    InHas(now, u);
    GreetedMember(r, q, k, u);
    forall v | v in now
      ensures MemberOk(q, now, v)
    {
      if v in settled {
        GreetedOther(r, q, k, u, v);
      }
    }
    forall v | v in q.users[k + 1..]
      ensures v.endpt in q.streams && q.streams[v.endpt] == Stream([], |q.log|)
    {
      GreetedLater(r, q, k, u, v);
    }
    GreetedKeys(r, q, u, now);
  }

  lemma GreetedKeys(r: Room, q: Room, u: User, now: seq<User>)
    requires KeysMatch(r) && q == r.(streams := q.streams) && q.streams == Greetings(r, u, now)
    ensures KeysMatch(q)
  {
  }

  ghost predicate MidGreeting(r: Room, q: Room, k: nat, u: User) {
    && k < |r.users| && RoomOk(r, k) && r.users[k] == u
    && q == r.(streams := q.streams) && q.streams == Greetings(r, u, r.users[..k + 1])
  }

  lemma GreetedMember(r: Room, q: Room, k: nat, u: User)
    requires MidGreeting(r, q, k, u)
    ensures MemberOk(q, r.users[..k + 1], u)
  {
    hide Greetings, MemberOk, Nicks, Distinct;
    var now := r.users[..k + 1];
    assert now[k] == u && u in r.users[k..];
    InHas(now, u);
    GreetingAt(r, u, now, u.endpt);
    NewMemberGreeted(r, q, u, now);
  }

  lemma GreetedOther(r: Room, q: Room, k: nat, u: User, v: User)
    requires MidGreeting(r, q, k, u) && v in r.users[..k]
    ensures MemberOk(q, r.users[..k + 1], v)
  {
    hide Greetings, Nicks, Roster, LastTopic, Heard, ByOthers, Greeted, KeysMatch;
    var now := r.users[..k + 1];
    var j :| 0 <= j < k && r.users[j] == v;
    assert now[k] == u && now[j] == v && now == r.users[..k] + [u];
    InHas(now, u);
    InHas(now, v);
    GreetingAt(r, u, now, v.endpt);
    OldMemberGreeted(r, q, u, r.users[..k], now, v);
  }

  lemma GreetedLater(r: Room, q: Room, k: nat, u: User, v: User)
    requires MidGreeting(r, q, k, u) && v in r.users[k + 1..]
    ensures v.endpt in q.streams && q.streams[v.endpt] == Stream([], |q.log|)
  {
    hide Greetings, Nicks, MemberOk, KeysMatch;
    var now := r.users[..k + 1];
    var j :| k < j < |r.users| && r.users[j] == v;
    assert now[k] == u;
    InHas(now, u);
    forall i | 0 <= i < |now|
      ensures now[i].endpt != v.endpt
    {
      assert now[i] == r.users[i];
    }
    assert r.users[k..][j - k] == v && v in r.users[k..];
    GreetingAt(r, u, now, v.endpt);
  }

  /** Inside the join loop: after `n` turns the old members and the first `n` new users agree. */
  lemma {:induction false} JoinLoopKeepsRoom(r: Room, n: nat)
    requires InJoinLoop(r) && n <= |r.newusers| && RoomOk(r, OldCount(r))
    ensures RoomOk(GreetUpto(r, n), OldCount(r) + n)
  {
    hide RoomOk, GreetOne;
    if n > 0 {
      JoinLoopKeepsRoom(r, n - 1);
      GreetKeepsRoom(GreetUpto(r, n - 1), n - 1);
    }
  }

  /** After handle_newusers everyone in `_users` is a settled member. */
  lemma HandleNewUsersKeepsRoom(r: Room)
    requires InJoinLoop(r) && RoomOk(r, OldCount(r))
    ensures RoomOk(HandleNewUsers(r), |r.users|)
  {
    hide RoomOk, GreetOne;
    JoinLoopKeepsRoom(r, |r.newusers|);
    KnowledgeOnly(GreetUpto(r, |r.newusers|), HandleNewUsers(r), |r.users|);
  }
}
