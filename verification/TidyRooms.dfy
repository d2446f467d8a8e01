/** What well-behaved names and texts look like, and that a servlet fed with them tells its members nothing else. */
module TidyRooms {
  import opened Strings
  import opened Sockio
  import opened Irc
  import opened Room
  import opened RoomInvariant
  import opened ClientParsers
  import opened BroadcastCodec
  import opened EndToEnd

  predicate NoCrlf(s: string) {
    !Contains(s, CRLF)
  }

  /** Names that the client's regular expressions accept, in a channel without a colon. */
  ghost predicate TidyUser(u: User) {
    WellNamed(u) && ':' !in u.chan && NoCrlf(u.chan)
  }

  /** One message, not a bare PART, and with a colon if it is a PRIVMSG. */
  predicate TidyMsg(m: string) {
    NoCrlf(m) && m != "PART" && (IsPriv(m) ==> Contains(m, ":"))
  }

  predicate TidyHost(host: string) {
    ':' !in host && '\r' !in host
  }

  ghost predicate TidyReply(p: Reply) {
    TidyUser(Author(p)) &&
    match p
    case Joined(_) => true
    case TopicIs(host, _, topic) => TidyHost(host) && NoCrlf(topic)
    case Names(host, _, nicks) => TidyHost(host) && forall n | n in nicks :: IsRun(n, false)
    case EndOfNames(host, _) => TidyHost(host)
    case Said(_, line) => TidyMsg(line)
    case Parted(_, line) => TidyMsg(line)
    case Retitled(_, chan, topic) => NoCrlf(chan) && NoCrlf(topic)
  }

  ghost predicate TidyStreams(streams: map<Endpoint, Stream>) {
    forall e, p | e in streams && p in streams[e].replies :: TidyReply(p)
  }

  ghost predicate TidyUsers(us: seq<User>) {
    forall u | u in us :: TidyUser(u)
  }

  predicate TidyLog(log: seq<Entry>) {
    forall x | x in log :: Contains(x.line, ":")
  }

  ghost predicate TidyRoom(r: Room) {
    && TidyHost(r.host) && NoCrlf(r.chan) && NoCrlf(r.topic)
    && TidyUsers(r.users) && TidyUsers(r.newusers)
    && TidyStreams(r.streams)
    && TidyLog(r.log)
  }

  // ---- Greeting ----

  lemma DeliverTidy(streams: map<Endpoint, Stream>, us: seq<User>, p: Reply)
    requires TidyStreams(streams) && TidyReply(p)
    ensures TidyStreams(Deliver(streams, us, p))
  {
    hide TidyReply, Has;
  }

  lemma {:induction false} NicksTidy(us: seq<User>)
    requires TidyUsers(us)
    ensures forall n | n in Nicks(us) :: IsRun(n, false)
  {
    hide IsRun, IsQuad;
    if us != [] {
      assert TidyUser(us[|us| - 1]);
      NicksTidy(us[..|us| - 1]);
    }
  }

  lemma {:induction false} AudienceTidy(us: seq<User>, ns: seq<User>, hs: seq<User>)
    requires TidyUsers(us)
    ensures TidyUsers(Audience(us, ns, hs))
  {
    hide TidyUser, Has;
    if us != [] {
      AudienceTidy(us[..|us| - 1], ns, hs);
    }
  }

  lemma GreetingsTidy(r: Room, u: User, audience: seq<User>)
    requires TidyRoom(r) && TidyUser(u) && TidyUsers(audience)
    ensures TidyStreams(Greetings(r, u, audience))
  {
    hide TidyUser, TidyStreams, Deliver, TidyHost, NoCrlf, Nicks, IsRun;
    NicksTidy(audience);
    var s1 := Deliver(r.streams, audience, Joined(u));
    DeliverTidy(r.streams, audience, Joined(u));
    var s2 := Deliver(s1, [u], TopicIs(r.host, u, r.topic));
    DeliverTidy(s1, [u], TopicIs(r.host, u, r.topic));
    var s3 := Deliver(s2, [u], Names(r.host, u, Nicks(audience)));
    DeliverTidy(s2, [u], Names(r.host, u, Nicks(audience)));
    DeliverTidy(s3, [u], EndOfNames(r.host, u));
  }

  lemma {:induction false} GreetUptoTidy(r: Room, n: nat)
    requires TidyRoom(r) && n <= |r.newusers|
    ensures TidyRoom(GreetUpto(r, n))
  {
    hide TidyUser, TidyStreams, Greetings, TidyHost, NoCrlf, Audience;
    if n > 0 {
      var g := GreetUpto(r, n - 1);
      GreetUptoTidy(r, n - 1);
      assert g.newusers[n - 1] in g.newusers;
      AudienceTidy(g.users, g.newusers, g.newusers[..n]);
      GreetingsTidy(g, g.newusers[n - 1], Audience(g.users, g.newusers, g.newusers[..n]));
    }
  }

  lemma HandleNewUsersTidy(r: Room)
    requires TidyRoom(r)
    ensures TidyRoom(HandleNewUsers(r))
  {
    hide TidyUser, TidyStreams, TidyHost, NoCrlf, GreetUpto;
    GreetUptoTidy(r, |r.newusers|);
  }

  lemma AdmitTidy(r: Room, list: seq<Early>, socks: seq<Endpoint>)
    requires TidyRoom(r) && forall p | p in list :: TidyUser(p.user)
    ensures TidyRoom(Grab(r, list, socks))
  {
    hide TidyUser, TidyReply, TidyHost, NoCrlf, Newcomers, Claimed, QueueOf, NewEnds;
    var ns := Newcomers(list);
    forall u | u in ns
      ensures TidyUser(u)
    {
      var i :| 0 <= i < |ns| && ns[i] == u;
      NewcomerAt(list, i);
      assert list[i] in list;
    }
  }

  // ---- Handling messages ----

  lemma SuffixHasNoCrlf(s: string, k: nat)
    requires NoCrlf(s) && k <= |s|
    ensures NoCrlf(s[k..])
  {
    assert s == s[..k] + s[k..];
    if Contains(s[k..], CRLF) {
      ContainsInParts(s[..k], s[k..], CRLF);
    }
  }

  /** The last piece of a split is a suffix of the text. */
  lemma {:induction false} LastPieceTidy(s: string, d: string)
    requires d != "" && NoCrlf(s)
    ensures var parts := Split(s, d); NoCrlf(parts[|parts| - 1])
    decreases |s|
  {
    hide Split, Find, NoCrlf;
    match Find(s, d, 0)
    case None =>
      SplitNone(s, d);
    case Some(i) =>
      SplitSome(s, d, i);
      SuffixHasNoCrlf(s, i + |d|);
      LastPieceTidy(s[i + |d|..], d);
  }

  lemma PrivTidy(r: Room, client: User, msg: string)
    requires TidyRoom(r) && TidyUser(client) && TidyMsg(msg) && IsPriv(msg)
    ensures TidyRoom(HandlePriv(r, client, msg))
  {
    hide TidyUser, TidyStreams, TidyHost, NoCrlf, Contains, Deliver;
    DeliverTidy(r.streams, Others(r.users, client.endpt), Said(client, msg));
  }

  lemma PartTidy(r: Room, client: User, msg: string)
    requires TidyRoom(r) && TidyUser(client) && TidyMsg(msg) && Has(r.users, client.endpt)
    ensures TidyRoom(HandlePart(r, client, msg))
  {
    hide TidyUser, TidyReply, TidyHost, NoCrlf, TidyMsg, Deliver, Has;
    assert TidyReply(Parted(client, msg)) by { PartedTidy(client, msg); }
    DeliverTidy(r.streams, Others(r.users, client.endpt), Parted(client, msg));
  }

  lemma PartedTidy(client: User, msg: string)
    requires TidyUser(client) && TidyMsg(msg)
    ensures TidyReply(Parted(client, msg))
  {
    hide TidyUser, TidyMsg;
  }

  lemma TopicTidy(r: Room, client: User, msg: string)
    requires TidyRoom(r) && TidyUser(client) && TidyMsg(msg)
    ensures TidyRoom(HandleTopic(r, client, msg))
  {
    hide TidyUser, TidyStreams, TidyHost, NoCrlf, Deliver, Split;
    LastPieceTidy(msg, "TOPIC " + r.chan + " :");
    DeliverTidy(r.streams, r.users, Retitled(client, r.chan, NewTopic(r.chan, msg)));
  }

  lemma MsgTidy(r: Room, e: Endpoint, msg: string)
    requires TidyRoom(r) && TidyMsg(msg) && Has(r.users, e)
    ensures match HandleMsg(r, e, msg)
            case None => true
            case Some(q) => TidyRoom(q)
  {
    hide TidyUser, TidyStreams, TidyHost, NoCrlf, TidyMsg, IsPriv, IsPart, IsTopic, HandlePriv, HandlePart, HandleTopic, Has;
    var client := r.users[IndexOf(r.users, e)];
    var q := Record(r, e, msg);
    assert client in r.users;
    if IsPriv(msg) {
      PrivTidy(q, client, msg);
    } else if IsPart(msg) {
      PartTidy(q, client, msg);
    } else if IsTopic(msg) {
      TopicTidy(q, client, msg);
    }
  }

  lemma {:induction false} QueueTidy(r: Room, e: Endpoint, msgs: seq<string>)
    requires TidyRoom(r) && forall m | m in msgs :: TidyMsg(m)
    ensures match HandleQueue(r, e, msgs)
            case None => true
            case Some(q) => TidyRoom(q)
    decreases |msgs|
  {
    hide TidyRoom, TidyMsg, HandleMsg, Has;
    if msgs != [] && Has(r.users, e) {
      assert msgs[0] in msgs && forall m | m in msgs[1..] :: m in msgs;
      MsgTidy(r, e, msgs[0]);
      match HandleMsg(r, e, msgs[0])
      case None =>
      case Some(q) => QueueTidy(q, e, msgs[1..]);
    }
  }

  lemma EntryTidy(r: Room, e: Endpoint)
    requires TidyRoom(r) && forall m | m in QueueAt(r.queues, e) :: TidyMsg(m)
    ensures match HandleEntry(r, e)
            case None => true
            case Some(q) => TidyRoom(q)
  {
    hide TidyUser, TidyReply, TidyHost, NoCrlf, TidyMsg, HandleQueue;
    QueueTidy(r, e, QueueAt(r.queues, e));
  }

  lemma PollTidy(r: Room, e: Endpoint, msgs: seq<string>)
    requires TidyRoom(r)
    ensures TidyRoom(Poll(r, e, msgs))
  {
    hide TidyUser, TidyStreams, TidyHost, NoCrlf;
  }

  // ---- What the client can make of it ----

  lemma ReplyWritten(p: Reply)
    requires TidyReply(p)
    ensures Written(p)
  {
    hide IsQuad, Contains, IsRun, TidyMsg;
    var u := Author(p);
    RunAvoids(u.nick, false, '\r');
    Plain(u.nick);
    match p
    case TopicIs(host, _, _) => Plain(host);
    case Names(host, _, nicks) =>
      Plain(host);
      forall n | n in nicks
        ensures !Contains(n, CRLF)
      {
        RunAvoids(n, false, '\r');
        Plain(n);
      }
    case EndOfNames(host, _) => Plain(host);
    case Said(_, line) => assert NoCrlf(line) by { TidyHasNoCrlf(line); }
    case Parted(_, line) => assert NoCrlf(line) by { TidyHasNoCrlf(line); }
    case _ =>
  }

  lemma TidyHasNoCrlf(m: string)
    requires TidyMsg(m)
    ensures NoCrlf(m)
  {
  }

  /** Everything that the screen theorem asks of a stream. */
  lemma TidyStreamShows(r: Room, u: User)
    requires TidyRoom(r) && TidyUser(u) && u.endpt in r.streams && Greeted(r.streams[u.endpt].replies, u, r.host)
    ensures var rs := r.streams[u.endpt].replies;
            && AllWellTold(rs) && (forall p | p in rs :: Written(p)) && NoColons(r.host, u) && PlainNicks(rs)
  {
    hide IsQuad, NoCrlf, Contains, Written, TidyMsg;
    var rs := r.streams[u.endpt].replies;
    forall p | p in rs
      ensures Written(p) && WellTold(p)
    {
      assert u.endpt in r.streams && p in r.streams[u.endpt].replies;
      assert TidyReply(p);
      ReplyWritten(p);
      ReplyTold(p);
    }
    RunAvoids(u.nick, false, ':');
    assert rs[2] in r.streams[u.endpt].replies;
    assert TidyReply(rs[2]);
    forall n | n in rs[2].nicks
      ensures ' ' !in n
    {
      RunAvoids(n, false, ' ');
    }
  }

  lemma ReplyTold(p: Reply)
    requires TidyReply(p)
    ensures WellTold(p)
  {
    hide WellNamed, Contains;
  }
}
