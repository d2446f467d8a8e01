/** What one member has been told of another: exactly what the other's client asked for, under the other's names, and nothing
    that nobody sent (src/server/Servlet.cpp:165-254). */
module Relays {
  import opened Sockio
  import opened Irc
  import opened Room
  import opened RoomInvariant
  import opened History
  import opened Chitter
  import opened Handoff
  import opened HandoffInvariant
  import opened HandoffTheorems
  import opened HistoryRuns
  import opened Conformance
  import Delivery

  // ---- What a member's messages make of the others' streams ----

  function RelayOf(u: User, chan: string, line: string): Reply {
    if IsPriv(line) then Said(u, line)
    else if IsPart(line) then Parted(u, line)
    else Retitled(u, chan, NewTopic(chan, line))
  }

  function RelaysOf(u: User, chan: string, lines: seq<string>): seq<Reply> {
    if lines == [] then [] else RelaysOf(u, chan, lines[..|lines| - 1]) + [RelayOf(u, chan, lines[|lines| - 1])]
  }

  /** The relays of whoever came from `e` last: those after the last JOIN from there, or all of them if there is none. */
  function Since(rs: seq<Reply>, e: Endpoint): seq<Reply> {
    if rs == [] then []
    else
      var before := Since(rs[..|rs| - 1], e);
      match rs[|rs| - 1]
      case Joined(u) => if u.endpt == e then [] else before
      case Said(u, line) => if u.endpt == e then before + [Said(u, line)] else before
      case Parted(u, line) => if u.endpt == e then before + [Parted(u, line)] else before
      case Retitled(u, chan, topic) => if u.endpt == e then before + [Retitled(u, chan, topic)] else before
      case _ => before
  }

  /** The lines of `d` since both `d` and `e` came. */
  function DeedsSince(h: seq<Act>, d: Endpoint, e: Endpoint): seq<string> {
    if h == [] then []
    else
      var a, before := h[|h| - 1], DeedsSince(h[..|h| - 1], d, e);
      if a.Came? && (a.user.endpt == d || a.user.endpt == e) then []
      else if a.user.endpt == d && !a.Came? then before + [a.line]
      else before
  }

  lemma SinceMore(rs: seq<Reply>, p: Reply, e: Endpoint)
    ensures (rs + [p])[..|rs|] == rs
    ensures p.Joined? ==> Since(rs + [p], e) == if p.user.endpt == e then [] else Since(rs, e)
    ensures p.Said? || p.Parted? || p.Retitled? ==>
              Since(rs + [p], e) == if p.from.endpt == e then Since(rs, e) + [p] else Since(rs, e)
    ensures p.TopicIs? || p.Names? || p.EndOfNames? ==> Since(rs + [p], e) == Since(rs, e)
  {
    assert (rs + [p])[..|rs|] == rs;
  }

  lemma RelaysMore(u: User, chan: string, lines: seq<string>, line: string)
    ensures RelaysOf(u, chan, lines + [line]) == RelaysOf(u, chan, lines) + [RelayOf(u, chan, line)]
  {
    hide RelayOf;
    assert (lines + [line])[..|lines|] == lines;
  }

  /** Relay by relay: the sender is the whole user, a PRIVMSG and a PART are the client's own line, and a TOPIC gives the topic. */
  lemma {:induction false} RelaysAt(u: User, chan: string, lines: seq<string>, i: nat)
    requires i < |lines|
    ensures |RelaysOf(u, chan, lines)| == |lines|
    ensures RelaysOf(u, chan, lines)[i] == if IsPriv(lines[i]) then Said(u, lines[i])
                                           else if IsPart(lines[i]) then Parted(u, lines[i])
                                           else Retitled(u, chan, NewTopic(chan, lines[i]))
  {
    hide IsPriv, IsPart, NewTopic;
    if i < |lines| - 1 {
      RelaysAt(u, chan, lines[..|lines| - 1], i);
    } else if i > 0 {
      RelaysAt(u, chan, lines[..|lines| - 1], i - 1);
    }
  }

  /** A greeting tells of nobody else. */
  lemma GreetingTellsNothing(u: User, host: string, topic: string, nicks: seq<string>, e: Endpoint)
    requires u.endpt != e
    ensures Since([Joined(u), TopicIs(host, u, topic), Names(host, u, nicks), EndOfNames(host, u)], e) == []
  {
    var rs: seq<Reply> := [Joined(u), TopicIs(host, u, topic), Names(host, u, nicks)];
    SinceMore([], Joined(u), e);
    assert [] + [Joined(u)] == [Joined(u)];
    SinceMore([Joined(u)], TopicIs(host, u, topic), e);
    assert [Joined(u)] + [TopicIs(host, u, topic)] == [Joined(u), TopicIs(host, u, topic)];
    SinceMore([Joined(u), TopicIs(host, u, topic)], Names(host, u, nicks), e);
    assert [Joined(u), TopicIs(host, u, topic)] + [Names(host, u, nicks)] == rs;
    SinceMore(rs, EndOfNames(host, u), e);
    assert rs + [EndOfNames(host, u)] == [Joined(u), TopicIs(host, u, topic), Names(host, u, nicks), EndOfNames(host, u)];
  }

  // ---- Histories ----

  lemma {:induction false} PresentDistinct(h: seq<Act>)
    requires Lawful(h)
    ensures Distinct(Present(h))
  {
    hide Has, IsPriv, IsPart, IsTopic;
    if h != [] {
      var before, a := h[..|h| - 1], h[|h| - 1];
      PresentDistinct(before);
      match a
      case Came(u) =>
        HasNoneOf(u, Present(before));
        AdmitDistinct(Present(before), [u]);
      case Left(u, _) =>
        var k :| 0 <= k < |Present(before)| && Present(before)[k] == u;
        OthersWithout(Present(before), k);
        RemovedDistinct(Present(before), k);
      case _ =>
    }
  }

  lemma HasNoneOf(u: User, us: seq<User>)
    requires !Has(us, u.endpt)
    ensures Distinct([u]) && forall i | 0 <= i < |[u]| :: !Has(us, [u][i].endpt)
  {
  }

  /** Who is there after an act was there before, or has just come. */
  lemma WasPresent(h: seq<Act>, u: User)
    requires h != [] && u in Present(h)
    ensures var a := h[|h| - 1];
            && (a == Came(u) || u in Present(h[..|h| - 1]))
            && (a.Left? ==> u.endpt != a.user.endpt)
  {
    hide Others;
    var a, before := h[|h| - 1], Present(h[..|h| - 1]);
    if a.Left? {
      AmongOthers(before, a.user.endpt, u);
    }
  }

  lemma DeedsSinceMore(h: seq<Act>, a: Act, d: Endpoint, e: Endpoint)
    ensures DeedsSince(h + [a], d, e)
         == if a.Came? && (a.user.endpt == d || a.user.endpt == e) then []
            else if a.user.endpt == d && !a.Came? then DeedsSince(h, d, e) + [a.line]
            else DeedsSince(h, d, e)
  {
    assert (h + [a])[..|h|] == h;
  }

  lemma LawfulLast(h: seq<Act>, a: Act)
    requires Lawful(h + [a])
    ensures Lawful(h) && (!a.Came? ==> a.user in Present(h))
    ensures !a.Came? ==> ActOf(a.user, a.line) == a
    ensures a.Came? ==> !Has(Present(h), a.user.endpt)
  {
    hide Has, IsPriv, IsPart, IsTopic, Present;
    assert (h + [a])[..|h|] == h;
  }

  /** The last act is no arrival of `u` or `v`. */
  lemma {:induction false} RelayedByAct(h: seq<Act>, a: Act, chan: string, host: string, start: string, u: User, v: User)
    requires Lawful(h + [a]) && u in Present(h) && v in Present(h) && u.endpt != v.endpt
    requires a.Came? || a.Left? ==> a.user.endpt != u.endpt && a.user.endpt != v.endpt
    requires Since(Told(h, chan, host, start, v.endpt), u.endpt) == RelaysOf(u, chan, DeedsSince(h, u.endpt, v.endpt))
    ensures Since(Told(h + [a], chan, host, start, v.endpt), u.endpt) == RelaysOf(u, chan, DeedsSince(h + [a], u.endpt, v.endpt))
  {
    hide Since, Told, DeedsSince, RelaysOf, Lawful, Present, NewTopic, Nicks, Title, LogOf, Deeds, Has, Others, IsPriv, IsPart, IsTopic;
    var rs, lines := Told(h, chan, host, start, v.endpt), DeedsSince(h, u.endpt, v.endpt);
    Acted(h, a, chan, host, start, v.endpt);
    DeedsSinceMore(h, a, u.endpt, v.endpt);
    LawfulLast(h, a);
    PresentDistinct(h);
    if a.user.endpt == u.endpt {
      DistinctMembers(Present(h), a.user, u);
      RelaysMore(u, chan, lines, a.line);
      SinceMore(rs, RelayOf(u, chan, a.line), u.endpt);
    } else if a.Came? {
      SinceMore(rs, Joined(a.user), u.endpt);
    } else if a.Spoke? {
      SinceMore(rs, Said(a.user, a.line), u.endpt);
    } else if a.Left? {
      SinceMore(rs, Parted(a.user, a.line), u.endpt);
    } else {
      SinceMore(rs, Retitled(a.user, chan, NewTopic(chan, a.line)), u.endpt);
    }
  }

  lemma RelayedByArrival(h: seq<Act>, w: User, chan: string, host: string, start: string, d: Endpoint, e: Endpoint)
    requires (w.endpt == d || w.endpt == e) && d != e
    ensures Since(Told(h + [Came(w)], chan, host, start, e), d) == [] && DeedsSince(h + [Came(w)], d, e) == []
  {
    hide Since, Told, DeedsSince, Present, NewTopic, Nicks, Title, LogOf, Deeds, Others;
    Acted(h, Came(w), chan, host, start, e);
    DeedsSinceMore(h, Came(w), d, e);
    if w.endpt == e {
      GreetingTellsNothing(w, host, Title(h, chan, start), Nicks(Present(h) + [w]), d);
    } else {
      SinceMore(Told(h, chan, host, start, e), Joined(w), d);
    }
  }

  /** What `v` has been told of `u` is what `u` did since both were there. */
  lemma {:induction false} RelayedInHistory(h: seq<Act>, chan: string, host: string, start: string, u: User, v: User)
    requires Lawful(h) && u in Present(h) && v in Present(h) && u.endpt != v.endpt
    ensures Since(Told(h, chan, host, start, v.endpt), u.endpt) == RelaysOf(u, chan, DeedsSince(h, u.endpt, v.endpt))
  {
    hide Since, Told, DeedsSince, Lawful, NewTopic, Nicks, Title, LogOf, Deeds, Has, Others;
    var before, a := h[..|h| - 1], h[|h| - 1];
    assert h == before + [a];
    WasPresent(h, u);
    WasPresent(h, v);
    LawfulLast(before, a);
    if a.Came? && (a.user.endpt == u.endpt || a.user.endpt == v.endpt) {
      RelayedByArrival(before, a.user, chan, host, start, u.endpt, v.endpt);
    } else {
      RelayedInHistory(before, chan, host, start, u, v);
      RelayedByAct(before, a, chan, host, start, u, v);
    }
  }

  // ---- Since when ----

  predicate Before(us: seq<User>, v: User, u: User) {
    exists i, j | 0 <= i < j < |us| :: us[i] == v && us[j] == u
  }

  lemma {:induction false} BeforeAmongOthers(us: seq<User>, e: Endpoint, v: User, u: User)
    requires Before(Others(us, e), v, u)
    ensures Before(us, v, u)
  {
    var n := |us| - 1;
    var os, fewer := Others(us, e), Others(us[..n], e);
    var i, j :| 0 <= i < j < |os| && os[i] == v && os[j] == u;
    if j == |fewer| {
      AmongOthers(us[..n], e, fewer[i]);
      var l :| 0 <= l < n && us[..n][l] == v;
      assert us[l] == v && us[n] == u;
    } else {
      assert fewer[i] == v && fewer[j] == u;
      BeforeAmongOthers(us[..n], e, v, u);
      var l, m :| 0 <= l < m < n && us[..n][l] == v && us[..n][m] == u;
      assert us[l] == v && us[m] == u;
    }
  }

  /** These are the last of all the messages of `u`, and all of them if `v` came first. */
  lemma {:induction false} SinceWhen(h: seq<Act>, u: User, v: User) returns (k: nat)
    requires Lawful(h) && u in Present(h) && v in Present(h) && u.endpt != v.endpt
    ensures k <= |Deeds(h, u.endpt)| && DeedsSince(h, u.endpt, v.endpt) == Deeds(h, u.endpt)[k..]
    ensures Before(Present(h), v, u) ==> k == 0
  {
    hide Lawful, Has, Others, Before, IsPriv, IsPart, IsTopic;
    var before, a := h[..|h| - 1], h[|h| - 1];
    assert h == before + [a];
    WasPresent(h, u);
    WasPresent(h, v);
    LawfulLast(before, a);
    if a.Came? && a.user.endpt == u.endpt {
      k := 0;
    } else if a.Came? && a.user.endpt == v.endpt {
      k := |Deeds(h, u.endpt)|;
      PresentDistinct(h);
      LastIsNotBefore(Present(before), a.user, u, v);
    } else {
      k := SinceWhen(before, u, v);
      if Before(Present(h), v, u) {
        WasBefore(before, a, v, u);
      }
    }
  }

  lemma LastIsNotBefore(us: seq<User>, w: User, u: User, v: User)
    requires Distinct(us + [w]) && w.endpt == v.endpt && u.endpt != v.endpt
    ensures !Before(us + [w], v, u)
  {
    var all := us + [w];
    forall i, j | 0 <= i < j < |all|
      ensures !(all[i] == v && all[j] == u)
    {
      assert all[|us|] == w;
      assert i < |us| ==> all[i].endpt != all[|us|].endpt;
    }
  }

  lemma WasBefore(h: seq<Act>, a: Act, v: User, u: User)
    requires Before(Present(h + [a]), v, u) && (a.Came? ==> a.user.endpt != u.endpt && a.user.endpt != v.endpt)
    ensures Before(Present(h), v, u)
  {
    hide Others;
    assert (h + [a])[..|h|] == h;
    if a.Left? {
      BeforeAmongOthers(Present(h), a.user.endpt, v, u);
    } else if a.Came? {
      var us := Present(h) + [a.user];
      var i, j :| 0 <= i < j < |us| && us[i] == v && us[j] == u;
      assert Present(h)[i] == v && Present(h)[j] == u;
    }
  }

  // ---- Every run ----

  /** Settled members of a channel, in any run. */
  ghost predicate Settled(s: System, c: string, u: User) {
    c in s.threads && u in s.threads[c].room.users && u !in s.threads[c].room.newusers
  }

  lemma MembersRun(s: System, c: string, u: User)
    requires SystemOk(s) && c in s.threads && u in s.threads[c].room.users
    ensures Running(s, c) && InJoinLoop(s.threads[c].room)
  {
    hide AcceptOk, PendingOk, SocksOk, FlagsOk, AuthOk, RoomOk, MembersInOrder, OwnsMembers;
    assert ThreadOk(s.threads[c], c, s.conns);
  }

  /** A history of the channel of two settled members. */
  lemma TheirHistory(cfg: Config, accounts: Accounts, topics: map<string, string>, steps: seq<Step>, s: System,
                     c: string, u: User, v: User) returns (h: seq<Act>)
    requires Reached(cfg, accounts, topics, steps, s) && Settled(s, c, u) && Settled(s, c, v)
    ensures ExplainedBy(cfg, Init(accounts, topics), StartTopic(cfg, topics, c), steps, s, c, h)
    ensures var r := s.threads[c].room;
            && r.chan == c && Lawful(h) && u in Present(h) && v in Present(h)
            && ExplainedAt(h, r, StartTopic(cfg, topics, c), u.endpt) && ExplainedAt(h, r, StartTopic(cfg, topics, c), v.endpt)
            && (Before(r.users, v, u) ==> Before(Present(h), v, u))
  {
    hide Reached, SystemOk, Sourced, Lawful, ExplainedAt, Title, LogOf, StartTopic, Present;
    EveryRunOk(cfg, accounts, topics, steps, s);
    MembersRun(s, c, u);
    EveryChannelExplained(cfg, accounts, topics, steps, s, c);
    h :| ExplainedBy(cfg, Init(accounts, topics), StartTopic(cfg, topics, c), steps, s, c, h);
    var r := s.threads[c].room;
    Seated(r, u);
    Seated(r, v);
    if Before(r.users, v, u) {
      SeatedBefore(r, v, u);
    }
  }

  lemma Seated(r: Room, u: User)
    requires InJoinLoop(r) && u in r.users && u !in r.newusers
    ensures u in r.users[..OldCount(r)]
  {
    assert r.users == r.users[..OldCount(r)] + r.newusers;
  }

  lemma SeatedBefore(r: Room, v: User, u: User)
    requires InJoinLoop(r) && Before(r.users, v, u) && u !in r.newusers && v !in r.newusers
    ensures Before(r.users[..OldCount(r)], v, u)
  {
    var i, j :| 0 <= i < j < |r.users| && r.users[i] == v && r.users[j] == u;
    assert r.users == r.users[..OldCount(r)] + r.newusers;
    assert j < OldCount(r);
    assert r.users[..OldCount(r)][i] == v && r.users[..OldCount(r)][j] == u;
  }

  /** In every run, what a settled member `v` has been told of another one, `u`, since `u` came is, message by message and under the
      whole user `u`, what the messages handled for `u` ask for: all of them if `v` came first, and otherwise the last of them. */
  lemma RelayedExactly(cfg: Config, accounts: Accounts, topics: map<string, string>, steps: seq<Step>, s: System,
                       c: string, u: User, v: User)
    requires Reached(cfg, accounts, topics, steps, s) && Settled(s, c, u) && Settled(s, c, v) && u.endpt != v.endpt
    ensures var r := s.threads[c].room;
            && v.endpt in r.streams
            && var told, done := Since(r.streams[v.endpt].replies, u.endpt), QueueAt(r.handled, u.endpt);
               && (Before(r.users, v, u) ==> told == RelaysOf(u, c, done))
               && (exists k | 0 <= k <= |done| :: told == RelaysOf(u, c, done[k..]))
  {
    hide Reached, ExplainedBy, Lawful, Since, RelaysOf, Present, Before, Told, Deeds, DeedsSince, StartTopic;
    var h := TheirHistory(cfg, accounts, topics, steps, s, c, u, v);
    var r := s.threads[c].room;
    var done := QueueAt(r.handled, u.endpt);
    RelayedInHistory(h, c, r.host, StartTopic(cfg, topics, c), u, v);
    var k := SinceWhen(h, u, v);
    assert done[0..] == done;
    assert Since(r.streams[v.endpt].replies, u.endpt) == RelaysOf(u, c, done[k..]);
  }

  /** With conforming clients, end to end: the same for what the client of `u` sent after its JOIN, as far as it came. */
  lemma RelayedAsSent(cfg: Config, accounts: Accounts, topics: map<string, string>, steps: seq<Step>, s: System,
                      c: string, u: User, v: User)
    requires HonestlyReached(cfg, accounts, topics, steps, s) && Settled(s, c, u) && Settled(s, c, v) && u.endpt != v.endpt
    ensures var r := s.threads[c].room;
            && v.endpt in r.streams && u.endpt in s.conns
            && var told, sent := Since(r.streams[v.endpt].replies, u.endpt), s.conns[u.endpt].sent;
               var n := 4 + |QueueAt(r.handled, u.endpt)|;
               && n <= |sent|
               && (Before(r.users, v, u) ==> told == RelaysOf(u, c, sent[4..n]))
               && (exists k | 4 <= k <= n :: told == RelaysOf(u, c, sent[k..n]))
  {
    hide Reached, HonestRun, SystemOk, Since, RelaysOf, Before, Queued, Has;
    RelayedExactly(cfg, accounts, topics, steps, s, c, u, v);
    EveryRunOk(cfg, accounts, topics, steps, s);
    assert IsMember(s, c, u.endpt) by { InHas(s.threads[c].room.users, u); }
    Delivery.MemberIsLive(s, c, u.endpt);
    HonestNothingLost(cfg, accounts, topics, steps, s, u.endpt);
    var r, sent := s.threads[c].room, s.conns[u.endpt].sent;
    var told, done := Since(r.streams[v.endpt].replies, u.endpt), QueueAt(r.handled, u.endpt);
    Delivery.HandledIsSent(s.conns[u.endpt], done, Queued(s, u.endpt));
    var k :| 0 <= k <= |done| && told == RelaysOf(u, c, done[k..]);
    assert done[k..] == sent[4 + k..4 + |done|];
    assert told == RelaysOf(u, c, sent[4 + k..4 + |done|]);
  }

  // ---- Nothing is made up ----

  /** Every relay goes back to an act of its author. */
  lemma {:induction false} RelayedActs(h: seq<Act>, chan: string, host: string, start: string, e: Endpoint, p: Reply)
    requires p in Told(h, chan, host, start, e)
    ensures p.Said? ==> Spoke(p.from, p.line) in h
    ensures p.Parted? ==> Act.Left(p.from, p.line) in h
    ensures p.Retitled? ==> p.chan == chan && exists a | a in h :: a.Titled? && a.user == p.from && p.topic == NewTopic(chan, a.line)
    ensures p.Joined? ==> Came(p.user) in h
  {
    hide NewTopic, Nicks, Title, Present;
    var before, a := h[..|h| - 1], h[|h| - 1];
    assert a in h;
    if p in Told(before, chan, host, start, e) {
      RelayedActs(before, chan, host, start, e, p);
      assert forall x | x in before :: x in h;
    }
  }

  lemma {:induction false} ActsAreCommands(h: seq<Act>, a: Act)
    requires Lawful(h) && a in h && !a.Came?
    ensures ActOf(a.user, a.line) == a && (a.Titled? ==> IsTopic(a.line))
  {
    hide IsPriv, IsPart, IsTopic, Has, Present;
    if a != h[|h| - 1] {
      ActsAreCommands(h[..|h| - 1], a);
    }
  }

  /** In every run every relay in a settled member's stream comes from a message of the very user it names, which reached the
      server while that user was a member: a PRIVMSG or PART word for word, a topic by a TOPIC that sets it. */
  lemma NothingMadeUp(cfg: Config, accounts: Accounts, topics: map<string, string>, steps: seq<Step>, s: System,
                      c: string, v: User, p: Reply)
    requires Reached(cfg, accounts, topics, steps, s) && Settled(s, c, v) && v.endpt in s.threads[c].room.streams
    requires p in s.threads[c].room.streams[v.endpt].replies
    ensures p.Said? ==> IsPriv(p.line) && HasOrigin(cfg, Init(accounts, topics), steps, c, p.from, p.line)
    ensures p.Parted? ==> !IsPriv(p.line) && IsPart(p.line) && HasOrigin(cfg, Init(accounts, topics), steps, c, p.from, p.line)
    ensures p.Retitled? ==> p.chan == c && exists line :: IsTopic(line) && p.topic == NewTopic(c, line)
                                                          && HasOrigin(cfg, Init(accounts, topics), steps, c, p.from, line)
  {
    hide Reached, Explains, Lawful, Told, HasOrigin, NewTopic, StartTopic, IsPriv, IsPart, IsTopic, Present;
    var h := TheirHistory(cfg, accounts, topics, steps, s, c, v, v);
    RelayedActs(h, c, s.threads[c].room.host, StartTopic(cfg, topics, c), v.endpt, p);
    if p.Said? {
      ActsAreCommands(h, Spoke(p.from, p.line));
    } else if p.Parted? {
      ActsAreCommands(h, Act.Left(p.from, p.line));
    } else if p.Retitled? {
      var a :| a in h && a.Titled? && a.user == p.from && p.topic == NewTopic(c, a.line);
      ActsAreCommands(h, a);
      assert IsTopic(a.line) && HasOrigin(cfg, Init(accounts, topics), steps, c, p.from, a.line);
    }
  }
}
