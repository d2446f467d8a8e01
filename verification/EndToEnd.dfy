/** What a member's client shows, from what its servlet wrote (src/server/Servlet.cpp:124-254 read by
    src/client/Client.cpp:101-244). */
module EndToEnd {
  import opened Strings
  import opened Sockio
  import opened Irc
  import opened Room
  import opened RoomInvariant
  import opened ClientParsers
  import opened BroadcastCodec
  import opened Chitter
  import opened Handoff
  import opened HandoffTheorems
  import opened Servlets

  // ---- The client ----

  /** What one session has put on the screen: the topic, the list of names, and the events since. */
  datatype Screen = Screen(topic: string, names: string, events: seq<Event>)

  /** connect_to_channel: the second and the third of the four replies it waits for. */
  function Opening(topicMsg: string, namesMsg: string): Screen {
    Screen(AfterFirstColon(topicMsg), AfterFirstColon(namesMsg), [])
  }

  function Displayed(before: Screen, event: Event): Screen {
    before.(topic := if event.Topic? then event.topic else before.topic, events := before.events + [event])
  }

  /** One call of parse_session_msg; `None` is the exception that ends the client. */
  function ShowNext(before: Screen, msg: string, chan: string): Option<Screen> {
    match ParseSession(msg, chan)
    case Shown(event) => Some(Displayed(before, event))
    case _ => None
  }

  function Session(msgs: seq<string>, chan: string): Option<Screen>
    requires |msgs| >= 4
    decreases |msgs|
  {
    if |msgs| == 4 then Some(Opening(msgs[1], msgs[2]))
    else
      var before :- Session(msgs[..|msgs| - 1], chan);
      ShowNext(before, msgs[|msgs| - 1], chan)
  }

  function Lines(rs: seq<Reply>): (lines: seq<string>)
    ensures |lines| == |rs|
  {
    if rs == [] then [] else Lines(rs[..|rs| - 1]) + [Line(rs[|rs| - 1])]
  }

  // ---- What can be read off the screen ----

  function TalkIn(event: Event): seq<Spoken> {
    match event
    case Talk(nick, text) => [Spoken(nick, text)]
    case _ => []
  }

  function Talks(events: seq<Event>): seq<Spoken> {
    if events == [] then [] else Talks(events[..|events| - 1]) + TalkIn(events[|events| - 1])
  }

  function RosterSeen(before: multiset<string>, event: Event): multiset<string> {
    match event
    case Join_(nick, _) => before + multiset{nick}
    case Leave(nick, _) => before - multiset{nick}
    case _ => before
  }

  function RosterOnScreen(start: multiset<string>, events: seq<Event>): multiset<string> {
    if events == [] then start
    else RosterSeen(RosterOnScreen(start, events[..|events| - 1]), events[|events| - 1])
  }

  function WithoutSigns(words: seq<string>): seq<string> {
    if words == [] then []
    else WithoutSigns(words[..|words| - 1]) + if words[|words| - 1] == "" then [] else [words[|words| - 1][1..]]
  }

  /** The nicks in the displayed list: its words, each without its leading sign. */
  function NamesOnScreen(names: string): seq<string> {
    WithoutSigns(Split(names, " "))
  }

  // ---- One reply ----

  function Author(p: Reply): User {
    match p
    case Joined(u) => u
    case TopicIs(_, u, _) => u
    case Names(_, u, _) => u
    case EndOfNames(_, u) => u
    case Said(u, _) => u
    case Parted(u, _) => u
    case Retitled(u, _, _) => u
  }

  /** The author has names that the client's expressions accept, and its PART names a channel. */
  ghost predicate WellTold(p: Reply) {
    WellNamed(Author(p)) && (p.Parted? ==> !BarePart(p.from, p.line))
  }

  ghost predicate AllWellTold(rs: seq<Reply>) {
    forall i | 4 <= i < |rs| :: WellTold(rs[i])
  }

  /** The event says what the reply says. */
  predicate SaysTheSame(event: Event, p: Reply) {
    match p
    case Joined(u) => event.Join_? && event.nick == u.nick
    case Parted(u, _) => event.Leave? && event.nick == u.nick
    case Retitled(u, _, topic) => event == Topic(u.nick, topic)
    case Said(u, line) => event.Talk? && event.nick == u.nick && (event.text == LoggedText(line) <==> Contains(line, ":"))
    case _ => false
  }

  lemma ReplyIsUnderstood(p: Reply, chan: string)
    requires RelayedIn(p, chan) && WellTold(p)
    ensures match ParseSession(Line(p), chan)
            case Shown(event) => SaysTheSame(event, p)
            case _ => false
  {
    hide WellNamed, ParseSession, Line, Contains, LoggedText, TalkText;
    match p
    case Joined(u) => JoinedIsJoin(u, chan);
    case Said(u, line) =>
      SaidIsTalk(u, line, chan);
      ShownTextIsLoggedText(u, line);
    case Parted(u, line) =>
      RelayedPartIsLeave(u, line, chan);
    case Retitled(u, c, topic) => RetitledIsTopic(u, chan, topic);
    case _ =>
  }

  // ---- A whole stream ----

  /** Somebody changed the topic after the greeting. */
  predicate Renamed(rs: seq<Reply>) {
    exists i | 4 <= i < |rs| :: rs[i].Retitled?
  }

  predicate AllHaveColons(es: seq<Entry>) {
    forall e | e in es :: Contains(e.line, ":")
  }

  lemma RenamedStep(rs: seq<Reply>, p: Reply)
    requires |rs| >= 4
    ensures Renamed(rs + [p]) <==> Renamed(rs) || p.Retitled?
  {
    var all := rs + [p];
    assert all[|rs|] == p;
    if Renamed(rs) {
      var i :| 4 <= i < |rs| && rs[i].Retitled?;
      assert all[i] == rs[i];
    }
  }

  /** The topic on the screen is the last one told, unless the opening line was misread and nobody renamed since. */
  predicate TopicShown(sc: Screen, rs: seq<Reply>)
    requires |rs| >= 4 && rs[1].TopicIs?
  {
    && LastTopic(rs).Some?
    && (Renamed(rs) ==> LastTopic(rs) == Some(sc.topic))
    && (!Renamed(rs) ==> LastTopic(rs) == Some(rs[1].topic) && sc.topic == AfterFirstColon(Line(rs[1])))
  }

  predicate RosterShown(sc: Screen, rs: seq<Reply>)
    requires |rs| >= 4 && rs[2].Names?
  {
    && sc.names == AfterFirstColon(Line(rs[2]))
    && RosterOnScreen(multiset(rs[2].nicks), sc.events) == Roster(rs)
  }

  predicate TalkShown(sc: Screen, rs: seq<Reply>) {
    && |Talks(sc.events)| == |Rows(Heard(rs))|
    && (Talks(sc.events) == Rows(Heard(rs)) <==> AllHaveColons(Heard(rs)))
  }

  lemma EventAppended(events: seq<Event>, event: Event, start: multiset<string>)
    ensures Talks(events + [event]) == Talks(events) + TalkIn(event)
    ensures RosterOnScreen(start, events + [event]) == RosterSeen(RosterOnScreen(start, events), event)
  {
    assert (events + [event])[..|events|] == events;
  }

  lemma TopicStep(sc: Screen, rs: seq<Reply>, p: Reply, event: Event)
    requires |rs| >= 4 && rs[1].TopicIs? && TopicShown(sc, rs) && SaysTheSame(event, p)
    ensures TopicShown(Displayed(sc, event), rs + [p])
  {
    hide LastTopic, Line, AfterFirstColon, Renamed;
    RenamedStep(rs, p);
    ReplyAppended(rs, p);
    assert (rs + [p])[1] == rs[1];
  }

  lemma RosterStep(sc: Screen, rs: seq<Reply>, p: Reply, event: Event)
    requires |rs| >= 4 && rs[2].Names? && RosterShown(sc, rs) && SaysTheSame(event, p)
    ensures RosterShown(Displayed(sc, event), rs + [p])
  {
    hide Roster, RosterOnScreen, Line, AfterFirstColon;
    ReplyAppended(rs, p);
    EventAppended(sc.events, event, multiset(rs[2].nicks));
    assert (rs + [p])[2] == rs[2];
  }

  lemma AppendedEqual<T>(a: seq<T>, x: T, b: seq<T>, y: T)
    requires |a| == |b|
    ensures a + [x] == b + [y] <==> a == b && x == y
  {
    if a + [x] == b + [y] {
      assert (a + [x])[..|a|] == a && (b + [y])[..|a|] == b;
      assert (a + [x])[|a|] == x && (b + [y])[|a|] == y;
    }
  }

  lemma TalkStep(sc: Screen, rs: seq<Reply>, p: Reply, event: Event)
    requires TalkShown(sc, rs) && SaysTheSame(event, p)
    ensures TalkShown(Displayed(sc, event), rs + [p])
  {
    hide Heard, Talks, Rows, Contains, LoggedText;
    ReplyAppended(rs, p);
    EventAppended(sc.events, event, multiset{});
    assert Heard(rs) + [] == Heard(rs);
    assert Talks(sc.events) + [] == Talks(sc.events);
    match p
    case Said(u, line) =>
      RowAppended(Heard(rs), Entry(u, line));
      AppendedEqual(Talks(sc.events), Spoken(event.nick, event.text), Rows(Heard(rs)), Spoken(u.nick, LoggedText(line)));
      assert AllHaveColons(Heard(rs) + [Entry(u, line)]) <==> AllHaveColons(Heard(rs)) && Contains(line, ":") by {
        ColonsStep(Heard(rs), Entry(u, line));
      }
    case _ =>
  }

  lemma ColonsStep(es: seq<Entry>, e: Entry)
    ensures AllHaveColons(es + [e]) <==> AllHaveColons(es) && Contains(e.line, ":")
  {
    hide Contains;
    assert forall x :: x in es + [e] <==> x in es || x == e;
  }

  lemma GreetingShown(rs: seq<Reply>, u: User, host: string)
    requires |rs| == 4 && Greeted(rs, u, host)
    ensures var sc := Opening(Line(rs[1]), Line(rs[2]));
            TopicShown(sc, rs) && RosterShown(sc, rs) && TalkShown(sc, rs)
  {
    hide Line, AfterFirstColon;
    assert rs == [] + [rs[0]] + [rs[1]] + [rs[2]] + [rs[3]];
    ReplyAppended([] + [rs[0]] + [rs[1]] + [rs[2]], rs[3]);
    ReplyAppended([] + [rs[0]] + [rs[1]], rs[2]);
    ReplyAppended([] + [rs[0]], rs[1]);
    ReplyAppended([], rs[0]);
  }

  lemma LinesAt(rs: seq<Reply>, i: nat)
    requires i < |rs|
    ensures Lines(rs)[i] == Line(rs[i])
  {
    hide Line;
    if i < |rs| - 1 {
      LinesAt(rs[..|rs| - 1], i);
    }
  }

  lemma LinesAppended(rs: seq<Reply>, p: Reply)
    ensures Lines(rs + [p]) == Lines(rs) + [Line(p)]
  {
    assert (rs + [p])[..|rs|] == rs;
  }

  lemma SessionAppended(msgs: seq<string>, msg: string, chan: string)
    requires |msgs| >= 4
    ensures Session(msgs + [msg], chan) == match Session(msgs, chan)
                                           case None => None
                                           case Some(sc) => ShowNext(sc, msg, chan)
  {
    hide ShowNext;
    assert (msgs + [msg])[..|msgs|] == msgs;
  }

  ghost predicate ScreenShows(screen: Option<Screen>, rs: seq<Reply>)
    requires |rs| >= 4 && rs[1].TopicIs? && rs[2].Names?
  {
    screen.Some? && TopicShown(screen.value, rs) && RosterShown(screen.value, rs) && TalkShown(screen.value, rs)
  }

  lemma {:induction false} SessionShows(rs: seq<Reply>, u: User, host: string, chan: string)
    requires Greeted(rs, u, host) && Regular(rs, chan) && AllWellTold(rs)
    ensures ScreenShows(Session(Lines(rs), chan), rs)
    decreases |rs|
  {
    hide Line, ParseSession, TopicShown, RosterShown, TalkShown, RelayedIn, WellTold, SaysTheSame;
    if |rs| == 4 {
      GreetingShown(rs, u, host);
      LinesAt(rs, 1);
      LinesAt(rs, 2);
    } else {
      var before, p := rs[..|rs| - 1], rs[|rs| - 1];
      assert rs == before + [p];
      SessionShows(before, u, host, chan);
      LinesAppended(before, p);
      SessionAppended(Lines(before), Line(p), chan);
      ReplyIsUnderstood(p, chan);
      var sc, event := Session(Lines(before), chan).value, ParseSession(Line(p), chan).event;
      TopicStep(sc, before, p, event);
      RosterStep(sc, before, p, event);
      TalkStep(sc, before, p, event);
    }
  }

  // ---- The list of names ----

  lemma {:induction false} NamesTextCons(nick: string, nicks: seq<string>)
    ensures NamesText([nick] + nicks) == "@" + nick + " " + NamesText(nicks)
  {
    var all := [nick] + nicks;
    if nicks == [] {
      assert all[..0] == [];
      assert NamesText(all) == "" + "@" + nick + " ";
    } else {
      var n := |nicks| - 1;
      assert all[..|all| - 1] == [nick] + nicks[..n];
      NamesTextCons(nick, nicks[..n]);
    }
  }

  lemma WithoutSignsCons(word: string, words: seq<string>)
    ensures WithoutSigns([word] + words) == (if word == "" then [] else [word[1..]]) + WithoutSigns(words)
  {
    var all := [word] + words;
    if words == [] {
      assert all[..0] == [];
    } else {
      assert all[..|all| - 1] == [word] + words[..|words| - 1];
      WithoutSignsCons(word, words[..|words| - 1]);
    }
  }

  lemma {:induction false} PlainNamesRecovered(nicks: seq<string>)
    requires forall n | n in nicks :: ' ' !in n
    ensures NamesOnScreen(NamesText(nicks)) == nicks
  {
    hide Split;
    if nicks == [] {
      AlienText("", " ");
      FindNone("", " ", 0);
      SplitNone("", " ");
      WithoutSignsCons("", []);
    } else {
      var n, rest := nicks[0], nicks[1..];
      assert nicks == [n] + rest;
      NamesTextCons(n, rest);
      OneCharBorderFree(" ");
      SplitAtDelimiter("@" + n, " ", NamesText(rest));
      AlienText("@" + n, " ");
      FindNone("@" + n, " ", 0);
      SplitNone("@" + n, " ");
      WithoutSignsCons("@" + n, Split(NamesText(rest), " "));
      PlainNamesRecovered(rest);
    }
  }

  lemma {:induction false} WordsStayPlain(words: seq<string>)
    requires forall w | w in words :: ' ' !in w
    ensures forall w | w in WithoutSigns(words) :: ' ' !in w
  {
    if words != [] {
      var n := |words| - 1;
      WordsStayPlain(words[..n]);
      assert words[n] in words;
    }
  }

  /** The nicks can be read off the displayed list exactly when none of them has a blank. */
  lemma NamesAreRecovered(nicks: seq<string>)
    ensures NamesOnScreen(NamesText(nicks)) == nicks <==> forall n | n in nicks :: ' ' !in n
  {
    hide Split, NamesText, WithoutSigns;
    var words := Split(NamesText(nicks), " ");
    PiecesAreDelimiterFree(NamesText(nicks), " ");
    forall w | w in words
      ensures ' ' !in w
    {
      NoBlank(w);
    }
    WordsStayPlain(words);
    if forall n | n in nicks :: ' ' !in n {
      PlainNamesRecovered(nicks);
    }
  }

  lemma NoBlank(w: string)
    requires !Contains(w, " ")
    ensures ' ' !in w
  {
    forall i | 0 <= i < |w|
      ensures w[i] != ' '
    {
      assert !OccursAt(w, " ", i);
      assert w[i..i + 1] == [w[i]];
    }
  }

  /** The list of names is read whole exactly when the server's address, the nick and the channel have no colon. */
  lemma NamesReplyRecovered(host: string, u: User, nicks: seq<string>)
    ensures AfterFirstColon(Line(Names(host, u, nicks))) == NamesText(nicks)
            <==> ':' !in host && ':' !in u.nick && ':' !in u.chan
  {
    hide Find, AfterFirstColon, NamesText;
    var head := host + " " + RPL_NAMREPLY + " " + u.nick + " " + u.chan + " ";
    assert Line(Names(host, u, nicks)) == head + (":" + NamesText(nicks));
    assert ':' in head <==> ':' in host || ':' in u.nick || ':' in u.chan;
    ColonSplits(head, NamesText(nicks));
  }

  // ---- The main results ----

  predicate NoColons(host: string, u: User) {
    ':' !in host && ':' !in u.nick && ':' !in u.chan
  }

  predicate PlainNicks(rs: seq<Reply>)
    requires |rs| >= 4 && rs[2].Names?
  {
    forall n | n in rs[2].nicks :: ' ' !in n
  }

  lemma OpeningRead(rs: seq<Reply>, u: User, host: string)
    requires Greeted(rs, u, host)
    ensures AfterFirstColon(Line(rs[1])) == rs[1].topic <==> NoColons(host, u)
    ensures AfterFirstColon(Line(rs[2])) == NamesText(rs[2].nicks) <==> NoColons(host, u)
  {
    hide AfterFirstColon, Line, NamesText;
    TopicReplyRecovered(host, u, rs[1].topic);
    NamesReplyRecovered(host, u, rs[2].nicks);
  }

  /** A client shows a whole session without failing; the topic on its screen is the last one told exactly when
      the opening line could be read or somebody renamed the channel since; its talk is the rows of what it heard
      exactly when all these lines have a colon; and its names and events add up to the roster it was told. */
  lemma ClientShowsItsStream(rs: seq<Reply>, u: User, host: string, chan: string)
    requires Greeted(rs, u, host) && Regular(rs, chan) && AllWellTold(rs)
    ensures Session(Lines(rs), chan).Some?
    ensures var sc := Session(Lines(rs), chan).value;
            && (LastTopic(rs) == Some(sc.topic) <==> Renamed(rs) || NoColons(host, u))
            && (Talks(sc.events) == Rows(Heard(rs)) <==> AllHaveColons(Heard(rs)))
            && (NoColons(host, u) && PlainNicks(rs) ==>
                  RosterOnScreen(multiset(NamesOnScreen(sc.names)), sc.events) == Roster(rs))
  {
    hide Line, Session, Lines, NoColons, Renamed, AfterFirstColon, NamesText, NamesOnScreen, RelayedIn, WellTold;
    hide Roster, LastTopic, Heard, Talks, Rows, RosterOnScreen, AllHaveColons;
    SessionShows(rs, u, host, chan);
    OpeningRead(rs, u, host);
    if NoColons(host, u) && PlainNicks(rs) {
      NamesAreRecovered(rs[2].nicks);
    }
  }

  // ---- From the bytes ----

  /** The texts in a reply are free of CRLF, as everything is that came out of the CRLF reader. */
  predicate FreeOfCrlf(p: Reply) {
    match p
    case Joined(u) => !Contains(u.chan, CRLF)
    case TopicIs(host, u, topic) => HeadFree(host, u) && !Contains(topic, CRLF)
    case Names(host, u, nicks) => HeadFree(host, u) && forall n | n in nicks :: !Contains(n, CRLF)
    case EndOfNames(host, u) => HeadFree(host, u)
    case Said(_, line) => !Contains(line, CRLF)
    case Parted(_, line) => !Contains(line, CRLF)
    case Retitled(_, chan, topic) => !Contains(chan, CRLF) && !Contains(topic, CRLF)
  }

  predicate HeadFree(host: string, u: User) {
    !Contains(host, CRLF) && !Contains(u.nick, CRLF) && !Contains(u.chan, CRLF)
  }

  ghost predicate Written(p: Reply) {
    FreeOfCrlf(p) && (p.TopicIs? || p.Names? || p.EndOfNames? || WellNamed(Author(p)))
  }

  lemma Glued(a: string, b: string)
    requires !Contains(a, CRLF) && !Contains(b, CRLF)
    ensures !Contains(a + " " + b, CRLF)
    ensures !Contains(a + ":" + b, CRLF)
  {
    ContainsAround(a, ' ', b, CRLF);
    ContainsAround(a, ':', b, CRLF);
  }

  lemma MaskHasNoCrlf(u: User)
    requires WellNamed(u)
    ensures !Contains(Mask(u), CRLF)
  {
    hide IsRun, IsQuad;
    RunAvoids(u.nick, false, '\r');
    RunAvoids(u.whoami, false, '\r');
    QuadAvoids(u.endpt.addr, '\r');
    AlienText(Mask(u), CRLF);
  }

  /** Every reply is one message on the wire. */
  lemma LineIsSendable(p: Reply)
    requires Written(p)
    ensures Sendable(Line(p))
  {
    hide WellNamed, Contains, Mask;
    match p
    case Joined(u) =>
      MaskHasNoCrlf(u);
      Plain("JOIN");
      Glued("JOIN", u.chan);
      Glued(Mask(u), "JOIN" + " " + u.chan);
      assert Line(p) == Mask(u) + " " + ("JOIN" + " " + u.chan);
    case Said(u, line) => RelayIsSendable(u, line);
    case Parted(u, line) => RelayIsSendable(u, line);
    case Retitled(u, chan, topic) => TitleIsSendable(u, chan, topic);
    case TopicIs(host, u, topic) => HeadedLine(host, RPL_TOPIC, u, topic);
    case Names(host, u, nicks) =>
      NamesHaveNoCrlf(nicks);
      HeadedLine(host, RPL_NAMREPLY, u, NamesText(nicks));
    case EndOfNames(host, u) =>
      var text := "End of NAMES list";
      Plain(text);
      HeadedLine(host, RPL_ENDOFNAMES, u, text);
      assert ":" + text == ":End of NAMES list";
      assert Line(p) == host + " " + RPL_ENDOFNAMES + " " + u.nick + " " + u.chan + " " + ":" + text;
  }

  lemma HeadedLine(host: string, code: string, u: User, text: string)
    requires HeadFree(host, u) && !Contains(text, CRLF) && '\r' !in code
    ensures Sendable(host + " " + code + " " + u.nick + " " + u.chan + " " + ":" + text)
  {
    hide Contains;
    Plain(code);
    Plain("");
    Glued(host, code);
    Glued(host + " " + code, u.nick);
    Glued(host + " " + code + " " + u.nick, u.chan);
    Glued("", text);
    var head := host + " " + code + " " + u.nick + " " + u.chan;
    assert "" + ":" + text == ":" + text;
    Glued(head, ":" + text);
    assert head + " " + (":" + text) == head + " " + ":" + text;
  }

  lemma {:induction false} NamesHaveNoCrlf(nicks: seq<string>)
    requires forall n | n in nicks :: !Contains(n, CRLF)
    ensures !Contains(NamesText(nicks), CRLF)
  {
    hide Contains;
    Plain("");
    if nicks != [] {
      var n := |nicks| - 1;
      assert nicks[n] in nicks;
      NamesHaveNoCrlf(nicks[..n]);
      ContainsAround(NamesText(nicks[..n]), '@', nicks[n], CRLF);
      ContainsAround(NamesText(nicks[..n]) + "@" + nicks[n], ' ', "", CRLF);
      assert NamesText(nicks) == NamesText(nicks[..n]) + "@" + nicks[n] + " " + "";
    }
  }

  lemma TitleIsSendable(u: User, chan: string, topic: string)
    requires WellNamed(u) && !Contains(chan, CRLF) && !Contains(topic, CRLF)
    ensures Sendable(Line(Retitled(u, chan, topic)))
  {
    hide WellNamed, Contains, Mask;
    MaskHasNoCrlf(u);
    Plain("TOPIC");
    Plain("");
    Glued("", topic);
    var title := chan + " " + ("" + ":" + topic);
    Glued(chan, "" + ":" + topic);
    Glued("TOPIC", title);
    Glued(Mask(u), "TOPIC" + " " + title);
    assert Line(Retitled(u, chan, topic)) == Mask(u) + " " + ("TOPIC" + " " + title);
  }

  lemma Plain(s: string)
    requires '\r' !in s
    ensures !Contains(s, CRLF)
  {
    AlienText(s, CRLF);
  }

  lemma RelayIsSendable(u: User, line: string)
    requires WellNamed(u) && !Contains(line, CRLF)
    ensures Sendable(":" + Mask(u) + " " + line)
  {
    hide WellNamed, Contains, Mask;
    MaskHasNoCrlf(u);
    Plain("");
    Glued("", Mask(u));
    Glued("" + ":" + Mask(u), line);
    assert "" + ":" + Mask(u) + " " + line == ":" + Mask(u) + " " + line;
  }

  lemma {:induction false} FrameAppended(ms: seq<string>, m: string)
    ensures Frame(ms + [m]) == Frame(ms) + (m + CRLF)
  {
    if ms == [] {
      assert ([] + [m])[1..] == [];
    } else {
      assert (ms + [m])[1..] == ms[1..] + [m];
      FrameAppended(ms[1..], m);
    }
  }

  lemma {:induction false} ConcatAppended(chunks: seq<string>, chunk: string)
    ensures Concat(chunks + [chunk]) == Concat(chunks) + chunk
  {
    if chunks == [] {
      assert ([] + [chunk])[1..] == [];
    } else {
      assert (chunks + [chunk])[1..] == chunks[1..] + [chunk];
      ConcatAppended(chunks[1..], chunk);
    }
  }

  /** The writes of a servlet, one after the other, are the framed lines of its replies. */
  lemma {:induction false} WireIsFrame(rs: seq<Reply>)
    ensures Concat(Wire(rs)) == Frame(Lines(rs))
  {
    hide Line, Concat, Frame;
    if rs == [] {
      NothingWritten();
    } else {
      var n := |rs| - 1;
      WireIsFrame(rs[..n]);
      ConcatAppended(Wire(rs[..n]), Line(rs[n]) + CRLF);
      FrameAppended(Lines(rs[..n]), Line(rs[n]));
    }
  }

  lemma NothingWritten()
    ensures Concat([]) == Frame([])
  {
  }

  /** What a servlet object last wrote to a member's socket is the frame of the member's stream. */
  lemma SocketCarriesStream(servlet: Servlet, sock: Socket)
    requires servlet.Valid() && sock in servlet.socks && sock.remote in servlet.streams
    ensures var rs := servlet.streams[sock.remote].replies;
            |rs| <= |sock.written| && Concat(sock.written[|sock.written| - |rs|..]) == Frame(Lines(rs))
  {
    hide Concat, Frame, Lines, Distinct, NoDup, Rows;
    var rs := servlet.streams[sock.remote].replies;
    assert EndsWithAll(sock.written, Wire(rs));
    WireIsFrame(rs);
    WireLength(rs);
  }

  lemma {:induction false} WireLength(rs: seq<Reply>)
    ensures |Wire(rs)| == |rs|
  {
    hide Line;
    if rs != [] {
      WireLength(rs[..|rs| - 1]);
    }
  }

  /** However the servlet's bytes are cut at message ends, the client's reader rebuilds exactly its replies. */
  lemma StreamArrives(rs: seq<Reply>, chunks: seq<string>)
    requires forall p | p in rs :: Written(p)
    requires Concat(chunks) == Frame(Lines(rs)) && forall c | c in chunks :: EndsWithCrlf(c)
    ensures ReadAll(chunks) == Lines(rs)
  {
    hide Written, Line, Concat, Frame, ReadAll;
    forall m | m in Lines(rs)
      ensures Sendable(m)
    {
      var i :| 0 <= i < |Lines(rs)| && Lines(rs)[i] == m;
      LinesAt(rs, i);
      assert rs[i] in rs;
      LineIsSendable(rs[i]);
    }
    FramingRoundTrip(Lines(rs), chunks);
  }

  /** In every run, for every settled member whose stream is well told: whatever the cuts between reads, its client
      shows the stored topic, the channel's rows since the member was admitted without its own, and the members' nicks. */
  lemma EveryScreenIsRight(cfg: Config, accounts: Accounts, topics: map<string, string>, steps: seq<Step>, s: System,
                           c: string, u: User, chunks: seq<string>)
    requires Reached(cfg, accounts, topics, steps, s)
    requires c in s.threads && u in s.threads[c].room.users && u !in s.threads[c].room.newusers
    requires u.endpt in s.threads[c].room.streams
    requires var rs := s.threads[c].room.streams[u.endpt].replies;
             && AllWellTold(rs) && (forall p | p in rs :: Written(p))
             && Concat(chunks) == Frame(Lines(rs)) && (forall b | b in chunks :: EndsWithCrlf(b))
    ensures var r := s.threads[c].room;
            var st := r.streams[u.endpt];
            && Greeted(st.replies, u, r.host) && st.mark <= |r.log| && |r.newusers| <= |r.users|
            && |ReadAll(chunks)| >= 4 && Session(ReadAll(chunks), c).Some?
            && var sc, heard := Session(ReadAll(chunks), c).value, ByOthers(r.log[st.mark..], u.endpt);
               && (sc.topic == r.stored <==> Renamed(st.replies) || NoColons(r.host, u))
               && (Talks(sc.events) == Rows(heard) <==> AllHaveColons(heard))
               && (NoColons(r.host, u) && PlainNicks(st.replies) ==>
                     RosterOnScreen(multiset(NamesOnScreen(sc.names)), sc.events)
                     == multiset(Nicks(r.users[..OldCount(r)])))
  {
    hide Reached, Written, Line, Concat, Frame, ReadAll, RelayedIn, WellTold, Session, Lines, NoColons, Renamed, NamesOnScreen;
    hide Roster, LastTopic, Heard, Talks, Rows, RosterOnScreen, AllHaveColons, ByOthers, Nicks, PlainNicks;
    MembersKnow(cfg, accounts, topics, steps, s, c, u);
    var st := s.threads[c].room.streams[u.endpt];
    StreamArrives(st.replies, chunks);
    ClientShowsItsStream(st.replies, u, s.threads[c].room.host, c);
  }
}
