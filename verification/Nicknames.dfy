/** Which nicks the client can read back. It reserves `: ! @` and checks nothing (src/client/Client.cpp:40-49); its
    expressions take only words (src/client/Client.cpp:190-193). */
module Nicknames {
  import opened Strings
  import opened Sockio
  import opened Irc
  import opened RoomInvariant
  import opened ClientParsers
  import opened BroadcastCodec
  import opened EndToEnd

  /** Everything about the user but its nick is what the client's expressions accept. */
  ghost predicate WellNamedButNick(u: User) {
    IsRun(u.whoami, false) && IsQuad(u.endpt.addr)
  }

  /** The client shows an event, under this nick. */
  predicate ShownUnder(parsed: Parsed, nick: string) {
    match parsed
    case Shown(event) => event.nick == nick
    case _ => false
  }

  // ---- A nick that is no word ----

  lemma NoHeader(nick: string, rest: string, keyword: string)
    requires '!' !in nick && !IsRun(nick, false)
    ensures !HeaderThen(nick + "!" + rest, keyword)
  {
    hide SkipRun, SkipChar, IsRun;
    var s := nick + "!" + rest;
    if SkipBoth(s, false, '!').Some? {
      var run := SkippedBoth(s, false, '!');
      WordIsNick(nick, rest, run, SkipBoth(s, false, '!').value);
    }
  }

  lemma WordIsNick(nick: string, rest: string, run: string, tail: string)
    requires '!' !in nick && IsRun(run, false) && nick + "!" + rest == run + ['!'] + tail
    ensures run == nick
  {
    var s := nick + "!" + rest;
    RunAvoids(run, false, '!');
    assert s[|nick|] == '!' && s[|run|] == '!';
    assert forall j | 0 <= j < |nick| :: s[j] == nick[j] && nick[j] in nick;
    assert forall j | 0 <= j < |run| :: s[j] == run[j] && run[j] in run;
    assert s[..|nick|] == nick && s[..|run|] == run;
  }

  lemma ColonIsNoHeader(rest: string, keyword: string)
    ensures !HeaderThen(":" + rest, keyword)
  {
    assert (":" + rest)[0] == ':';
  }

  lemma MaskSplit(u: User, rest: string)
    ensures Mask(u) + rest == u.nick + "!" + (u.whoami + "@" + u.endpt.addr + rest)
  {
  }

  /** A JOIN or TOPIC of such a nick matches nothing, not even with a colon in front of a word. */
  lemma PlainUnparseable(u: User, line: string, chan: string)
    requires WellNamedButNick(u) && '!' !in u.nick && !IsRun(u.nick, false)
    requires !StartsWith(line, "PRIVMSG") && !StartsWith(line, "PART")
    ensures ParseSession(Mask(u) + " " + line, chan) == Unparseable
  {
    hide IsRun, IsQuad, HeaderThen, StartsWith;
    var msg := Mask(u) + " " + line;
    MaskSplit(u, " " + line);
    assert msg == Mask(u) + (" " + line);
    NoHeader(u.nick, u.whoami + "@" + u.endpt.addr + (" " + line), "JOIN");
    NoHeader(u.nick, u.whoami + "@" + u.endpt.addr + (" " + line), "TOPIC");
    if u.nick != "" {
      WithoutFirst(u, line, "PRIVMSG");
      WithoutFirst(u, line, "PART");
    } else {
      assert msg[0] == '!';
    }
  }

  lemma WithoutFirst(u: User, line: string, keyword: string)
    requires WellNamedButNick(u) && '!' !in u.nick && u.nick != "" && !StartsWith(line, keyword)
    ensures !HeaderThen((Mask(u) + " " + line)[1..], keyword)
  {
    hide IsRun, IsQuad, HeaderThen, StartsWith;
    var v := u.(nick := u.nick[1..]);
    assert (Mask(u) + " " + line)[1..] == Mask(v) + " " + line;
    if IsRun(v.nick, false) {
      HeaderKeyword(v, line, keyword);
    } else {
      MaskSplit(v, " " + line);
      assert Mask(v) + " " + line == Mask(v) + (" " + line);
      NoHeader(v.nick, v.whoami + "@" + v.endpt.addr + (" " + line), keyword);
    }
  }

  lemma RelayedUnparseable(u: User, line: string, chan: string)
    requires '!' !in u.nick && !IsRun(u.nick, false)
    ensures ParseSession(":" + Mask(u) + " " + line, chan) == Unparseable
  {
    hide IsRun, HeaderThen;
    var msg := ":" + Mask(u) + " " + line;
    assert msg == ":" + (Mask(u) + " " + line) && msg[1..] == Mask(u) + (" " + line);
    ColonIsNoHeader(Mask(u) + " " + line, "JOIN");
    ColonIsNoHeader(Mask(u) + " " + line, "TOPIC");
    MaskSplit(u, " " + line);
    NoHeader(u.nick, u.whoami + "@" + u.endpt.addr + (" " + line), "PRIVMSG");
    NoHeader(u.nick, u.whoami + "@" + u.endpt.addr + (" " + line), "PART");
  }

  /** For a nick without '!' the client throws on whatever it does, if and only if the nick is no word. */
  lemma UnparseableExactlyWhenNoWord(p: Reply, chan: string)
    requires RelayedIn(p, chan) && WellNamedButNick(Author(p)) && '!' !in Author(p).nick
    ensures ParseSession(Line(p), chan) == Unparseable <==> !IsRun(Author(p).nick, false)
  {
    hide IsRun, IsQuad, ParseSession, StartsWith;
    var u := Author(p);
    if IsRun(u.nick, false) {
      WordIsParsed(p, chan);
    } else {
      match p
      case Joined(_) =>
        JoinLine(u.chan);
        PlainUnparseable(u, "JOIN " + u.chan, chan);
        assert Line(p) == Mask(u) + " " + ("JOIN " + u.chan);
      case Said(_, line) => RelayedUnparseable(u, line, chan);
      case Parted(_, line) => RelayedUnparseable(u, line, chan);
      case Retitled(_, c, topic) =>
        TitleLine(c, topic);
        PlainUnparseable(u, "TOPIC " + c + " :" + topic, chan);
        assert Line(p) == Mask(u) + " " + ("TOPIC " + c + " :" + topic);
      case _ =>
    }
  }

  lemma JoinLine(chan: string)
    ensures !StartsWith("JOIN " + chan, "PRIVMSG") && !StartsWith("JOIN " + chan, "PART")
  {
    var line := "JOIN " + chan;
    assert line[0..4] == "JOIN";
    OnlyOneKeyword(line, "JOIN", "PRIVMSG", 0);
    OnlyOneKeyword(line, "JOIN", "PART", 0);
  }

  lemma TitleLine(chan: string, topic: string)
    ensures var line := "TOPIC " + chan + " :" + topic; !StartsWith(line, "PRIVMSG") && !StartsWith(line, "PART")
  {
    var line := "TOPIC " + chan + " :" + topic;
    assert line[0..5] == "TOPIC";
    OnlyOneKeyword(line, "TOPIC", "PRIVMSG", 0);
    OnlyOneKeyword(line, "TOPIC", "PART", 0);
  }

  /** A sender whose nick is a word is read, and named, unless it sent a bare PART. */
  lemma WordIsParsed(p: Reply, chan: string)
    requires RelayedIn(p, chan) && WellNamed(Author(p))
    ensures ParseSession(Line(p), chan) != Unparseable
    ensures ShownUnder(ParseSession(Line(p), chan), Author(p).nick) <==> !(p.Parted? && BarePart(p.from, p.line))
  {
    hide WellNamed, ParseSession, Line, Contains;
    if p.Parted? {
      RelayedPartIsLeave(p.from, p.line, chan);
    } else {
      ReplyIsUnderstood(p, chan);
    }
  }

  // ---- A nick with '!' ----

  /** Whatever is shown, is shown under text before the first '!'. */
  lemma ShownBeforeBang(msg: string, chan: string)
    requires msg != "" && ParseSession(msg, chan).Shown?
    ensures var bang := IndexOfText(msg, "!");
            |ParseSession(msg, chan).event.nick| <= if msg[0] == ':' && bang > 0 then bang - 1 else bang
  {
    hide HeaderThen, Find, TalkText, AfterKeyword, TopicText;
    if msg[0] == ':' {
      ColonIsNoHeader(msg[1..], "JOIN");
      ColonIsNoHeader(msg[1..], "TOPIC");
      assert ":" + msg[1..] == msg;
    }
  }

  lemma BangInNick(prefix: string, nick: string, rest: string)
    requires '!' in nick && (prefix == "" || prefix == ":")
    ensures IndexOfText(prefix + nick + rest, "!") < |prefix| + |nick|
  {
    hide Find;
    var head := prefix + nick;
    var i :| 0 <= i < |nick| && nick[i] == '!';
    assert head[|prefix| + i..|prefix| + i + 1] == "!";
    assert OccursAt(head, "!", |prefix| + i);
    FindSome(head, "!");
    FindInLonger(head, rest, "!");
  }

  lemma BangIsNotNamed(prefix: string, u: User, line: string, chan: string)
    requires '!' in u.nick && (prefix == "" || prefix == ":")
    ensures !ShownUnder(ParseSession(prefix + Mask(u) + " " + line, chan), u.nick)
  {
    hide ParseSession, Find;
    var rest := "!" + u.whoami + "@" + u.endpt.addr + " " + line;
    var msg := prefix + Mask(u) + " " + line;
    assert msg == prefix + u.nick + rest;
    BangInNick(prefix, u.nick, rest);
    if ParseSession(msg, chan).Shown? {
      ShownBeforeBang(msg, chan);
      assert prefix == ":" ==> msg[0] == ':';
    }
  }

  /** For every nick: the client shows what a sender does under the sender's nick if and only if the nick is a word and the
      message is no bare PART. */
  lemma NamedExactlyWhenWord(p: Reply, chan: string)
    requires RelayedIn(p, chan) && WellNamedButNick(Author(p))
    ensures ShownUnder(ParseSession(Line(p), chan), Author(p).nick)
            <==> IsRun(Author(p).nick, false) && !(p.Parted? && BarePart(p.from, p.line))
  {
    hide IsRun, IsQuad, ParseSession, StartsWith, BarePart, Mask;
    var u := Author(p);
    if IsRun(u.nick, false) {
      WordIsParsed(p, chan);
    } else if '!' !in u.nick {
      UnparseableExactlyWhenNoWord(p, chan);
    } else {
      match p
      case Joined(_) =>
        BangIsNotNamed("", u, "JOIN " + u.chan, chan);
        assert Line(p) == "" + Mask(u) + " " + ("JOIN " + u.chan);
      case Said(_, line) => BangIsNotNamed(":", u, line, chan);
      case Parted(_, line) => BangIsNotNamed(":", u, line, chan);
      case Retitled(_, c, topic) =>
        BangIsNotNamed("", u, "TOPIC " + c + " :" + topic, chan);
        assert Line(p) == "" + Mask(u) + " " + ("TOPIC " + c + " :" + topic);
      case _ =>
    }
  }

  // ---- Two such nicks ----

  /** A nick that spells out somebody else's JOIN is shown as that somebody joining. */
  lemma SomebodyElseJoins(v: User, text: string, u: User, chan: string)
    requires WellNamed(v) && u.nick == Mask(v) + " JOIN " + text
    ensures match ParseSession(Line(Joined(u)), chan)
            case Shown(Join_(nick, _)) => nick == v.nick
            case _ => false
  {
    hide WellNamed, ParseSession;
    var w := v.(chan := text + "!" + u.whoami + "@" + u.endpt.addr + " JOIN " + u.chan);
    assert Mask(w) == Mask(v);
    assert Line(Joined(w)) == Line(Joined(u));
    assert WellNamed(w) by { SameNames(v, w); }
    JoinedIsJoin(w, chan);
  }

  lemma SameNames(v: User, w: User)
    requires WellNamed(v) && w == v.(chan := w.chan)
    ensures WellNamed(w)
  {
  }

  /** The nick "x!y@1.2.3.4 JOIN q" joins as "x"; "Jane Doe", which the prompt allows, makes the other clients throw. */
  lemma TwoNicks(u: User)
    requires WellNamedButNick(u)
    ensures ShownUnder(ParseSession(Line(Joined(u.(nick := "x!y@1.2.3.4 JOIN q"))), u.chan), "x")
    ensures ParseSession(Line(Joined(u.(nick := "Jane Doe"))), u.chan) == Unparseable
  {
    hide ParseSession, Line, IsQuad;
    var v := User("x", "y", "", "", "", Endpoint("1.2.3.4", 0));
    assert QuadOf("1.2.3.4", "1", "2", "3", "4");
    assert IsQuad("1.2.3.4") by { QuadIs("1.2.3.4", "1", "2", "3", "4"); }
    assert Mask(v) + " JOIN " + "q" == "x!y@1.2.3.4 JOIN q";
    SomebodyElseJoins(v, "q", u.(nick := "x!y@1.2.3.4 JOIN q"), u.chan);
    assert "Jane Doe"[4] == ' ' && ' ' in "Jane Doe";
    UnparseableExactlyWhenNoWord(Joined(u.(nick := "Jane Doe")), u.chan);
  }

  lemma QuadIs(addr: string, a: string, b: string, c: string, d: string)
    requires QuadOf(addr, a, b, c, d)
    ensures IsQuad(addr)
  {
  }
}
