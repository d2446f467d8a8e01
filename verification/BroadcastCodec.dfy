/** The server's broadcasts read back by the client (src/server/Servlet.cpp:134-150, 189-216, 247-250 with
    src/client/Client.cpp:101-115, 184-235). */
module BroadcastCodec {
  import opened Strings
  import opened Sockio
  import opened Irc
  import opened Room
  import opened ClientParsers

  /** Names that the client's regular expressions accept. */
  ghost predicate WellNamed(u: User) {
    IsRun(u.nick, false) && IsRun(u.whoami, false) && IsQuad(u.endpt.addr)
  }

  // ---- What words, addresses and masks do not contain ----

  lemma RunAvoids(s: string, digits: bool, c: char)
    requires IsRun(s, digits) && !InClass(c, digits)
    ensures c !in s
  {
  }

  lemma QuadAvoids(addr: string, c: char)
    requires IsQuad(addr) && !DigitChar(c) && c != '.'
    ensures c !in addr
  {
    hide IsRun;
    var p, q, r, t :| QuadOf(addr, p, q, r, t);
    RunAvoids(p, true, c);
    RunAvoids(q, true, c);
    RunAvoids(r, true, c);
    RunAvoids(t, true, c);
  }

  /** A mask contains neither blanks nor colons. */
  lemma MaskAvoids(u: User)
    requires WellNamed(u)
    ensures ' ' !in Mask(u) && ':' !in Mask(u)
    ensures '!' !in u.nick
  {
    hide IsRun, IsQuad;
    RunAvoids(u.nick, false, ' ');
    RunAvoids(u.whoami, false, ' ');
    QuadAvoids(u.endpt.addr, ' ');
    RunAvoids(u.nick, false, ':');
    RunAvoids(u.whoami, false, ':');
    QuadAvoids(u.endpt.addr, ':');
    RunAvoids(u.nick, false, '!');
  }

  lemma InsideOccurrence(s: string, d: string, i: nat, p: nat)
    requires OccursAt(s, d, i) && i <= p < i + |d|
    ensures p < |s| && s[p] in d
  {
    assert s[p] == s[i..i + |d|][p - i];
  }

  lemma NotAcross(s: string, d: string, i: nat, p: nat)
    requires OccursAt(s, d, i) && p < |s| && s[p] !in d
    ensures p < i || i + |d| <= p
  {
    if i <= p < i + |d| {
      InsideOccurrence(s, d, i, p);
    }
  }

  /** Around a character outside `d`, `d` occurs only on one of the two sides. */
  lemma ContainsAround(a: string, c: char, b: string, d: string)
    requires c !in d && d != ""
    ensures Contains(a + [c] + b, d) <==> Contains(a, d) || Contains(b, d)
  {
    var s := a + [c] + b;
    if Contains(s, d) {
      var i :| 0 <= i <= |s| && OccursAt(s, d, i);
      assert s[|a|] == c;
      NotAcross(s, d, i, |a|);
      if i + |d| <= |a| {
        assert s == a + ([c] + b);
        OccursInPrefix(a, [c] + b, d, i);
        assert OccursAt(a, d, i);
      } else {
        assert s[|a| + 1..] == b;
        OccursInSuffix(s, d, |a| + 1, i - |a| - 1);
        assert OccursAt(b, d, i - |a| - 1);
      }
    }
    if Contains(a, d) || Contains(b, d) {
      if Contains(b, d) {
        ContainsInParts([c], b, d);
      }
      assert s == a + ([c] + b);
      ContainsInParts(a, [c] + b, d);
    }
  }

  /** A keyword in capitals occurs in a mask exactly when it occurs in the nick or in the whoami. */
  lemma KeywordInMask(u: User, keyword: string)
    requires WellNamed(u)
    requires keyword != "" && '!' !in keyword && '@' !in keyword && keyword[0] != '.' && !DigitChar(keyword[0])
    ensures Contains(Mask(u), keyword) <==> Contains(u.nick, keyword) || Contains(u.whoami, keyword)
  {
    hide Contains, IsRun, IsQuad;
    var m := u.whoami + "@" + u.endpt.addr;
    assert Mask(u) == u.nick + "!" + m;
    ContainsAround(u.nick, '!', m, keyword);
    ContainsAround(u.whoami, '@', u.endpt.addr, keyword);
    QuadAvoids(u.endpt.addr, keyword[0]);
    AlienText(u.endpt.addr, keyword);
  }

  // ---- Finding the end of the nick ----

  lemma BangIs(prefix: string, u: User, rest: string)
    requires WellNamed(u) && '!' !in prefix
    ensures IndexOfText(prefix + Mask(u) + rest, "!") == |prefix| + |u.nick|
  {
    hide IsRun, IsQuad, Find;
    MaskAvoids(u);
    var head := prefix + u.nick;
    AlienText(head, "!");
    var tail := u.whoami + "@" + u.endpt.addr + rest;
    assert prefix + Mask(u) + rest == head + "!" + tail;
    OneCharBorderFree("!");
    FirstDelimiter(head, "!", tail);
  }

  lemma MaskHeader(u: User, rest: string)
    requires WellNamed(u) && (rest == "" || rest[0] == ' ')
    ensures SkipHeader(Mask(u) + rest) == Some(rest)
  {
    hide IsRun, IsQuad, SkipHeader;
    SkipsHeader(u.nick, u.whoami, u.endpt.addr, rest);
  }

  /** The keyword of a header is the word that follows it. */
  lemma HeaderKeyword(u: User, line: string, keyword: string)
    requires WellNamed(u)
    ensures HeaderThen(Mask(u) + " " + line, keyword) <==> StartsWith(line, keyword)
  {
    hide IsRun, IsQuad, SkipHeader;
    assert Mask(u) + " " + line == Mask(u) + (" " + line);
    MaskHeader(u, " " + line);
    var r, k := " " + line, " " + keyword;
    if |line| >= |keyword| {
      assert r[0..|k|] == " " + line[0..|keyword|];
      assert r[0..|k|][1..] == line[0..|keyword|];
      assert k[1..] == keyword;
    }
  }

  lemma FirstCharOfMask(u: User)
    requires WellNamed(u)
    ensures Mask(u) != "" && Mask(u)[0] != ':'
  {
    MaskAvoids(u);
    assert Mask(u)[0] in Mask(u);
  }

  // ---- PRIVMSG ----

  /** A relayed PRIVMSG is shown as one, under the sender's nick. */
  lemma SaidIsTalk(u: User, line: string, chan: string)
    requires WellNamed(u) && StartsWith(line, "PRIVMSG")
    ensures ParseSession(Line(Said(u, line)), chan) == Shown(Talk(u.nick, TalkText(Line(Said(u, line)))))
  {
    hide IsRun, IsQuad, Find, SkipHeader, HeaderThen;
    var msg := Line(Said(u, line));
    assert msg[1..] == Mask(u) + " " + line;
    HeaderKeyword(u, line, "PRIVMSG");
    assert msg == ":" + Mask(u) + (" " + line);
    BangIs(":", u, " " + line);
    assert msg[1..1 + |u.nick|] == u.nick;
  }

  lemma RelayedColon(u: User, line: string)
    requires WellNamed(u)
    ensures var msg, head := Line(Said(u, line)), Mask(u) + " ";
            && msg == ":" + (head + line) && ':' !in head
            && Find(msg, ":", 1) == ShiftedBy(Find(head + line, ":", 0), 1)
  {
    hide IsRun, IsQuad, Find, Mask;
    var msg, head := Line(Said(u, line)), Mask(u) + " ";
    MaskAvoids(u);
    assert msg[1..] == head + line;
    FindInSuffix(msg, ":", 1, 0);
  }

  function ShiftedBy(o: Option<nat>, k: nat): Option<nat> {
    match o
    case None => None
    case Some(i) => Some(k + i)
  }

  /** The text shown equals the text logged, colons and all, exactly when the client's line has a colon. */
  lemma ShownTextIsLoggedText(u: User, line: string)
    requires WellNamed(u)
    ensures TalkText(Line(Said(u, line))) == LoggedText(line) <==> Contains(line, ":")
  {
    hide IsRun, IsQuad, Find, Mask, Contains, Line, WellNamed;
    var msg, head := Line(Said(u, line)), Mask(u) + " ";
    RelayedColon(u, line);
    FindSome(line, ":");
    match Find(line, ":", 0)
    case None =>
      NoColonNowhere(head, line);
      assert |msg| > |line|;
    case Some(i) =>
      FindAfterPlain(head, line, i);
      assert msg[1 + |head| + i + 1..] == line[i + 1..];
  }

  lemma NoColonNowhere(head: string, line: string)
    requires ':' !in head && !Contains(line, ":")
    ensures Find(head + line, ":", 0).None?
  {
    hide Find;
    FindSome(head + line, ":");
    if Contains(head + line, ":") {
      var i :| 0 <= i <= |head + line| && OccursAt(head + line, ":", i);
      ColonSomewhere(head, line, i);
    }
  }

  lemma ColonSomewhere(head: string, line: string, i: nat)
    requires OccursAt(head + line, ":", i)
    requires ':' !in head
    ensures Contains(line, ":")
  {
    assert (head + line)[i..i + 1][0] == (head + line)[i];
    assert forall j | 0 <= j < |head| :: head[j] in head && (head + line)[j] == head[j];
    assert i >= |head|;
    assert line[i - |head|..i - |head| + 1] == ":";
    assert OccursAt(line, ":", i - |head|);
  }

  /** Text without colons in front shifts the first colon. */
  lemma FindAfterPlain(head: string, line: string, i: nat)
    requires ':' !in head && Find(line, ":", 0) == Some(i)
    ensures Find(head + line, ":", 0) == Some(|head| + i)
  {
    hide Find;
    TextBeforeFirst(line, ":", i);
    AlienText(head, ":");
    var before := head + line[..i];
    assert ':' !in line[..i] by {
      forall j | 0 <= j < i
        ensures line[j] != ':'
      {
        FindIsFirst(line, ":", 0, j);
        assert line[j..j + 1][0] == line[j];
        assert line[j..j + 1] == [line[j]];
      }
    }
    AlienText(before, ":");
    assert line[i..i + 1] == ":";
    assert head + line == before + ":" + line[i + 1..];
    OneCharBorderFree(":");
    FirstDelimiter(before, ":", line[i + 1..]);
  }

  // ---- PART and JOIN ----

  /** The keyword after a plain mask is the first one found; one inside the mask is found instead. */
  lemma KeywordAfterMask(head: string, keyword: string, text: string)
    requires BorderFree(keyword) && |keyword| == 4
    ensures var msg := head + keyword + " " + text;
            && AfterKeyword(msg, keyword).Some?
            && (!Contains(head, keyword) ==> AfterKeyword(msg, keyword) == Some(text))
            && (Contains(head, keyword) ==> |AfterKeyword(msg, keyword).value| > |text|)
  {
    hide Find, BorderFree;
    var msg := head + keyword + " " + text;
    var rest := " " + text;
    assert msg == head + keyword + rest;
    FindSome(head, keyword);
    if Contains(head, keyword) {
      assert msg == head + (keyword + rest);
      FindInLonger(head, keyword + rest, keyword);
    } else {
      FirstDelimiter(head, keyword, rest);
      assert msg[|head| + 5..] == text;
    }
  }

  /** A word whose first character does not come back has no border. */
  lemma FirstCharOnce(d: string)
    requires d != "" && d[0] !in d[1..]
    ensures BorderFree(d)
  {
    forall k | 0 < k < |d|
      ensures d[..k] != d[|d| - k..]
    {
      assert d[|d| - k..][0] == d[1..][|d| - k - 1];
      assert d[..k][0] == d[0];
    }
  }

  lemma PartBorderFree()
    ensures BorderFree("PART") && BorderFree("JOIN")
  {
    FirstCharOnce("PART");
    FirstCharOnce("JOIN");
  }

  /** A mask surrounded by characters outside the keyword. */
  lemma KeywordInHead(prefix: string, u: User, keyword: string)
    requires WellNamed(u) && (keyword == "PART" || keyword == "JOIN") && (prefix == "" || prefix == ":")
    ensures Contains(prefix + Mask(u) + " ", keyword) <==> Contains(u.nick, keyword) || Contains(u.whoami, keyword)
  {
    hide IsRun, IsQuad, Contains;
    KeywordInMask(u, keyword);
    assert keyword[0] != '.' && ' ' !in keyword && ':' !in keyword;
    EmptyLacks(keyword);
    ContainsAround(prefix + Mask(u), ' ', "", keyword);
    assert prefix + Mask(u) + " " + "" == prefix + Mask(u) + " ";
    if prefix == ":" {
      ContainsAround("", ':', Mask(u), keyword);
      assert "" + ":" + Mask(u) == ":" + Mask(u);
    } else {
      assert "" + Mask(u) == Mask(u);
    }
  }

  lemma EmptyLacks(d: string)
    requires d != ""
    ensures !Contains("", d)
  {
  }

  /** A relayed PART is shown as one, under the leaver's nick; the channel is recovered exactly when neither the nick
      nor the whoami contains the keyword. */
  lemma PartedIsLeave(u: User, name: string, chan: string)
    requires WellNamed(u)
    ensures var line := "PART " + name;
            match ParseSession(Line(Parted(u, line)), chan)
            case Shown(Leave(nick, c)) =>
              nick == u.nick && (c == name <==> !Contains(u.nick, "PART") && !Contains(u.whoami, "PART"))
            case _ => false
  {
    hide IsRun, IsQuad, Find, SkipHeader, HeaderThen, Contains, AfterKeyword;
    var line := "PART " + name;
    var msg := Line(Parted(u, line));
    assert msg[1..] == Mask(u) + " " + line;
    PartLine(name);
    HeaderKeyword(u, line, "PRIVMSG");
    HeaderKeyword(u, line, "PART");
    assert msg == ":" + Mask(u) + (" " + line);
    BangIs(":", u, " " + line);
    assert msg[1..1 + |u.nick|] == u.nick;
    PartBorderFree();
    KeywordAfterMask(":" + Mask(u) + " ", "PART", name);
    assert msg == ":" + Mask(u) + " " + "PART" + " " + name;
    KeywordInHead(":", u, "PART");
  }

  lemma PartLine(name: string)
    ensures StartsWith("PART " + name, "PART") && !StartsWith("PART " + name, "PRIVMSG")
  {
    var line := "PART " + name;
    assert line[0..4] == "PART";
    OnlyOneKeyword(line, "PART", "PRIVMSG", 1);
  }

  /** Where the text after the keyword starts, for any line that begins with it. */
  lemma KeywordPlace(head: string, keyword: string, rest: string)
    requires BorderFree(keyword) && |keyword| == 4
    ensures AfterKeyword(head + keyword + rest, keyword).None? <==> rest == "" && !Contains(head, keyword)
  {
    hide Find, BorderFree;
    FindSome(head, keyword);
    if Contains(head, keyword) {
      assert head + keyword + rest == head + (keyword + rest);
      FindInLonger(head, keyword + rest, keyword);
    } else {
      FirstDelimiter(head, keyword, rest);
    }
  }

  /** Whatever begins with PART is shown as its sender leaving, with one exception: on a bare "PART" the client throws,
      unless the keyword already occurs in the sender's names. */
  lemma RelayedPartIsLeave(u: User, line: string, chan: string)
    requires WellNamed(u) && StartsWith(line, "PART")
    ensures match ParseSession(Line(Parted(u, line)), chan)
            case Shown(Leave(nick, _)) => nick == u.nick && !BarePart(u, line)
            case OutOfRange => BarePart(u, line)
            case _ => false
  {
    hide IsRun, IsQuad, Find, SkipHeader, HeaderThen, Contains, AfterKeyword;
    var msg, rest := Line(Parted(u, line)), line[4..];
    assert line[0..4] == "PART";
    assert line == "PART" + rest;
    assert msg[1..] == Mask(u) + " " + line;
    OnlyOneKeyword(line, "PART", "PRIVMSG", 1);
    HeaderKeyword(u, line, "PRIVMSG");
    HeaderKeyword(u, line, "PART");
    assert msg == ":" + Mask(u) + (" " + line);
    BangIs(":", u, " " + line);
    assert msg[1..1 + |u.nick|] == u.nick;
    PartBorderFree();
    assert msg == ":" + Mask(u) + " " + "PART" + rest;
    KeywordPlace(":" + Mask(u) + " ", "PART", rest);
    KeywordInHead(":", u, "PART");
  }

  predicate BarePart(u: User, line: string) {
    line == "PART" && !Contains(u.nick, "PART") && !Contains(u.whoami, "PART")
  }

  lemma MaskFirst(u: User, rest: string)
    requires WellNamed(u)
    ensures !MatchesColon(Mask(u) + rest, "PRIVMSG") && !MatchesColon(Mask(u) + rest, "PART")
  {
    hide IsRun, IsQuad, HeaderThen;
    FirstCharOfMask(u);
    assert (Mask(u) + rest)[0] == Mask(u)[0];
  }

  /** A JOIN is shown as one, under the newcomer's nick; the channel is recovered exactly when neither the nick nor the
      whoami contains the keyword. */
  lemma JoinedIsJoin(u: User, chan: string)
    requires WellNamed(u)
    ensures match ParseSession(Line(Joined(u)), chan)
            case Shown(Join_(nick, c)) =>
              nick == u.nick && (c == u.chan <==> !Contains(u.nick, "JOIN") && !Contains(u.whoami, "JOIN"))
            case _ => false
  {
    hide IsRun, IsQuad, Find, SkipHeader, HeaderThen, Contains, AfterKeyword, MatchesColon;
    var line := "JOIN " + u.chan;
    var msg := Line(Joined(u));
    assert msg == Mask(u) + " " + line;
    MaskFirst(u, " " + line);
    assert Mask(u) + (" " + line) == msg;
    assert line[0..4] == "JOIN";
    HeaderKeyword(u, line, "JOIN");
    assert msg == "" + Mask(u) + (" " + line);
    BangIs("", u, " " + line);
    assert msg[..|u.nick|] == u.nick;
    PartBorderFree();
    KeywordAfterMask("" + Mask(u) + " ", "JOIN", u.chan);
    assert msg == "" + Mask(u) + " " + "JOIN" + " " + u.chan;
    KeywordInHead("", u, "JOIN");
  }

  // ---- TOPIC ----

  /** A TOPIC broadcast is shown as one and its topic is recovered, whatever the topic text. */
  lemma RetitledIsTopic(u: User, chan: string, topic: string)
    requires WellNamed(u)
    ensures ParseSession(Line(Retitled(u, chan, topic)), chan) == Shown(Topic(u.nick, topic))
  {
    hide IsRun, IsQuad, Find, SkipHeader, HeaderThen, Contains, AfterKeyword, MatchesColon, TopicText;
    var line := "TOPIC " + chan + " :" + topic;
    var msg := Line(Retitled(u, chan, topic));
    assert msg == Mask(u) + (" " + line);
    assert Mask(u) + " " + line == msg;
    MaskFirst(u, " " + line);
    TopicLine(chan, topic);
    HeaderKeyword(u, line, "JOIN");
    HeaderKeyword(u, line, "TOPIC");
    assert msg == "" + Mask(u) + (" " + line);
    BangIs("", u, " " + line);
    assert msg[..|u.nick|] == u.nick;
    TopicRecovered(u, chan, topic);
  }

  lemma TopicLine(chan: string, topic: string)
    ensures var line := "TOPIC " + chan + " :" + topic;
            StartsWith(line, "TOPIC") && !StartsWith(line, "JOIN")
  {
    var line := "TOPIC " + chan + " :" + topic;
    assert line[0..5] == "TOPIC";
    OnlyOneKeyword(line, "TOPIC", "JOIN", 0);
  }

  lemma TopicRecovered(u: User, chan: string, topic: string)
    requires WellNamed(u)
    ensures TopicText(Line(Retitled(u, chan, topic)), chan) == Some(topic)
  {
    hide IsRun, IsQuad, Find;
    var delim := " TOPIC " + chan + " :";
    var msg := Line(Retitled(u, chan, topic));
    assert msg == Mask(u) + delim + topic;
    MaskAvoids(u);
    FirstBlank(Mask(u), delim, topic);
    assert msg[|Mask(u)| + |delim|..] == topic;
  }

  /** A delimiter that starts with a blank, after text without blanks, is found right there. */
  lemma FirstBlank(head: string, d: string, rest: string)
    requires ' ' !in head && d != "" && d[0] == ' '
    ensures Find(head + d + rest, d, 0) == Some(|head|)
  {
    hide Find;
    var s := head + d + rest;
    forall j | 0 <= j < |head|
      ensures !OccursAt(s, d, j)
    {
      assert s[j] == head[j] && head[j] in head;
      if j + |d| <= |s| {
        assert s[j..j + |d|][0] == s[j];
      }
    }
    assert s[|head|..|head| + |d|] == d;
    FindIs(s, d, 0, |head|);
  }

  /** The topic of RPL_TOPIC is recovered exactly when the server's address, the nick and the channel have no colon. */
  lemma TopicReplyRecovered(host: string, u: User, topic: string)
    ensures AfterFirstColon(Line(TopicIs(host, u, topic))) == topic
            <==> ':' !in host && ':' !in u.nick && ':' !in u.chan
  {
    hide Find, AfterFirstColon;
    var head := host + " " + RPL_TOPIC + " " + u.nick + " " + u.chan + " ";
    var msg := Line(TopicIs(host, u, topic));
    assert msg == head + (":" + topic);
    assert ':' in head <==> ':' in host || ':' in u.nick || ':' in u.chan;
    ColonSplits(head, topic);
  }

  lemma ColonSplits(head: string, text: string)
    ensures AfterFirstColon(head + (":" + text)) == text <==> ':' !in head
  {
    hide Find;
    var msg := head + (":" + text);
    if ':' in head {
      var i :| 0 <= i < |head| && head[i] == ':';
      assert head[i..i + 1] == ":";
      FindSome(head, ":");
      assert OccursAt(head, ":", i);
      FindInLonger(head, ":" + text, ":");
    } else {
      AlienText(head, ":");
      OneCharBorderFree(":");
      FirstDelimiter(head, ":", text);
      assert msg == head + ":" + text;
      assert msg[|head| + 1..] == text;
    }
  }

  // ---- What the client writes in a session, read by the servlet ----

  /** The servlet sets exactly the topic that the user typed, unless the text repeats the request's own beginning. */
  lemma TopicRequestRecovered(chan: string, text: string)
    ensures NewTopic(chan, "TOPIC " + chan + " :" + text) == text <==> !Contains(text, "TOPIC " + chan + " :")
  {
    hide Split, Contains;
    var d := "TOPIC " + chan + " :";
    var msg := d + text;
    assert msg[0..|d|] == d && msg[|d|..] == text;
    FindStep(msg, d, 0);
    SplitSome(msg, d, 0);
    LastPieceIsWhole(text, d);
  }

  /** The servlet logs exactly the text that the user typed, colons and all, exactly when the channel has no colon. */
  lemma SaidTextLogged(chan: string, text: string)
    ensures LoggedText("PRIVMSG " + chan + " :" + text) == text <==> ':' !in chan
  {
    hide Find;
    var head := "PRIVMSG " + chan + " ";
    var line := "PRIVMSG " + chan + " :" + text;
    assert line == head + (":" + text);
    assert ':' in head <==> ':' in chan;
    ColonSplits(head, text);
    assert line[|head|..|head| + 1] == ":";
    assert OccursAt(line, ":", |head|);
    FindSome(line, ":");
  }
}
