/** The client's parsers of what the server writes (src/client/Client.cpp:101-244). */
module ClientParsers {
  import opened Strings
  import opened Sockio

  // ---- parse_topic_msg ----

  /** The text after the first colon, or nothing. */
  function AfterFirstColon(msg: string): string {
    match Find(msg, ":", 0)
    case None => ""
    case Some(i) => msg[i + 1..]
  }

  /** The pieces joined with colons in between, which is how the loop rebuilds the text. */
  lemma RestAfterFirstPiece(msg: string)
    ensures var parts := Split(msg, ":");
            AfterFirstColon(msg) == if |parts| == 1 then "" else Join(parts[1..], ":")
  {
    hide Split, Find;
    match Find(msg, ":", 0)
    case None =>
      SplitNone(msg, ":");
    case Some(i) =>
      SplitSome(msg, ":", i);
      JoinOfSplit(msg[i + 1..], ":");
  }

  lemma {:induction false} JoinAppend(parts: seq<string>, i: nat)
    requires 0 < i < |parts|
    ensures Join(parts[..i + 1], ":") == Join(parts[..i], ":") + ":" + parts[i]
  {
    if i > 1 {
      assert parts[..i + 1][1..] == parts[1..][..i];
      assert parts[..i][1..] == parts[1..][..i - 1];
      JoinAppend(parts[1..], i - 1);
      assert parts[1..][i - 1] == parts[i];
    }
  }

  /** parse_topic_msg: split at colons, drop the first piece, put the colons back. */
  method ParseTopicMsg(msg: string) returns (newMsg: string)
    ensures newMsg == AfterFirstColon(msg)
  {
    hide Split, Find, AfterFirstColon, Join;
    newMsg := "";
    var parts := SplitLoop(msg, ":");
    RestAfterFirstPiece(msg);
    ghost var rest := parts[1..];
    for i := 0 to |parts|
      invariant i <= 1 ==> newMsg == ""
      invariant 1 < i < |parts| ==> newMsg == Join(rest[..i - 1], ":") + ":"
      invariant 1 < i == |parts| ==> newMsg == Join(rest, ":")
    {
      if i == 0 {
      } else {
        assert rest[..i][..i - 1] == rest[..i - 1] && rest[..i][i - 1] == parts[i];
        assert i == |parts| - 1 ==> rest[..i] == rest;
        if i == 1 {
          JoinOne(parts[1]);
          assert rest[..1] == [parts[1]];
        } else {
          JoinAppend(rest, i - 1);
        }
        if i == |parts| - 1 {
          newMsg := newMsg + parts[i];
        } else {
          newMsg := newMsg + (parts[i] + ":");
        }
      }
    }
  }

  lemma JoinOne(x: string)
    ensures Join([x], ":") == x
  {
  }

  // ---- The four regular expressions of parse_session_msg ----

  predicate WordChar(c: char) {
    'a' <= c <= 'z' || 'A' <= c <= 'Z' || '0' <= c <= '9' || c == '_'
  }

  predicate DigitChar(c: char) {
    '0' <= c <= '9'
  }

  predicate InClass(c: char, digits: bool) {
    if digits then DigitChar(c) else WordChar(c)
  }

  /** `\w+` or `\d+`. */
  predicate IsRun(s: string, digits: bool) {
    s != "" && forall c | c in s :: InClass(c, digits)
  }

  /** The longest run at the front of `s` is skipped; `None` when there is none. */
  function SkipRun(s: string, digits: bool): Option<string> {
    if s == "" || !InClass(s[0], digits) then None
    else
      match SkipRun(s[1..], digits)
      case None => Some(s[1..])
      case Some(rest) => Some(rest)
  }

  function SkipChar(s: string, c: char): Option<string> {
    if s != "" && s[0] == c then Some(s[1..]) else None
  }

  function SkipBoth(s: string, digits: bool, c: char): Option<string> {
    match SkipRun(s, digits)
    case None => None
    case Some(rest) => SkipChar(rest, c)
  }

  /** What follows `\w+!\w+@\d+\.\d+\.\d+\.\d+`. */
  function SkipHeader(s: string): Option<string> {
    var s1 :- SkipBoth(s, false, '!');
    var s2 :- SkipBoth(s1, false, '@');
    var s3 :- SkipBoth(s2, true, '.');
    var s4 :- SkipBoth(s3, true, '.');
    var s5 :- SkipBoth(s4, true, '.');
    SkipRun(s5, true)
  }

  /** The header of a message, then a blank and the keyword. */
  predicate HeaderThen(s: string, keyword: string) {
    match SkipHeader(s)
    case None => false
    case Some(rest) => StartsWith(rest, " " + keyword)
  }

  predicate MatchesColon(msg: string, keyword: string) {
    msg != "" && msg[0] == ':' && HeaderThen(msg[1..], keyword)
  }

  // ---- What the matcher means ----

  predicate StopsRun(rest: string, digits: bool) {
    rest == "" || !InClass(rest[0], digits)
  }

  lemma {:induction false} SkipsRun(run: string, rest: string, digits: bool)
    requires IsRun(run, digits) && StopsRun(rest, digits)
    ensures SkipRun(run + rest, digits) == Some(rest)
  {
    var s := run + rest;
    assert s[0] == run[0] && run[0] in run;
    assert s[1..] == run[1..] + rest;
    if |run| > 1 {
      assert forall c | c in run[1..] :: c in run;
      SkipsRun(run[1..], rest, digits);
    } else {
      assert run[1..] + rest == rest;
    }
  }

  lemma {:induction false} SkippedRun(s: string, digits: bool) returns (run: string)
    requires SkipRun(s, digits).Some?
    ensures IsRun(run, digits) && s == run + SkipRun(s, digits).value
  {
    if SkipRun(s[1..], digits).Some? {
      var more := SkippedRun(s[1..], digits);
      run := [s[0]] + more;
    } else {
      run := [s[0]];
    }
  }

  lemma SkipsBoth(run: string, c: char, rest: string, digits: bool)
    requires IsRun(run, digits) && !InClass(c, digits)
    ensures SkipBoth(run + [c] + rest, digits, c) == Some(rest)
  {
    assert run + [c] + rest == run + ([c] + rest);
    SkipsRun(run, [c] + rest, digits);
  }

  lemma SkippedBoth(s: string, digits: bool, c: char) returns (run: string)
    requires SkipBoth(s, digits, c).Some?
    ensures IsRun(run, digits) && s == run + [c] + SkipBoth(s, digits, c).value
  {
    run := SkippedRun(s, digits);
    var rest := SkipRun(s, digits).value;
    assert rest == [c] + rest[1..];
    assert run + rest == run + [c] + rest[1..];
  }

  /** Dotted form: `\d+\.\d+\.\d+\.\d+`. */
  ghost predicate IsQuad(addr: string) {
    exists a, b, c, d :: QuadOf(addr, a, b, c, d)
  }

  predicate QuadOf(addr: string, a: string, b: string, c: string, d: string) {
    IsRun(a, true) && IsRun(b, true) && IsRun(c, true) && IsRun(d, true) && addr == a + "." + b + "." + c + "." + d
  }

  /** The header matcher accepts a word, `!`, a word, `@` and a dotted address, and leaves what follows. */
  lemma SkipsHeader(nick: string, whoami: string, addr: string, rest: string)
    requires IsRun(nick, false) && IsRun(whoami, false) && IsQuad(addr) && StopsRun(rest, true)
    ensures SkipHeader(nick + "!" + whoami + "@" + addr + rest) == Some(rest)
  {
    hide IsRun, SkipBoth, SkipRun;
    var a, b, c, d :| QuadOf(addr, a, b, c, d);
    var s5 := d + rest;
    var s4 := c + "." + s5;
    var s3 := b + "." + s4;
    var s2 := a + "." + s3;
    var s1 := whoami + "@" + s2;
    assert addr + rest == s2;
    assert nick + "!" + whoami + "@" + addr + rest == nick + "!" + s1;
    SkipsBoth(nick, '!', s1, false);
    SkipsBoth(whoami, '@', s2, false);
    SkipsBoth(a, '.', s3, true);
    SkipsBoth(b, '.', s4, true);
    SkipsBoth(c, '.', s5, true);
    SkipsRun(d, rest, true);
  }

  lemma SkippedHeader(s: string) returns (nick: string, whoami: string, addr: string)
    requires SkipHeader(s).Some?
    ensures IsRun(nick, false) && IsRun(whoami, false) && IsQuad(addr)
    ensures s == nick + "!" + whoami + "@" + addr + SkipHeader(s).value
  {
    hide IsRun, SkipBoth, SkipRun;
    var s1 := SkipBoth(s, false, '!').value;
    var s2 := SkipBoth(s1, false, '@').value;
    var s3 := SkipBoth(s2, true, '.').value;
    var s4 := SkipBoth(s3, true, '.').value;
    var s5 := SkipBoth(s4, true, '.').value;
    var rest := SkipRun(s5, true).value;
    nick := SkippedBoth(s, false, '!');
    whoami := SkippedBoth(s1, false, '@');
    var a := SkippedBoth(s2, true, '.');
    var b := SkippedBoth(s3, true, '.');
    var c := SkippedBoth(s4, true, '.');
    var d := SkippedRun(s5, true);
    addr := a + "." + b + "." + c + "." + d;
    assert QuadOf(addr, a, b, c, d);
    assert s2 == addr + rest;
    assert s == nick + "!" + (whoami + "@" + (addr + rest));
  }

  ghost predicate InLanguage(s: string, keyword: string, nick: string, whoami: string, addr: string, tail: string) {
    && IsRun(nick, false) && IsRun(whoami, false) && IsQuad(addr)
    && s == nick + "!" + whoami + "@" + addr + (" " + keyword + tail)
  }

  /** The matcher decides exactly the language of `^\w+!\w+@\d+\.\d+\.\d+\.\d+ KEYWORD`. */
  lemma MatcherDecidesRegex(s: string, keyword: string)
    ensures HeaderThen(s, keyword) <==> exists nick, whoami, addr, tail :: InLanguage(s, keyword, nick, whoami, addr, tail)
  {
    hide IsRun, SkipHeader, IsQuad;
    var k := " " + keyword;
    if HeaderThen(s, keyword) {
      var rest := SkipHeader(s).value;
      var nick, whoami, addr := SkippedHeader(s);
      assert rest[0..|k|] == k;
      assert rest == " " + keyword + rest[|k|..];
      assert InLanguage(s, keyword, nick, whoami, addr, rest[|k|..]);
    }
    if exists nick, whoami, addr, tail :: InLanguage(s, keyword, nick, whoami, addr, tail) {
      var nick, whoami, addr, tail :| InLanguage(s, keyword, nick, whoami, addr, tail);
      SkipsHeader(nick, whoami, addr, k + tail);
      assert (k + tail)[0..|k|] == k;
    }
  }

  // ---- parse_session_msg ----

  datatype Event =
    | Talk(nick: string, text: string)
    | Leave(nick: string, chan: string)
    | Join_(nick: string, chan: string)
    | Topic(nick: string, topic: string)

  /** What parse_session_msg does: it displays an event, or throws. */
  datatype Parsed = Shown(event: Event) | Unparseable | OutOfRange

  /** msg.find(c): the messages it is used on contain `c`. */
  function IndexOfText(msg: string, d: string): nat {
    match Find(msg, d, 0)
    case None => 0
    case Some(i) => i
  }

  /** The text five characters after a keyword's first occurrence; substr throws past the end. */
  function AfterKeyword(msg: string, keyword: string): Option<string> {
    var i := IndexOfText(msg, keyword) + 5;
    if i <= |msg| then Some(msg[i..]) else None
  }

  /** Everything after the first colon from position 1 on; without one, npos + 1 is 0 and the whole text is taken. */
  function TalkText(msg: string): string
    requires msg != ""
  {
    match Find(msg, ":", 1)
    case None => msg
    case Some(i) => msg[i + 1..]
  }

  /** The text after " TOPIC <channel> :"; without it, npos + size wraps to size - 1. */
  function TopicText(msg: string, chan: string): Option<string> {
    var delim := " TOPIC " + chan + " :";
    var start := match Find(msg, delim, 0) case None => |delim| - 1 case Some(i) => i + |delim|;
    if start <= |msg| then Some(msg[start..]) else None
  }

  function Named(o: Option<string>, e: string -> Event): Parsed {
    match o
    case None => OutOfRange
    case Some(text) => Shown(e(text))
  }

  function ParseSession(msg: string, chan: string): Parsed {
    var bang := IndexOfText(msg, "!");
    if MatchesColon(msg, "PRIVMSG") then
      Shown(Talk(if bang >= 1 then msg[1..bang] else "", TalkText(msg)))
    else if MatchesColon(msg, "PART") then
      Named(AfterKeyword(msg, "PART"), text => Leave(if bang >= 1 then msg[1..bang] else "", text))
    else if HeaderThen(msg, "JOIN") then
      Named(AfterKeyword(msg, "JOIN"), text => Join_(msg[..bang], text))
    else if HeaderThen(msg, "TOPIC") then
      Named(TopicText(msg, chan), text => Topic(msg[..bang], text))
    else Unparseable
  }
}
