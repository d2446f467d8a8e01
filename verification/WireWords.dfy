/** The words of the server's own replies: numbers, order and texts (src/shared/ircConstants.h,
    src/server/Server.cpp:86-110, src/server/Servlet.cpp:134-161). */
module WireWords {
  import opened Strings
  import opened Sockio
  import opened Irc
  import opened Registration

  predicate NoBlanks(s: string) {
    ' ' !in s
  }

  /** Blank-free words, one after the other. */
  lemma {:induction false} WordsApart(words: seq<string>, rest: string)
    requires forall w | w in words :: NoBlanks(w)
    ensures Split(Spaced(words) + rest, " ") == words + Split(rest, " ")
  {
    hide Split;
    if words == [] {
      assert Spaced(words) + rest == rest;
      assert words + Split(rest, " ") == Split(rest, " ");
    } else {
      var w, more := words[0], words[1..];
      assert Spaced(words) + rest == w + " " + (Spaced(more) + rest);
      OneCharBorderFree(" ");
      SplitAtDelimiter(w, " ", Spaced(more) + rest);
      assert NoBlanks(w);
      NoSpace(w);
      assert forall x | x in more :: x in words;
      WordsApart(more, rest);
    }
  }

  function Spaced(words: seq<string>): string {
    if words == [] then "" else words[0] + " " + Spaced(words[1..])
  }

  lemma OneSpaced(w: string, ws: seq<string>)
    ensures Spaced([w] + ws) == w + " " + Spaced(ws)
  {
    assert ([w] + ws)[1..] == ws;
  }

  lemma Spaced4(a: string, b: string, c: string, d: string, rest: string)
    ensures Spaced([a, b, c, d]) + rest == a + " " + b + " " + c + " " + d + " " + rest
  {
    assert [a, b, c, d][1..] == [b, c, d] && [b, c, d][1..] == [c, d] && [c, d][1..] == [d] && [d][1..] == [];
    assert Spaced([d]) == d + " ";
    assert Spaced([c, d]) == c + " " + (d + " ");
    assert Spaced([b, c, d]) == b + " " + (c + " " + (d + " "));
  }

  lemma FourWords(a: string, b: string, c: string, d: string, rest: string)
    requires NoBlanks(a) && NoBlanks(b) && NoBlanks(c) && NoBlanks(d)
    ensures Split(a + " " + b + " " + c + " " + d + " " + rest, " ") == [a, b, c, d] + Split(rest, " ")
  {
    hide Split, Spaced;
    Spaced4(a, b, c, d, rest);
    WordsApart([a, b, c, d], rest);
  }

  // ---- The three numeric replies of a greeting ----

  /** RPL_TOPIC: the server, 332, the nick, the channel, then the topic after a colon. */
  lemma TopicReplyWords(host: string, u: User, topic: string)
    requires NoBlanks(host) && NoBlanks(u.nick) && NoBlanks(u.chan)
    ensures Split(Line(TopicIs(host, u, topic)), " ") == [host, "332", u.nick, u.chan] + Split(":" + topic, " ")
  {
    hide Split;
    FourWords(host, "332", u.nick, u.chan, ":" + topic);
    assert Line(TopicIs(host, u, topic)) == host + " " + "332" + " " + u.nick + " " + u.chan + " " + (":" + topic);
  }

  /** RPL_NAMREPLY: the server, 252, the nick, the channel, then the names after a colon. */
  lemma NamesReplyWords(host: string, u: User, nicks: seq<string>)
    requires NoBlanks(host) && NoBlanks(u.nick) && NoBlanks(u.chan)
    ensures Split(Line(Names(host, u, nicks)), " ") == [host, "252", u.nick, u.chan] + Split(":" + NamesText(nicks), " ")
  {
    hide Split, NamesText;
    FourWords(host, "252", u.nick, u.chan, ":" + NamesText(nicks));
    assert Line(Names(host, u, nicks)) == host + " " + "252" + " " + u.nick + " " + u.chan + " " + (":" + NamesText(nicks));
  }

  /** Every name of the list is a nick with a sign, in the members' order. */
  lemma {:induction false} NamesAreSigned(nicks: seq<string>)
    requires forall n | n in nicks :: NoBlanks(n)
    ensures var words := Split(NamesText(nicks), " ");
            && |words| == |nicks| + 1 && words[|nicks|] == ""
            && forall i | 0 <= i < |nicks| :: words[i] == "@" + nicks[i]
  {
    hide Split;
    NoSpace("");
    if nicks != [] {
      var n := |nicks| - 1;
      var before, last := NamesText(nicks[..n]), "@" + nicks[n];
      assert nicks[n] in nicks;
      NamesAreSigned(nicks[..n]);
      assert NamesText(nicks) == before + last + " " + "";
      OneCharBorderFree(" ");
      SplitAtDelimiter(before + last, " ", "");
      OneMoreName(nicks[..n], last);
    }
  }

  /** A word after the last blank of the list ends up as its last piece. */
  lemma OneMoreName(nicks: seq<string>, last: string)
    requires NoBlanks(last)
    ensures var before := NamesText(nicks);
            var words := Split(before, " ");
            Split(before + last, " ") == if nicks == [] then [last] else words[..|words| - 1] + [last]
  {
    hide Split;
    NoSpace(last);
    NoSpace("");
    OneCharBorderFree(" ");
    if nicks == [] {
      assert NamesText(nicks) + last == last;
    } else {
      var n := |nicks| - 1;
      var head := NamesText(nicks[..n]) + "@" + nicks[n];
      assert NamesText(nicks) == head + " " + "";
      SplitAtDelimiter(head, " ", "");
      assert NamesText(nicks) + last == head + " " + last;
      SplitAtDelimiter(head, " ", last);
    }
  }

  /** RPL_ENDOFNAMES: the server, 366, the nick, the channel, and its text. */
  lemma EndOfNamesWords(host: string, u: User)
    requires NoBlanks(host) && NoBlanks(u.nick) && NoBlanks(u.chan)
    ensures Split(Line(EndOfNames(host, u)), " ") == [host, "366", u.nick, u.chan, ":End", "of", "NAMES", "list"]
  {
    hide Split;
    var text := ":End of NAMES list";
    FourWords(host, "366", u.nick, u.chan, text);
    assert Line(EndOfNames(host, u)) == host + " " + "366" + " " + u.nick + " " + u.chan + " " + text;
    var words := [":End", "of", "NAMES"];
    assert Spaced(words) + "list" == text by { EndText(); }
    WordsApart(words, "list");
    NoSpace("list");
  }

  lemma EndText()
    ensures Spaced([":End", "of", "NAMES"]) + "list" == ":End of NAMES list"
  {
    hide Spaced;
    ThreeSpaced(":End", "of", "NAMES");
    assert ":End" + " " + "of" + " " + "NAMES" + " " == ":End of NAMES ";
    assert ":End of NAMES " + "list" == ":End of NAMES list";
  }

  lemma ThreeSpaced(a: string, b: string, c: string)
    ensures Spaced([a, b, c]) == a + " " + b + " " + c + " "
  {
    assert [a, b, c][1..] == [b, c] && [b, c][1..] == [c] && [c][1..] == [];
    assert Spaced([c]) == c + " ";
    assert Spaced([b, c]) == b + " " + (c + " ");
  }

  // ---- The verdict ----

  /** Welcoming is 001 and refusing is 464, each with its own text; then comes who is meant. */
  lemma VerdictWordsAre(host: string, nick: string, whoami: string, addr: string, ok: bool)
    requires NoBlanks(host) && NoBlanks(nick) && NoBlanks(whoami) && NoBlanks(addr)
    ensures var who := nick + "!" + whoami + "@" + addr;
            Split(VerdictLine(host, nick, whoami, addr, ok), " ")
            == if ok then [host, "001", nick, ":Welcome", "to", "the", "Internet", "Relay", "Network", who]
               else [host, "464", nick, ":Password", "incorrect", who]
  {
    hide Split, VerdictLine, Spaced;
    var who := nick + "!" + whoami + "@" + addr;
    NoSpace(nick);
    NoSpace(who);
    VerdictLineShape(host, nick, whoami, addr, ok);
    VerdictWords(host, if ok then RPL_WELCOME else ERR_PASSWDMISMATCH, nick, VerdictWord(ok), VerdictRest(nick, whoami, addr, ok));
    VerdictTail(nick, whoami, addr, ok);
    WordsApart(if ok then ["to", "the", "Internet", "Relay", "Network"] else ["incorrect"], who);
  }

  lemma VerdictTail(nick: string, whoami: string, addr: string, ok: bool)
    ensures VerdictRest(nick, whoami, addr, ok)
         == Spaced(if ok then ["to", "the", "Internet", "Relay", "Network"] else ["incorrect"]) + (nick + "!" + whoami + "@" + addr)
  {
    hide Spaced;
    var who := nick + "!" + whoami + "@" + addr;
    assert " " + nick + "!" + whoami + "@" + addr == " " + who;
    if ok {
      WelcomeSpaced();
      var text := "to the Internet Relay Network";
      assert text + (" " + who) == (text + " ") + who;
    } else {
      OneSpaced("incorrect", []);
      NoneSpaced();
      assert ["incorrect"] + [] == ["incorrect"];
      assert "incorrect" + " " + "" == "incorrect ";
      assert "incorrect" + (" " + who) == "incorrect " + who;
    }
  }

  lemma NoneSpaced()
    ensures Spaced([]) == ""
  {
  }

  lemma WelcomeSpaced()
    ensures Spaced(["to", "the", "Internet", "Relay", "Network"]) == "to the Internet Relay Network" + " "
  {
    hide Spaced;
    ThreeSpaced("Internet", "Relay", "Network");
    var three := ["Internet", "Relay", "Network"];
    OneSpaced("the", three);
    assert ["the"] + three == ["the", "Internet", "Relay", "Network"];
    OneSpaced("to", ["the"] + three);
    assert ["to"] + (["the"] + three) == ["to", "the", "Internet", "Relay", "Network"];
    WelcomeText();
  }

  lemma WelcomeText()
    ensures "to" + " " + ("the" + " " + ("Internet" + " " + "Relay" + " " + "Network" + " ")) == "to the Internet Relay Network" + " "
  {
    NetworkText();
    ToTheText();
    WholeText();
    Glued("to" + " ", "the" + " ", "Internet" + " " + "Relay" + " " + "Network", " ");
  }

  lemma NetworkText()
    ensures "Internet" + " " + "Relay" + " " + "Network" == "Internet Relay Network"
  {
    assert "Internet" + " " + "Relay" == "Internet Relay";
  }

  lemma ToTheText()
    ensures "to" + " " + ("the" + " ") == "to the "
  {
  }

  lemma WholeText()
    ensures "to the " + "Internet Relay Network" == "to the Internet Relay Network"
  {
  }

  lemma Glued(a: string, b: string, c: string, d: string)
    ensures a + (b + (c + d)) == a + b + c + d
  {
  }

  // ---- Who is meant ----

  /** nick, whoami and address can be told apart, in this order. */
  lemma MaskParts(u: User)
    requires '!' !in u.nick && '!' !in u.whoami && '!' !in u.endpt.addr && '@' !in u.whoami && '@' !in u.endpt.addr
    ensures var parts := Split(Mask(u), "!");
            |parts| == 2 && parts[0] == u.nick && Split(parts[1], "@") == [u.whoami, u.endpt.addr]
  {
    hide Split;
    var rest := u.whoami + "@" + u.endpt.addr;
    assert Mask(u) == u.nick + "!" + rest;
    OneCharBorderFree("!");
    OneCharBorderFree("@");
    SplitAtDelimiter(u.nick, "!", rest);
    SplitAtDelimiter(u.whoami, "@", u.endpt.addr);
    WholePiece(u.nick, '!');
    WholePiece(rest, '!');
    WholePiece(u.whoami, '@');
    WholePiece(u.endpt.addr, '@');
  }

  lemma WholePiece(s: string, c: char)
    requires c !in s
    ensures Split(s, [c]) == [s]
  {
    AlienText(s, [c]);
    FindNone(s, [c], 0);
  }
}
