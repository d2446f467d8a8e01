/** What the lines that a user types ask the client to send (src/client/Client.cpp:123-138, 246-315, 360-379). */
module Typing {
  import opened Strings
  import opened Registration

  // ---- The channel ----

  /** The channel that the typed name stands for: a '#' is put in front unless there is one. */
  function ChannelOf(input: string): (channel: string)
    ensures channel != "" && channel[0] == '#'
    ensures if input != "" && input[0] == '#' then channel == input else channel[1..] == input
    ensures LineFree(input) ==> LineFree(channel)
  {
    if |input| >= 1 && input[0] == '#' then input else "#" + input
  }

  /** Naming a channel twice changes nothing, and "c" and "#c" are one channel. */
  lemma OneChannel(input: string)
    ensures ChannelOf(ChannelOf(input)) == ChannelOf(input)
    ensures input == "" || input[0] != '#' ==> ChannelOf("#" + input) == ChannelOf(input) == "#" + input
  {
    if input == "" || input[0] != '#' {
      assert ("#" + input)[1..] == input;
    }
  }

  // ---- One typed line ----

  /** The messages that one line asks for; `more` is what is typed after it. */
  function Asks(line: string, more: seq<string>, chan: string): seq<string> {
    if line == "" || line == "HELP" then []
    else if line == "EXIT" || line == "LEAVE" then ["PART " + chan]
    else if line == "TOPIC" then if |more| >= 2 && more[0] == "SET" then ["TOPIC " + chan + " :" + more[1]] else []
    else ["PRIVMSG " + chan + " :" + line]
  }

  /** How many of the lines after it are answers to its questions. */
  function Answers(line: string, more: seq<string>): (n: nat)
    ensures n <= |more|
  {
    if line != "TOPIC" || more == [] then 0 else if |more| >= 2 && more[0] == "SET" then 2 else 1
  }

  predicate Ends(line: string) {
    line == "EXIT" || line == "LEAVE"
  }

  // ---- A session, and all of them ----

  /** The messages of a session in `chan`, up to the PART of its EXIT or LEAVE. */
  function Talked(typed: seq<string>, chan: string): seq<string>
    decreases |typed|
  {
    if typed == [] then []
    else
      var more := typed[1..];
      Asks(typed[0], more, chan) + if Ends(typed[0]) then [] else Talked(more[Answers(typed[0], more)..], chan)
  }

  /** What is typed after the LEAVE that ends the session; `None` when EXIT ends it, or nothing does. */
  function AfterLeave(typed: seq<string>): Option<seq<string>>
    decreases |typed|
  {
    if typed == [] || typed[0] == "EXIT" then None
    else if typed[0] == "LEAVE" then Some(typed[1..])
    else AfterLeave(typed[1..][Answers(typed[0], typed[1..])..])
  }

  /** What is typed to the k-th connection, its channel first; `None` when there is no k-th connection. */
  function TypedTo(typed: seq<string>, k: nat): Option<seq<string>> {
    if k == 0 then Some(typed)
    else
      match TypedTo(typed, k - 1)
      case None => None
      case Some(before) => if before == [] then None else AfterLeave(before[1..])
  }

  /** Everything that one connection carries. */
  function Carried(h: Handshake, typed: seq<string>): seq<string> {
    [NickLine(h), UserLine(h), PassLine(h)] +
    if typed == [] then [] else ["JOIN " + ChannelOf(typed[0])] + Talked(typed[1..], ChannelOf(typed[0]))
  }

  /** Everything that the k-th connection carries. */
  function Script(h: Handshake, typed: seq<string>, k: nat): seq<string> {
    match TypedTo(typed, k)
    case None => []
    case Some(lines) => Carried(h, lines)
  }

  // ---- What these functions mean ----

  /** Lines that do not end the session, with all answers given. */
  predicate Calm(typed: seq<string>)
    decreases |typed|
  {
    typed == [] ||
    (!Ends(typed[0])
     && (typed[0] == "TOPIC" ==> |typed| >= 2 && (typed[1] == "SET" ==> |typed| >= 3))
     && Calm(typed[1..][Answers(typed[0], typed[1..])..]))
  }

  lemma CalmAnswers(typed: seq<string>, more: seq<string>, rest: seq<string>)
    requires typed != [] && Calm(typed) && more == typed[1..]
    ensures Answers(typed[0], more + rest) == Answers(typed[0], more)
  {
  }

  lemma CalmAsks(typed: seq<string>, more: seq<string>, rest: seq<string>, chan: string)
    requires typed != [] && Calm(typed) && more == typed[1..]
    ensures Asks(typed[0], more + rest, chan) == Asks(typed[0], more, chan)
  {
  }

  lemma DropFromConcat<T>(a: seq<T>, b: seq<T>, n: nat)
    requires n <= |a|
    ensures (a + b)[n..] == a[n..] + b
  {
  }

  /** What a line that does not end the session adds, and where reading goes on. */
  lemma OneMore(line: string, more: seq<string>, chan: string)
    requires !Ends(line)
    ensures var typed, later := [line] + more, more[Answers(line, more)..];
            Talked(typed, chan) == Asks(line, more, chan) + Talked(later, chan) && AfterLeave(typed) == AfterLeave(later)
  {
    hide Asks, Answers;
    assert ([line] + more)[1..] == more;
  }

  lemma LastLine(line: string, more: seq<string>, chan: string)
    requires Ends(line)
    ensures Talked([line] + more, chan) == Asks(line, more, chan) && Answers(line, more) == 0
    ensures AfterLeave([line] + more) == if line == "EXIT" then None else Some(more)
  {
    assert ([line] + more)[1..] == more;
  }

  lemma CalmFirst(typed: seq<string>)
    requires typed != [] && Calm(typed)
    ensures typed == [typed[0]] + typed[1..]
    ensures !Ends(typed[0]) && Calm(typed[1..][Answers(typed[0], typed[1..])..])
  {
    hide Answers;
  }

  lemma NothingTyped(chan: string)
    ensures Talked([], chan) == [] && AfterLeave([]) == None && Calm([])
  {
  }

  /** Calm lines ask for the same whatever follows, and what follows is read on its own. */
  lemma {:induction false} CalmThen(typed: seq<string>, rest: seq<string>, chan: string)
    requires Calm(typed)
    ensures Talked(typed + rest, chan) == Talked(typed, chan) + Talked(rest, chan)
    ensures AfterLeave(typed + rest) == AfterLeave(rest)
    decreases |typed|
  {
    hide Asks, Answers, Talked, AfterLeave, Calm, Ends;
    if typed == [] {
      NothingTyped(chan);
      assert typed + rest == rest && [] + Talked(rest, chan) == Talked(rest, chan);
    } else {
      var line, more := typed[0], typed[1..];
      var n := Answers(line, more);
      CalmFirst(typed);
      assert typed + rest == [line] + (more + rest);
      CalmAnswers(typed, more, rest);
      CalmAsks(typed, more, rest, chan);
      OneMore(line, more, chan);
      OneMore(line, more + rest, chan);
      DropFromConcat(more, rest, n);
      CalmThen(more[n..], rest, chan);
    }
  }

  /** After calm lines, EXIT sends PART and ends everything, whatever is typed after it. */
  lemma ExitEnds(typed: seq<string>, rest: seq<string>, chan: string)
    requires Calm(typed)
    ensures Talked(typed + (["EXIT"] + rest), chan) == Talked(typed, chan) + ["PART " + chan]
    ensures AfterLeave(typed + (["EXIT"] + rest)) == None
  {
    CalmThen(typed, ["EXIT"] + rest, chan);
    assert ["PART " + chan] + [] == ["PART " + chan];
  }

  /** After calm lines, LEAVE sends PART and hands the rest to the next connection. */
  lemma LeaveSwitches(typed: seq<string>, rest: seq<string>, chan: string)
    requires Calm(typed)
    ensures Talked(typed + (["LEAVE"] + rest), chan) == Talked(typed, chan) + ["PART " + chan]
    ensures AfterLeave(typed + (["LEAVE"] + rest)) == Some(rest)
  {
    CalmThen(typed, ["LEAVE"] + rest, chan);
    assert ["PART " + chan] + [] == ["PART " + chan];
    assert (["LEAVE"] + rest)[1..] == rest;
  }

  /** A session hands lines on exactly when calm lines, LEAVE and these lines are what is typed. */
  lemma LeftExactly(typed: seq<string>, rest: seq<string>)
    ensures AfterLeave(typed) == Some(rest) <==> exists calm :: Calm(calm) && typed == calm + (["LEAVE"] + rest)
  {
    hide Calm, AfterLeave;
    if AfterLeave(typed) == Some(rest) {
      var calm := BeforeLeave(typed, rest);
    }
    forall calm | Calm(calm) && typed == calm + (["LEAVE"] + rest)
      ensures AfterLeave(typed) == Some(rest)
    {
      LeaveSwitches(calm, rest, "");
    }
  }

  lemma {:induction false} BeforeLeave(typed: seq<string>, rest: seq<string>) returns (calm: seq<string>)
    requires AfterLeave(typed) == Some(rest)
    ensures Calm(calm) && typed == calm + (["LEAVE"] + rest)
    decreases |typed|
  {
    if typed[0] == "LEAVE" {
      calm := [];
    } else {
      var more := typed[1..];
      var n := Answers(typed[0], more);
      var later := BeforeLeave(more[n..], rest);
      calm := [typed[0]] + more[..n] + later;
      AnswersGiven(typed[0], more, n, later);
      CalmMore(typed[0], more[..n], later);
    }
  }

  lemma AnswersGiven(line: string, more: seq<string>, n: nat, later: seq<string>)
    requires line != "EXIT" && line != "LEAVE" && n == Answers(line, more) && more[n..] != []
    ensures Answers(line, more[..n] + later) == n && (line == "TOPIC" ==> n >= 1 && (more[..n][0] == "SET" ==> n == 2))
  {
  }

  lemma CalmMore(line: string, given: seq<string>, later: seq<string>)
    requires !Ends(line) && Calm(later) && Answers(line, given + later) == |given|
    requires line == "TOPIC" ==> |given| >= 1 && (given[0] == "SET" ==> |given| == 2)
    ensures Calm([line] + given + later)
  {
    hide Answers;
    var typed := [line] + given + later;
    assert typed[1..] == given + later && (given + later)[|given|..] == later;
  }

  /** After calm lines, any other text is said, and a new topic is set as it was typed. */
  lemma TextIsSaid(typed: seq<string>, line: string, chan: string)
    requires Calm(typed)
    ensures line !in ["", "HELP", "EXIT", "LEAVE", "TOPIC"] ==>
              Talked(typed + [line], chan) == Talked(typed, chan) + ["PRIVMSG " + chan + " :" + line]
    ensures Talked(typed + ["TOPIC", "SET", line], chan) == Talked(typed, chan) + ["TOPIC " + chan + " :" + line]
    ensures Talked(typed + ["TOPIC", "SHOW"], chan) == Talked(typed + ["HELP"], chan) == Talked(typed + [""], chan)
         == Talked(typed, chan)
  {
    hide Ends;
    CalmThen(typed, [line], chan);
    CalmThen(typed, ["TOPIC", "SET", line], chan);
    CalmThen(typed, ["TOPIC", "SHOW"], chan);
    CalmThen(typed, ["HELP"], chan);
    CalmThen(typed, [""], chan);
    OneLine(line, chan);
  }

  lemma OneLine(line: string, chan: string)
    ensures line !in ["", "HELP", "EXIT", "LEAVE", "TOPIC"] ==> Talked([line], chan) == ["PRIVMSG " + chan + " :" + line]
    ensures Talked(["TOPIC", "SET", line], chan) == ["TOPIC " + chan + " :" + line]
    ensures Talked(["TOPIC", "SHOW"], chan) == Talked(["HELP"], chan) == Talked([""], chan) == []
  {
    var setting := ["TOPIC", "SET", line];
    assert setting[1..] == ["SET", line] && setting[1..][2..] == [];
    var show := ["TOPIC", "SHOW"];
    assert show[1..] == ["SHOW"] && show[1..][1..] == [];
    assert [line][1..] == [] && ["HELP"][1..] == [] && [""][1..] == [];
  }

  lemma {:induction false} NoMoreTyped(typed: seq<string>, k: nat, j: nat)
    requires k <= j && TypedTo(typed, k) == None
    ensures TypedTo(typed, j) == None
  {
    if k < j {
      NoMoreTyped(typed, k, j - 1);
    }
  }

  /** A connection that hands lines on has said its PART. */
  lemma {:induction false} LastIsPart(typed: seq<string>, chan: string)
    requires AfterLeave(typed).Some?
    ensures var msgs := Talked(typed, chan); msgs != [] && msgs[|msgs| - 1] == "PART " + chan
    decreases |typed|
  {
    hide Asks, Answers;
    if typed[0] == "LEAVE" {
      LeaveAsks(typed[1..], chan);
    } else {
      LastIsPart(typed[1..][Answers(typed[0], typed[1..])..], chan);
    }
  }

  lemma LeaveAsks(more: seq<string>, chan: string)
    ensures Asks("LEAVE", more, chan) == ["PART " + chan]
  {
  }

  /** A further connection is made only after one that ends with the PART of its channel. */
  lemma ConnectsAfterPart(h: Handshake, typed: seq<string>, k: nat)
    requires Script(h, typed, k + 1) != []
    ensures match TypedTo(typed, k)
            case None => false
            case Some(lines) =>
              && lines != [] && TypedTo(typed, k + 1) == AfterLeave(lines[1..])
              && var msgs := Script(h, typed, k); msgs != [] && msgs[|msgs| - 1] == "PART " + ChannelOf(lines[0])
  {
    hide Talked, AfterLeave, NickLine, UserLine, PassLine, ChannelOf;
    var lines := TypedTo(typed, k).value;
    LastIsPart(lines[1..], ChannelOf(lines[0]));
  }

  /** Two channels in one sitting: "c" and "#d"; nothing goes out for what is typed after EXIT. */
  lemma TwoChannels(h: Handshake)
    ensures var typed := ["c", "hi", "TOPIC", "SET", "news", "LEAVE", "#d", "EXIT", "late"];
            && Script(h, typed, 0) == [NickLine(h), UserLine(h), PassLine(h), "JOIN #c", "PRIVMSG #c :hi", "TOPIC #c :news", "PART #c"]
            && Script(h, typed, 1) == [NickLine(h), UserLine(h), PassLine(h), "JOIN #d", "PART #d"]
            && Script(h, typed, 2) == []
  {
    hide NickLine, UserLine, PassLine, Talked, AfterLeave, Calm;
    var typed := ["c", "hi", "TOPIC", "SET", "news", "LEAVE", "#d", "EXIT", "late"];
    var calm, rest := ["hi"] + ["TOPIC", "SET", "news"], ["#d", "EXIT", "late"];
    assert Calm([]) && Calm(["hi"]) && Calm(calm) by { CalmExample(); }
    TextIsSaid([], "hi", "#c");
    TextIsSaid(["hi"], "news", "#c");
    assert Talked([], "#c") == [] by { NothingTyped("#c"); }
    assert [] + ["hi"] == ["hi"];
    assert typed[1..] == calm + (["LEAVE"] + rest);
    LeaveSwitches(calm, rest, "#c");
    assert "#" + "c" == "#c";
    assert TypedTo(typed, 0) == Some(typed);
    assert TypedTo(typed, 1) == Some(rest);
    assert rest[1..] == [] + (["EXIT"] + ["late"]);
    ExitEnds([], ["late"], "#d");
    assert Talked([], "#d") == [] by { NothingTyped("#d"); }
    assert TypedTo(typed, 2) == None;
    SaidOnC();
  }

  lemma SaidOnC()
    ensures "JOIN " + "#c" == "JOIN #c" && "JOIN " + "#d" == "JOIN #d" && "PART " + "#c" == "PART #c" && "PART " + "#d" == "PART #d"
    ensures "PRIVMSG " + "#c" + " :" + "hi" == "PRIVMSG #c :hi" && "TOPIC " + "#c" + " :" + "news" == "TOPIC #c :news"
  {
  }

  lemma CalmExample()
    ensures Calm([]) && Calm(["hi"]) && Calm(["hi"] + ["TOPIC", "SET", "news"])
  {
    var calm := ["hi"] + ["TOPIC", "SET", "news"];
    assert ["hi"][1..] == [];
    assert calm[1..] == ["TOPIC", "SET", "news"];
    var setting := ["TOPIC", "SET", "news"];
    assert setting[1..] == ["SET", "news"] && setting[1..][2..] == [];
    assert Calm(setting);
    assert calm[1..][0..] == setting;
  }
}
