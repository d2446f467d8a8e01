/** src/shared/sockio: splitting text at a delimiter and the CRLF framing built on it. */
module Sockio {
  import opened Strings

  /** A TCP endpoint: IP address in dotted form, and port. */
  datatype Endpoint = Endpoint(addr: string, port: nat)

  const CRLF: string := "\r\n"

  /** The pieces of `s` between the delimiters found from left to right. */
  function Split(s: string, d: string): (pieces: seq<string>)
    requires d != ""
    ensures |pieces| >= 1
    decreases |s|
  {
    match Find(s, d, 0)
    case None => [s]
    case Some(i) => [s[..i]] + Split(s[i + |d|..], d)
  }

  function Join(pieces: seq<string>, d: string): string
    requires |pieces| >= 1
  {
    if |pieces| == 1 then pieces[0] else pieces[0] + d + Join(pieces[1..], d)
  }

  lemma SplitNone(s: string, d: string)
    requires d != "" && Find(s, d, 0).None?
    ensures Split(s, d) == [s]
  {
  }

  lemma SplitSome(s: string, d: string, i: nat)
    requires d != "" && Find(s, d, 0) == Some(i)
    ensures i + |d| <= |s| && Split(s, d) == [s[..i]] + Split(s[i + |d|..], d)
  {
    hide Find;
  }

  /** One step of splitting a suffix, in terms of positions in the whole text. */
  lemma SplitSuffixSome(s: string, d: string, k: nat, i: nat)
    requires d != "" && k <= |s| && Find(s, d, k) == Some(i)
    ensures k <= i <= |s| - |d|
    ensures Split(s[k..], d) == [s[k..i]] + Split(s[i + |d|..], d)
  {
    hide Split, Find;
    FindInSuffix(s, d, k, 0);
    SplitSome(s[k..], d, i - k);
    SliceOfSuffix(s, k, i, |d|);
  }

  lemma SplitSuffixNone(s: string, d: string, k: nat)
    requires d != "" && k <= |s| && Find(s, d, k).None?
    ensures Split(s[k..], d) == [s[k..]]
  {
    hide Split, Find;
    FindInSuffix(s, d, k, 0);
    SplitNone(s[k..], d);
  }

  /** sockio::split. An empty delimiter would make the source loop forever. */
  method SplitLoop(fullMsg: string, delim: string) returns (msgs: seq<string>)
    requires delim != ""
    ensures msgs == Split(fullMsg, delim)
  {
    hide *;
    msgs := [];
    var offset := 0;
    var more := true;
    while more
      invariant 0 <= offset <= |fullMsg|
      invariant more ==> msgs + Split(fullMsg[offset..], delim) == Split(fullMsg, delim)
      invariant !more ==> msgs == Split(fullMsg, delim)
      decreases more, |fullMsg| - offset
    {
      var endpos := Find(fullMsg, delim, offset);
      if endpos.Some? {
        SplitSuffixSome(fullMsg, delim, offset, endpos.value);
        var len := endpos.value - offset;
        var temp := fullMsg[offset..offset + len];
        msgs := msgs + [temp];
        offset := endpos.value + |delim|;
      } else {
        SplitSuffixNone(fullMsg, delim, offset);
        msgs := msgs + [fullMsg[offset..]];
        more := false;
      }
    }
  }

  lemma JoinCons(x: string, ys: seq<string>, d: string)
    requires |ys| >= 1
    ensures Join([x] + ys, d) == x + d + Join(ys, d)
  {
    assert ([x] + ys)[1..] == ys;
  }

  /** Nothing is lost: joining the pieces with the delimiter gives the input back. */
  lemma {:induction false} JoinOfSplit(s: string, d: string)
    requires d != ""
    ensures Join(Split(s, d), d) == s
    decreases |s|
  {
    hide Split, Find;
    match Find(s, d, 0)
    case None =>
      SplitNone(s, d);
    case Some(i) =>
      SplitSome(s, d, i);
      var rest := s[i + |d|..];
      JoinOfSplit(rest, d);
      JoinCons(s[..i], Split(rest, d), d);
      assert s == s[..i] + s[i..i + |d|] + rest;
  }

  lemma {:induction false} PiecesAreDelimiterFree(s: string, d: string)
    requires d != ""
    ensures forall p | p in Split(s, d) :: !Contains(p, d)
    decreases |s|
  {
    hide Split, Find;
    FindSome(s, d);
    match Find(s, d, 0)
    case None =>
      SplitNone(s, d);
    case Some(i) =>
      SplitSome(s, d, i);
      PiecesAreDelimiterFree(s[i + |d|..], d);
      TextBeforeFirst(s, d, i);
  }

  ghost predicate SplitsBack(d: string)
    requires d != ""
  {
    forall ps: seq<string> | |ps| >= 1 && (forall p | p in ps :: !Contains(p, d)) :: Split(Join(ps, d), d) == ps
  }

  lemma {:induction false} SplitOfJoin(ps: seq<string>, d: string)
    requires BorderFree(d) && |ps| >= 1
    requires forall p | p in ps :: !Contains(p, d)
    ensures Split(Join(ps, d), d) == ps
    decreases |ps|
  {
    var s := Join(ps, d);
    if |ps| == 1 {
      FindNone(s, d, 0);
    } else {
      var rest := Join(ps[1..], d);
      FirstDelimiter(ps[0], d, rest);
      assert s[|ps[0]| + |d|..] == rest;
      assert s[..|ps[0]|] == ps[0];
      SplitOfJoin(ps[1..], d);
    }
  }

  /** Splitting undoes joining for exactly the delimiters without a border. */
  lemma SplitIsCanonical(d: string)
    requires d != ""
    ensures SplitsBack(d) <==> BorderFree(d)
  {
    if BorderFree(d) {
      forall ps: seq<string> | |ps| >= 1 && (forall p | p in ps :: !Contains(p, d))
        ensures Split(Join(ps, d), d) == ps
      {
        SplitOfJoin(ps, d);
      }
    } else {
      var k :| 0 < k < |d| && d[..k] == d[|d| - k..];
      var a := d[..|d| - k];
      var ps := [a, ""];
      assert !Contains("", d);
      assert !Contains(a, d);
      var s := Join(ps, d);
      assert ps[1..] == [""] && Join([""], d) == "";
      assert s == a + d;
      assert s[..|d|] == a + d[..k] == d;
      FindIs(s, d, 0, 0);
      assert Split(s, d)[0] == "";
      assert ps[0] != "";
      assert Split(Join(ps, d), d) != ps;
    }
  }

  /** A delimiter between two texts separates their pieces. */
  lemma {:induction false} SplitAtDelimiter(a: string, d: string, b: string)
    requires BorderFree(d)
    ensures Split(a + d + b, d) == Split(a, d) + Split(b, d)
    decreases |a|
  {
    hide Split, Find;
    var s := a + d + b;
    match Find(a, d, 0)
    case None =>
      FindSome(a, d);
      FirstDelimiter(a, d, b);
      assert s[..|a|] == a && s[|a| + |d|..] == b;
      SplitNone(a, d);
      SplitSome(s, d, |a|);
    case Some(i) =>
      var rest := a[i + |d|..];
      assert s == a + (d + b);
      FindInLonger(a, d + b, d);
      SliceOfConcat(a, d + b, i);
      SliceOfConcat(a, d + b, i + |d|);
      assert rest + (d + b) == rest + d + b;
      SplitAtDelimiter(rest, d, b);
      SplitSome(a, d, i);
      SplitSome(s, d, i);
      assert Split(s, d) == [a[..i]] + (Split(rest, d) + Split(b, d));
  }

  /** The last piece of a split is the whole text exactly when the text has no delimiter. */
  lemma {:induction false} LastPieceIsWhole(s: string, d: string)
    requires d != ""
    ensures var p := Split(s, d);
            && (!Contains(s, d) ==> p == [s])
            && (Contains(s, d) ==> |p[|p| - 1]| < |s| && |p[0]| < |s|)
    decreases |s|
  {
    hide Split, Find;
    FindSome(s, d);
    match Find(s, d, 0)
    case None =>
      SplitNone(s, d);
    case Some(i) =>
      SplitSome(s, d, i);
      LastPieceIsWhole(s[i + |d|..], d);
  }

  function NonEmpty(ms: seq<string>): seq<string> {
    if ms == [] then [] else (if ms[0] == "" then [] else [ms[0]]) + NonEmpty(ms[1..])
  }

  lemma {:induction false} NonEmptyConcat(a: seq<string>, b: seq<string>)
    ensures NonEmpty(a + b) == NonEmpty(a) + NonEmpty(b)
  {
    if a == [] {
      assert a + b == b;
    } else {
      assert (a + b)[1..] == a[1..] + b;
      NonEmptyConcat(a[1..], b);
    }
  }

  /** What one read contributes to the queue: its CRLF pieces without the empty ones. */
  function Messages(bytes: string): seq<string> {
    NonEmpty(Split(bytes, CRLF))
  }

  lemma CrlfBorderFree()
    ensures BorderFree(CRLF)
  {
    assert CRLF[..1] == "\r" && CRLF[1..] == "\n";
  }

  lemma MessagesAtCrlf(a: string, b: string)
    ensures Messages(a + CRLF + b) == Messages(a) + Messages(b)
  {
    CrlfBorderFree();
    SplitAtDelimiter(a, CRLF, b);
    NonEmptyConcat(Split(a, CRLF), Split(b, CRLF));
  }

  lemma NoMessages()
    ensures Messages("") == []
  {
    FindNone("", CRLF, 0);
    assert NonEmpty([""]) == NonEmpty([]);
    assert Split("", CRLF) == [""];
  }

  predicate EndsWithCrlf(s: string) {
    |s| >= 2 && s[|s| - 2..] == CRLF
  }

  /** What consecutive reads append to the queue. */
  function ReadAll(chunks: seq<string>): seq<string> {
    if chunks == [] then [] else Messages(chunks[0]) + ReadAll(chunks[1..])
  }

  function Concat(chunks: seq<string>): string {
    if chunks == [] then "" else chunks[0] + Concat(chunks[1..])
  }

  lemma MessagesAfterCrlf(c: string, rest: string)
    requires EndsWithCrlf(c)
    ensures Messages(c + rest) == Messages(c) + Messages(rest)
  {
    var a := c[..|c| - 2];
    assert c == a + CRLF + "";
    assert c + rest == a + CRLF + rest;
    MessagesAtCrlf(a, "");
    MessagesAtCrlf(a, rest);
    NoMessages();
  }

  /** Read boundaries that fall on message ends do not show in the queue. */
  lemma {:induction false} ReadBoundariesInvisible(chunks: seq<string>)
    requires forall c | c in chunks :: EndsWithCrlf(c)
    ensures ReadAll(chunks) == Messages(Concat(chunks))
  {
    if chunks == [] {
      NoMessages();
    } else {
      MessagesAfterCrlf(chunks[0], Concat(chunks[1..]));
      ReadBoundariesInvisible(chunks[1..]);
    }
  }

  function Frame(ms: seq<string>): string {
    if ms == [] then "" else ms[0] + CRLF + Frame(ms[1..])
  }

  predicate Sendable(m: string) {
    m != "" && !Contains(m, CRLF)
  }

  lemma MessagesOfOne(m: string)
    requires Sendable(m)
    ensures Messages(m) == [m]
  {
    FindNone(m, CRLF, 0);
    assert NonEmpty([m]) == [m];
  }

  lemma {:induction false} MessagesOfFrame(ms: seq<string>)
    requires forall m | m in ms :: Sendable(m)
    ensures Messages(Frame(ms)) == ms
  {
    if ms == [] {
      NoMessages();
    } else {
      MessagesAtCrlf(ms[0], Frame(ms[1..]));
      MessagesOfOne(ms[0]);
      MessagesOfFrame(ms[1..]);
    }
  }

  /** Whatever the senders wrote, reads that end at message ends rebuild exactly the list of messages. */
  lemma FramingRoundTrip(ms: seq<string>, chunks: seq<string>)
    requires forall m | m in ms :: Sendable(m)
    requires Concat(chunks) == Frame(ms)
    requires forall c | c in chunks :: EndsWithCrlf(c)
    ensures ReadAll(chunks) == ms
  {
    ReadBoundariesInvisible(chunks);
    MessagesOfFrame(ms);
  }

  // ---- Reading from a socket and writing to it ----

  /** A connected socket: its remote endpoint, what the coming reads will return, one string a read, and what has been
      written to it, one string a write. */
  class Socket {
    const remote: Endpoint
    var arrivals: seq<string>
    var written: seq<string>

    constructor (remote: Endpoint, arrivals: seq<string>)
      ensures this.remote == remote && this.arrivals == arrivals && this.written == []
    {
      this.remote := remote;
      this.arrivals := arrivals;
      this.written := [];
    }
  }

  /** sockio::try_writing_to_sock: a message without the CRLF suffix is refused with an exception. */
  method TryWritingToSock(sock: Socket, msg: string) returns (ok: bool)
    modifies sock`written
    ensures ok <==> EndsWithCrlf(msg)
    ensures sock.written == old(sock.written) + if ok then [msg] else []
  {
    ok := |msg| >= 2 && msg[|msg| - 2..] == CRLF;
    if ok {
      sock.written := sock.written + [msg];
    }
  }

  /** The loop at the end of both readers: append the non-empty pieces to the queue. */
  method PushNonEmpty(msgs: seq<string>, sockMsgs: seq<string>) returns (rest: seq<string>)
    ensures rest == sockMsgs + NonEmpty(msgs)
  {
    rest := sockMsgs;
    for i := 0 to |msgs|
      invariant rest + NonEmpty(msgs[i..]) == sockMsgs + NonEmpty(msgs)
    {
      assert msgs[i..][1..] == msgs[i + 1..];
      if msgs[i] != "" {
        rest := rest + [msgs[i]];
      }
    }
  }

  /** sockio::try_reading_from_sock. A blocking read is taken to bring at least one message. */
  method TryReadingFromSock(sock: Socket, sockMsgs: seq<string>) returns (msg: string, rest: seq<string>)
    requires sockMsgs != [] || (sock.arrivals != [] && Messages(sock.arrivals[0]) != [])
    modifies sock`arrivals
    ensures [msg] + (rest + ReadAll(sock.arrivals)) == sockMsgs + ReadAll(old(sock.arrivals))
    ensures sock.arrivals == if sockMsgs != [] then old(sock.arrivals) else old(sock.arrivals)[1..]
  {
    rest := sockMsgs;
    if rest == [] {
      var fullMsg := sock.arrivals[0];
      sock.arrivals := sock.arrivals[1..];
      var msgs := SplitLoop(fullMsg, CRLF);
      rest := PushNonEmpty(msgs, rest);
    }
    msg, rest := rest[0], rest[1..];
  }

  /** What the next read brings, if one is waiting. */
  function NextRead(arrivals: seq<string>): seq<string> {
    if arrivals == [] then [] else Messages(arrivals[0])
  }

  /** sockio::update_sockmsgs: never blocks, and reads nothing when nothing is available. */
  method UpdateSockMsgs(sock: Socket, sockMsgs: seq<string>) returns (rest: seq<string>)
    modifies sock`arrivals
    ensures rest == sockMsgs + NextRead(old(sock.arrivals))
    ensures rest + ReadAll(sock.arrivals) == sockMsgs + ReadAll(old(sock.arrivals))
    ensures sock.arrivals == if old(sock.arrivals) == [] then [] else old(sock.arrivals)[1..]
  {
    rest := sockMsgs;
    if sock.arrivals != [] {
      var fullMsg := sock.arrivals[0];
      sock.arrivals := sock.arrivals[1..];
      var msgs := SplitLoop(fullMsg, CRLF);
      rest := PushNonEmpty(msgs, rest);
    }
  }
}
