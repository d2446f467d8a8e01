/** Exactly which read boundaries the CRLF reader of src/shared/sockio tolerates. */
module ReadBoundaries {
  import opened Strings
  import opened Sockio

  predicate StraddlesCrlf(x: string, y: string) {
    x != "" && y != "" && x[|x| - 1] == '\r' && y[0] == '\n'
  }

  /** The cut falls between two messages, or at one end of the text. */
  predicate AtMessageEnd(x: string, y: string) {
    x == "" || y == "" || EndsWithCrlf(x) || StartsWith(y, CRLF)
  }

  function Total(ms: seq<string>): nat {
    if ms == [] then 0 else |ms[0]| + Total(ms[1..])
  }

  lemma {:induction false} TotalConcat(a: seq<string>, b: seq<string>)
    ensures Total(a + b) == Total(a) + Total(b)
  {
    if a == [] {
      assert a + b == b;
    } else {
      assert (a + b)[1..] == a[1..] + b;
      TotalConcat(a[1..], b);
    }
  }

  lemma {:induction false} TotalNonEmpty(ms: seq<string>)
    ensures Total(NonEmpty(ms)) == Total(ms)
  {
    if ms == [] {
    } else {
      TotalNonEmpty(ms[1..]);
      if ms[0] == "" {
        assert NonEmpty(ms) == NonEmpty(ms[1..]);
      } else {
        assert ([ms[0]] + NonEmpty(ms[1..]))[1..] == NonEmpty(ms[1..]);
      }
    }
  }

  function Glue(p: seq<string>, q: seq<string>): seq<string>
    requires |p| >= 1 && |q| >= 1
  {
    p[..|p| - 1] + [p[|p| - 1] + q[0]] + q[1..]
  }

  lemma FindAcross(x: string, y: string, j: nat)
    requires !Contains(x, CRLF) && !StraddlesCrlf(x, y)
    requires j < |x|
    ensures !OccursAt(x + y, CRLF, j)
  {
    if j + 2 <= |x| {
      OccursInPrefix(x, y, CRLF, j);
    } else if j + 2 <= |x| + |y| {
      var w := (x + y)[j..j + 2];
      assert w[0] == x[|x| - 1] && w[1] == y[0];
      assert CRLF[0] == '\r' && CRLF[1] == '\n';
    }
  }

  lemma SplitAcrossFree(x: string, y: string)
    requires !Contains(x, CRLF) && !StraddlesCrlf(x, y)
    ensures Split(x + y, CRLF) == [x + Split(y, CRLF)[0]] + Split(y, CRLF)[1..]
  {
    hide Split, Find;
    forall j | 0 <= j < |x|
      ensures !OccursAt(x + y, CRLF, j)
    {
      FindAcross(x, y, j);
    }
    assert (x + y)[|x|..] == y;
    match Find(y, CRLF, 0)
    case None =>
      FindNoneAcross(x, y);
      SplitNone(y, CRLF);
      SplitNone(x + y, CRLF);
    case Some(i) =>
      FindSomeAcross(x, y, i);
      SplitSome(y, CRLF, i);
      SplitSome(x + y, CRLF, |x| + i);
      assert (x + y)[..|x| + i] == x + y[..i];
      assert (x + y)[|x| + i + 2..] == y[i + 2..];
  }

  lemma FindNoneAcross(x: string, y: string)
    requires Find(y, CRLF, 0).None?
    requires forall j | 0 <= j < |x| :: !OccursAt(x + y, CRLF, j)
    ensures Find(x + y, CRLF, 0).None?
  {
    hide Find;
    assert (x + y)[|x|..] == y;
    match Find(x + y, CRLF, 0)
    case None =>
    case Some(j) =>
      OccursInSuffix(x + y, CRLF, |x|, j - |x|);
      FindIsFirst(y, CRLF, 0, j - |x|);
      assert false;
  }

  lemma FindSomeAcross(x: string, y: string, i: nat)
    requires Find(y, CRLF, 0) == Some(i)
    requires forall j | 0 <= j < |x| :: !OccursAt(x + y, CRLF, j)
    ensures Find(x + y, CRLF, 0) == Some(|x| + i)
  {
    hide Find;
    assert (x + y)[|x|..] == y;
    forall j | 0 <= j <= |x| + i
      ensures OccursAt(x + y, CRLF, j) <==> j == |x| + i
    {
      if j >= |x| {
        OccursInSuffix(x + y, CRLF, |x|, j - |x|);
        if j < |x| + i {
          FindIsFirst(y, CRLF, 0, j - |x|);
        }
      }
    }
    FindIs(x + y, CRLF, 0, |x| + i);
  }

  /** Away from a cut CRLF, splitting the whole is splitting the parts and gluing the middle pieces. */
  lemma {:induction false} SplitAcross(x: string, y: string)
    requires !StraddlesCrlf(x, y)
    ensures Split(x + y, CRLF) == Glue(Split(x, CRLF), Split(y, CRLF))
    decreases |x|
  {
    hide Split, Find;
    match Find(x, CRLF, 0)
    case None =>
      FindSome(x, CRLF);
      SplitNone(x, CRLF);
      SplitAcrossFree(x, y);
    case Some(i) =>
      var rest := x[i + 2..];
      FindInLonger(x, y, CRLF);
      SliceOfConcat(x, y, i);
      SliceOfConcat(x, y, i + 2);
      SplitSome(x, CRLF, i);
      SplitSome(x + y, CRLF, i);
      SplitAcross(rest, y);
      GlueCons(x[..i], Split(rest, CRLF), Split(y, CRLF));
  }

  lemma GlueCons(h: string, p: seq<string>, q: seq<string>)
    requires |p| >= 1 && |q| >= 1
    ensures Glue([h] + p, q) == [h] + Glue(p, q)
  {
  }

  lemma NonEmptyLength(p: seq<string>, m: string, q: seq<string>)
    requires m != ""
    ensures |NonEmpty(p + [m] + q)| == |NonEmpty(p)| + 1 + |NonEmpty(q)|
  {
    NonEmptyConcat(p + [m], q);
    NonEmptyConcat(p, [m]);
    assert NonEmpty([m]) == [m] + NonEmpty([]);
  }

  lemma {:induction false} LastPiece(x: string)
    requires x != "" && !EndsWithCrlf(x)
    ensures var p := Split(x, CRLF); p[|p| - 1] != ""
    decreases |x|
  {
    hide Split, Find;
    match Find(x, CRLF, 0)
    case None =>
      SplitNone(x, CRLF);
    case Some(i) =>
      SplitSome(x, CRLF, i);
      var rest := x[i + 2..];
      if rest == "" {
        EndsAtLast(x, i);
      } else if EndsWithCrlf(rest) {
        EndsLikeSuffix(x, i + 2);
      } else {
        LastPiece(rest);
      }
  }

  lemma EndsAtLast(x: string, i: nat)
    requires OccursAt(x, CRLF, i) && i + 2 == |x|
    ensures EndsWithCrlf(x)
  {
    assert x[i..] == x[i..i + 2];
  }

  lemma EndsLikeSuffix(x: string, k: nat)
    requires k <= |x| && EndsWithCrlf(x[k..])
    ensures EndsWithCrlf(x)
  {
    assert x[k..][|x| - k - 2..] == x[|x| - 2..];
  }

  lemma FirstPiece(y: string)
    requires y != "" && !StartsWith(y, CRLF)
    ensures Split(y, CRLF)[0] != ""
  {
    hide Split;
    FindStep(y, CRLF, 0);
    match Find(y, CRLF, 0)
    case None =>
      SplitNone(y, CRLF);
    case Some(i) =>
      SplitSome(y, CRLF, i);
  }

  lemma TotalOfGlue(p: seq<string>, q: seq<string>)
    requires |p| >= 1 && |q| >= 1
    ensures Total(Glue(p, q)) == Total(p) + Total(q)
  {
    var l := |p| - 1;
    TotalConcat(p[..l] + [p[l] + q[0]], q[1..]);
    TotalConcat(p[..l], [p[l] + q[0]]);
    TotalConcat(p[..l], [p[l]]);
    assert p[..l] + [p[l]] == p;
  }

  /** A cut inside a message leaves one message too many. */
  lemma CutInsideMessage(x: string, y: string)
    requires !AtMessageEnd(x, y) && !StraddlesCrlf(x, y)
    ensures |Messages(x) + Messages(y)| == |Messages(x + y)| + 1
  {
    hide Split;
    var p, q := Split(x, CRLF), Split(y, CRLF);
    var l := |p| - 1;
    SplitAcross(x, y);
    LastPiece(x);
    FirstPiece(y);
    assert p == p[..l] + [p[l]] + [];
    assert q == [] + [q[0]] + q[1..];
    NonEmptyLength(p[..l], p[l], []);
    NonEmptyLength([], q[0], q[1..]);
    NonEmptyLength(p[..l], p[l] + q[0], q[1..]);
  }

  /** A cut inside a CRLF leaves the two delimiter characters in the messages. */
  lemma CutInsideCrlf(x: string, y: string)
    requires StraddlesCrlf(x, y)
    ensures Total(Messages(x) + Messages(y)) == Total(Messages(x + y)) + 2
  {
    hide Split;
    var a, b := x[..|x| - 1], y[1..];
    assert x == a + "\r" && y == "\n" + b;
    assert x + y == a + CRLF + b;
    MessagesAtCrlf(a, b);
    SplitAcross(a, "\r");
    SplitAcross("\n", b);
    AlienText("\r", CRLF[1..]);
    OneCharacter("\r");
    OneCharacter("\n");
    TotalOfGlue(Split(a, CRLF), ["\r"]);
    TotalOfGlue(["\n"], Split(b, CRLF));
    TotalNonEmpty(Split(x, CRLF));
    TotalNonEmpty(Split(y, CRLF));
    TotalNonEmpty(Split(a, CRLF));
    TotalNonEmpty(Split(b, CRLF));
    TotalConcat(Messages(x), Messages(y));
    TotalConcat(Messages(a), Messages(b));
  }

  lemma OneCharacter(c: string)
    requires |c| == 1
    ensures Split(c, CRLF) == [c]
    ensures Total([c]) == 1
  {
    hide Split;
    FindNone(c, CRLF, 0);
    SplitNone(c, CRLF);
    assert [c][1..] == [];
  }

  /** Two reads leave the same queue as one exactly when the cut between them is at a message end. */
  lemma ReadBoundaryExact(x: string, y: string)
    ensures Messages(x) + Messages(y) == Messages(x + y) <==> AtMessageEnd(x, y)
  {
    if x == "" {
      NoMessages();
      assert x + y == y;
    } else if y == "" {
      NoMessages();
      assert x + y == x;
    } else if EndsWithCrlf(x) {
      MessagesAfterCrlf(x, y);
    } else if StartsWith(y, CRLF) {
      assert y == CRLF + y[2..];
      assert x + y == x + CRLF + y[2..];
      assert "" + CRLF + y[2..] == y;
      MessagesAtCrlf(x, y[2..]);
      MessagesAtCrlf("", y[2..]);
      NoMessages();
    } else if StraddlesCrlf(x, y) {
      CutInsideCrlf(x, y);
    } else {
      CutInsideMessage(x, y);
    }
  }
}
