/** The part of std::string that the repository relies on: finding, containing and splitting off text. */
module Strings {

  datatype Option<+T> = None | Some(value: T) {
    predicate IsFailure() { None? }
    function PropagateFailure<U>(): Option<U>
      requires None?
    {
      None
    }
    function Extract(): T
      requires Some?
    {
      value
    }
  }

  predicate OccursAt(s: string, d: string, i: int) {
    0 <= i <= |s| - |d| && s[i..i + |d|] == d
  }

  predicate Contains(s: string, d: string) {
    exists i | 0 <= i <= |s| :: OccursAt(s, d, i)
  }

  predicate StartsWith(s: string, d: string) {
    OccursAt(s, d, 0)
  }

  /** std::string::find: the first occurrence at or after `from`; `None` stands for npos. */
  function Find(s: string, d: string, from: nat): (r: Option<nat>)
    requires from <= |s|
    ensures r.Some? ==> from <= r.value <= |s| - |d| && OccursAt(s, d, r.value)
    decreases |s| - from
  {
    if OccursAt(s, d, from) then Some(from)
    else if from == |s| then None
    else Find(s, d, from + 1)
  }

  lemma FindStep(s: string, d: string, from: nat)
    requires from <= |s|
    ensures OccursAt(s, d, from) ==> Find(s, d, from) == Some(from)
    ensures !OccursAt(s, d, from) ==> Find(s, d, from) == if from == |s| then None else Find(s, d, from + 1)
  {
  }

  /** What `Find` skips does not match. */
  lemma {:induction false} FindIsFirst(s: string, d: string, from: nat, j: nat)
    requires from <= |s| && from <= j
    requires Find(s, d, from).Some? ==> j < Find(s, d, from).value
    ensures !OccursAt(s, d, j)
    decreases |s| - from
  {
    if !OccursAt(s, d, from) && from < |s| && from < j {
      FindIsFirst(s, d, from + 1, j);
    }
  }

  /** The first occurrence is the one `Find` returns. */
  lemma {:induction false} FindIs(s: string, d: string, from: nat, i: nat)
    requires from <= i && OccursAt(s, d, i)
    requires forall j | from <= j < i :: !OccursAt(s, d, j)
    ensures Find(s, d, from) == Some(i)
    decreases i - from
  {
    if from < i {
      assert !OccursAt(s, d, from);
      FindIs(s, d, from + 1, i);
    }
  }

  lemma FindNone(s: string, d: string, from: nat)
    requires from <= |s| && !Contains(s, d)
    ensures Find(s, d, from) == None
  {
    assert Find(s, d, from).Some? ==> OccursAt(s, d, Find(s, d, from).value);
  }

  lemma FindSome(s: string, d: string)
    ensures Find(s, d, 0).Some? <==> Contains(s, d)
  {
    if Contains(s, d) {
      var i :| 0 <= i <= |s| && OccursAt(s, d, i);
      if Find(s, d, 0).None? {
        FindIsFirst(s, d, 0, i);
      }
    } else {
      FindNone(s, d, 0);
    }
  }

  lemma OccursInSuffix(s: string, d: string, k: nat, j: nat)
    requires k <= |s|
    ensures OccursAt(s[k..], d, j) <==> OccursAt(s, d, k + j)
  {
    if j <= |s| - k - |d| {
      assert s[k..][j..j + |d|] == s[k + j..k + j + |d|];
    }
  }

  lemma OccursInPrefix(a: string, b: string, d: string, j: nat)
    requires j <= |a| - |d|
    ensures OccursAt(a + b, d, j) <==> OccursAt(a, d, j)
  {
    assert (a + b)[j..j + |d|] == a[j..j + |d|];
  }

  /** Searching a string from an offset is searching the suffix. */
  lemma {:induction false} FindInSuffix(s: string, d: string, k: nat, from: nat)
    requires k <= |s| && from <= |s| - k
    ensures Find(s, d, k + from) == match Find(s[k..], d, from)
                                    case None => None
                                    case Some(i) => Some(k + i)
    decreases |s| - k - from
  {
    hide *;
    OccursInSuffix(s, d, k, from);
    FindStep(s, d, k + from);
    FindStep(s[k..], d, from);
    if from < |s| - k {
      FindInSuffix(s, d, k, from + 1);
    }
  }

  lemma SliceOfSuffix(s: string, k: nat, i: nat, n: nat)
    requires k <= i && i + n <= |s|
    ensures s[k..][..i - k] == s[k..i]
    ensures s[k..][i - k + n..] == s[i + n..]
  {
  }

  lemma SliceOfConcat(a: string, b: string, i: nat)
    requires i <= |a|
    ensures (a + b)[..i] == a[..i]
    ensures (a + b)[i..] == a[i..] + b
  {
  }

  /** No proper prefix of `d` is also a suffix of it, so two occurrences of `d` never overlap. */
  predicate BorderFree(d: string) {
    d != "" && forall k | 0 < k < |d| :: d[..k] != d[|d| - k..]
  }

  lemma OneCharBorderFree(d: string)
    requires |d| == 1
    ensures BorderFree(d)
  {
  }

  /** A border-free delimiter after delimiter-free text is the first one found, whatever follows. */
  lemma FirstDelimiter(a: string, d: string, b: string)
    requires BorderFree(d) && !Contains(a, d)
    ensures OccursAt(a + d + b, d, |a|)
    ensures Find(a + d + b, d, 0) == Some(|a|)
  {
    var s := a + d + b;
    assert s[|a|..|a| + |d|] == d;
    forall j | 0 <= j < |a|
      ensures !OccursAt(s, d, j)
    {
      if j + |d| <= |a| {
        assert s == a + (d + b);
        OccursInPrefix(a, d + b, d, j);
        assert !OccursAt(a, d, j);
      } else if j + |d| <= |s| {
        var k := j + |d| - |a|;
        var w := s[j..j + |d|];
        assert w[|d| - k..] == s[|a|..|a| + k] == d[..k];
        assert d[..k] != d[|d| - k..];
      }
    }
    FindIs(s, d, 0, |a|);
  }

  /** The text before the first occurrence does not contain the delimiter. */
  lemma TextBeforeFirst(s: string, d: string, i: nat)
    requires d != "" && Find(s, d, 0) == Some(i)
    ensures i <= |s| && !Contains(s[..i], d)
  {
    hide Find;
    forall j | 0 <= j <= i - |d|
      ensures !OccursAt(s[..i], d, j)
    {
      assert s == s[..i] + s[i..];
      OccursInPrefix(s[..i], s[i..], d, j);
      FindIsFirst(s, d, 0, j);
    }
  }

  /** Appending text does not move the first occurrence. */
  lemma FindInLonger(a: string, b: string, d: string)
    requires Find(a, d, 0).Some?
    ensures Find(a + b, d, 0) == Find(a, d, 0)
  {
    var i := Find(a, d, 0).value;
    forall j | 0 <= j <= i
      ensures OccursAt(a + b, d, j) <==> j == i
    {
      OccursInPrefix(a, b, d, j);
      if j < i {
        FindIsFirst(a, d, 0, j);
      }
    }
    FindIs(a + b, d, 0, i);
  }

  /** Text made of characters other than the first one of `d` cannot contain `d`. */
  lemma AlienText(a: string, d: string)
    requires d != "" && d[0] !in a
    ensures !Contains(a, d)
  {
    forall i | 0 <= i <= |a| - |d|
      ensures !OccursAt(a, d, i)
    {
      assert a[i..i + |d|][0] == a[i] && a[i] in a;
    }
  }

  lemma ContainsInParts(a: string, b: string, d: string)
    requires Contains(a, d) || Contains(b, d)
    ensures Contains(a + b, d)
  {
    if Contains(a, d) {
      var i :| 0 <= i <= |a| && OccursAt(a, d, i);
      OccursInPrefix(a, b, d, i);
      assert OccursAt(a + b, d, i);
    } else {
      var i :| 0 <= i <= |b| && OccursAt(b, d, i);
      assert (a + b)[|a|..] == b;
      OccursInSuffix(a + b, d, |a|, i);
      assert OccursAt(a + b, d, |a| + i);
    }
  }

  /** Text cannot start with two words that differ somewhere. */
  lemma OnlyOneKeyword(line: string, a: string, b: string, i: nat)
    requires StartsWith(line, a) && i < |a| && i < |b| && a[i] != b[i]
    ensures !StartsWith(line, b)
  {
    assert line[0..|a|][i] == line[i] == a[i];
    if |b| <= |line| {
      assert line[0..|b|][i] == line[i];
    }
  }
}
