/**
 * String helpers with Python's semantics: `sep.join(xs)` and `s.split(sep)`
 * (left-to-right, non-overlapping occurrences of a non-empty separator).
 */
module Text {
  import opened Wrappers

  /** Python truthiness of an optional string: present and non-empty. */
  predicate TruthyText(o: Option<string>)
  {
    o.Some? && o.value != ""
  }

  function LowerChar(ch: char): char
  {
    if 'A' <= ch <= 'Z' then (ch as int + 32) as char else ch
  }

  function UpperChar(ch: char): char
  {
    if 'a' <= ch <= 'z' then (ch as int - 32) as char else ch
  }

  /** `str.lower()` on ASCII letters. */
  function Lower(s: string): (r: string)
    ensures |r| == |s|
    ensures forall i :: 0 <= i < |s| ==> r[i] == LowerChar(s[i])
  {
    seq(|s|, i requires 0 <= i < |s| => LowerChar(s[i]))
  }

  /** `str.upper()` on ASCII letters. */
  function Upper(s: string): (r: string)
    ensures |r| == |s|
    ensures forall i :: 0 <= i < |s| ==> r[i] == UpperChar(s[i])
  {
    seq(|s|, i requires 0 <= i < |s| => UpperChar(s[i]))
  }

  /** `sep` appears in `s` starting at index `i`. */
  predicate OccursAt(s: string, sep: string, i: nat)
  {
    i + |sep| <= |s| && s[i..i + |sep|] == sep
  }

  /** Python's `sep in s`. */
  ghost predicate Contains(s: string, sep: string)
  {
    exists i: nat :: OccursAt(s, sep, i)
  }

  /** No proper non-empty prefix of `sep` is also a suffix of it, so two occurrences can never overlap. */
  predicate Unbordered(sep: string)
  {
    forall b :: 0 < b < |sep| ==> sep[..b] != sep[|sep| - b..]
  }

  lemma ShiftOccurs(s: string, sep: string)
    requires |s| > 0
    ensures forall j: nat :: OccursAt(s[1..], sep, j) ==> OccursAt(s, sep, j + 1)
    ensures forall j: nat :: 0 < j && OccursAt(s, sep, j) ==> OccursAt(s[1..], sep, j - 1)
  {
    forall j: nat | OccursAt(s[1..], sep, j)
      ensures OccursAt(s, sep, j + 1)
    {
      assert s[1..][j..j + |sep|] == s[j + 1..j + 1 + |sep|];
    }
    forall j: nat | 0 < j && OccursAt(s, sep, j)
      ensures OccursAt(s[1..], sep, j - 1)
    {
      assert s[1..][j - 1..j - 1 + |sep|] == s[j..j + |sep|];
    }
  }

  /** Index of the first occurrence of `sep` in `s` (Python's `s.find(sep)`, with None for -1). */
  function FindFirst(s: string, sep: string): (r: Option<nat>)
    requires |sep| > 0
    ensures r.Some? ==> OccursAt(s, sep, r.value)
    ensures r.Some? ==> forall j: nat :: j < r.value ==> !OccursAt(s, sep, j)
    ensures r.None? <==> !Contains(s, sep)
    decreases |s|
  {
    if |s| < |sep| then None
    else if s[..|sep|] == sep then Some(0)
    else
      ShiftOccurs(s, sep);
      match FindFirst(s[1..], sep)
      case None => None
      case Some(i) => Some(i + 1)
  }

  /** The summed length of a list of strings. */
  function TotalLength(xs: seq<string>): nat
  {
    if |xs| == 0 then 0 else |xs[0]| + TotalLength(xs[1..])
  }

  /**
   * Python's `sep.join(xs)`: empty for no pieces; otherwise it starts with
   * the first piece, ends with the last, and holds every piece plus one
   * separator between each neighbouring pair.
   */
  function Join(xs: seq<string>, sep: string): (r: string)
    ensures |xs| == 0 ==> r == ""
    ensures |xs| >= 1 ==> |xs[0]| <= |r| && r[..|xs[0]|] == xs[0]
    ensures |xs| >= 1 ==> |xs[|xs| - 1]| <= |r| && r[|r| - |xs[|xs| - 1]|..] == xs[|xs| - 1]
  {
    if |xs| == 0 then ""
    else if |xs| == 1 then xs[0]
    else
      var tail := Join(xs[1..], sep);
      var r := xs[0] + sep + tail;
      assert r[|r| - |tail|..] == tail;
      r
  }

  /** A join holds every piece plus one separator between each neighbouring pair. */
  lemma {:induction false} JoinLength(xs: seq<string>, sep: string)
    requires |xs| >= 1
    ensures |Join(xs, sep)| == TotalLength(xs) + (|xs| - 1) * |sep|
    decreases |xs|
  {
    if |xs| > 1 {
      JoinCons(xs, sep);
      JoinLength(xs[1..], sep);
      var n := |xs| - 2;
      assert (n + 1) * |sep| == |sep| + n * |sep|;
    }
  }

  /** Python's `s.split(sep)`: the pieces between successive occurrences of `sep`. */
  function Split(s: string, sep: string): (r: seq<string>)
    requires |sep| > 0
    ensures |r| >= 1
    ensures Join(r, sep) == s
    ensures forall k :: 0 <= k < |r| ==> !Contains(r[k], sep)
    ensures |r| == 1 <==> !Contains(s, sep)
    ensures FindFirst(s, sep).None? ==> r == [s]
    ensures FindFirst(s, sep).Some? ==> r[0] == s[..FindFirst(s, sep).value]
    ensures |r| > 1 ==> FindFirst(s, sep) == Some(|r[0]|)
    decreases |s|
  {
    match FindFirst(s, sep)
    case None => [s]
    case Some(i) =>
      var rest := Split(s[i + |sep|..], sep);
      NothingBeforeFirst(s, sep, i);
      Reassemble(s, sep, i);
      assert ([s[..i]] + rest)[1..] == rest;
      [s[..i]] + rest
  }

  /**
   * Every boundary between pieces is the leftmost occurrence of `sep` in the
   * text that remains, so the pieces are exactly Python's, even for a
   * separator such as `//` whose occurrences can overlap.
   */
  lemma {:induction false} SplitLeftmost(s: string, sep: string)
    requires |sep| > 0
    ensures var r := Split(s, sep);
      forall k :: 0 <= k < |r| - 1 ==> FindFirst(Join(r[k..], sep), sep) == Some(|r[k]|)
    decreases |s|
  {
    var r := Split(s, sep);
    if |r| > 1 {
      var i := FindFirst(s, sep).value;
      var rest := Split(s[i + |sep|..], sep);
      SplitAtFirst(s, sep, i);
      SplitLeftmost(s[i + |sep|..], sep);
      forall k | 0 <= k < |r| - 1
        ensures FindFirst(Join(r[k..], sep), sep) == Some(|r[k]|)
      {
        if k == 0 {
          assert r[0..] == r;
        } else {
          assert r[k..] == rest[k - 1..];
        }
      }
    }
  }

  lemma Reassemble(s: string, sep: string, i: nat)
    requires OccursAt(s, sep, i)
    ensures s[..i] + sep + s[i + |sep|..] == s
  {
    assert s == s[..i] + s[i..i + |sep|] + s[i + |sep|..];
  }

  /** The text before the first occurrence of `sep` does not contain `sep`. */
  lemma NothingBeforeFirst(s: string, sep: string, i: nat)
    requires |sep| > 0 && i <= |s|
    requires forall j: nat :: j < i ==> !OccursAt(s, sep, j)
    ensures !Contains(s[..i], sep)
  {
    forall j: nat | OccursAt(s[..i], sep, j)
      ensures false
    {
      assert s[..i][j..j + |sep|] == s[j..j + |sep|];
      assert OccursAt(s, sep, j);
    }
  }

  /**
   * When `x` does not contain an unbordered `sep`, no occurrence of `sep` in
   * `x + sep + rest` starts inside `x`.
   */
  lemma NoEarlyOccurrence(x: string, sep: string, rest: string, j: nat)
    requires |sep| > 0 && Unbordered(sep)
    requires !Contains(x, sep)
    requires j < |x|
    ensures !OccursAt(x + sep + rest, sep, j)
  {
    var s := x + sep + rest;
    if j + |sep| <= |x| {
      assert x[j..j + |sep|] == s[j..j + |sep|];
      assert !OccursAt(x, sep, j);
    } else {
      // The occurrence would straddle the end of `x`: then `sep` would have a border of length b.
      var k := |x| - j;
      var b := |sep| - k;
      assert sep[..b] != sep[k..];
      var t :| 0 <= t < b && sep[..b][t] != sep[k..][t];
      assert s[j + k + t] == sep[t];
      assert s[j..j + |sep|][k + t] != sep[k + t];
    }
  }

  lemma FirstOccurrenceAfter(x: string, sep: string, rest: string)
    requires |sep| > 0 && Unbordered(sep)
    requires !Contains(x, sep)
    ensures FindFirst(x + sep + rest, sep) == Some(|x|)
  {
    var s := x + sep + rest;
    assert s[|x|..|x| + |sep|] == sep;
    assert OccursAt(s, sep, |x|);
    forall j: nat | j < |x|
      ensures !OccursAt(s, sep, j)
    {
      NoEarlyOccurrence(x, sep, rest, j);
    }
  }

  /** Splitting at the first occurrence: the prefix, then the split of what follows the separator. */
  lemma SplitAtFirst(s: string, sep: string, i: nat)
    requires |sep| > 0 && FindFirst(s, sep) == Some(i)
    ensures Split(s, sep) == [s[..i]] + Split(s[i + |sep|..], sep)
  {
  }

  /** A join of two or more pieces is the first piece, a separator, and the join of the rest. */
  lemma JoinCons(xs: seq<string>, sep: string)
    requires |xs| > 1
    ensures Join(xs, sep) == xs[0] + sep + Join(xs[1..], sep)
  {
  }

  /** Two pieces join around one separator. */
  lemma JoinPair(a: string, b: string, sep: string)
    ensures Join([a, b], sep) == a + sep + b
  {
    assert [a, b][1..] == [b];
  }

  /** A leading piece free of an unbordered separator splits off whatever follows that separator. */
  lemma SplitAround(x: string, sep: string, tail: string)
    requires |sep| > 0 && Unbordered(sep) && !Contains(x, sep)
    ensures Split(x + sep + tail, sep) == [x] + Split(tail, sep)
  {
    var s := x + sep + tail;
    FirstOccurrenceAfter(x, sep, tail);
    SplitAtFirst(s, sep, |x|);
    assert s[..|x|] == x;
    assert s[|x| + |sep|..] == tail;
  }

  /** One step of `SplitJoin`: a leading piece free of the separator splits off a join. */
  lemma SplitJoinStep(xs: seq<string>, sep: string)
    requires |sep| > 0 && Unbordered(sep)
    requires |xs| > 1 && !Contains(xs[0], sep)
    requires Split(Join(xs[1..], sep), sep) == xs[1..]
    ensures Split(Join(xs, sep), sep) == xs
  {
    assert xs == [xs[0]] + xs[1..];
    JoinCons(xs, sep);
    SplitAround(xs[0], sep, Join(xs[1..], sep));
  }

  /** A single piece free of the separator splits to itself. */
  lemma SplitSingle(x: string, sep: string)
    requires |sep| > 0 && !Contains(x, sep)
    ensures Split(Join([x], sep), sep) == [x]
  {
    assert Join([x], sep) == x;
  }

  /** Splitting a join recovers the pieces, when no piece contains the unbordered separator. */
  lemma {:induction false} SplitJoin(xs: seq<string>, sep: string)
    requires |sep| > 0 && Unbordered(sep)
    requires |xs| >= 1
    requires forall k :: 0 <= k < |xs| ==> !Contains(xs[k], sep)
    ensures Split(Join(xs, sep), sep) == xs
    decreases |xs|
  {
    if |xs| > 1 {
      SplitJoin(xs[1..], sep);
      SplitJoinStep(xs, sep);
    } else {
      assert xs == [xs[0]];
      SplitSingle(xs[0], sep);
    }
  }
}
