/** Python's built-in string methods used by the pipeline: `str.replace` and
    `str.strip()` with no argument. */
module PyStr {

  /** `pat` occurs in `s` starting at index `i`. */
  predicate OccursAt(s: string, pat: string, i: int)
  {
    0 <= i && i + |pat| <= |s| && s[i..i + |pat|] == pat
  }

  /** `pat` occurs nowhere in `s`. */
  predicate Absent(s: string, pat: string)
  {
    forall i | 0 <= i <= |s| :: !OccursAt(s, pat, i)
  }

  /** `s.replace(target, repl)`: every occurrence of `target`, found left to right and
      without overlap, is replaced by `repl`; an empty `target` inserts `repl`
      before every character and at the end. */
  function Replace(s: string, target: string, repl: string): string
    decreases |s|
  {
    if |target| == 0 then
      if |s| == 0 then repl else repl + [s[0]] + Replace(s[1..], target, repl)
    else if |s| < |target| then s
    else if s[..|target|] == target then repl + Replace(s[|target|..], target, repl)
    else [s[0]] + Replace(s[1..], target, repl)
  }

  /** A replacement no longer than its target never lengthens the string,
      and one of the same length keeps the length. */
  lemma {:induction false} ReplaceLength(s: string, target: string, repl: string)
    requires |target| > 0 && |repl| <= |target|
    ensures |Replace(s, target, repl)| <= |s|
    ensures |repl| == |target| ==> |Replace(s, target, repl)| == |s|
    decreases |s|
  {
    if |s| >= |target| {
      if s[..|target|] == target {
        ReplaceLength(s[|target|..], target, repl);
      } else {
        ReplaceLength(s[1..], target, repl);
      }
    }
  }

  /** An occurrence in a suffix is an occurrence in the whole string. */
  lemma OccursInSuffix(s: string, pat: string, k: nat, i: int)
    requires k <= |s|
    requires OccursAt(s[k..], pat, i)
    ensures OccursAt(s, pat, i + k)
  {
    assert s[k..][i..i + |pat|] == s[i + k..i + k + |pat|];
  }

  /** An occurrence in a slice is an occurrence in the whole string. */
  lemma OccursInSlice(s: string, pat: string, lo: nat, hi: nat, i: int)
    requires lo <= hi <= |s|
    requires OccursAt(s[lo..hi], pat, i)
    ensures OccursAt(s, pat, i + lo)
  {
    var t := s[lo..hi];
    assert |t| == hi - lo;
    var u, w := t[i..i + |pat|], s[i + lo..i + lo + |pat|];
    forall j | 0 <= j < |pat|
      ensures u[j] == w[j]
    {
      assert t[i + j] == s[lo + i + j];
    }
    assert u == w;
  }

  /** Replacing a pattern that does not occur changes nothing. */
  lemma {:induction false} ReplaceAbsent(s: string, target: string, repl: string)
    requires |target| > 0 && Absent(s, target)
    ensures Replace(s, target, repl) == s
    decreases |s|
  {
    if |s| >= |target| {
      assert !OccursAt(s, target, 0);
      assert s[..|target|] != target;
      forall i | 0 <= i <= |s[1..]|
        ensures !OccursAt(s[1..], target, i)
      {
        if OccursAt(s[1..], target, i) {
          OccursInSuffix(s, target, 1, i);
        }
      }
      ReplaceAbsent(s[1..], target, repl);
    }
  }

  /** Replacing one character by another acts character by character. */
  lemma {:induction false} ReplaceCharPointwise(s: string, a: char, b: char)
    ensures |Replace(s, [a], [b])| == |s|
    ensures forall i | 0 <= i < |s| :: Replace(s, [a], [b])[i] == (if s[i] == a then b else s[i])
    decreases |s|
  {
    if |s| > 0 {
      ReplaceCharPointwise(s[1..], a, b);
      if s[..1] == [a] {
        assert s[1..] == s[|[a]|..];
      } else {
        assert s[0] != a;
      }
    }
  }

  /** Whitespace as `str.isspace()` and `str.strip()` define it: the ASCII
      controls 9 to 13 and 28 to 31, the space, and the Unicode spaces,
      separators and break characters. */
  predicate IsSpace(c: char)
  {
    var n := c as int;
    (9 <= n <= 13) || (28 <= n <= 32) || n == 0x85 || n == 0xA0 || n == 0x1680 ||
    (0x2000 <= n <= 0x200A) || n == 0x2028 || n == 0x2029 || n == 0x202F ||
    n == 0x205F || n == 0x3000
  }

  /** The leading whitespace of `s` removed. */
  function TrimStart(s: string): string
  {
    if |s| > 0 && IsSpace(s[0]) then TrimStart(s[1..]) else s
  }

  /** `TrimStart` gives the longest suffix that does not start with
      whitespace. */
  lemma {:induction false} TrimStartSpec(s: string)
    ensures var r := TrimStart(s);
      && |r| <= |s| && r == s[|s| - |r|..]
      && (r == [] || !IsSpace(r[0]))
      && (forall i | 0 <= i < |s| - |r| :: IsSpace(s[i]))
  {
    if |s| > 0 && IsSpace(s[0]) {
      TrimStartSpec(s[1..]);
      var r := TrimStart(s);
      assert s[1..][|s| - 1 - |r|..] == s[|s| - |r|..];
      forall i | 0 <= i < |s| - |r|
        ensures IsSpace(s[i])
      {
        if i > 0 {
          assert s[1..][i - 1] == s[i];
        }
      }
    }
  }

  /** The trailing whitespace of `s` removed. */
  function TrimEnd(s: string): string
  {
    if |s| > 0 && IsSpace(s[|s| - 1]) then TrimEnd(s[..|s| - 1]) else s
  }

  /** `TrimEnd` gives the longest prefix that does not end with whitespace. */
  lemma {:induction false} TrimEndSpec(s: string)
    ensures var r := TrimEnd(s);
      && |r| <= |s| && r == s[..|r|]
      && (r == [] || !IsSpace(r[|r| - 1]))
      && (forall i | |r| <= i < |s| :: IsSpace(s[i]))
  {
    if |s| > 0 && IsSpace(s[|s| - 1]) {
      var t := s[..|s| - 1];
      TrimEndSpec(t);
      var r := TrimEnd(s);
      assert t[..|r|] == s[..|r|];
      forall i | |r| <= i < |s|
        ensures IsSpace(s[i])
      {
        if i < |s| - 1 {
          assert t[i] == s[i];
        }
      }
    }
  }

  /** No whitespace at either end. */
  predicate Trimmed(s: string)
  {
    s == [] || (!IsSpace(s[0]) && !IsSpace(s[|s| - 1]))
  }

  /** `s.strip()`: leading, then trailing whitespace removed. */
  function Strip(s: string): string
  {
    TrimEnd(TrimStart(s))
  }

  /** `Strip(s)` is the slice `s[lo..hi]` that remains once every leading and
      trailing whitespace character is removed, and it has no whitespace at
      either end. */
  lemma StripSpec(s: string)
    ensures var r := Strip(s);
      && Trimmed(r)
      && exists lo, hi | 0 <= lo <= hi <= |s| ::
           && r == s[lo..hi]
           && (forall i | 0 <= i < lo :: IsSpace(s[i]))
           && (forall i | hi <= i < |s| :: IsSpace(s[i]))
  {
    var t := TrimStart(s);
    var r := TrimEnd(t);
    TrimStartSpec(s);
    TrimEndSpec(t);
    var lo := |s| - |t|;
    var hi := lo + |r|;
    assert r == s[lo..hi] by {
      assert t == s[lo..];
      assert r == t[..|r|];
    }
    forall i | hi <= i < |s|
      ensures IsSpace(s[i])
    {
      assert t[i - lo] == s[i];
    }
    if r != [] && t != [] {
      assert r[0] == t[0];
    }
  }

  /** Stripping keeps a pattern absent: the result is a slice of the input. */
  lemma StripKeepsAbsent(s: string, pat: string)
    requires Absent(s, pat)
    ensures Absent(Strip(s), pat)
  {
    var r := Strip(s);
    StripSpec(s);
    var lo, hi :| 0 <= lo <= hi <= |s| && r == s[lo..hi];
    forall i | 0 <= i <= |r|
      ensures !OccursAt(r, pat, i)
    {
      if OccursAt(r, pat, i) {
        OccursInSlice(s, pat, lo, hi, i);
      }
    }
  }

  /** A string with no whitespace at either end is its own strip. */
  lemma StripTrimmed(s: string)
    requires Trimmed(s)
    ensures Strip(s) == s
  {
  }
}
