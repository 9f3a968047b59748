/** The Coder's clean-up of the model's reply before it is run as a script:
    every "```python" removed, then every "```", then the surrounding
    whitespace stripped. */
module Fences {
  import opened PyStr

  const Fence := "```"
  const PythonFence := "```python"

  /** `raw_code.replace("```python", "").replace("```", "").strip()`. */
  function CleanCode(raw: string): string
  {
    Strip(Replace(Replace(raw, PythonFence, ""), Fence, ""))
  }

  /** The cleaned code holds no fence and no surrounding whitespace. */
  lemma CleanCodeClean(raw: string)
    ensures Absent(CleanCode(raw), Fence) && Trimmed(CleanCode(raw))
  {
    var unpython := Replace(raw, PythonFence, "");
    var unfenced := Replace(unpython, Fence, "");
    RemoveFencesIsReplace(unpython);
    RemoveFencesLeavesNone(unpython);
    StripKeepsAbsent(unfenced, Fence);
    StripSpec(unfenced);
  }

  /** `s` opens with three backticks. */
  predicate StartsWithFence(s: string)
  {
    |s| >= 3 && s[0] == '`' && s[1] == '`' && s[2] == '`'
  }

  /** Fence removal stated on characters: scanning left to right, a fence is
      dropped and any other character kept. */
  function RemoveFences(s: string): string
    decreases |s|
  {
    if |s| < 3 then s
    else if StartsWithFence(s) then RemoveFences(s[3..])
    else [s[0]] + RemoveFences(s[1..])
  }

  lemma StartsWithFencePrefix(s: string)
    requires |s| >= 3
    ensures StartsWithFence(s) <==> s[..3] == Fence
  {
    assert s[..3][0] == s[0] && s[..3][1] == s[1] && s[..3][2] == s[2];
  }

  /** `replace("```", "")` is fence removal. */
  lemma {:induction false} RemoveFencesIsReplace(s: string)
    ensures Replace(s, Fence, "") == RemoveFences(s)
    decreases |s|
  {
    if |s| >= 3 {
      StartsWithFencePrefix(s);
      if StartsWithFence(s) {
        RemoveFencesIsReplace(s[3..]);
        assert "" + Replace(s[3..], Fence, "") == Replace(s[3..], Fence, "");
      } else {
        RemoveFencesIsReplace(s[1..]);
      }
    }
  }

  /** The number of backticks at the start of `s`. */
  function LeadingTicks(s: string): (n: nat)
    ensures n <= |s|
    ensures forall i | 0 <= i < n :: s[i] == '`'
    ensures n < |s| ==> s[n] != '`'
  {
    if |s| > 0 && s[0] == '`' then 1 + LeadingTicks(s[1..]) else 0
  }

  /** A string that does not open with a fence starts with at most two
      backticks. */
  lemma TicksBelowThree(s: string)
    requires |s| >= 3 && !StartsWithFence(s)
    ensures LeadingTicks(s) <= 2
  {
    assert s[1..][0] == s[1] && s[1..][1..][0] == s[2];
  }

  /** A leading fence contributes three backticks. */
  lemma FenceTicks(s: string)
    requires StartsWithFence(s)
    ensures LeadingTicks(s) == 3 + LeadingTicks(s[3..])
  {
    assert s[1..][0] == s[1] && s[1..][1..][0] == s[2];
    assert s[1..][1..][1..] == s[3..];
  }

  lemma LeadingTicksCons(c: char, t: string)
    ensures LeadingTicks([c] + t) == if c == '`' then 1 + LeadingTicks(t) else 0
  {
    assert ([c] + t)[1..] == t;
  }

  /** Removing every fence from a run of k leading backticks leaves k mod 3. */
  lemma {:induction false} RemoveFencesLeadingTicks(s: string)
    ensures LeadingTicks(RemoveFences(s)) == LeadingTicks(s) % 3
    decreases |s|
  {
    if |s| < 3 {
      assert LeadingTicks(s) < 3;
    } else if StartsWithFence(s) {
      FenceTicks(s);
      RemoveFencesLeadingTicks(s[3..]);
      var k := LeadingTicks(s[3..]);
      assert (3 + k) % 3 == k % 3;
    } else {
      var t := RemoveFences(s[1..]);
      LeadingTicksCons(s[0], t);
      if s[0] == '`' {
        RemoveFencesLeadingTicks(s[1..]);
        TicksBelowThree(s);
        var k := LeadingTicks(s[1..]);
        assert k <= 1 && k % 3 == k && (1 + k) % 3 == 1 + k;
      }
    }
  }

  /** A backtick-free position among the three rules out a fence there. */
  lemma NotFenceAt(r: string, i: nat, k: nat)
    requires i + 3 <= |r| && k < 3 && r[i + k] != '`'
    ensures !OccursAt(r, Fence, i)
  {
    assert r[i..i + 3][k] == r[i + k];
  }

  /** A fence after the first character is a fence of the tail. */
  lemma OccursAtCons(c: char, t: string, i: nat)
    requires i > 0
    ensures OccursAt([c] + t, Fence, i) <==> OccursAt(t, Fence, i - 1)
  {
    if i + 3 <= |t| + 1 {
      assert ([c] + t)[i..i + 3] == t[i - 1..i + 2];
    }
  }

  /** Removing every fence leaves no fence, even where a removal joins the
      backticks on either side of it. */
  lemma {:induction false} RemoveFencesLeavesNone(s: string)
    ensures Absent(RemoveFences(s), Fence)
    decreases |s|
  {
    if |s| < 3 {
    } else if StartsWithFence(s) {
      RemoveFencesLeavesNone(s[3..]);
    } else {
      var t := RemoveFences(s[1..]);
      var r := [s[0]] + t;
      assert RemoveFences(s) == r;
      RemoveFencesLeavesNone(s[1..]);
      forall i | 0 <= i <= |r|
        ensures !OccursAt(r, Fence, i)
      {
        if i > 0 {
          OccursAtCons(s[0], t, i);
        } else if |r| >= 3 {
          if s[0] != '`' {
            NotFenceAt(r, 0, 0);
          } else {
            RemoveFencesLeadingTicks(s[1..]);
            TicksBelowThree(s);
            var n := LeadingTicks(s[1..]);
            assert n <= 1 && n % 3 == n;
            assert LeadingTicks(t) == n && n < |t|;
            NotFenceAt(r, 0, n + 1);
          }
        }
      }
    }
  }

  /** A reply without fences and without surrounding whitespace passes through
      unchanged. */
  lemma CleanCodeUnfenced(raw: string)
    requires Absent(raw, Fence) && Trimmed(raw)
    ensures CleanCode(raw) == raw
  {
    forall i | 0 <= i <= |raw|
      ensures !OccursAt(raw, PythonFence, i)
    {
      assert !OccursAt(raw, Fence, i);
      if i + 9 <= |raw| {
        assert raw[i..i + 9][..3] == raw[i..i + 3];
      }
    }
    ReplaceAbsent(raw, PythonFence, "");
    ReplaceAbsent(raw, Fence, "");
    StripTrimmed(raw);
  }

  /** Cleaning is idempotent. */
  lemma CleanCodeIdempotent(raw: string)
    ensures CleanCode(CleanCode(raw)) == CleanCode(raw)
  {
    CleanCodeClean(raw);
    CleanCodeUnfenced(CleanCode(raw));
  }
}
