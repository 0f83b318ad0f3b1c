/** Removal of Markdown code fences from a model reply, as the two services do it with
    global regular-expression replacements, scanning left to right and removing
    non-overlapping matches. */
module Fences {
  import opened Strings

  predicate FenceAt(s: string) {
    |s| >= 3 && s[0] == '`' && s[1] == '`' && s[2] == '`'
  }

  /** "```diff" matched case-insensitively (the backticks have no case; only ASCII
      letters fold to `d`, `i` and `f`). */
  predicate DiffFenceAt(s: string) {
    FenceAt(s) && |s| >= 7 && s[3] in {'d', 'D'} && s[4] in {'i', 'I'} && s[5] in {'f', 'F'}
    && s[6] in {'f', 'F'}
  }

  /** `s.replace(/```diff|```/gi, "")` when `withDiff` holds, `s.replace(/```/g, "")`
      otherwise: at each position the longer alternative is tried first. */
  function StripFences(s: string, withDiff: bool): string
    decreases |s|
  {
    if |s| == 0 then s
    else if withDiff && DiffFenceAt(s) then StripFences(s[7..], withDiff)
    else if FenceAt(s) then StripFences(s[3..], withDiff)
    else [s[0]] + StripFences(s[1..], withDiff)
  }

  /** `s.replace(/```diff/gi, "")`. */
  function RemoveDiffFences(s: string): string
    decreases |s|
  {
    if |s| == 0 then s
    else if DiffFenceAt(s) then RemoveDiffFences(s[7..])
    else [s[0]] + RemoveDiffFences(s[1..])
  }

  /** No three consecutive backticks anywhere in `s`. */
  predicate NoFence(s: string) {
    forall i :: 0 <= i < |s| ==> !FenceAt(s[i..])
  }

  predicate NoBacktick(s: string) {
    forall i :: 0 <= i < |s| ==> s[i] != '`'
  }

  /** What the stripping leaves starts with a backtick only if the input did. */
  lemma StripKeepsFirstBacktick(s: string, withDiff: bool)
    requires |StripFences(s, withDiff)| > 0 && StripFences(s, withDiff)[0] == '`'
    ensures |s| > 0 && s[0] == '`'
  {
  }

  /** After the replacement no fence is left: a fence cannot be formed across the
      place where one was removed. */
  lemma {:induction false} StripLeavesNoFence(s: string, withDiff: bool)
    ensures NoFence(StripFences(s, withDiff))
    decreases |s|
  {
    if |s| == 0 {
    } else if withDiff && DiffFenceAt(s) {
      StripLeavesNoFence(s[7..], withDiff);
    } else if FenceAt(s) {
      StripLeavesNoFence(s[3..], withDiff);
    } else {
      var rest := StripFences(s[1..], withDiff);
      StripLeavesNoFence(s[1..], withDiff);
      var r := [s[0]] + rest;
      assert r == StripFences(s, withDiff);
      forall i | 0 <= i < |r| ensures !FenceAt(r[i..]) {
        if i > 0 {
          assert r[i..] == rest[i - 1..];
        } else if FenceAt(r) {
          // rest starts with two backticks, so s[1..] starts with one, and
          // s[1..] is not a fence start because s is not one.
          StripKeepsFirstBacktick(s[1..], withDiff);
          var t := s[1..];
          assert !FenceAt(t) && !DiffFenceAt(t);
          assert rest == [t[0]] + StripFences(t[1..], withDiff);
          StripKeepsFirstBacktick(t[1..], withDiff);
          assert false;
        }
      }
    }
  }

  /** A text without backticks is left as it is. */
  lemma {:induction false} StripWithoutBacktick(s: string, withDiff: bool)
    ensures NoBacktick(s) ==> StripFences(s, withDiff) == s
    ensures NoBacktick(s) ==> RemoveDiffFences(s) == s
    decreases |s|
  {
    if |s| > 0 && NoBacktick(s) {
      StripWithoutBacktick(s[1..], withDiff);
    }
  }

  /** A text without fences is left as it is by both replacements. */
  lemma {:induction false} StripWithoutFence(s: string, withDiff: bool)
    ensures NoFence(s) ==> StripFences(s, withDiff) == s
    ensures NoFence(s) ==> RemoveDiffFences(s) == s
    decreases |s|
  {
    if |s| > 0 && NoFence(s) {
      assert !FenceAt(s[0..]);
      assert s[0..] == s;
      forall i | 0 <= i < |s[1..]| ensures !FenceAt(s[1..][i..]) {
        assert s[1..][i..] == s[i + 1..];
      }
      StripWithoutFence(s[1..], withDiff);
    }
  }

  /** An infix of a text without fences has none: trimming keeps the property. */
  lemma NoFenceInfix(s: string, a: nat, b: nat)
    requires a <= b <= |s| && NoFence(s)
    ensures NoFence(s[a..b])
  {
    var t := s[a..b];
    forall i | 0 <= i < |t| ensures !FenceAt(t[i..]) {
      if FenceAt(t[i..]) {
        assert t[i] == s[a + i] && t[i + 1] == s[a + i + 1] && t[i + 2] == s[a + i + 2];
        assert FenceAt(s[a + i..]);
      }
    }
  }

  lemma NoFenceTrim(s: string)
    requires NoFence(s)
    ensures NoFence(Trim(s))
  {
    TrimIsInfix(s);
    NoFenceInfix(s, LeadingWhitespace(s), LeadingWhitespace(s) + |Trim(s)|);
  }

  /** The two services disagree on four backticks followed by `diff`: the single
      alternation leaves "`diff", the two passes leave "`". */
  lemma PassesDisagree()
    ensures StripFences("````diff", true) == "`diff"
    ensures StripFences(RemoveDiffFences("````diff"), false) == "`"
  {
    var s := "````diff";
    assert FenceAt(s) && !DiffFenceAt(s);
    assert s[3..] == "`diff";
    assert !FenceAt("`diff");
    assert "`diff"[1..] == "diff";
    StripWithoutBacktick("diff", true);
    assert DiffFenceAt(s[1..]);
    assert s[1..][7..] == "";
    assert RemoveDiffFences(s) == "`";
    assert !FenceAt("`");
  }
}
