/** The e-mail check shared by the login and registration forms:
    `/\S+@\S+\.\S+/.test(email)`. `RegExp.prototype.test` is unanchored, so
    the pattern may match anywhere in the string. */
module EmailPattern {
  import opened Text

  /** No whitespace in `s[i..j]`. */
  predicate NonSpaceRange(s: string, i: int, j: int)
    requires 0 <= i && j <= |s|
  {
    forall k :: i <= k < j ==> !IsSpace(s[k])
  }

  /** `s[a..e]` is a match of `\S+@\S+\.\S+` with the `@` at `p` and the
      `.` at `d`: each `\S+` is a non-empty run of non-whitespace. */
  predicate MatchShape(s: string, a: int, p: int, d: int, e: int) {
    0 <= a < p && p + 1 < d && d + 1 < e <= |s| &&
    NonSpaceRange(s, a, p) && s[p] == '@' &&
    NonSpaceRange(s, p + 1, d) && s[d] == '.' &&
    NonSpaceRange(s, d + 1, e)
  }

  /** The regular expression matches somewhere in `s`: the meaning of `test`. */
  ghost predicate Matches(s: string) {
    exists a, p, d, e :: MatchShape(s, a, p, d, e)
  }

  /** A `.` at `d` completes a match whose `@` is at `p`. */
  predicate DotAt(s: string, p: int, d: int) {
    0 <= p && p + 1 < d && d + 1 < |s| &&
    NonSpaceRange(s, p + 1, d) && s[d] == '.' && !IsSpace(s[d + 1])
  }

  /** Looks for a `.` at `d` or later that completes a match whose `@` is at
      `p`, given that `s[p+1..d-1]` holds no whitespace. */
  function DotFrom(s: string, p: nat, d: nat): bool
    requires p + 2 <= d
    requires d - 1 <= |s| && NonSpaceRange(s, p + 1, d - 1)
    decreases |s| - d
  {
    if d + 1 >= |s| then false
    else if IsSpace(s[d - 1]) then false
    else if s[d] == '.' && !IsSpace(s[d + 1]) then true
    else DotFrom(s, p, d + 1)
  }

  /** An `@` at `p` with a non-space character before it starts a match. */
  predicate AtFrom(s: string, p: nat)
    requires p < |s|
  {
    s[p] == '@' && p > 0 && !IsSpace(s[p - 1]) && DotFrom(s, p, p + 2)
  }

  /** Some position `p` or later starts a match. */
  function ScanFrom(s: string, p: nat): bool
    decreases |s| - p
  {
    if p >= |s| then false else AtFrom(s, p) || ScanFrom(s, p + 1)
  }

  /** `/\S+@\S+\.\S+/.test(s)`. */
  function EmailPatternTest(s: string): bool {
    ScanFrom(s, 0)
  }

  lemma {:induction false} DotFromSound(s: string, p: nat, d: nat)
    requires p + 2 <= d
    requires d - 1 <= |s| && NonSpaceRange(s, p + 1, d - 1)
    requires DotFrom(s, p, d)
    ensures exists d' :: DotAt(s, p, d')
    decreases |s| - d
  {
    if s[d] == '.' && !IsSpace(s[d + 1]) {
      assert DotAt(s, p, d);
    } else {
      DotFromSound(s, p, d + 1);
    }
  }

  lemma {:induction false} DotFromComplete(s: string, p: nat, d: nat, d': int)
    requires p + 2 <= d <= d'
    requires d - 1 <= |s| && NonSpaceRange(s, p + 1, d - 1)
    requires DotAt(s, p, d')
    ensures DotFrom(s, p, d)
    decreases |s| - d
  {
    if d < d' {
      assert !(s[d] == '.' && !IsSpace(s[d + 1])) ==> DotFrom(s, p, d) == DotFrom(s, p, d + 1);
      if !(s[d] == '.' && !IsSpace(s[d + 1])) {
        DotFromComplete(s, p, d + 1, d');
      }
    }
  }

  lemma {:induction false} ScanFromSound(s: string, p: nat)
    requires ScanFrom(s, p)
    ensures Matches(s)
    decreases |s| - p
  {
    if AtFrom(s, p) {
      DotFromSound(s, p, p + 2);
      var d :| DotAt(s, p, d);
      assert MatchShape(s, p - 1, p, d, d + 2);
    } else {
      ScanFromSound(s, p + 1);
    }
  }

  lemma {:induction false} ScanFromComplete(s: string, q: nat, a: int, p: int, d: int, e: int)
    requires MatchShape(s, a, p, d, e) && q <= p
    ensures ScanFrom(s, q)
    decreases p - q
  {
    if q < p {
      ScanFromComplete(s, q + 1, a, p, d, e);
    } else {
      assert DotAt(s, p, d);
      DotFromComplete(s, p, p + 2, d);
    }
  }

  /** The checker decides exactly the regular expression's `test`. */
  lemma EmailPatternTestCorrect(s: string)
    ensures EmailPatternTest(s) <==> Matches(s)
  {
    if EmailPatternTest(s) {
      ScanFromSound(s, 0);
    }
    if Matches(s) {
      var a, p, d, e :| MatchShape(s, a, p, d, e);
      ScanFromComplete(s, 0, a, p, d, e);
    }
  }

  /** The examples: `a@b.c` passes, `a@b` and `a @b.c` fail. */
  lemma EmailPatternExamples()
    ensures Matches("a@b.c")
    ensures !Matches("a@b")
    ensures !Matches("a @b.c")
  {
    assert MatchShape("a@b.c", 0, 1, 3, 5);
    EmailPatternTestCorrect("a@b");
    EmailPatternTestCorrect("a @b.c");
  }
}
