/**
 * The one piece of `java.lang.String` the tracker relies on: `trim()`, which
 * removes every leading and trailing character whose code is at most U+0020
 * (space and all the control characters). Every console line the tracker
 * reads is trimmed before it is inspected.
 */
module JavaString {

  /** A character `trim()` strips from either end. */
  predicate IsBlank(c: char) {
    c <= ' '
  }

  /** `s` with its leading blanks removed. */
  function TrimStart(s: string): (r: string) {
    if s != [] && IsBlank(s[0]) then TrimStart(s[1..]) else s
  }

  /** `s` with its trailing blanks removed. */
  function TrimEnd(s: string): (r: string) {
    if s != [] && IsBlank(s[|s| - 1]) then TrimEnd(s[..|s| - 1]) else s
  }

  /** `String.trim()`. */
  function Trim(s: string): (r: string) {
    TrimEnd(TrimStart(s))
  }

  lemma {:induction false} TrimStartBlank(s: string)
    ensures TrimStart(s) == [] <==> forall i | 0 <= i < |s| :: IsBlank(s[i])
    ensures TrimStart(s) != [] ==> !IsBlank(TrimStart(s)[0])
    ensures TrimStart(s) != [] && s != [] ==> TrimStart(s)[|TrimStart(s)| - 1] == s[|s| - 1]
  {
    if s != [] && IsBlank(s[0]) {
      TrimStartBlank(s[1..]);
      assert forall i | 1 <= i < |s| :: s[i] == s[1..][i - 1];
    }
  }

  lemma {:induction false} TrimEndBlank(s: string)
    ensures TrimEnd(s) == [] <==> forall i | 0 <= i < |s| :: IsBlank(s[i])
    ensures TrimEnd(s) != [] ==> !IsBlank(TrimEnd(s)[|TrimEnd(s)| - 1])
    ensures TrimEnd(s) != [] && s != [] ==> TrimEnd(s)[0] == s[0]
  {
    if s != [] && IsBlank(s[|s| - 1]) {
      TrimEndBlank(s[..|s| - 1]);
      assert forall i | 0 <= i < |s| - 1 :: s[i] == s[..|s| - 1][i];
    }
  }

  lemma {:induction false} TrimStartSuffix(s: string) returns (a: nat)
    ensures a <= |s| && TrimStart(s) == s[a..]
    ensures forall i | 0 <= i < a :: IsBlank(s[i])
  {
    if s != [] && IsBlank(s[0]) {
      var a' := TrimStartSuffix(s[1..]);
      a := a' + 1;
      assert s[1..][a'..] == s[a..];
      assert forall i | 1 <= i < a :: s[i] == s[1..][i - 1];
    } else {
      a := 0;
    }
  }

  lemma {:induction false} TrimEndPrefix(s: string) returns (b: nat)
    ensures b <= |s| && TrimEnd(s) == s[..b]
    ensures forall i | b <= i < |s| :: IsBlank(s[i])
  {
    if s != [] && IsBlank(s[|s| - 1]) {
      b := TrimEndPrefix(s[..|s| - 1]);
      assert s[..|s| - 1][..b] == s[..b];
      assert forall i | b <= i < |s| - 1 :: s[i] == s[..|s| - 1][i];
    } else {
      b := |s|;
    }
  }

  /**
   * `trim()` returns the infix of the line left once its leading and its
   * trailing blanks are cut off; with `TrimEnds` this fixes the result.
   */
  lemma TrimInfix(s: string)
    ensures exists a, b :: (0 <= a <= b <= |s| && Trim(s) == s[a..b] &&
                            (forall i | 0 <= i < a :: IsBlank(s[i])) &&
                            (forall i | b <= i < |s| :: IsBlank(s[i])))
  {
    var a := TrimStartSuffix(s);
    var b := TrimEndPrefix(s[a..]);
    assert s[a..][..b] == s[a..a + b];
    assert forall i | a + b <= i < |s| :: s[i] == s[a..][i - a];
    assert Trim(s) == s[a..a + b];
  }

  /** A line trims to the empty string exactly when it holds nothing but blanks. */
  lemma TrimEmptyIff(s: string)
    ensures Trim(s) == [] <==> forall i | 0 <= i < |s| :: IsBlank(s[i])
  {
    TrimStartBlank(s);
    TrimEndBlank(TrimStart(s));
  }

  /** A non-empty trimmed line starts and ends with a non-blank character. */
  lemma TrimEnds(s: string)
    ensures Trim(s) != [] ==> !IsBlank(Trim(s)[0]) && !IsBlank(Trim(s)[|Trim(s)| - 1])
  {
    TrimStartBlank(s);
    TrimEndBlank(TrimStart(s));
  }

  /** A line that neither starts nor ends with a blank is its own trim. */
  lemma TrimClean(s: string)
    requires s == [] || (!IsBlank(s[0]) && !IsBlank(s[|s| - 1]))
    ensures Trim(s) == s
  {
  }

  /** Trimming twice is trimming once. */
  lemma TrimIdempotent(s: string)
    ensures Trim(Trim(s)) == Trim(s)
  {
    TrimEnds(s);
    TrimClean(Trim(s));
  }
}
