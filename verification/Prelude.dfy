/** Vocabulary shared by every table of the model. */
module Prelude {

  datatype Option<+T> = None | Some(value: T)

  /** A clock reading. Only the order of readings matters. */
  type Time = int

  /** The digest under which a bearer token is stored. */
  type Hash = string

  /** The identifier shared by all rotations of one login. */
  type FamilyId = string

  /** The characters that `str.strip` removes. */
  predicate IsSpace(c: char) {
    || '\t' <= c <= '\r'
    || '\U{1C}' <= c <= ' '
    || c in {'\U{85}', '\U{A0}', '\U{1680}', '\U{2028}', '\U{2029}', '\U{202F}', '\U{205F}', '\U{3000}'}
    || '\U{2000}' <= c <= '\U{200A}'
  }

  predicate Blank(s: string) {
    forall i :: 0 <= i < |s| ==> IsSpace(s[i])
  }

  /** `s == s.strip()`. */
  predicate Stripped(s: string) {
    s != "" ==> !IsSpace(s[0]) && !IsSpace(s[|s| - 1])
  }

  function TrimLeft(s: string): (r: string)
    ensures r != "" ==> !IsSpace(r[0])
    ensures r == "" <==> Blank(s)
    decreases |s|
  {
    if s != "" && IsSpace(s[0]) then
      assert s == [s[0]] + s[1..];
      TrimLeft(s[1..])
    else s
  }

  function TrimRight(s: string): (r: string)
    ensures r <= s && (r != "" ==> !IsSpace(r[|r| - 1]))
    ensures r == "" <==> Blank(s)
    decreases |s|
  {
    if s != "" && IsSpace(s[|s| - 1]) then TrimRight(s[..|s| - 1]) else s
  }

  /** `s.strip()`. */
  function Strip(s: string): (r: string)
    ensures Stripped(r) && (r == "" <==> Blank(s))
  {
    TrimRight(TrimLeft(s))
  }

  lemma {:induction false} TrimLeftCuts(s: string)
    ensures var r := TrimLeft(s); |r| <= |s| && s[|s| - |r|..] == r && Blank(s[..|s| - |r|])
    decreases |s|
  {
    if s != "" && IsSpace(s[0]) {
      TrimLeftCuts(s[1..]);
    }
  }

  lemma {:induction false} TrimRightCuts(s: string)
    ensures Blank(s[|TrimRight(s)|..])
    decreases |s|
  {
    if s != "" && IsSpace(s[|s| - 1]) {
      TrimRightCuts(s[..|s| - 1]);
      var n := |TrimRight(s)|;
      assert s[n..] == s[..|s| - 1][n..] + [s[|s| - 1]];
    }
  }

  lemma Rejoin(s: string, n: nat, t: string, r: string)
    requires n <= |s| && s[n..] == t && r <= t && Blank(s[..n]) && Blank(t[|r|..])
    ensures Between(s, s[..n], r, t[|r|..])
  {
    assert t == r + t[|r|..];
    assert s == s[..n] + t;
  }

  /** `r` lies between white space. */
  predicate Between(s: string, a: string, r: string, b: string) {
    s == a + r + b && Blank(a) && Blank(b)
  }

  /** Stripping leaves what lies between the white space at both ends. */
  lemma {:induction false} StripCuts(s: string) returns (a: string, b: string)
    ensures Between(s, a, Strip(s), b)
  {
    var t := TrimLeft(s);
    var r := TrimRight(t);
    TrimLeftCuts(s);
    TrimRightCuts(t);
    Rejoin(s, |s| - |t|, t, r);
    a, b := s[..|s| - |t|], t[|r|..];
  }

  lemma SameStart(s: string, m: nat, n: nat)
    requires m < |s| && n < |s| && !IsSpace(s[m]) && !IsSpace(s[n]) && Blank(s[..m]) && Blank(s[..n])
    ensures m == n
  {
  }

  lemma SameEnd(s: string, m: nat, n: nat)
    requires 0 < m <= |s| && 0 < n <= |s| && !IsSpace(s[m - 1]) && !IsSpace(s[n - 1]) && Blank(s[m..]) && Blank(s[n..])
    ensures m == n
  {
  }

  lemma InTheMiddle(s: string, a: string, r: string, b: string)
    requires Between(s, a, r, b) && r != "" && Stripped(r)
    ensures |a| < |s| && !IsSpace(s[|a|]) && Blank(s[..|a|])
    ensures !IsSpace(s[|a| + |r| - 1]) && Blank(s[|a| + |r|..]) && s[|a|..|a| + |r|] == r
    ensures !Blank(s)
  {
    assert s[|a|] == r[0] && s[|a| + |r| - 1] == r[|r| - 1];
    assert s[..|a|] == a && s[|a| + |r|..] == b;
  }

  /** So it is the one text without white space at its ends that is left between white space. */
  lemma {:induction false} StripIs(s: string, a: string, r: string, b: string)
    requires Between(s, a, r, b) && r != "" && Stripped(r)
    ensures Strip(s) == r
  {
    var x, y := StripCuts(s);
    var q := Strip(s);
    InTheMiddle(s, a, r, b);
    InTheMiddle(s, x, q, y);
    SameStart(s, |a|, |x|);
    SameEnd(s, |a| + |r|, |x| + |q|);
  }

  function Min(a: int, b: int): int {
    if a < b then a else b
  }
}
