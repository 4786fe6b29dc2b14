/** Broker symbols as the runtime normalises and filters them. */
module Symbols {

  /** ASCII white space, as `str.strip` removes it. */
  predicate IsSpace(c: char) {
    9 <= c as int <= 13 || 28 <= c as int <= 32
  }

  function UpperChar(c: char): char {
    if 'a' <= c <= 'z' then (c as int - 32) as char else c
  }

  function Upper(s: string): string {
    if s == "" then "" else [UpperChar(s[0])] + Upper(s[1..])
  }

  function LowerChar(c: char): char {
    if 'A' <= c <= 'Z' then (c as int + 32) as char else c
  }

  function Lower(s: string): string {
    if s == "" then "" else [LowerChar(s[0])] + Lower(s[1..])
  }

  function StripLeft(s: string): string {
    if s == "" then "" else if IsSpace(s[0]) then StripLeft(s[1..]) else s
  }

  function StripRight(s: string): string {
    if s == "" then "" else if IsSpace(s[|s| - 1]) then StripRight(s[..|s| - 1]) else s
  }

  function Strip(s: string): string {
    StripRight(StripLeft(s))
  }

  function Normalize(s: string): string {
    Upper(Strip(s))
  }

  /** Context-only instruments are read but never traded. */
  predicate IsOperable(s: string) {
    Normalize(s) != "" && Normalize(s) !in {"VIX", "USDOLLAR"}
  }

  /** What `subscribe`, the chart registry and the desks accept as a symbol. */
  predicate Tradable(s: string) {
    Normalize(s) == s && IsOperable(s)
  }

  lemma {:induction false} UpperAt(s: string)
    ensures |Upper(s)| == |s|
    ensures forall i :: 0 <= i < |s| ==> Upper(s)[i] == UpperChar(s[i])
  {
    if s != "" { UpperAt(s[1..]); }
  }

  lemma UpperIdempotent(s: string)
    ensures Upper(Upper(s)) == Upper(s)
  {
    UpperAt(s);
    UpperAt(Upper(s));
  }

  lemma {:induction false} LowerIdempotent(s: string)
    ensures Lower(Lower(s)) == Lower(s)
  {
    if s != "" { LowerIdempotent(s[1..]); }
  }

  lemma {:induction false} StripLeftIs(s: string)
    ensures var r := StripLeft(s); |r| <= |s| && r == s[|s| - |r|..] && (r == "" || !IsSpace(r[0]))
  {
    if s != "" { StripLeftIs(s[1..]); }
  }

  lemma {:induction false} StripRightIs(s: string)
    ensures var r := StripRight(s); r <= s && (r == "" || !IsSpace(r[|r| - 1]))
  {
    if s != "" { StripRightIs(s[..|s| - 1]); }
  }

  /** Normalising is a projection, so a symbol may pass through it any number of times. */
  lemma NormalizeIdempotent(s: string)
    ensures Normalize(Normalize(s)) == Normalize(s)
    ensures IsOperable(Normalize(s)) <==> IsOperable(s)
  {
    var l := StripLeft(s);
    var t := StripRight(l);
    StripLeftIs(s);
    StripRightIs(l);
    assert t != "" ==> t[0] == l[0];
    var u := Upper(t);
    UpperAt(t);
    UpperIdempotent(t);
    assert u != "" ==> !IsSpace(u[0]) && !IsSpace(u[|u| - 1]);
    assert StripLeft(u) == u && StripRight(u) == u;
  }

  /** What is left has no space at its ends and no small letter. */
  lemma NormalIsPlain(s: string)
    ensures var n := Normalize(s);
      && (n != "" ==> !IsSpace(n[0]) && !IsSpace(n[|n| - 1]))
      && forall i :: 0 <= i < |n| ==> !('a' <= n[i] <= 'z')
  {
    var l := StripLeft(s);
    var t := StripRight(l);
    StripLeftIs(s);
    StripRightIs(l);
    assert t != "" ==> t[0] == l[0];
    UpperAt(t);
  }

  lemma {:induction false} StripLeftAppend(s: string, c: char)
    requires IsSpace(c)
    ensures StripLeft(s + [c]) == if StripLeft(s) == "" then "" else StripLeft(s) + [c]
  {
    if s != "" {
      assert (s + [c])[1..] == s[1..] + [c];
      StripLeftAppend(s[1..], c);
    } else {
      assert s + [c] == [c];
    }
  }

  /** Space around a name does not matter. */
  lemma StripIgnoresSpace(s: string, c: char)
    requires IsSpace(c)
    ensures Strip([c] + s) == Strip(s) && Strip(s + [c]) == Strip(s)
  {
    assert ([c] + s)[1..] == s;
    StripLeftAppend(s, c);
    var l := StripLeft(s);
    assert (l + [c])[..|l|] == l;
  }

  lemma {:induction false} StripLeftOfUpper(s: string)
    ensures StripLeft(Upper(s)) == Upper(StripLeft(s))
  {
    if s != "" { StripLeftOfUpper(s[1..]); }
  }

  lemma {:induction false} UpperAppend(s: string, c: char)
    ensures Upper(s + [c]) == Upper(s) + [UpperChar(c)]
  {
    if s != "" {
      assert (s + [c])[1..] == s[1..] + [c];
      UpperAppend(s[1..], c);
    } else {
      assert s + [c] == [c] && [c][1..] == "";
    }
  }

  lemma {:induction false} StripRightOfUpper(s: string)
    ensures StripRight(Upper(s)) == Upper(StripRight(s))
  {
    if s != "" {
      var n := |s| - 1;
      UpperAppend(s[..n], s[n]);
      assert s == s[..n] + [s[n]];
      assert Upper(s)[..|Upper(s)| - 1] == Upper(s[..n]);
      StripRightOfUpper(s[..n]);
    }
  }

  /** Nor does its case: two names that read the same in capitals are one symbol. */
  lemma NormalizeIgnoresCase(a: string, b: string)
    requires Upper(a) == Upper(b)
    ensures Normalize(a) == Normalize(b)
  {
    StripLeftOfUpper(a);
    StripRightOfUpper(StripLeft(a));
    StripLeftOfUpper(b);
    StripRightOfUpper(StripLeft(b));
  }

  lemma {:induction false} LowerOfUpper(s: string)
    ensures Lower(Upper(s)) == Lower(s)
  {
    if s != "" { LowerOfUpper(s[1..]); }
  }

  /** The same of names read in small letters. */
  lemma LowerIgnoresCase(a: string, b: string)
    requires Upper(a) == Upper(b)
    ensures Lower(Strip(a)) == Lower(Strip(b))
  {
    StripLeftOfUpper(a);
    StripRightOfUpper(StripLeft(a));
    LowerOfUpper(Strip(a));
    StripLeftOfUpper(b);
    StripRightOfUpper(StripLeft(b));
    LowerOfUpper(Strip(b));
  }
}
