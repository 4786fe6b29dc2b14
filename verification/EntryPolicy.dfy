/** The fast desk's own gate before a new position: duplicates, caps and side concentration. */
module EntryPolicy {
  import Symbols

  /** A position's side, as a broker code or as text. */
  datatype Side = Code(code: int) | Text(text: string)

  datatype Open = Open(symbol: string, side: Side)

  datatype Caps = Caps(perSymbol: int, total: int)

  datatype Verdict = Allowed | DuplicateSide | SymbolCap | TotalCap | Concentrated

  function SideName(s: Side): string {
    match s
    case Code(c) => if c == 0 then "buy" else "sell"
    case Text(t) => Symbols.Lower(t)
  }

  function SymbolName(p: Open): string {
    Symbols.Upper(p.symbol)
  }

  function SymbolCount(ps: seq<Open>, symbol: string): nat {
    if ps == [] then 0
    else SymbolCount(ps[..|ps| - 1], symbol) + (if SymbolName(ps[|ps| - 1]) == symbol then 1 else 0)
  }

  function SideCount(ps: seq<Open>, side: string): nat {
    if ps == [] then 0
    else SideCount(ps[..|ps| - 1], side) + (if SideName(ps[|ps| - 1].side) == side then 1 else 0)
  }

  predicate Same(p: Open, symbol: string, side: string) {
    SymbolName(p) == symbol && SideName(p.side) == side
  }

  predicate Duplicate(ps: seq<Open>, symbol: string, side: string) {
    exists i :: 0 <= i < |ps| && Same(ps[i], symbol, side)
  }

  /** The first objection to opening (symbol, side), for names already in normal form. */
  function Judged(ps: seq<Open>, symbol: string, side: string, caps: Caps): Verdict {
    if Duplicate(ps, symbol, side) then DuplicateSide
    else if SymbolCount(ps, symbol) >= caps.perSymbol then SymbolCap
    else if |ps| >= caps.total then TotalCap
    else if |ps| >= 3 && 10 * SideCount(ps, side) >= 7 * |ps| then Concentrated
    else Allowed
  }

  method HasDuplicate(ps: seq<Open>, symbol: string, side: string) returns (found: bool)
    ensures found <==> Duplicate(ps, symbol, side)
  {
    for i := 0 to |ps|
      invariant forall k :: 0 <= k < i ==> !Same(ps[k], symbol, side)
    {
      assert Same(ps[i], symbol, side) <==> SymbolName(ps[i]) == symbol && SideName(ps[i].side) == side;
      if SymbolName(ps[i]) == symbol && SideName(ps[i].side) == side { return true; }
    }
    found := false;
  }

  method CountSymbol(ps: seq<Open>, symbol: string) returns (n: nat)
    ensures n == SymbolCount(ps, symbol)
  {
    n := 0;
    for i := 0 to |ps|
      invariant n == SymbolCount(ps[..i], symbol)
    {
      assert ps[..i + 1][..i] == ps[..i];
      if SymbolName(ps[i]) == symbol { n := n + 1; }
    }
    assert ps[..|ps|] == ps;
  }

  method CountSide(ps: seq<Open>, side: string) returns (n: nat)
    ensures n == SideCount(ps, side)
  {
    n := 0;
    for i := 0 to |ps|
      invariant n == SideCount(ps[..i], side)
    {
      assert ps[..i + 1][..i] == ps[..i];
      if SideName(ps[i].side) == side { n := n + 1; }
    }
    assert ps[..|ps|] == ps;
  }

  /** `can_open`. */
  method CanOpen(symbol: string, side: string, ps: seq<Open>, caps: Caps) returns (v: Verdict)
    ensures v == Judged(ps, Symbols.Upper(symbol), Symbols.Lower(side), caps)
  {
    var sideNorm, symbolNorm := Symbols.Lower(side), Symbols.Upper(symbol);
    var duplicate := HasDuplicate(ps, symbolNorm, sideNorm);
    if duplicate { return DuplicateSide; }
    var symbolCount := CountSymbol(ps, symbolNorm);
    if symbolCount >= caps.perSymbol { return SymbolCap; }
    if |ps| >= caps.total { return TotalCap; }
    if |ps| >= 3 {
      var sameSide := CountSide(ps, sideNorm);
      if 10 * sameSide >= 7 * |ps| { return Concentrated; }
    }
    v := Allowed;
  }

  /** ps was opened one position at a time, each let in by the policy. */
  predicate Built(ps: seq<Open>, caps: Caps) {
    ps != [] ==>
      var init, p := ps[..|ps| - 1], ps[|ps| - 1];
      Built(init, caps) && Judged(init, SymbolName(p), SideName(p.side), caps) == Allowed
  }

  /** An admitted book respects both caps and never holds the same symbol and side twice. */
  lemma {:induction false} BuiltWithinCaps(ps: seq<Open>, caps: Caps, symbol: string)
    requires Built(ps, caps)
    ensures ps != [] ==> |ps| <= caps.total
    ensures SymbolCount(ps, symbol) > 0 ==> SymbolCount(ps, symbol) <= caps.perSymbol
    ensures forall i, j :: 0 <= i < j < |ps| ==>
      SymbolName(ps[i]) != SymbolName(ps[j]) || SideName(ps[i].side) != SideName(ps[j].side)
  {
    if ps != [] {
      var init, p := ps[..|ps| - 1], ps[|ps| - 1];
      BuiltWithinCaps(init, caps, symbol);
      forall i, j | 0 <= i < j < |ps|
        ensures SymbolName(ps[i]) != SymbolName(ps[j]) || SideName(ps[i].side) != SideName(ps[j].side)
      {
        assert init[i] == ps[i];
        if j == |ps| - 1 {
          assert !Duplicate(init, SymbolName(p), SideName(p.side));
        } else {
          assert init[j] == ps[j];
        }
      }
    }
  }

  lemma {:induction false} SideCountBound(ps: seq<Open>, side: string)
    ensures SideCount(ps, side) <= |ps|
  {
    if ps != [] { SideCountBound(ps[..|ps| - 1], side); }
  }

  /** From four positions on, no side of an admitted book holds seven tenths of it or more, but
      for the position that took it there. */
  lemma {:induction false} BuiltIsBalanced(ps: seq<Open>, caps: Caps, side: string)
    requires Built(ps, caps) && |ps| >= 4
    ensures 10 * SideCount(ps, side) < 7 * |ps| + 3
  {
    var init := ps[..|ps| - 1];
    if |init| >= 4 {
      BuiltIsBalanced(init, caps, side);
    } else {
      SideCountBound(init, side);
    }
  }

  // ---- The bound is attained ----

  function Letters(n: nat): (s: string)
    ensures |s| == n
  {
    seq(n, _ => 'A')
  }

  function Leant(buys: bool, n: nat): Open { Open(Letters(n), Code(if buys then 0 else 1)) }

  /** k is the largest count of one side that the balance bound leaves a book of n positions. */
  predicate Fullest(k: int, n: int) { 10 * k < 7 * n + 3 <= 10 * (k + 1) }

  /** Every symbol of the book is a new one. */
  ghost predicate Lettered(ps: seq<Open>) {
    forall i :: 0 <= i < |ps| ==> ps[i].symbol == Letters(i + 1)
  }

  /** k buys and l sells are as one-sided as a book of n positions can be. */
  predicate OneSided(k: nat, l: nat, n: nat) {
    k + l == n && if n <= 3 then k == n else Fullest(k, n)
  }

  lemma {:induction false} UpperLength(s: string)
    ensures |Symbols.Upper(s)| == |s|
  {
    if s != "" { UpperLength(s[1..]); }
  }

  lemma LettersDiffer(i: nat, j: nat)
    requires i != j
    ensures Symbols.Upper(Letters(i)) != Symbols.Upper(Letters(j))
  {
    UpperLength(Letters(i));
    UpperLength(Letters(j));
  }

  lemma {:induction false} NoneOfSymbol(ps: seq<Open>, symbol: string)
    requires forall i :: 0 <= i < |ps| ==> SymbolName(ps[i]) != symbol
    ensures SymbolCount(ps, symbol) == 0
  {
    if ps != [] { NoneOfSymbol(ps[..|ps| - 1], symbol); }
  }

  lemma NextSymbolIsNew(ps: seq<Open>, symbol: string)
    requires Lettered(ps) && symbol == Symbols.Upper(Letters(|ps| + 1))
    ensures SymbolCount(ps, symbol) == 0 && forall side :: !Duplicate(ps, symbol, side)
  {
    forall i | 0 <= i < |ps| ensures SymbolName(ps[i]) != symbol { LettersDiffer(i + 1, |ps| + 1); }
    NoneOfSymbol(ps, symbol);
  }

  lemma SidesAppend(ps: seq<Open>, p: Open, side: string)
    ensures SideCount(ps + [p], side) == SideCount(ps, side) + (if SideName(p.side) == side then 1 else 0)
  {
    assert (ps + [p])[..|ps|] == ps;
  }

  lemma BuiltAppend(ps: seq<Open>, p: Open, caps: Caps)
    requires Built(ps, caps) && Judged(ps, SymbolName(p), SideName(p.side), caps) == Allowed
    ensures Built(ps + [p], caps)
  {
    assert (ps + [p])[..|ps|] == ps;
  }

  /** The next position is a buy if the policy lets one in. */
  function NextBuys(k: nat, n: nat): bool { n < 3 || 10 * k < 7 * n }

  lemma NextIsAllowed(ps: seq<Open>, buy: bool, k: nat, l: nat, caps: Caps)
    requires Lettered(ps) && |ps| < caps.total && caps.perSymbol >= 1
    requires k == SideCount(ps, "buy") && l == SideCount(ps, "sell") && OneSided(k, l, |ps|)
    requires buy == NextBuys(k, |ps|)
    ensures var p := Leant(buy, |ps| + 1); Judged(ps, SymbolName(p), SideName(p.side), caps) == Allowed
  {
    NextSymbolIsNew(ps, Symbols.Upper(Letters(|ps| + 1)));
  }

  /** A book of k buys and l sells that the policy let in, as one-sided as can be. */
  ghost predicate Leaning(ps: seq<Open>, k: nat, l: nat, caps: Caps) {
    && Built(ps, caps) && Lettered(ps) && OneSided(k, l, |ps|)
    && k == SideCount(ps, "buy") && l == SideCount(ps, "sell")
  }

  lemma LeaningStep(ps: seq<Open>, k: nat, l: nat, buy: bool, p: Open, caps: Caps)
    requires Leaning(ps, k, l, caps) && |ps| < caps.total && caps.perSymbol >= 1
    requires buy == NextBuys(k, |ps|) && p == Leant(buy, |ps| + 1)
    ensures Leaning(ps + [p], if buy then k + 1 else k, if buy then l else l + 1, caps)
  {
    NextIsAllowed(ps, buy, k, l, caps);
    BuiltAppend(ps, p, caps);
    SidesAppend(ps, p, "buy");
    SidesAppend(ps, p, "sell");
  }

  lemma {:induction false} LeaningBook(n: nat, caps: Caps) returns (ps: seq<Open>, k: nat, l: nat)
    requires n <= caps.total && caps.perSymbol >= 1
    ensures Leaning(ps, k, l, caps) && |ps| == n
  {
    if n == 0 { return [], 0, 0; }
    ps, k, l := LeaningBook(n - 1, caps);
    var buy := NextBuys(k, n - 1);
    var p := Leant(buy, n);
    LeaningStep(ps, k, l, buy, p, caps);
    ps, k, l := ps + [p], if buy then k + 1 else k, if buy then l else l + 1;
  }

  /** Under any caps that let n positions in, n >= 4, the policy admits a book that holds as many
      of one side as the balance bound allows. */
  lemma BalanceIsAttained(n: nat, caps: Caps)
    requires 4 <= n <= caps.total && caps.perSymbol >= 1
    ensures exists ps: seq<Open> :: Built(ps, caps) && |ps| == n && Fullest(SideCount(ps, "buy"), n)
  {
    var ps, k, l := LeaningBook(n, caps);
  }

  // ---- The verdict ----

  /** Each objection on its own. */
  predicate Objects(v: Verdict, ps: seq<Open>, symbol: string, side: string, caps: Caps) {
    match v
    case DuplicateSide => exists p :: p in ps && SymbolName(p) == symbol && SideName(p.side) == side
    case SymbolCap => SymbolCount(ps, symbol) >= caps.perSymbol
    case TotalCap => |ps| >= caps.total
    case Concentrated => |ps| >= 3 && 10 * SideCount(ps, side) >= 7 * |ps|
    case Allowed => true
  }

  function VerdictRank(v: Verdict): nat {
    match v
    case DuplicateSide => 0
    case SymbolCap => 1
    case TotalCap => 2
    case Concentrated => 3
    case Allowed => 4
  }

  /** The verdict is the first objection there is, and allowed if there is none. */
  lemma VerdictIsFirst(ps: seq<Open>, symbol: string, side: string, caps: Caps, v: Verdict)
    ensures v == Judged(ps, symbol, side, caps) <==>
      && Objects(v, ps, symbol, side, caps)
      && forall w :: VerdictRank(w) < VerdictRank(v) ==> !Objects(w, ps, symbol, side, caps)
  {
    DuplicateIs(ps, symbol, side);
    var r := Judged(ps, symbol, side, caps);
    assert Objects(r, ps, symbol, side, caps);
    forall w | VerdictRank(w) < VerdictRank(r) ensures !Objects(w, ps, symbol, side, caps) {
      match w
      case DuplicateSide =>
      case SymbolCap =>
      case TotalCap =>
      case Concentrated =>
      case Allowed =>
    }
    if v != r { assert VerdictRank(v) < VerdictRank(r) || VerdictRank(r) < VerdictRank(v); }
  }

  lemma DuplicateIs(ps: seq<Open>, symbol: string, side: string)
    ensures Duplicate(ps, symbol, side) <==> exists p :: p in ps && SymbolName(p) == symbol && SideName(p.side) == side
  {
    if p :| p in ps && SymbolName(p) == symbol && SideName(p.side) == side {
      var i :| 0 <= i < |ps| && ps[i] == p;
    }
  }
}
