/** The regular expressions the crawlers use, each written out by hand with
    the meaning a JavaScript regex engine gives it: the leftmost position at
    which the pattern matches wins; at that position the alternatives of the
    group are tried in order; a greedy repetition first takes the longest run
    and gives back one character at a time until the rest of the pattern
    matches. Character classes are those of a non-unicode JavaScript regex:
    `\d` is `[0-9]`, `\w` is `[A-Za-z0-9_]`, and the `i` flag only folds ASCII
    letters. */
module Patterns {
  import opened Wrappers
  import opened Strings

  predicate IsDigit(c: char) { '0' <= c <= '9' }
  predicate IsUpper(c: char) { 'A' <= c <= 'Z' }
  predicate IsLetter(c: char) { IsUpper(c) || 'a' <= c <= 'z' }
  predicate IsWord(c: char) { IsLetter(c) || IsDigit(c) || c == '_' }

  /** The class `[A-Z]`, which the `i` flag widens to both cases. */
  predicate InLetters(c: char, ci: bool) {
    if ci then IsLetter(c) else IsUpper(c)
  }

  /** A literal character, compared without case under the `i` flag. */
  predicate SameChar(c: char, d: char, ci: bool) {
    if ci then LowerChar(c) == LowerChar(d) else c == d
  }

  // ---------------------------------------------------------------------
  // Maximal runs (what a greedy repetition takes before it backtracks)

  function DigitsEnd(s: string, i: nat): (j: nat)
    requires i <= |s|
    ensures i <= j <= |s|
    ensures forall k :: i <= k < j ==> IsDigit(s[k])
    ensures j == |s| || !IsDigit(s[j])
    decreases |s| - i
  {
    if i < |s| && IsDigit(s[i]) then DigitsEnd(s, i + 1) else i
  }

  function LettersEnd(s: string, i: nat, ci: bool): (j: nat)
    requires i <= |s|
    ensures i <= j <= |s|
    ensures forall k :: i <= k < j ==> InLetters(s[k], ci)
    ensures j == |s| || !InLetters(s[j], ci)
    decreases |s| - i
  {
    if i < |s| && InLetters(s[i], ci) then LettersEnd(s, i + 1, ci) else i
  }

  function WordEnd(s: string, i: nat): (j: nat)
    requires i <= |s|
    ensures i <= j <= |s|
    ensures forall k :: i <= k < j ==> IsWord(s[k])
    ensures j == |s| || !IsWord(s[j])
    decreases |s| - i
  {
    if i < |s| && IsWord(s[i]) then WordEnd(s, i + 1) else i
  }

  function NonSlashEnd(s: string, i: nat): (j: nat)
    requires i <= |s|
    ensures i <= j <= |s|
    ensures forall k :: i <= k < j ==> s[k] != '/'
    ensures j == |s| || s[j] == '/'
    decreases |s| - i
  {
    if i < |s| && s[i] != '/' then NonSlashEnd(s, i + 1) else i
  }

  // ---------------------------------------------------------------------
  // Pattern tails

  /** `\d{min,}` at `j`: the greedy run, when it is long enough. */
  function DigitsAt(s: string, j: nat, min: nat): (r: Option<nat>)
    requires j <= |s|
    ensures r.Some? ==> j + min <= r.value <= |s| && r.value == DigitsEnd(s, j)
  {
    var e := DigitsEnd(s, j);
    if e - j >= min then Some(e) else None
  }

  /** `-?\d{3,}` at `j`: the dash is taken when the digits after it suffice,
      otherwise the engine retries without it. */
  function DashDigitsAt(s: string, j: nat): (r: Option<nat>)
    requires j <= |s|
    ensures r.Some? ==> j + 3 <= r.value <= |s|
  {
    if j < |s| && s[j] == '-' && DigitsAt(s, j + 1, 3).Some? then DigitsAt(s, j + 1, 3)
    else DigitsAt(s, j, 3)
  }

  /** `[A-Z]{2,}` followed by the tail (`-?\d{3,}` when `dash`, `\d{3,}` otherwise),
      the letters starting at `i` and currently ending at `j`; the engine gives
      a letter back each time the tail fails. */
  function LettersThen(s: string, i: nat, j: nat, ci: bool, dash: bool): (r: Option<nat>)
    requires i <= j <= |s|
    ensures r.Some? ==> i + 2 < r.value <= |s|
    decreases j
  {
    if j < i + 2 then None
    else
      var tail := if dash then DashDigitsAt(s, j) else DigitsAt(s, j, 3);
      if tail.Some? then tail else LettersThen(s, i, j - 1, ci, dash)
  }

  /** `\w+\d{min,}`: the word run gives back characters until the digits match. */
  function WordThen(s: string, i: nat, j: nat, min: nat): (r: Option<nat>)
    requires i <= j <= |s|
    requires min >= 1
    ensures r.Some? ==> i + 1 < r.value <= |s|
    decreases j
  {
    if j < i + 1 then None
    else
      var tail := DigitsAt(s, j, min);
      if tail.Some? then tail else WordThen(s, i, j - 1, min)
  }

  /** `[^\/]+\-\d{3,}`: the non-slash run gives back characters until a dash
      followed by three digits is reached. */
  function NonSlashThen(s: string, i: nat, j: nat): (r: Option<nat>)
    requires i <= j <= |s|
    ensures r.Some? ==> i + 1 < r.value <= |s|
    decreases j
  {
    if j < i + 1 then None
    else if j < |s| && s[j] == '-' && DigitsAt(s, j + 1, 3).Some? then DigitsAt(s, j + 1, 3)
    else NonSlashThen(s, i, j - 1)
  }

  /** `lit` at `i`, character by character. */
  predicate LiteralAt(s: string, i: nat, lit: string, ci: bool) {
    i + |lit| <= |s| && forall k :: 0 <= k < |lit| ==> SameChar(s[i + k], lit[k], ci)
  }

  // ---------------------------------------------------------------------
  // The atoms that occur as alternatives of a group

  datatype Atom =
    | Code                // [A-Z]{2,}-?\d{3,}
    | LettersDigits       // [A-Z]{2,}\d{3,}
    | Fc2                 // fc2-ppv-\d{6,}
    | WordDigits(min: nat) // \w+\d{min,}, with min = 1 for \w+\d+
    | DashDigits          // [^\/]+\-\d{3,}
    | SixUnderscoreThree  // \d{6}_\d{3}
    | NonSlashRun         // [^\/]+
    | DigitsSlash         // \d+\/

  /** Where `a` ends when it matches at `i`; it never matches the empty string. */
  function AtomAt(a: Atom, s: string, i: nat, ci: bool): (r: Option<nat>)
    requires i <= |s|
    ensures r.Some? ==> i < r.value <= |s|
  {
    match a
    case Code => LettersThen(s, i, LettersEnd(s, i, ci), ci, true)
    case LettersDigits => LettersThen(s, i, LettersEnd(s, i, ci), ci, false)
    case Fc2 => if LiteralAt(s, i, "fc2-ppv-", true) then DigitsAt(s, i + 8, 6) else None
    case WordDigits(min) => if min == 0 then None else WordThen(s, i, WordEnd(s, i), min)
    case DashDigits => NonSlashThen(s, i, NonSlashEnd(s, i))
    case SixUnderscoreThree =>
      if i + 10 <= |s| && DigitsEnd(s, i) >= i + 6 && s[i + 6] == '_' && DigitsEnd(s, i + 7) >= i + 10
      then Some(i + 10) else None
    case NonSlashRun => if NonSlashEnd(s, i) > i then Some(NonSlashEnd(s, i)) else None
    case DigitsSlash =>
      var e := DigitsEnd(s, i);
      if e > i && e < |s| && s[e] == '/' then Some(e + 1) else None
  }

  /** The first alternative of `alts` that matches at `j`. */
  function AltsAt(alts: seq<Atom>, s: string, j: nat, ci: bool): (r: Option<nat>)
    requires j <= |s|
    ensures r.Some? ==> j < r.value <= |s|
    decreases |alts|
  {
    if alts == [] then None
    else
      var first := AtomAt(alts[0], s, j, ci);
      if first.Some? then first else AltsAt(alts[1..], s, j, ci)
  }

  /** The group matches exactly when one of its alternatives does. */
  lemma {:induction false} AltsSome(alts: seq<Atom>, s: string, j: nat, ci: bool)
    requires j <= |s|
    ensures AltsAt(alts, s, j, ci).Some? <==> exists k :: 0 <= k < |alts| && AtomAt(alts[k], s, j, ci).Some?
    decreases |alts|
  {
    if alts != [] {
      AltsSome(alts[1..], s, j, ci);
      assert forall k :: 1 <= k < |alts| ==> alts[k] == alts[1..][k - 1];
    }
  }

  /** A pattern `prefix(alt | alt | ...)`: a literal part (itself a list of
      alternatives, written out in full as for `\/(?:vi|en)\/`) followed by one
      capturing group of alternatives. */
  datatype Regex = Regex(prefixes: seq<string>, alts: seq<Atom>, ci: bool)

  /** `[A-Z]{2,}-?\d{3,}` as a search pattern, and `\/([A-Z]{2,}-?\d{3,})`: the
      code patterns written without the `i` flag. */
  const CodeCs := Regex([""], [Code], false)
  const SlashCodeCs := Regex(["/"], [Code], false)

  /** A successful match at `start`; the group captures `s[group..end]`. */
  datatype Match = Match(start: nat, group: nat, end: nat)

  predicate WellPlaced(m: Match, s: string) {
    m.start <= m.group < m.end <= |s|
  }

  /** The match at `i` trying the literal prefixes from `prefixes[p]` on. */
  function PrefixesAt(r: Regex, s: string, i: nat, p: nat): (m: Option<Match>)
    requires i <= |s| && p <= |r.prefixes|
    ensures m.Some? ==> m.value.start == i && WellPlaced(m.value, s)
    decreases |r.prefixes| - p
  {
    if p == |r.prefixes| then None
    else
      var lit := r.prefixes[p];
      if LiteralAt(s, i, lit, r.ci) && AltsAt(r.alts, s, i + |lit|, r.ci).Some? then
        Some(Match(i, i + |lit|, AltsAt(r.alts, s, i + |lit|, r.ci).value))
      else PrefixesAt(r, s, i, p + 1)
  }

  function MatchAt(r: Regex, s: string, i: nat): (m: Option<Match>)
    requires i <= |s|
    ensures m.Some? ==> m.value.start == i && WellPlaced(m.value, s)
  {
    PrefixesAt(r, s, i, 0)
  }

  /** `s.match(r)` searching from `i`: the leftmost position that matches. */
  function Search(r: Regex, s: string, i: nat): (m: Option<Match>)
    requires i <= |s|
    ensures m.Some? ==> i <= m.value.start <= |s| && MatchAt(r, s, m.value.start) == m
    ensures m.Some? ==> forall k :: i <= k < m.value.start ==> MatchAt(r, s, k).None?
    ensures m.None? ==> forall k :: i <= k <= |s| ==> MatchAt(r, s, k).None?
    decreases |s| - i
  {
    var here := MatchAt(r, s, i);
    if here.Some? then here
    else if i == |s| then None
    else Search(r, s, i + 1)
  }

  /** `r.test(s)` */
  predicate Test(r: Regex, s: string) {
    Search(r, s, 0).Some?
  }

  /** The first capture group of `s.match(r)`, or None when there is no match. */
  function Capture(r: Regex, s: string): (c: Option<string>)
    ensures c.Some? <==> Test(r, s)
    ensures c.Some? ==> c.value != ""
  {
    match Search(r, s, 0)
    case None => None
    case Some(m) => Some(s[m.group..m.end])
  }

  /** A string that matches at some position is found by the search, at that
      position or an earlier one. */
  lemma {:induction false} SearchFinds(r: Regex, s: string, i: nat, k: nat)
    requires i <= k <= |s| && MatchAt(r, s, k).Some?
    ensures Search(r, s, i).Some? && Search(r, s, i).value.start <= k
  {
  }

  /** Every alternative of `a1` is one of `a2`. */
  predicate Covers(a2: seq<Atom>, a1: seq<Atom>) {
    forall a :: a in a1 ==> a in a2
  }

  lemma AltsWiden(a1: seq<Atom>, a2: seq<Atom>, s: string, j: nat, ci: bool)
    requires Covers(a2, a1) && j <= |s|
    requires AltsAt(a1, s, j, ci).Some?
    ensures AltsAt(a2, s, j, ci).Some?
  {
    AltsSome(a1, s, j, ci);
    var k :| 0 <= k < |a1| && AtomAt(a1[k], s, j, ci).Some?;
    assert a1[k] in a2;
    var k2 :| 0 <= k2 < |a2| && a2[k2] == a1[k];
    AltsSome(a2, s, j, ci);
  }

  /** The literal `r.prefixes[q]` matches at `i` and the group after it. */
  predicate PrefixOk(r: Regex, s: string, i: nat, q: nat)
    requires i <= |s| && q < |r.prefixes|
  {
    LiteralAt(s, i, r.prefixes[q], r.ci) && AltsAt(r.alts, s, i + |r.prefixes[q]|, r.ci).Some?
  }

  /** The prefixes are tried until one of them leads to a match of the group. */
  lemma {:induction false} PrefixesSome(r: Regex, s: string, i: nat, p: nat)
    requires i <= |s| && p <= |r.prefixes|
    ensures PrefixesAt(r, s, i, p).Some? <==> exists q :: p <= q < |r.prefixes| && PrefixOk(r, s, i, q)
    decreases |r.prefixes| - p
  {
    if p < |r.prefixes| {
      PrefixesSome(r, s, i, p + 1);
      if PrefixOk(r, s, i, p) {
        assert PrefixesAt(r, s, i, p).Some?;
      } else {
        assert PrefixesAt(r, s, i, p) == PrefixesAt(r, s, i, p + 1);
      }
    }
  }

  /** A pattern with a single literal prefix matches where that literal and
      the group after it do. */
  lemma SinglePrefix(r: Regex, s: string, i: nat)
    requires |r.prefixes| == 1 && i <= |s|
    ensures MatchAt(r, s, i).Some? <==> PrefixOk(r, s, i, 0)
  {
    assert PrefixesAt(r, s, i, 1) == None;
  }

  /** Widening the group keeps a match at `i`. */
  lemma PrefixWidens(r1: Regex, r2: Regex, s: string, i: nat, q: nat)
    requires r1.prefixes == r2.prefixes && r1.ci == r2.ci && Covers(r2.alts, r1.alts)
    requires i <= |s| && q < |r1.prefixes| && PrefixOk(r1, s, i, q)
    ensures PrefixOk(r2, s, i, q)
  {
    var lit := r1.prefixes[q];
    assert LiteralAt(s, i, lit, r1.ci) && AltsAt(r1.alts, s, i + |lit|, r1.ci).Some?;
    AltsWiden(r1.alts, r2.alts, s, i + |lit|, r1.ci);
    assert AltsAt(r2.alts, s, i + |lit|, r2.ci).Some?;
    assert r2.prefixes[q] == lit;
  }

  lemma MatchWidens(r1: Regex, r2: Regex, s: string, i: nat)
    requires r1.prefixes == r2.prefixes && r1.ci == r2.ci && Covers(r2.alts, r1.alts)
    requires i <= |s| && MatchAt(r1, s, i).Some?
    ensures MatchAt(r2, s, i).Some?
  {
    PrefixesSome(r1, s, i, 0);
    var q :| 0 <= q < |r1.prefixes| && PrefixOk(r1, s, i, q);
    PrefixWidens(r1, r2, s, i, q);
    PrefixesSome(r2, s, i, 0);
  }

  /** Two patterns with the same literal prefixes, where the group of the second
      has every alternative of the group of the first, are found together: the
      second matches wherever the first does. */
  lemma TestWidens(r1: Regex, r2: Regex, s: string)
    requires r1.prefixes == r2.prefixes && r1.ci == r2.ci && Covers(r2.alts, r1.alts)
    requires Test(r1, s)
    ensures Test(r2, s)
  {
    var i := Search(r1, s, 0).value.start;
    MatchWidens(r1, r2, s, i);
    SearchFinds(r2, s, 0, i);
  }

  /** A literal found at `i` has its tail `lit1[d..]` found `d` characters later. */
  lemma LiteralShifts(lit1: string, lit2: string, ci: bool, s: string, i: nat, d: nat)
    requires d <= |lit1| && lit1[d..] == lit2 && LiteralAt(s, i, lit1, ci)
    ensures LiteralAt(s, i + d, lit2, ci)
  {
    forall k | 0 <= k < |lit2| ensures SameChar(s[i + d + k], lit2[k], ci) {
      assert lit2[k] == lit1[d + k];
      assert SameChar(s[i + (d + k)], lit1[d + k], ci);
    }
  }

  /** A match of `lit1` then the group is a match of the literal's tail
      `lit2 == lit1[d..]` then the group, `d` characters later. */
  lemma MatchShifts(lit1: string, lit2: string, alts: seq<Atom>, ci: bool, s: string, i: nat, d: nat)
    requires d <= |lit1| && lit1[d..] == lit2 && i <= |s|
    requires MatchAt(Regex([lit1], alts, ci), s, i).Some?
    ensures i + d <= |s| && MatchAt(Regex([lit2], alts, ci), s, i + d).Some?
  {
    SinglePrefix(Regex([lit1], alts, ci), s, i);
    LiteralShifts(lit1, lit2, ci, s, i, d);
    assert i + d + |lit2| == i + |lit1|;
    SinglePrefix(Regex([lit2], alts, ci), s, i + d);
  }

  /** A pattern is found wherever the same pattern with a longer literal is. */
  lemma TestShifts(lit1: string, lit2: string, alts: seq<Atom>, ci: bool, s: string, d: nat)
    requires d <= |lit1| && lit1[d..] == lit2
    requires Test(Regex([lit1], alts, ci), s)
    ensures Test(Regex([lit2], alts, ci), s)
  {
    var i := Search(Regex([lit1], alts, ci), s, 0).value.start;
    MatchShifts(lit1, lit2, alts, ci, s, i, d);
    SearchFinds(Regex([lit2], alts, ci), s, 0, i + d);
  }

  /** The backtracking of `[^\/]+\-\d{3,}` finds any dash of the run that
      is followed by three digits. */
  lemma {:induction false} NonSlashThenFinds(s: string, i: nat, j: nat, p: nat)
    requires i <= j <= |s| && i + 1 <= p <= j && p < |s| && s[p] == '-' && DigitsAt(s, p + 1, 3).Some?
    ensures NonSlashThen(s, i, j).Some?
    decreases j
  {
    if j > p && !(j < |s| && s[j] == '-' && DigitsAt(s, j + 1, 3).Some?) {
      NonSlashThenFinds(s, i, j - 1, p);
    }
  }

  /** Where `fc2-ppv-\d{6,}` matches, so does `[^\/]+\-\d{3,}`. */
  lemma Fc2IsDashDigits(s: string, j: nat)
    requires j <= |s| && AtomAt(Fc2, s, j, true).Some?
    ensures AtomAt(DashDigits, s, j, true).Some?
  {
    var lit := "fc2-ppv-";
    assert LiteralAt(s, j, lit, true);
    var e := DigitsEnd(s, j + 8);
    assert e >= j + 14;
    forall k | j <= k < j + 14 ensures s[k] != '/' {
      if k < j + 8 {
        assert SameChar(s[j + (k - j)], lit[k - j], true);
      } else {
        assert IsDigit(s[k]);
      }
    }
    var n := NonSlashEnd(s, j);
    assert SameChar(s[j + 7], lit[7], true);
    NonSlashThenFinds(s, j, n, j + 7);
  }

  /** `/\/vi\/fc2-ppv-\d{6,}/i` is found only where `/\/vi\/[^\/]+\-\d{3,}/i` is. */
  lemma TestFc2IsDashDigits(s: string)
    requires Test(Regex(["/vi/"], [Fc2], true), s)
    ensures Test(Regex(["/vi/"], [DashDigits], true), s)
  {
    var r1 := Regex(["/vi/"], [Fc2], true);
    var r2 := Regex(["/vi/"], [DashDigits], true);
    var i := Search(r1, s, 0).value.start;
    PrefixesSome(r1, s, i, 0);
    assert PrefixOk(r1, s, i, 0);
    assert AtomAt(Fc2, s, i + 4, true).Some?;
    Fc2IsDashDigits(s, i + 4);
    assert AltsAt(r2.alts, s, i + 4, true).Some?;
    assert PrefixOk(r2, s, i, 0);
    PrefixesSome(r2, s, i, 0);
    SearchFinds(r2, s, 0, i);
  }
}
