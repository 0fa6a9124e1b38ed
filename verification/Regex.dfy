/** Regular expressions as the message grammar uses them (orchestrator/src/lib/intent.ts): case is
    ignored, repetitions are greedy, and a match is the first one a backtracking matcher finds. */
module Regex {
  import opened Text

  datatype Class = Digit | Space | Letter | Any | Of(chars: string) | Either(one: Class, other: Class) {
    predicate Has(ch: char) {
      match this
      case Digit => IsDigit(ch)
      case Space => IsSpace(ch)
      case Letter => IsLetter(LowerChar(ch))
      case Any => ch != '\n'
      case Of(chars) => LowerChar(ch) in chars
      case Either(one, other) => one.Has(ch) || other.Has(ch)
    }
  }

  const WORD := Either(Either(Letter, Digit), Of("_"))

  /** `Lits` is a literal text; `Many` repeats one character class. */
  datatype Re =
    | Lits(w: string)
    | Many(cls: Class, min: nat, max: Option<nat>)
    | Opt(r: Re)
    | Cat(a: Re, b: Re)
    | Or(a: Re, b: Re)
    | Edge            // \b
    | First           // ^
    | Last            // $

  // ----- shorthands -----

  function One(cls: Class): Re {
    Many(cls, 1, Some(1))
  }

  function Some1(cls: Class): Re {
    Many(cls, 1, None)
  }

  function Star(cls: Class): Re {
    Many(cls, 0, None)
  }

  function Words(ws: seq<string>): Re
    requires ws != []
  {
    if |ws| == 1 then Lits(ws[0]) else Or(Lits(ws[0]), Words(ws[1..]))
  }

  function All(rs: seq<Re>): Re
    requires rs != []
  {
    if |rs| == 1 then rs[0] else Cat(rs[0], All(rs[1..]))
  }

  function AnyOf(rs: seq<Re>): Re
    requires rs != []
  {
    if |rs| == 1 then rs[0] else Or(rs[0], AnyOf(rs[1..]))
  }

  // ----- matching -----

  /** How many characters of the class follow position i, at most max. */
  function RunLength(cls: Class, s: string, i: nat, max: Option<nat>): (n: nat)
    requires i <= |s|
    ensures i + n <= |s| && (max.Some? ==> n <= max.value)
    ensures forall k | i <= k < i + n :: cls.Has(s[k])
    decreases |s| - i
  {
    if max == Some(0) || i == |s| || !cls.Has(s[i]) then 0
    else 1 + RunLength(cls, s, i + 1, if max.Some? then Some(max.value - 1) else None)
  }

  /** hi, hi - 1, ..., lo. */
  function Down(lo: nat, hi: nat): (ends: seq<nat>)
    requires lo <= hi
    ensures |ends| == hi - lo + 1 && ends[0] == hi
    ensures forall e: nat :: e in ends <==> lo <= e <= hi
  {
    if lo == hi then [hi] else [hi] + Down(lo, hi - 1)
  }

  predicate AtEdge(s: string, i: nat)
    requires i <= |s|
  {
    (i > 0 && WORD.Has(s[i - 1])) != (i < |s| && WORD.Has(s[i]))
  }

  /** Where a match of r that starts at i can end, in the order the matcher tries. */
  function Ends(r: Re, s: string, i: nat): (ends: seq<nat>)
    requires i <= |s|
    ensures forall e | e in ends :: i <= e <= |s|
    decreases r, 0
  {
    match r
    case Lits(w) => if i + |w| <= |s| && Lower(s[i..i + |w|]) == w then [i + |w|] else []
    case Many(cls, min, max) =>
      var n := RunLength(cls, s, i, max);
      if min <= n then Down(i + min, i + n) else []
    case Opt(q) => Ends(q, s, i) + [i]
    case Cat(a, b) => EndsFrom(b, s, i, Ends(a, s, i))
    case Or(a, b) => Ends(a, s, i) + Ends(b, s, i)
    case Edge => if AtEdge(s, i) then [i] else []
    case First => if i == 0 then [i] else []
    case Last => if i == |s| then [i] else []
  }

  function EndsFrom(r: Re, s: string, i: nat, starts: seq<nat>): (ends: seq<nat>)
    requires i <= |s| && forall e | e in starts :: i <= e <= |s|
    ensures forall e | e in ends :: i <= e <= |s|
    decreases r, |starts| + 1
  {
    if starts == [] then []
    else
      assert starts[0] in starts && forall e | e in starts[1..] :: e in starts;
      Ends(r, s, starts[0]) + EndsFrom(r, s, i, starts[1..])
  }

  /** `re.test(s)`. */
  predicate Found(r: Re, s: string) {
    exists i: nat | i <= |s| :: Ends(r, s, i) != []
  }

  // ----- captures: the parts of a sequence -----

  /** The ends of the parts in the first successful match from i. */
  function Search(parts: seq<Re>, s: string, i: nat): Option<seq<nat>>
    requires i <= |s|
    decreases |parts|, 0
  {
    if parts == [] then Some([]) else TryEach(parts[1..], s, Ends(parts[0], s, i))
  }

  function TryEach(rest: seq<Re>, s: string, ends: seq<nat>): Option<seq<nat>>
    requires forall e | e in ends :: e <= |s|
    decreases |rest|, |ends| + 1
  {
    if ends == [] then None
    else
      assert ends[0] in ends && forall e | e in ends[1..] :: e in ends;
      match Search(rest, s, ends[0])
      case Some(v) => Some([ends[0]] + v)
      case None => TryEach(rest, s, ends[1..])
  }

  /** `s.match(re)`: the leftmost start and the ends of the parts. */
  function Match(parts: seq<Re>, s: string, i: nat): Option<(nat, seq<nat>)>
    requires i <= |s|
    decreases |s| - i
  {
    match Search(parts, s, i)
    case Some(v) => Some((i, v))
    case None => if i < |s| then Match(parts, s, i + 1) else None
  }

  // ----- laws -----

  lemma {:induction false} EndsFromMembers(r: Re, s: string, i: nat, starts: seq<nat>, e: nat)
    requires i <= |s| && forall m | m in starts :: i <= m <= |s|
    ensures e in EndsFrom(r, s, i, starts) <==> exists m :: m in starts && e in Ends(r, s, m)
    decreases |starts|
  {
    if starts != [] {
      assert starts[0] in starts && forall m | m in starts[1..] :: m in starts;
      EndsFromMembers(r, s, i, starts[1..], e);
      assert forall m :: m in starts <==> m == starts[0] || m in starts[1..];
    }
  }

  /** A sequence matches by matching its halves one after the other. */
  lemma CatMembers(a: Re, b: Re, s: string, i: nat, e: nat)
    requires i <= |s|
    ensures e in Ends(Cat(a, b), s, i) <==> exists m :: m in Ends(a, s, i) && e in Ends(b, s, m)
  {
    EndsFromMembers(b, s, i, Ends(a, s, i), e);
  }

  /** If the first choice of the first part lets the rest match, that is the match. */
  lemma FirstChoiceWins(parts: seq<Re>, s: string, i: nat, e: nat, v: seq<nat>)
    requires i <= |s| && parts != [] && Ends(parts[0], s, i) != [] && Ends(parts[0], s, i)[0] == e
    requires e <= |s| && Search(parts[1..], s, e) == Some(v)
    ensures Search(parts, s, i) == Some([e] + v)
  {
  }

  /** Taking the first choice of every part, when that works all the way. */
  ghost predicate FirstChoices(parts: seq<Re>, s: string, at: seq<nat>) {
    && |at| == |parts| + 1 && (forall k | 0 <= k < |at| :: at[k] <= |s|)
    && forall k | 0 <= k < |parts| :: Ends(parts[k], s, at[k]) != [] && Ends(parts[k], s, at[k])[0] == at[k + 1]
  }

  lemma {:induction false} FirstChoicesAreTheMatch(parts: seq<Re>, s: string, at: seq<nat>)
    requires FirstChoices(parts, s, at)
    ensures Search(parts, s, at[0]) == Some(at[1..])
  {
    if parts == [] {
      assert at[1..] == [];
    } else {
      forall k | 0 <= k < |parts| - 1
        ensures Ends(parts[1..][k], s, at[1..][k]) != [] && Ends(parts[1..][k], s, at[1..][k])[0] == at[1..][k + 1]
      {
        assert parts[1..][k] == parts[k + 1];
        assert Ends(parts[k + 1], s, at[k + 1])[0] == at[k + 2];
      }
      FirstChoicesAreTheMatch(parts[1..], s, at[1..]);
      FirstChoiceWins(parts, s, at[0], at[1], at[2..]);
      assert [at[1]] + at[2..] == at[1..];
    }
  }

  lemma {:induction false} LongestRun(cls: Class, s: string, i: nat, n: nat, max: Option<nat>)
    requires i + n <= |s| && (forall k | i <= k < i + n :: cls.Has(s[k]))
    requires i + n == |s| || !cls.Has(s[i + n]) || max == Some(n)
    requires max.Some? ==> n <= max.value
    ensures RunLength(cls, s, i, max) == n
    decreases n
  {
    if n > 0 {
      LongestRun(cls, s, i + 1, n - 1, if max.Some? then Some(max.value - 1) else None);
    }
  }

  lemma ManyHead(cls: Class, min: nat, s: string, i: nat, n: nat)
    requires i + n <= |s| && min <= n && (forall k | i <= k < i + n :: cls.Has(s[k]))
    requires i + n == |s| || !cls.Has(s[i + n])
    ensures Ends(Many(cls, min, None), s, i) != [] && Ends(Many(cls, min, None), s, i)[0] == i + n
  {
    LongestRun(cls, s, i, n, None);
  }

  lemma CatHead(a: Re, b: Re, s: string, i: nat, m: nat, e: nat)
    requires i <= |s| && Ends(a, s, i) != [] && Ends(a, s, i)[0] == m
    requires m <= |s| && Ends(b, s, m) != [] && Ends(b, s, m)[0] == e
    ensures Ends(Cat(a, b), s, i) != [] && Ends(Cat(a, b), s, i)[0] == e
  {
    assert Ends(a, s, i)[0] in Ends(a, s, i);
  }

  // ----- texts over a small alphabet -----

  /** The word has a character outside the alphabet. */
  predicate Rare(w: string, alphabet: set<char>) {
    exists k | 0 <= k < |w| :: w[k] !in alphabet
  }

  /** Every match of r runs over a literal character outside the alphabet. */
  predicate NeedsRare(r: Re, alphabet: set<char>) {
    match r
    case Lits(w) => Rare(w, alphabet)
    case Cat(a, b) => NeedsRare(a, alphabet) || NeedsRare(b, alphabet)
    case Or(a, b) => NeedsRare(a, alphabet) && NeedsRare(b, alphabet)
    case _ => false
  }

  predicate Within(s: string, alphabet: set<char>) {
    forall k | 0 <= k < |s| :: LowerChar(s[k]) in alphabet
  }

  lemma {:induction false} RareNeverMatches(r: Re, s: string, i: nat, alphabet: set<char>)
    requires i <= |s| && NeedsRare(r, alphabet) && Within(s, alphabet)
    ensures Ends(r, s, i) == []
    decreases r, 0
  {
    match r
    case Lits(w) =>
      var k :| 0 <= k < |w| && w[k] !in alphabet;
      if i + |w| <= |s| {
        assert Lower(s[i..i + |w|])[k] == LowerChar(s[i + k]);
      }
    case Cat(a, b) =>
      if NeedsRare(a, alphabet) {
        RareNeverMatches(a, s, i, alphabet);
      } else {
        RareNowhere(b, s, i, Ends(a, s, i), alphabet);
      }
    case Or(a, b) =>
      RareNeverMatches(a, s, i, alphabet);
      RareNeverMatches(b, s, i, alphabet);
    case _ =>
  }

  lemma {:induction false} RareNowhere(r: Re, s: string, i: nat, starts: seq<nat>, alphabet: set<char>)
    requires i <= |s| && (forall e | e in starts :: i <= e <= |s|) && NeedsRare(r, alphabet) && Within(s, alphabet)
    ensures EndsFrom(r, s, i, starts) == []
    decreases r, |starts| + 1
  {
    if starts != [] {
      assert starts[0] in starts && forall e | e in starts[1..] :: e in starts;
      RareNeverMatches(r, s, starts[0], alphabet);
      RareNowhere(r, s, i, starts[1..], alphabet);
    }
  }

  /** A text over the alphabet never matches an expression that needs a rare character. */
  lemma RareIsNotFound(r: Re, s: string, alphabet: set<char>)
    requires NeedsRare(r, alphabet) && Within(s, alphabet)
    ensures !Found(r, s)
  {
    forall i: nat | i <= |s| ensures Ends(r, s, i) == [] {
      RareNeverMatches(r, s, i, alphabet);
    }
  }

  lemma RareAt(w: string, k: nat, alphabet: set<char>)
    requires k < |w| && w[k] !in alphabet
    ensures Rare(w, alphabet)
  {
  }

  /** A sequence needs a rare character if one of its parts does. */
  lemma {:induction false} PartNeedsRare(parts: seq<Re>, k: nat, alphabet: set<char>)
    requires k < |parts| && NeedsRare(parts[k], alphabet)
    ensures NeedsRare(All(parts), alphabet)
  {
    if k > 0 {
      PartNeedsRare(parts[1..], k - 1, alphabet);
    }
  }

  lemma {:induction false} ChoicesNeedRare(rs: seq<Re>, alphabet: set<char>)
    requires rs != [] && forall k | 0 <= k < |rs| :: NeedsRare(rs[k], alphabet)
    ensures NeedsRare(AnyOf(rs), alphabet)
  {
    if |rs| > 1 {
      ChoicesNeedRare(rs[1..], alphabet);
    }
  }

  /** Words with a character outside the alphabet, at these places. */
  lemma {:induction false} RareWords(ws: seq<string>, at: seq<nat>, alphabet: set<char>)
    requires ws != [] && |at| == |ws| && forall k | 0 <= k < |ws| :: at[k] < |ws[k]| && ws[k][at[k]] !in alphabet
    ensures NeedsRare(Words(ws), alphabet)
  {
    RareAt(ws[0], at[0], alphabet);
    if |ws| > 1 {
      RareWords(ws[1..], at[1..], alphabet);
    }
  }

  /** Texts over the alphabet, put together. */
  lemma WithinPlus(a: string, b: string, alphabet: set<char>)
    requires Within(a, alphabet) && Within(b, alphabet)
    ensures Within(a + b, alphabet)
  {
  }
}
