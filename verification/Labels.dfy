/** What normalizing a name or a number does, and does again (orchestrator/src/lib/hotlinens.ts,
    orchestrator/src/lib/db.ts). */
module Labels {
  import opened Text
  import opened Tables
  import opened Payees
  import Names

  /** A normalized label: at most 32 label characters, the first no dash. */
  predicate Labelled(n: string) {
    |n| <= 32 && (forall i | 0 <= i < |n| :: IsLabelChar(n[i])) && (n != "" ==> n[0] != '-')
  }

  predicate EndsInDash(n: string) {
    n != "" && n[|n| - 1] == '-'
  }

  lemma {:induction false} LabelCharsAreLabel(s: string)
    ensures forall i | 0 <= i < |LabelChars(s)| :: IsLabelChar(LabelChars(s)[i])
  {
    if s != "" {
      LabelCharsAreLabel(s[1..]);
    }
  }

  lemma {:induction false} LabelCharsKeep(s: string)
    requires forall i | 0 <= i < |s| :: IsLabelChar(s[i])
    ensures LabelChars(s) == s
  {
    if s != "" {
      LabelCharsKeep(s[1..]);
      assert s == [s[0]] + s[1..];
    }
  }

  lemma {:induction false} TrimLeftIsSuffix(s: string)
    ensures exists k :: 0 <= k <= |s| && TrimDashesLeft(s) == s[k..]
    ensures TrimDashesLeft(s) != "" ==> TrimDashesLeft(s)[0] != '-'
  {
    if s != "" && s[0] == '-' {
      TrimLeftIsSuffix(s[1..]);
      var k :| 0 <= k <= |s[1..]| && TrimDashesLeft(s[1..]) == s[1..][k..];
      assert TrimDashesLeft(s) == s[k + 1..];
    } else {
      assert s == s[0..];
    }
  }

  lemma {:induction false} TrimRightIsPrefix(s: string)
    ensures exists k :: 0 <= k <= |s| && TrimDashesRight(s) == s[..k]
    ensures !EndsInDash(TrimDashesRight(s))
  {
    if EndsInDash(s) {
      TrimRightIsPrefix(s[..|s| - 1]);
      var k :| 0 <= k <= |s| - 1 && TrimDashesRight(s[..|s| - 1]) == s[..|s| - 1][..k];
      assert TrimDashesRight(s) == s[..k];
    } else {
      assert s == s[..|s|];
    }
  }

  lemma NormalizedIsLabelled(raw: string)
    ensures Labelled(NormalizeLabel(raw))
  {
    var s := LabelChars(DropSuffix(Lower(Trim(raw)), ".hotline"));
    LabelCharsAreLabel(DropSuffix(Lower(Trim(raw)), ".hotline"));
    TrimLeftIsSuffix(s);
    TrimRightIsPrefix(TrimDashesLeft(s));
  }

  lemma LowerKeeps(n: string)
    requires forall i | 0 <= i < |n| :: IsLabelChar(n[i])
    ensures Lower(n) == n
  {
  }

  lemma NoSpaceNoTrim(n: string)
    requires n == "" || (!IsSpace(n[0]) && !IsSpace(n[|n| - 1]))
    ensures Trim(n) == n
  {
  }

  /** Normalizing a label again only drops the dashes that the 32-character cut left at its end. */
  lemma NormalizingALabel(n: string)
    requires Labelled(n)
    ensures NormalizeLabel(n) == TrimDashesRight(n)
  {
    hide Lower, Trim, LabelChars, TrimDashesRight;
    NoSpaceNoTrim(n);
    LowerKeeps(n);
    assert EndsWith(n, ".hotline") ==> n[|n| - 8..][0] == '.';
    LabelCharsKeep(n);
    TrimRightIsPrefix(n);
  }

  lemma TrimmedStaysTrimmed(n: string)
    requires !EndsInDash(n)
    ensures TrimDashesRight(n) == n
  {
  }

  /** Two applications reach a fixpoint, for every text. */
  lemma NormalizingTwiceIsEnough(raw: string)
    ensures NormalizeLabel(NormalizeLabel(NormalizeLabel(raw))) == NormalizeLabel(NormalizeLabel(raw))
  {
    hide NormalizeLabel;
    var n := NormalizeLabel(raw);
    NormalizedIsLabelled(raw);
    NormalizingALabel(n);
    NormalizedIsLabelled(n);
    NormalizingALabel(NormalizeLabel(n));
    TrimRightIsPrefix(n);
    TrimmedStaysTrimmed(TrimDashesRight(n));
  }

  /** One application does exactly when the cut left no dash at the end. */
  lemma NormalizingOnceIsEnoughUnlessCut(raw: string)
    ensures NormalizeLabel(NormalizeLabel(raw)) == NormalizeLabel(raw) <==> !EndsInDash(NormalizeLabel(raw))
  {
    hide NormalizeLabel;
    var n := NormalizeLabel(raw);
    NormalizedIsLabelled(raw);
    NormalizingALabel(n);
    TrimRightIsPrefix(n);
    if !EndsInDash(n) {
      TrimmedStaysTrimmed(n);
    }
  }

  const LONG_NAME := seq(31, _ => 'a') + "-a"

  lemma LongNameIsCut()
    ensures NormalizeLabel(LONG_NAME) == LONG_NAME[..32]
  {
    hide Trim, Lower, LabelChars;
    NoSpaceNoTrim(LONG_NAME);
    LowerKeeps(LONG_NAME);
    LabelCharsKeep(LONG_NAME);
    TrimmedStaysTrimmed(LONG_NAME);
  }

  /** The cut can leave a dash: a name of 33 characters whose 32nd is one is valid, but not normal. */
  lemma TheCutCanLeaveADash()
    ensures EndsInDash(NormalizeLabel(LONG_NAME)) && ValidName(NormalizeLabel(LONG_NAME))
  {
    hide NormalizeLabel;
    var n, m := LONG_NAME[..32], LONG_NAME[..31];
    LongNameIsCut();
    assert Labelled(n) && n[..31] == m;
    NormalizingALabel(n);
    TrimmedStaysTrimmed(m);
    assert TrimDashesRight(n) == m;
    NormalizingALabel(m);
  }

  // ----- claiming and looking up -----

  /** Whoever claims a name is found under the text that was claimed. */
  lemma ClaimedNameIsFound(s: State, p: Phone, raw: string)
    requires Names.Claim(s, p, raw).Some?
    ensures Names.Lookup(Names.Claim(s, p, raw).value, raw) == Some(p)
  {
  }

  lemma LowerOfDisplay(n: string)
    requires Labelled(n) && n != ""
    ensures Lower(Trim(n + ".hotline")) == n + ".hotline"
  {
    NoSpaceNoTrim(n + ".hotline");
    assert Lower(n + ".hotline") == n + ".hotline";
  }

  lemma DisplayNormalizes(n: string)
    requires Labelled(n) && n != "" && !EndsInDash(n)
    ensures NormalizeLabel(n + ".hotline") == n
  {
    LowerOfDisplay(n);
    var d := n + ".hotline";
    assert d[|d| - 8..] == ".hotline" && d[..|d| - 8] == n;
    LabelCharsKeep(n);
    TrimmedStaysTrimmed(n);
  }

  /** The label shown after a claim (`displayHotline`) leads back to the claimant exactly when the cut
      left no dash; otherwise the shown label is another name. */
  lemma ShownLabelLeadsBack(s: State, p: Phone, raw: string)
    requires Names.Claim(s, p, raw).Some?
    ensures Names.Lookup(Names.Claim(s, p, raw).value, Display(NormalizeLabel(raw))) == Some(p) <==> !EndsInDash(NormalizeLabel(raw))
  {
    hide NormalizeLabel;
    var n := NormalizeLabel(raw);
    var m := NormalizeLabel(n);
    NormalizedIsLabelled(raw);
    NormalizingALabel(n);
    TrimRightIsPrefix(n);
    NormalizedIsLabelled(n);
    assert |m| >= 2;
    DisplayNormalizes(m);
    NormalizingOnceIsEnoughUnlessCut(raw);
  }

  // ----- suggestions -----

  function Number(i: nat): string
    requires i <= 99
  {
    if i < 10 then [DigitChar(i)] else [DigitChar(i / 10), DigitChar(i % 10)]
  }

  predicate Free(s: State, n: string) {
    !(n in s.names && s.names[n] in s.users)
  }

  /** The first free candidate from number i on, or None: all taken, or too long. */
  function FirstFree(s: State, base: string, i: nat): Option<string>
    requires 2 <= i <= 100
    decreases 100 - i
  {
    if i == 100 || |base + Number(i)| > 32 then None
    else if Free(s, base + Number(i)) then Some(base + Number(i))
    else FirstFree(s, base, i + 1)
  }

  /** `suggestHotlineName`. */
  function Suggest(s: State, displayName: string): Option<string> {
    var base := NormalizeLabel(FirstToken(displayName));
    if !ValidName(base) then None
    else if Free(s, base) then Some(base)
    else FirstFree(s, base, 2)
  }

  method SuggestHotlineName(desk: Desk, displayName: string) returns (r: Option<string>)
    ensures r == Suggest(desk.Now(), displayName)
  {
    var base := NormalizeLabel(FirstToken(displayName));
    if !ValidName(base) {
      return None;
    }
    if Free(desk.Now(), base) {
      return Some(base);
    }
    var i := 2;
    while i <= 99
      invariant 2 <= i <= 100
      invariant FirstFree(desk.Now(), base, i) == FirstFree(desk.Now(), base, 2)
    {
      var candidate := base + Number(i);
      if |candidate| > 32 {
        break;
      }
      if Free(desk.Now(), candidate) {
        return Some(candidate);
      }
      i := i + 1;
    }
    return None;
  }

  lemma {:induction false} FirstFreeIsFree(s: State, base: string, i: nat)
    requires 2 <= i <= 100 && FirstFree(s, base, i).Some?
    ensures exists j :: i <= j <= 99 && FirstFree(s, base, i) == Some(base + Number(j)) && |base + Number(j)| <= 32 && Free(s, base + Number(j))
    decreases 100 - i
  {
    if Free(s, base + Number(i)) {
    } else {
      FirstFreeIsFree(s, base, i + 1);
    }
  }

  lemma NumberedIsLabelled(base: string, j: nat)
    requires Labelled(base) && base != "" && j <= 99 && |base + Number(j)| <= 32
    ensures Labelled(base + Number(j)) && !EndsInDash(base + Number(j))
    ensures NormalizeLabel(base + Number(j)) == base + Number(j)
  {
    var n := base + Number(j);
    NormalizingALabel(n);
    TrimmedStaysTrimmed(n);
  }

  /** No name row points at an unknown phone. */
  ghost predicate NamesKnown(s: State) {
    forall n | n in s.names :: s.names[n] in s.users
  }

  /** What a suggestion is: the plain base, or the base and a number. */
  lemma SuggestionShape(s: State, displayName: string)
    requires Suggest(s, displayName).Some? && !EndsInDash(Suggest(s, displayName).value)
    ensures var n := Suggest(s, displayName).value;
            var base := NormalizeLabel(FirstToken(displayName));
            && ValidName(base) && Labelled(base) && |base| >= 2 && Free(s, n) && NormalizeLabel(n) == n
            && |n| >= 2 && n[0] == base[0] && (n == base || IsDigit(n[|n| - 1]))
  {
    hide NormalizeLabel, FirstFree;
    var base := NormalizeLabel(FirstToken(displayName));
    var n := Suggest(s, displayName).value;
    NormalizedIsLabelled(FirstToken(displayName));
    NormalizingALabel(base);
    TrimRightIsPrefix(base);
    if Free(s, base) {
      TrimmedStaysTrimmed(n);
    } else {
      FirstFreeIsFree(s, base, 2);
      var j :| 2 <= j <= 99 && n == base + Number(j) && |n| <= 32 && Free(s, n);
      NumberedIsLabelled(base, j);
    }
  }

  /** A suggestion can be claimed by any known phone, unless it is the plain first name cut at a dash. */
  lemma SuggestionsCanBeClaimed(s: State, p: Phone, displayName: string)
    requires NamesKnown(s) && p in s.users && Suggest(s, displayName).Some?
    requires !EndsInDash(Suggest(s, displayName).value)
    ensures Names.Claim(s, p, Suggest(s, displayName).value).Some?
  {
    hide NormalizeLabel, Suggest;
    var base := NormalizeLabel(FirstToken(displayName));
    var n := Suggest(s, displayName).value;
    SuggestionShape(s, displayName);
    NormalizedIsLabelled(n);
    NormalizingALabel(base);
    TrimRightIsPrefix(base);
    assert n !in s.names && ValidName(n);
  }

  // ----- phone numbers -----

  lemma {:induction false} DigitsAndPlusKeep(s: string)
    requires forall i | 0 <= i < |s| :: IsDigit(s[i]) || s[i] == '+'
    ensures DigitsAndPlus(s) == s
  {
    if s != "" {
      DigitsAndPlusKeep(s[1..]);
      assert s == [s[0]] + s[1..];
    }
  }

  lemma {:induction false} DigitsAndPlusAre(s: string)
    ensures forall i | 0 <= i < |DigitsAndPlus(s)| :: IsDigit(DigitsAndPlus(s)[i]) || DigitsAndPlus(s)[i] == '+'
  {
    if s != "" {
      DigitsAndPlusAre(s[1..]);
    }
  }

  lemma {:induction false} ChatIdKeeps(s: string)
    requires forall i | 0 <= i < |s| :: IsDigit(s[i]) || s[i] == '-'
    ensures ChatId(s) == s
  {
    if s != "" {
      ChatIdKeeps(s[1..]);
      assert s == [s[0]] + s[1..];
    }
  }

  lemma {:induction false} ChatIdsAre(s: string)
    ensures forall i | 0 <= i < |ChatId(s)| :: IsDigit(ChatId(s)[i]) || ChatId(s)[i] == '-'
  {
    if s != "" {
      ChatIdsAre(s[1..]);
    }
  }

  lemma NormalNumberStays(d: string)
    requires d != "" && d[0] == '+' && forall i | 0 <= i < |d| :: IsDigit(d[i]) || d[i] == '+'
    ensures NormalizePhone(d) == d
  {
    NoSpaceNoTrim(d);
    DigitsAndPlusKeep(d);
    assert Lower(d)[0] == '+';
  }

  lemma NormalChatStays(d: string)
    requires forall i | 0 <= i < |d| :: IsDigit(d[i]) || d[i] == '-'
    ensures NormalizePhone("tg:" + d) == "tg:" + d
  {
    NoSpaceNoTrim("tg:" + d);
    assert Lower("tg:" + d)[..3] == "tg:";
    assert ("tg:" + d)[3..] == d;
    ChatIdKeeps(d);
  }

  /** An account key is its own account key. */
  lemma NormalizingPhonesIsIdempotent(phone: string)
    ensures NormalizePhone(NormalizePhone(phone)) == NormalizePhone(phone)
  {
    var raw := Trim(phone);
    if StartsWith(Lower(raw), "tg:") {
      ChatIdsAre(raw[3..]);
      NormalChatStays(ChatId(raw[3..]));
    } else if StartsWith(Lower(raw), "telegram:") {
      ChatIdsAre(raw[9..]);
      NormalChatStays(ChatId(raw[9..]));
    } else {
      DigitsAndPlusAre(raw);
      NormalNumberStays(NormalizePhone(phone));
    }
  }
}
