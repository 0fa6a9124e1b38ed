/** The hash-chained audit log of policy decisions (orchestrator/src/lib/db.ts,
    `recordPolicyDecision`).  SHA-256 is an abstract hash: injective, its output never contains the
    separator and is never the word that stands for the start of the chain. */
module AuditChain {
  import opened Text

  datatype Decision = Decision(
    phone: string, action: string, verdict: string,
    reason: Option<string>, amount: Option<string>, payee: Option<string>,
    intentJson: Option<string>, createdAt: string)

  datatype Row = Row(decision: Decision, prev: Option<string>, hash: string)

  ghost predicate Hashing(h: string -> string) {
    && (forall x, y :: h(x) == h(y) ==> x == y)
    && (forall x :: '|' !in h(x) && h(x) != "genesis")
  }

  /** Only the intent may contain the separator. */
  predicate Plain(d: Decision) {
    && '|' !in d.phone && '|' !in d.action && '|' !in d.verdict && '|' !in d.createdAt
    && '|' !in d.reason.Or("") && '|' !in d.amount.Or("") && '|' !in d.payee.Or("")
  }

  /** What the hash sees of a decision: a missing field reads as the empty string. */
  function Canonical(d: Decision): Decision {
    d.(reason := Some(d.reason.Or("")), amount := Some(d.amount.Or("")), payee := Some(d.payee.Or("")),
       intentJson := Some(d.intentJson.Or("")))
  }

  /** The fields joined with bars, the previous hash first. */
  function Joined(prev: Option<string>, d: Decision): string {
    prev.Or("genesis") + "|" + (d.phone + "|" + (d.action + "|" + (d.verdict + "|" + (d.reason.Or("") + "|"
    + (d.amount.Or("") + "|" + (d.payee.Or("") + "|" + (d.intentJson.Or("") + "|" + d.createdAt)))))))
  }

  /** The hash of the newest row (`latestPolicyHash`). */
  function Latest(rows: seq<Row>): Option<string> {
    if rows == [] then None else Some(rows[|rows| - 1].hash)
  }

  /** The log after these decisions, recorded one after the other. */
  function Log(h: string -> string, decisions: seq<Decision>): seq<Row> {
    if decisions == [] then []
    else
      var rows := Log(h, decisions[..|decisions| - 1]);
      var d := decisions[|decisions| - 1];
      rows + [Row(d, Latest(rows), h(Joined(Latest(rows), d)))]
  }

  function Head(h: string -> string, decisions: seq<Decision>): Option<string> {
    Latest(Log(h, decisions))
  }

  class AuditLog {
    const h: string -> string
    var rows: seq<Row>

    constructor (h: string -> string)
      ensures this.h == h && rows == []
    {
      this.h := h;
      rows := [];
    }

    /** `recordPolicyDecision`: appends one row linked to the newest. */
    method Record(d: Decision, ghost before: seq<Decision>)
      requires rows == Log(h, before)
      modifies this
      ensures rows == Log(h, before + [d]) && rows[..|rows| - 1] == old(rows)
    {
      var prev := if rows == [] then None else Some(rows[|rows| - 1].hash);
      var entryHash := h(Joined(prev, d));
      rows := rows + [Row(d, prev, entryHash)];
      assert (before + [d])[..|before|] == before;
    }
  }

  // ----- the joined text gives its parts back -----

  lemma SplitFirst(a: string, x: string, b: string, y: string)
    requires '|' !in a && '|' !in b && a + "|" + x == b + "|" + y
    ensures a == b && x == y
  {
    var s := a + "|" + x;
    assert s[|a|] == '|' && s[|b|] == '|';
    assert a == s[..|a|] && b == s[..|b|];
    assert x == s[|a| + 1..] && y == s[|b| + 1..];
  }

  lemma SplitLast(x: string, a: string, y: string, b: string)
    requires '|' !in a && '|' !in b && x + "|" + a == y + "|" + b
    ensures a == b && x == y
  {
    var s := x + "|" + a;
    assert s[|x|] == '|' && s[|y|] == '|';
    assert x == s[..|x|] && y == s[..|y|];
    assert a == s[|x| + 1..] && b == s[|y| + 1..];
  }

  function Tail3(d: Decision): string {
    d.payee.Or("") + "|" + (d.intentJson.Or("") + "|" + d.createdAt)
  }

  function Tail5(d: Decision): string {
    d.reason.Or("") + "|" + (d.amount.Or("") + "|" + Tail3(d))
  }

  lemma Tail3Splits(d: Decision, e: Decision)
    requires Plain(d) && Plain(e) && Tail3(d) == Tail3(e)
    ensures d.payee.Or("") == e.payee.Or("") && d.intentJson.Or("") == e.intentJson.Or("") && d.createdAt == e.createdAt
  {
    SplitFirst(d.payee.Or(""), d.intentJson.Or("") + "|" + d.createdAt, e.payee.Or(""), e.intentJson.Or("") + "|" + e.createdAt);
    SplitLast(d.intentJson.Or(""), d.createdAt, e.intentJson.Or(""), e.createdAt);
  }

  lemma Tail5Splits(d: Decision, e: Decision)
    requires Plain(d) && Plain(e) && Tail5(d) == Tail5(e)
    ensures d.reason.Or("") == e.reason.Or("") && d.amount.Or("") == e.amount.Or("") && Tail3(d) == Tail3(e)
  {
    SplitFirst(d.reason.Or(""), d.amount.Or("") + "|" + Tail3(d), e.reason.Or(""), e.amount.Or("") + "|" + Tail3(e));
    SplitFirst(d.amount.Or(""), Tail3(d), e.amount.Or(""), Tail3(e));
  }

  lemma JoinedSplits(prev: Option<string>, d: Decision, prev2: Option<string>, e: Decision)
    requires Plain(d) && Plain(e) && '|' !in prev.Or("genesis") && '|' !in prev2.Or("genesis")
    requires Joined(prev, d) == Joined(prev2, e)
    ensures prev.Or("genesis") == prev2.Or("genesis") && Canonical(d) == Canonical(e)
  {
    var d3, e3 := d.verdict + "|" + Tail5(d), e.verdict + "|" + Tail5(e);
    var d2, e2 := d.action + "|" + d3, e.action + "|" + e3;
    SplitFirst(prev.Or("genesis"), d.phone + "|" + d2, prev2.Or("genesis"), e.phone + "|" + e2);
    SplitFirst(d.phone, d2, e.phone, e2);
    SplitFirst(d.action, d3, e.action, e3);
    SplitFirst(d.verdict, Tail5(d), e.verdict, Tail5(e));
    Tail5Splits(d, e);
    Tail3Splits(d, e);
  }

  // ----- the head determines the log -----

  ghost predicate AllPlain(decisions: seq<Decision>) {
    forall i | 0 <= i < |decisions| :: Plain(decisions[i])
  }

  function CanonicalLog(decisions: seq<Decision>): seq<Decision> {
    seq(|decisions|, i requires 0 <= i < |decisions| => Canonical(decisions[i]))
  }

  lemma HeadOfMore(h: string -> string, decisions: seq<Decision>)
    requires decisions != []
    ensures Head(h, decisions) == Some(h(Joined(Head(h, decisions[..|decisions| - 1]), decisions[|decisions| - 1])))
  {
  }

  lemma EmptyLog(log: seq<Decision>)
    ensures log == [] ==> CanonicalLog(log) == []
  {
  }

  lemma LogOfMore(log: seq<Decision>)
    requires log != []
    ensures CanonicalLog(log) == CanonicalLog(log[..|log| - 1]) + [Canonical(log[|log| - 1])]
  {
  }

  /** The newest hash fixes every row before it, of a log of any length, as far as the hash sees it. */
  lemma {:induction false} HeadDeterminesLog(h: string -> string, one: seq<Decision>, other: seq<Decision>)
    requires Hashing(h) && AllPlain(one) && AllPlain(other) && Head(h, one) == Head(h, other)
    ensures CanonicalLog(one) == CanonicalLog(other)
    decreases |one|
  {
    hide CanonicalLog, Canonical;
    if one == [] || other == [] {
      EmptyLog(one);
      EmptyLog(other);
    } else {
      var n, m := |one| - 1, |other| - 1;
      HeadOfMore(h, one);
      HeadOfMore(h, other);
      var p, q := Head(h, one[..n]), Head(h, other[..m]);
      HashesAreClean(h, one[..n]);
      HashesAreClean(h, other[..m]);
      JoinedSplits(p, one[n], q, other[m]);
      assert p == q;
      HeadDeterminesLog(h, one[..n], other[..m]);
      LogOfMore(one);
      LogOfMore(other);
    }
  }

  lemma HashesAreClean(h: string -> string, decisions: seq<Decision>)
    requires Hashing(h)
    ensures var p := Head(h, decisions); '|' !in p.Or("genesis") && (p.Some? ==> p.value != "genesis")
  {
    if decisions != [] {
      HeadOfMore(h, decisions);
    }
  }

  lemma {:induction false} CanonicalLogHasSameHead(h: string -> string, one: seq<Decision>, other: seq<Decision>)
    requires CanonicalLog(one) == CanonicalLog(other)
    ensures Head(h, one) == Head(h, other)
    decreases |one|
  {
    assert |one| == |CanonicalLog(one)| && |other| == |CanonicalLog(other)|;
    if one != [] {
      var n := |one| - 1;
      assert CanonicalLog(one)[n] == CanonicalLog(other)[n];
      assert CanonicalLog(one[..n]) == CanonicalLog(one)[..n];
      assert CanonicalLog(other[..n]) == CanonicalLog(other)[..n];
      CanonicalLogHasSameHead(h, one[..n], other[..n]);
      HeadOfMore(h, one);
      HeadOfMore(h, other);
      assert Joined(Head(h, one[..n]), one[n]) == Joined(Head(h, other[..n]), other[n]);
    }
  }

  /** Altering, reordering, inserting or dropping a row changes the newest hash, and nothing else does. */
  lemma HeadChangesExactlyWithTheLog(h: string -> string, one: seq<Decision>, other: seq<Decision>)
    requires Hashing(h) && AllPlain(one) && AllPlain(other)
    ensures Head(h, one) == Head(h, other) <==> CanonicalLog(one) == CanonicalLog(other)
  {
    if Head(h, one) == Head(h, other) {
      HeadDeterminesLog(h, one, other);
    }
    if CanonicalLog(one) == CanonicalLog(other) {
      CanonicalLogHasSameHead(h, one, other);
    }
  }

  /** What a verifier of the stored table checks: each row names the hash before it and hashes itself. */
  ghost predicate Chained(h: string -> string, rows: seq<Row>) {
    forall i | 0 <= i < |rows| ::
      rows[i].prev == Latest(rows[..i]) && rows[i].hash == h(Joined(rows[i].prev, rows[i].decision))
  }

  function Decisions(rows: seq<Row>): seq<Decision> {
    seq(|rows|, i requires 0 <= i < |rows| => rows[i].decision)
  }

  lemma OneMoreLink(h: string -> string, rows: seq<Row>, row: Row)
    requires Chained(h, rows) && row.prev == Latest(rows) && row.hash == h(Joined(row.prev, row.decision))
    ensures Chained(h, rows + [row]) && Decisions(rows + [row]) == Decisions(rows) + [row.decision]
  {
    hide Joined;
    var all := rows + [row];
    forall i | 0 <= i < |all|
      ensures all[i].prev == Latest(all[..i]) && all[i].hash == h(Joined(all[i].prev, all[i].decision))
    {
      if i < |rows| {
        assert all[..i] == rows[..i];
      } else {
        assert all[..i] == rows;
      }
    }
  }

  lemma {:induction false} LogsAreChained(h: string -> string, decisions: seq<Decision>)
    ensures Chained(h, Log(h, decisions)) && Decisions(Log(h, decisions)) == decisions
  {
    hide Joined;
    if decisions != [] {
      var n := |decisions| - 1;
      var init := Log(h, decisions[..n]);
      LogsAreChained(h, decisions[..n]);
      OneMoreLink(h, init, Row(decisions[n], Latest(init), h(Joined(Latest(init), decisions[n]))));
      assert decisions == decisions[..n] + [decisions[n]];
    }
  }

  lemma OneLinkLess(h: string -> string, rows: seq<Row>)
    requires rows != [] && Chained(h, rows)
    ensures var n := |rows| - 1;
            && Chained(h, rows[..n]) && Decisions(rows)[..n] == Decisions(rows[..n])
            && rows[n] == Row(rows[n].decision, Latest(rows[..n]), h(Joined(Latest(rows[..n]), rows[n].decision)))
  {
    hide Joined;
    var init := rows[..|rows| - 1];
    forall i | 0 <= i < |init|
      ensures init[i].prev == Latest(init[..i]) && init[i].hash == h(Joined(init[i].prev, init[i].decision))
    {
      assert init[..i] == rows[..i] && init[i] == rows[i];
    }
  }

  lemma {:induction false} ChainedIsLog(h: string -> string, rows: seq<Row>)
    requires Chained(h, rows)
    ensures rows == Log(h, Decisions(rows))
  {
    hide Joined, Chained, Latest;
    if rows != [] {
      OneLinkLess(h, rows);
      ChainedIsLog(h, rows[..|rows| - 1]);
      assert rows == rows[..|rows| - 1] + [rows[|rows| - 1]];
    }
  }

  /** A stored table passes that check exactly when it is the log of its own decisions; so a checked
      table with an unchanged newest hash is the table that was written. */
  lemma ChainedTablesAreLogs(h: string -> string, rows: seq<Row>)
    ensures Chained(h, rows) <==> rows == Log(h, Decisions(rows))
  {
    if Chained(h, rows) {
      ChainedIsLog(h, rows);
    }
    LogsAreChained(h, Decisions(rows));
  }
}
