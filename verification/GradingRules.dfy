/**
  Published grading standards: an append-only table whose validity intervals are not stored but derived
  by a `lead()` window over each company's starts. Dates are day numbers; a NULL start is `None`.
 */
module GradingRules {
  import opened Prelude

  datatype Rule = Rule(version: string, company: string, effectiveFrom: Option<int>, source: string, verifiedOn: int)

  // ----- The window

  /** `ORDER BY effective_from ASC NULLS FIRST`. */
  predicate Precedes(a: Option<int>, b: Option<int>) {
    b.Some? && (a.None? || a.value < b.value)
  }

  /** `effective_from IS NULL OR effective_from <= on`. */
  predicate Started(rule: Rule, on: int) {
    rule.effectiveFrom.None? || rule.effectiveFrom.value <= on
  }

  /** `effective_to IS NULL OR effective_to > on`. */
  predicate NotEnded(effectiveTo: Option<int>, on: int) {
    effectiveTo.None? || effectiveTo.value > on
  }

  function Partition(rows: seq<Rule>, company: string): seq<Rule> {
    if rows == [] then []
    else
      var init := Partition(rows[..|rows| - 1], company);
      if rows[|rows| - 1].company == company then init + [rows[|rows| - 1]] else init
  }

  function Place(ranked: seq<Rule>, rule: Rule): seq<Rule> {
    if ranked != [] && Precedes(rule.effectiveFrom, ranked[|ranked| - 1].effectiveFrom) then
      Place(ranked[..|ranked| - 1], rule) + [ranked[|ranked| - 1]]
    else
      ranked + [rule]
  }

  function Rank(rows: seq<Rule>): seq<Rule> {
    if rows == [] then [] else Place(Rank(rows[..|rows| - 1]), rows[|rows| - 1])
  }

  /** `lead(effective_from)`: the start of the next row in the window, NULL after the last. */
  function EffectiveTo(ranked: seq<Rule>, i: nat): Option<int>
    requires i < |ranked|
  {
    if i + 1 < |ranked| then ranked[i + 1].effectiveFrom else None
  }

  predicate Matches(ranked: seq<Rule>, i: nat, on: int)
    requires i < |ranked|
  {
    Started(ranked[i], on) && NotEnded(EffectiveTo(ranked, i), on)
  }

  /** The rows of the window, from index `i`, that the filter keeps. */
  function MatchingFrom(ranked: seq<Rule>, i: nat, on: int): seq<Rule>
    requires i <= |ranked|
    decreases |ranked| - i
  {
    if i == |ranked| then []
    else (if Matches(ranked, i, on) then [ranked[i]] else []) + MatchingFrom(ranked, i + 1, on)
  }

  /** What the resolver's query returns before it insists on one row. */
  function InForce(rows: seq<Rule>, company: string, on: int): seq<Rule> {
    MatchingFrom(Rank(Partition(rows, company)), 0, on)
  }

  // ----- The window is the company's rows in order

  ghost predicate Ranked(rules: seq<Rule>) {
    forall i, j :: 0 <= i < j < |rules| ==> !Precedes(rules[j].effectiveFrom, rules[i].effectiveFrom)
  }

  lemma PrecedesIsAsymmetric(a: Option<int>, b: Option<int>)
    ensures Precedes(a, b) ==> !Precedes(b, a)
  {
  }

  lemma {:induction false} PlaceKeepsRank(ranked: seq<Rule>, rule: Rule)
    requires Ranked(ranked)
    ensures Ranked(Place(ranked, rule)) && multiset(Place(ranked, rule)) == multiset(ranked) + multiset{rule}
  {
    if ranked != [] && Precedes(rule.effectiveFrom, ranked[|ranked| - 1].effectiveFrom) {
      hide Precedes;
      PrecedesIsAsymmetric(rule.effectiveFrom, ranked[|ranked| - 1].effectiveFrom);
      var init, last := ranked[..|ranked| - 1], ranked[|ranked| - 1];
      assert ranked == init + [last];
      PlaceKeepsRank(init, rule);
      forall i | 0 <= i < |Place(init, rule)|
        ensures !Precedes(last.effectiveFrom, Place(init, rule)[i].effectiveFrom)
      {
        assert Place(init, rule)[i] in multiset(Place(init, rule));
        assert Place(init, rule)[i] == rule || Place(init, rule)[i] in init;
      }
    }
  }

  lemma {:induction false} RankSorts(rows: seq<Rule>)
    ensures Ranked(Rank(rows)) && multiset(Rank(rows)) == multiset(rows) && |Rank(rows)| == |rows|
  {
    hide Precedes, Place;
    if rows != [] {
      RankSorts(rows[..|rows| - 1]);
      PlaceKeepsRank(Rank(rows[..|rows| - 1]), rows[|rows| - 1]);
      assert rows == rows[..|rows| - 1] + [rows[|rows| - 1]];
    }
    assert |Rank(rows)| == |multiset(Rank(rows))| == |multiset(rows)| == |rows|;
  }

  lemma {:induction false} PartitionHolds(rows: seq<Rule>, company: string, rule: Rule)
    ensures rule in Partition(rows, company) <==> rule in rows && rule.company == company
  {
    if rows != [] {
      PartitionHolds(rows[..|rows| - 1], company, rule);
      assert rows == rows[..|rows| - 1] + [rows[|rows| - 1]];
    }
  }

  /** The rows the window ranges over. */
  function Window(rows: seq<Rule>, company: string): seq<Rule> {
    Rank(Partition(rows, company))
  }

  lemma WindowHolds(rows: seq<Rule>, company: string, rule: Rule)
    ensures Ranked(Window(rows, company))
    ensures rule in Window(rows, company) <==> rule in rows && rule.company == company
  {
    RankSorts(Partition(rows, company));
    PartitionHolds(rows, company, rule);
    assert rule in Window(rows, company) <==> rule in multiset(Window(rows, company));
    assert rule in Partition(rows, company) <==> rule in multiset(Partition(rows, company));
  }

  // ----- At most one undated row is what makes the answer single

  /** No two rows of the window have a NULL start. */
  predicate OneUndated(ranked: seq<Rule>) {
    forall i, j :: 0 <= i < j < |ranked| ==> ranked[i].effectiveFrom.Some? || ranked[j].effectiveFrom.Some?
  }

  /** In such a window, a row matches iff it has started and its successor has not. */
  lemma MatchesIffLastStarted(ranked: seq<Rule>, i: nat, on: int)
    requires i < |ranked| && Ranked(ranked) && OneUndated(ranked)
    ensures Matches(ranked, i, on)
            <==> Started(ranked[i], on) && forall j :: i < j < |ranked| ==> !Started(ranked[j], on)
  {
    if i + 1 < |ranked| {
      assert ranked[i + 1].effectiveFrom.Some? by {
        assert !Precedes(ranked[i + 1].effectiveFrom, ranked[i].effectiveFrom);
        assert ranked[i].effectiveFrom.Some? || ranked[i + 1].effectiveFrom.Some?;
      }
      forall j | i < j < |ranked| && !Started(ranked[i + 1], on) ensures !Started(ranked[j], on) {
        if i + 1 < j {
          assert !Precedes(ranked[j].effectiveFrom, ranked[i + 1].effectiveFrom);
        }
      }
    }
  }

  lemma {:induction false} MatchingFromHolds(ranked: seq<Rule>, i: nat, on: int, rule: Rule)
    requires i <= |ranked|
    ensures rule in MatchingFrom(ranked, i, on)
            <==> exists k :: i <= k < |ranked| && Matches(ranked, k, on) && ranked[k] == rule
    decreases |ranked| - i
  {
    if i < |ranked| {
      FirstOrLater(ranked, i, on, rule);
      MatchingFromHolds(ranked, i + 1, on, rule);
    }
    hide Matches;
  }

  lemma FirstOrLater(ranked: seq<Rule>, i: nat, on: int, rule: Rule)
    requires i < |ranked|
    ensures rule in MatchingFrom(ranked, i, on)
            <==> (Matches(ranked, i, on) && ranked[i] == rule) || rule in MatchingFrom(ranked, i + 1, on)
  {
    hide Matches;
  }

  lemma {:induction false} AtMostOneMatches(ranked: seq<Rule>, i: nat, on: int)
    requires i <= |ranked| && Ranked(ranked) && OneUndated(ranked)
    ensures |MatchingFrom(ranked, i, on)| <= 1
    ensures (exists k :: i <= k < |ranked| && Started(ranked[k], on)) ==> MatchingFrom(ranked, i, on) != []
    ensures MatchingFrom(ranked, i, on) != [] ==> exists k :: i <= k < |ranked| && Started(ranked[k], on)
    decreases |ranked| - i
  {
    if i < |ranked| {
      MatchesIffLastStarted(ranked, i, on);
      AtMostOneMatches(ranked, i + 1, on);
    }
  }

  lemma {:induction false} MatchingFromLength(ranked: seq<Rule>, i: nat, k: nat, on: int)
    requires i <= k <= |ranked|
    ensures |MatchingFrom(ranked, i, on)| >= |MatchingFrom(ranked, k, on)|
    decreases k - i
  {
    if i < k {
      MatchingFromLength(ranked, i + 1, k, on);
    }
  }

  /** Two undated rows sort first, and on some date both are in force. */
  lemma TwoUndatedOverlap(ranked: seq<Rule>) returns (on: int)
    requires Ranked(ranked) && !OneUndated(ranked)
    ensures |MatchingFrom(ranked, 0, on)| >= 2
  {
    var i, j :| 0 <= i < j < |ranked| && ranked[i].effectiveFrom.None? && ranked[j].effectiveFrom.None?;
    assert i > 0 ==> !Precedes(ranked[i].effectiveFrom, ranked[0].effectiveFrom);
    assert j > 1 ==> !Precedes(ranked[j].effectiveFrom, ranked[1].effectiveFrom);
    assert ranked[0].effectiveFrom.None? && ranked[1].effectiveFrom.None?;
    on := if EffectiveTo(ranked, 1).None? then 0 else EffectiveTo(ranked, 1).value - 1;
    assert Matches(ranked, 0, on) && Matches(ranked, 1, on);
    assert |MatchingFrom(ranked, 1, on)| >= 1;
  }

  /**
    Whatever else a table holds, a company has at most one standard in force on every date iff at most
    one of its rows is undated. `NULLS NOT DISTINCT` is exactly what the derived intervals need.
   */
  lemma NeverTwoInForceIff(rows: seq<Rule>, company: string)
    ensures (forall on :: |InForce(rows, company, on)| <= 1) <==> OneUndated(Window(rows, company))
  {
    RankSorts(Partition(rows, company));
    var ranked := Window(rows, company);
    if OneUndated(ranked) {
      forall on ensures |InForce(rows, company, on)| <= 1 {
        AtMostOneMatches(ranked, 0, on);
      }
    } else {
      var on := TwoUndatedOverlap(ranked);
      assert |InForce(rows, company, on)| >= 2;
    }
  }

  // ----- The constraint, and the simple form the window refines

  /** `UNIQUE NULLS NOT DISTINCT (company, effective_from)`. */
  predicate UniqueStarts(rows: seq<Rule>) {
    forall i, j :: 0 <= i < j < |rows|
        ==> rows[i].company != rows[j].company || rows[i].effectiveFrom != rows[j].effectiveFrom
  }

  predicate UniqueVersions(rows: seq<Rule>) {
    forall i, j :: 0 <= i < j < |rows| ==> rows[i].version != rows[j].version
  }

  /** `rule` has the latest start not after the date, among its company's rows. */
  ghost predicate Governs(rows: seq<Rule>, rule: Rule, company: string, on: int) {
    && rule in rows && rule.company == company
    && (rule.effectiveFrom.Some? ==> rule.effectiveFrom.value <= on)
    && forall other ::
         && other in rows && other.company == company
         && other.effectiveFrom.Some? && other.effectiveFrom.value <= on
         ==> rule.effectiveFrom.Some? && other.effectiveFrom.value <= rule.effectiveFrom.value
  }

  /** The same in the window's own terms. */
  lemma GovernsInOrder(rows: seq<Rule>, rule: Rule, company: string, on: int)
    ensures Governs(rows, rule, company, on) <==>
              && rule in rows && rule.company == company && Started(rule, on)
              && forall other ::
                   other in rows && other.company == company && Started(other, on)
                   ==> !Precedes(rule.effectiveFrom, other.effectiveFrom)
  {
  }

  lemma {:induction false} PartitionKeepsUniqueness(rows: seq<Rule>, company: string)
    requires UniqueStarts(rows)
    ensures UniqueStarts(Partition(rows, company))
  {
    if rows != [] {
      PartitionKeepsUniqueness(rows[..|rows| - 1], company);
      var init := Partition(rows[..|rows| - 1], company);
      forall i | 0 <= i < |init| ensures init[i] in rows[..|rows| - 1] {
        PartitionHolds(rows[..|rows| - 1], company, init[i]);
      }
    }
  }

  lemma {:induction false} UniqueStartsInMultiset(rows: seq<Rule>)
    requires UniqueStarts(rows)
    ensures forall rule :: multiset(rows)[rule] <= 1
  {
    if rows != [] {
      UniqueStartsInMultiset(rows[..|rows| - 1]);
      assert rows == rows[..|rows| - 1] + [rows[|rows| - 1]];
    }
  }

  /** Under the constraint a window has distinct starts, so at most one of them is NULL. */
  lemma WindowHasDistinctStarts(rows: seq<Rule>, company: string)
    requires UniqueStarts(rows)
    ensures UniqueStarts(Window(rows, company)) && OneUndated(Window(rows, company))
    ensures forall rule :: rule in Window(rows, company) ==> rule.company == company
  {
    var part, ranked := Partition(rows, company), Window(rows, company);
    RankSorts(part);
    PartitionKeepsUniqueness(rows, company);
    UniqueStartsInMultiset(part);
    forall rule | rule in ranked ensures rule.company == company {
      WindowHolds(rows, company, rule);
    }
    forall i, j | 0 <= i < j < |ranked|
      ensures ranked[i].company != ranked[j].company || ranked[i].effectiveFrom != ranked[j].effectiveFrom
    {
      DistinctInMultiset(ranked, i, j);
      assert ranked[i] in multiset(ranked) && ranked[j] in multiset(ranked);
      assert ranked[i] in part && ranked[j] in part;
    }
  }

  lemma DistinctInMultiset(rules: seq<Rule>, i: nat, j: nat)
    requires i < j < |rules| && multiset(rules)[rules[i]] <= 1
    ensures rules[i] != rules[j]
  {
    var before, after := rules[..j], rules[j..];
    assert rules == before + after;
    assert rules[i] in before && rules[j] in after;
  }

  /**
    The derived intervals refine "the latest start not after the date": at most one row is in force, it
    is the governing one, and there is one iff some row of the company has started.
   */
  lemma InForceIsTheGoverningRow(rows: seq<Rule>, company: string, on: int)
    requires UniqueStarts(rows)
    ensures |InForce(rows, company, on)| <= 1
    ensures forall rule :: rule in InForce(rows, company, on) <==> Governs(rows, rule, company, on)
    ensures |InForce(rows, company, on)| == 1
            <==> exists rule ::
                   rule in rows && rule.company == company
                   && (rule.effectiveFrom.None? || rule.effectiveFrom.value <= on)
  {
    var ranked := Window(rows, company);
    WindowHasDistinctStarts(rows, company);
    RankSorts(Partition(rows, company));
    AtMostOneMatches(ranked, 0, on);
    forall rule ensures rule in InForce(rows, company, on) <==> Governs(rows, rule, company, on) {
      MatchIffGoverns(rows, company, on, rule);
    }
    if rule :| rule in rows && rule.company == company && Started(rule, on) {
      WindowHolds(rows, company, rule);
      assert exists k :: 0 <= k < |ranked| && Started(ranked[k], on);
    }
    if InForce(rows, company, on) != [] {
      GovernsInOrder(rows, InForce(rows, company, on)[0], company, on);
      assert Governs(rows, InForce(rows, company, on)[0], company, on);
    }
  }

  ghost predicate GovernsAmong(ranked: seq<Rule>, rule: Rule, on: int) {
    && rule in ranked && Started(rule, on)
    && forall other :: other in ranked && Started(other, on) ==> !Precedes(rule.effectiveFrom, other.effectiveFrom)
  }

  lemma MatchIffGoverns(rows: seq<Rule>, company: string, on: int, rule: Rule)
    requires UniqueStarts(rows)
    ensures rule in InForce(rows, company, on) <==> Governs(rows, rule, company, on)
  {
    var ranked := Window(rows, company);
    WindowHasDistinctStarts(rows, company);
    WindowHolds(rows, company, rule);
    MatchIffGovernsAmong(ranked, company, on, rule);
    GovernsInOrder(rows, rule, company, on);
    hide Window, MatchingFrom, Precedes, Started, Governs;
    forall other ensures other in ranked <==> other in rows && other.company == company {
      WindowHolds(rows, company, other);
    }
  }

  lemma MatchIffGovernsAmong(ranked: seq<Rule>, company: string, on: int, rule: Rule)
    requires Ranked(ranked) && OneUndated(ranked) && UniqueStarts(ranked)
    requires forall r :: r in ranked ==> r.company == company
    ensures rule in MatchingFrom(ranked, 0, on) <==> GovernsAmong(ranked, rule, on)
  {
    MatchingFromHolds(ranked, 0, on, rule);
    hide Ranked, OneUndated, UniqueStarts, Matches, Started, Precedes;
    if k :| 0 <= k < |ranked| && ranked[k] == rule {
      RowMatchesIffItGoverns(ranked, company, on, k);
    }
    if k :| 0 <= k < |ranked| && Matches(ranked, k, on) && ranked[k] == rule {
      RowMatchesIffItGoverns(ranked, company, on, k);
    }
  }

  lemma RowMatchesIffItGoverns(ranked: seq<Rule>, company: string, on: int, k: nat)
    requires k < |ranked| && Ranked(ranked) && OneUndated(ranked) && UniqueStarts(ranked)
    requires forall r :: r in ranked ==> r.company == company
    ensures Matches(ranked, k, on) <==> GovernsAmong(ranked, ranked[k], on)
  {
    MatchesIffLastStarted(ranked, k, on);
    hide OneUndated, Matches, Started;
    if Matches(ranked, k, on) {
      forall other | other in ranked && Started(other, on)
        ensures !Precedes(ranked[k].effectiveFrom, other.effectiveFrom)
      {
        var j :| 0 <= j < |ranked| && ranked[j] == other;
      }
    }
    if GovernsAmong(ranked, ranked[k], on) {
      forall j | k < j < |ranked| ensures !Started(ranked[j], on) {
        assert !Precedes(ranked[j].effectiveFrom, ranked[k].effectiveFrom);
        assert ranked[k].company == company == ranked[j].company;
        assert ranked[j] in ranked;
      }
    }
  }

  // ----- Publishing

  /** The dates from the row's start up to the next start of its company. */
  ghost predicate InSpan(rows: seq<Rule>, row: Rule, on: int) {
    && (row.effectiveFrom.Some? ==> row.effectiveFrom.value <= on)
    && forall other ::
         && other in rows && other.company == row.company && other.effectiveFrom.Some?
         && (row.effectiveFrom.Some? ==> row.effectiveFrom.value < other.effectiveFrom.value)
         ==> on < other.effectiveFrom.value
  }

  /**
    Publishing a version changes the answer on exactly the dates of its own span, and there the answer is that
    version.
   */
  lemma PublishingChangesOnlyItsSpan(rows: seq<Rule>, row: Rule, company: string, on: int)
    requires UniqueStarts(rows + [row])
    ensures InForce(rows + [row], company, on)
            == if company == row.company && InSpan(rows, row, on) then [row] else InForce(rows, company, on)
  {
    var after := rows + [row];
    assert UniqueStarts(rows) by {
      forall i, j | 0 <= i < j < |rows|
        ensures rows[i].company != rows[j].company || rows[i].effectiveFrom != rows[j].effectiveFrom
      {
        assert after[i] == rows[i] && after[j] == rows[j];
      }
    }
    InForceIsTheGoverningRow(rows, company, on);
    InForceIsTheGoverningRow(after, company, on);
    var expected := if company == row.company && InSpan(rows, row, on) then [row] else InForce(rows, company, on);
    forall rule ensures rule in InForce(after, company, on) <==> rule in expected {
      GovernsAfterPublishing(rows, row, company, on, rule);
    }
    SingletonsWithSameMembers(InForce(after, company, on), expected);
  }

  lemma GovernsAfterPublishing(rows: seq<Rule>, row: Rule, company: string, on: int, rule: Rule)
    requires UniqueStarts(rows + [row])
    ensures Governs(rows + [row], rule, company, on) <==>
              if company == row.company && InSpan(rows, row, on) then rule == row else Governs(rows, rule, company, on)
  {
    var after := rows + [row];
    forall other | other in rows && other.company == row.company ensures other.effectiveFrom != row.effectiveFrom {
      var i :| 0 <= i < |rows| && rows[i] == other;
      assert after[i] == other && after[|rows|] == row;
    }
    assert forall other :: other in after <==> other in rows || other == row;
  }

  lemma SingletonsWithSameMembers(a: seq<Rule>, b: seq<Rule>)
    requires |a| <= 1 && |b| <= 1 && forall rule :: rule in a <==> rule in b
    ensures a == b
  {
    if |a| == 1 { assert a[0] in b; }
    if |b| == 1 { assert b[0] in a; }
  }

  // ----- The table

  datatype Statement =
    | Insert(row: Rule)
    | Update(version: string, row: Rule)
    | Delete(version: string)

  predicate Stored(rows: seq<Rule>, version: string) {
    exists i :: 0 <= i < |rows| && rows[i].version == version
  }

  /** Refused by the primary key, by the unique constraint, or by the trigger on a row the statement reaches. */
  predicate Refused(rows: seq<Rule>, statement: Statement) {
    match statement
    case Insert(row) =>
      exists i :: 0 <= i < |rows|
          && (rows[i].version == row.version
              || (rows[i].company == row.company && rows[i].effectiveFrom == row.effectiveFrom))
    case Update(version, _) => Stored(rows, version)
    case Delete(version) => Stored(rows, version)
  }

  function Apply(rows: seq<Rule>, statement: Statement): seq<Rule> {
    if statement.Insert? && !Refused(rows, statement) then rows + [statement.row] else rows
  }

  function Run(statements: seq<Statement>): seq<Rule> {
    if statements == [] then [] else Apply(Run(statements[..|statements| - 1]), statements[|statements| - 1])
  }

  /** In every reachable table both constraints hold, so the resolver's `one_or_none` never sees two rows. */
  lemma {:induction false} EveryReachableTableResolves(statements: seq<Statement>, company: string, on: int)
    ensures UniqueVersions(Run(statements)) && UniqueStarts(Run(statements))
    ensures |InForce(Run(statements), company, on)| <= 1
  {
    if statements != [] {
      EveryReachableTableResolves(statements[..|statements| - 1], company, on);
    }
    InForceIsTheGoverningRow(Run(statements), company, on);
  }

  /** Nothing that follows can rewrite or remove a published row: the table only ever grows at its end. */
  lemma {:induction false} PublishedRowsAreForever(statements: seq<Statement>, later: seq<Statement>)
    ensures Run(statements) <= Run(statements + later)
    decreases |later|
  {
    if later == [] {
      assert statements + later == statements;
    } else {
      PublishedRowsAreForever(statements, later[..|later| - 1]);
      assert (statements + later)[..|statements + later| - 1] == statements + later[..|later| - 1];
    }
  }

  class RulesTable {
    var rows: seq<Rule>

    ghost predicate Valid()
      reads this
    {
      UniqueVersions(rows) && UniqueStarts(rows)
    }

    constructor ()
      ensures Valid() && rows == []
    {
      rows := [];
    }

    method Insert(row: Rule) returns (refused: bool)
      requires Valid()
      modifies this
      ensures Valid()
      ensures refused <==> Refused(old(rows), Statement.Insert(row))
      ensures rows == Apply(old(rows), Statement.Insert(row))
      ensures refused <==>
                || (exists r :: r in old(rows) && r.version == row.version)
                || (exists r :: r in old(rows) && r.company == row.company && r.effectiveFrom == row.effectiveFrom)
      ensures rows == if refused then old(rows) else old(rows) + [row]
    {
      refused := exists i ::
        0 <= i < |rows|
        && (rows[i].version == row.version
            || (rows[i].company == row.company && rows[i].effectiveFrom == row.effectiveFrom));
      if !refused {
        rows := rows + [row];
      }
    }

    method Update(version: string, row: Rule) returns (refused: bool)
      requires Valid()
      modifies this
      ensures Valid()
      ensures refused <==> exists i :: 0 <= i < |rows| && rows[i].version == version
      ensures rows == old(rows) == Apply(old(rows), Statement.Update(version, row))
    {
      refused := Stored(rows, version);
    }

    method Delete(version: string) returns (refused: bool)
      requires Valid()
      modifies this
      ensures Valid()
      ensures refused <==> exists i :: 0 <= i < |rows| && rows[i].version == version
      ensures rows == old(rows) == Apply(old(rows), Statement.Delete(version))
    {
      refused := Stored(rows, version);
    }

    /** The resolver: no row, or the one whose start is the latest not after `on`. */
    method Resolve(company: string, on: int) returns (rule: Option<Rule>)
      requires Valid()
      ensures rule.Some? ==> Governs(rows, rule.value, company, on)
      ensures rule.None? ==>
                forall r :: r in rows && r.company == company ==> r.effectiveFrom.Some? && r.effectiveFrom.value > on
    {
      InForceIsTheGoverningRow(rows, company, on);
      var found := InForce(rows, company, on);
      rule := if found == [] then None else Some(found[0]);
    }
  }
}
