/**
  The six version columns of an analysis, written once each: a BEFORE UPDATE trigger refuses to change
  one that already holds a value.
 */
module ReproducibilityRecord {
  import opened Prelude

  datatype Column =
    | ApplicationVersion
    | ModelBundleVersion
    | CardDatabaseVersion
    | GradingRulesVersion
    | MarketSnapshotId
    | EconomicConfigurationId

  const COLUMNS: set<Column> :=
    {ApplicationVersion, ModelBundleVersion, CardDatabaseVersion, GradingRulesVersion, MarketSnapshotId,
     EconomicConfigurationId}

  type Record = r: map<Column, Option<string>> | r.Keys == COLUMNS
    witness map c | c in COLUMNS :: None

  const BLANK: Record := map c | c in COLUMNS :: None

  /** `UPDATE analyses SET ...`: the columns the statement names, and what it sets them to. */
  type Assignment = a: map<Column, Option<string>> | a.Keys <= COLUMNS witness map[]

  /** The NEW row. */
  function Assigned(held: Record, assignment: Assignment): Record {
    held + assignment
  }

  /** The trigger's WHEN clause: some column held a value and `NEW IS DISTINCT FROM OLD` there. */
  predicate Refused(held: Record, assignment: Assignment) {
    exists c :: c in held && held[c].Some? && Assigned(held, assignment)[c] != held[c]
  }

  function Update(held: Record, assignment: Assignment): Record {
    if Refused(held, assignment) then held else Assigned(held, assignment)
  }

  function Run(r: Record, updates: seq<Assignment>): Record
    decreases |updates|
  {
    if updates == [] then r else Run(Update(r, updates[0]), updates[1..])
  }

  lemma SixColumnsAreGuarded(r: Record)
    ensures r.Keys == {ApplicationVersion, ModelBundleVersion, CardDatabaseVersion, GradingRulesVersion,
                       MarketSnapshotId, EconomicConfigurationId}
    ensures forall c: Column :: c in r
  {
    forall c: Column ensures c in COLUMNS {
      assert c.ApplicationVersion? || c.ModelBundleVersion? || c.CardDatabaseVersion? || c.GradingRulesVersion?
             || c.MarketSnapshotId? || c.EconomicConfigurationId?;
    }
  }

  /** Column by column: a refused update leaves every value, an accepted one sets exactly the columns it names. */
  lemma UpdateSetsWhatItNames(held: Record, assignment: Assignment, c: Column)
    requires c in COLUMNS
    ensures Refused(held, assignment) <==>
              exists d :: d in assignment && held[d].Some? && assignment[d] != held[d]
    ensures Update(held, assignment)[c]
            == if !Refused(held, assignment) && c in assignment then assignment[c] else held[c]
  {
    if d :| d in held && held[d].Some? && Assigned(held, assignment)[d] != held[d] {
      assert d in assignment && assignment[d] != held[d];
    }
    if d :| d in assignment && held[d].Some? && assignment[d] != held[d] {
      assert Assigned(held, assignment)[d] == assignment[d];
    }
  }

  // ----- Written once

  /** Every column written in `a` holds the same value in `b`. */
  predicate Extends(b: Record, a: Record) {
    forall c :: c in COLUMNS && a[c].Some? ==> b[c] == a[c]
  }

  /** A value once written survives every run of updates. */
  lemma {:induction false} WrittenOnce(r: Record, updates: seq<Assignment>)
    ensures Extends(Run(r, updates), r)
    decreases |updates|
  {
    if updates != [] {
      WrittenOnce(Update(r, updates[0]), updates[1..]);
    }
  }

  /** Over a run from any record a column takes at most one value: any two moments at which it holds one agree. */
  lemma EachColumnTakesOneValue(r: Record, first: seq<Assignment>, more: seq<Assignment>, c: Column)
    requires c in COLUMNS && Run(r, first)[c].Some? && Run(r, first + more)[c].Some?
    ensures Run(r, first)[c] == Run(r, first + more)[c]
  {
    RunConcat(r, first, more);
    WrittenOnce(Run(r, first), more);
  }

  lemma {:induction false} RunConcat(r: Record, first: seq<Assignment>, more: seq<Assignment>)
    ensures Run(r, first + more) == Run(Run(r, first), more)
    decreases |first|
  {
    if first == [] {
      assert first + more == more;
    } else {
      assert (first + more)[1..] == first[1..] + more;
      RunConcat(Update(r, first[0]), first[1..], more);
    }
  }

  // ----- Progress

  function Blanks(r: Record): set<Column> {
    set c | c in COLUMNS && r[c].None?
  }

  /** A refused update changes nothing; an accepted one either changes nothing or fills at least one empty column. */
  lemma EveryChangeFillsAColumn(r: Record, assignment: Assignment)
    ensures Refused(r, assignment) ==> Update(r, assignment) == r
    ensures Update(r, assignment) != r ==> Blanks(Update(r, assignment)) < Blanks(r)
    ensures Update(r, assignment) != r ==> |Blanks(Update(r, assignment))| < |Blanks(r)|
  {
    var after := Update(r, assignment);
    if after != r {
      var c :| c in COLUMNS && after[c] != r[c];
      assert c in Blanks(r) && c !in Blanks(after);
      ProperSubsetIsSmaller(Blanks(after), Blanks(r));
    }
  }

  lemma {:induction false} ProperSubsetIsSmaller(a: set<Column>, b: set<Column>)
    requires a < b
    ensures |a| < |b|
  {
    var c :| c in b && c !in a;
    assert a <= b - {c};
    SubsetIsNoLarger(a, b - {c});
  }

  lemma {:induction false} SubsetIsNoLarger(a: set<Column>, b: set<Column>)
    requires a <= b
    ensures |a| <= |b|
  {
    if a != {} {
      var c :| c in a;
      SubsetIsNoLarger(a - {c}, b - {c});
    }
  }

  /** So at most six updates of a run ever change the record. */
  function Changes(r: Record, updates: seq<Assignment>): nat
    decreases |updates|
  {
    if updates == [] then 0
    else (if Update(r, updates[0]) != r then 1 else 0) + Changes(Update(r, updates[0]), updates[1..])
  }

  lemma {:induction false} AtMostSixChanges(r: Record, updates: seq<Assignment>)
    ensures Changes(r, updates) + |Blanks(Run(r, updates))| <= |Blanks(r)| <= 6
    decreases |updates|
  {
    SubsetIsNoLarger(Blanks(r), COLUMNS);
    if updates != [] {
      EveryChangeFillsAColumn(r, updates[0]);
      AtMostSixChanges(Update(r, updates[0]), updates[1..]);
    }
  }

  // ----- Retries

  /**
    Repeating an accepted update after anything else is accepted exactly when no column it set to NULL has
    been written since; then it changes nothing. Writing values only, a retry is always safe.
   */
  lemma RetryIsAcceptedIff(r: Record, assignment: Assignment, between: seq<Assignment>)
    requires !Refused(r, assignment)
    ensures var later := Run(Update(r, assignment), between);
            && (!Refused(later, assignment) <==> forall c :: c in assignment && assignment[c].None? ==> later[c].None?)
            && (!Refused(later, assignment) ==> Update(later, assignment) == later)
  {
    var written := Update(r, assignment);
    var later := Run(written, between);
    WrittenOnce(written, between);
    forall c | c in assignment && assignment[c].Some? ensures later[c] == assignment[c] {
      assert written[c] == assignment[c];
    }
    if forall c :: c in assignment && assignment[c].None? ==> later[c].None? {
      assert Assigned(later, assignment) == later;
    } else {
      var c :| c in assignment && assignment[c].None? && later[c].Some?;
      assert Assigned(later, assignment)[c] == None;
    }
  }

  /** The clause the retry rule turns on: clearing an empty column is accepted once and refused after it is filled. */
  lemma ClearingCannotAlwaysBeRepeated()
    ensures var clear: Assignment := map[ModelBundleVersion := None];
            var fill: Assignment := map[ModelBundleVersion := Some("v1")];
            !Refused(BLANK, clear) && Refused(Run(Update(BLANK, clear), [fill]), clear)
  {
    var clear: Assignment := map[ModelBundleVersion := None];
    var fill: Assignment := map[ModelBundleVersion := Some("v1")];
    assert Update(BLANK, clear) == BLANK;
    var filled := Update(BLANK, fill);
    assert filled[ModelBundleVersion] == Some("v1");
    assert Run(BLANK, [fill]) == Run(filled, [fill][1..]) == filled;
    assert Assigned(filled, clear)[ModelBundleVersion] == None;
  }

  // ----- The row

  predicate Changed(held: Option<string>, assignment: Assignment, c: Column) {
    held.Some? && c in assignment && assignment[c] != held
  }

  function Value(held: Option<string>, assignment: Assignment, c: Column): Option<string> {
    if c in assignment then assignment[c] else held
  }

  /** The disjunction the trigger spells out, column by column. */
  lemma RefusedUnfolds(r: Record, assignment: Assignment)
    ensures Refused(r, assignment) <==>
              || Changed(r[ApplicationVersion], assignment, ApplicationVersion)
              || Changed(r[ModelBundleVersion], assignment, ModelBundleVersion)
              || Changed(r[CardDatabaseVersion], assignment, CardDatabaseVersion)
              || Changed(r[GradingRulesVersion], assignment, GradingRulesVersion)
              || Changed(r[MarketSnapshotId], assignment, MarketSnapshotId)
              || Changed(r[EconomicConfigurationId], assignment, EconomicConfigurationId)
  {
    assert forall c ::
        c in COLUMNS ==> (Changed(r[c], assignment, c) <==> r[c].Some? && Assigned(r, assignment)[c] != r[c]);
  }

  function RecordOf(application: Option<string>, bundle: Option<string>, cards: Option<string>,
                    rules: Option<string>, snapshot: Option<string>, configuration: Option<string>): (r: Record)
  {
    map[ApplicationVersion := application, ModelBundleVersion := bundle, CardDatabaseVersion := cards,
        GradingRulesVersion := rules, MarketSnapshotId := snapshot, EconomicConfigurationId := configuration]
  }

  /** Assigning to the record is assigning to its six fields. */
  lemma AssignedFieldByField(application: Option<string>, bundle: Option<string>, cards: Option<string>,
                             rules: Option<string>, snapshot: Option<string>, configuration: Option<string>,
                             assignment: Assignment)
    ensures Assigned(RecordOf(application, bundle, cards, rules, snapshot, configuration), assignment)
            == RecordOf(Value(application, assignment, ApplicationVersion),
                        Value(bundle, assignment, ModelBundleVersion),
                        Value(cards, assignment, CardDatabaseVersion), Value(rules, assignment, GradingRulesVersion),
                        Value(snapshot, assignment, MarketSnapshotId),
                        Value(configuration, assignment, EconomicConfigurationId))
  {
  }

  class AnalysisRow {
    var applicationVersion: Option<string>
    var modelBundleVersion: Option<string>
    var cardDatabaseVersion: Option<string>
    var gradingRulesVersion: Option<string>
    var marketSnapshotId: Option<string>
    var economicConfigurationId: Option<string>

    /** The record the six fields make up. */
    function Record(): (r: Record)
      reads this
    {
      RecordOf(applicationVersion, modelBundleVersion, cardDatabaseVersion,
               gradingRulesVersion, marketSnapshotId, economicConfigurationId)
    }

    constructor ()
      ensures Record() == RecordOf(None, None, None, None, None, None)
    {
      applicationVersion, modelBundleVersion, cardDatabaseVersion := None, None, None;
      gradingRulesVersion, marketSnapshotId, economicConfigurationId := None, None, None;
    }

    method Set(assignment: Assignment) returns (refused: bool)
      modifies this
      ensures refused <==> Refused(old(Record()), assignment)
      ensures Record() == Update(old(Record()), assignment)
      ensures refused <==>
                || (old(applicationVersion).Some? && ApplicationVersion in assignment
                    && assignment[ApplicationVersion] != old(applicationVersion))
                || (old(modelBundleVersion).Some? && ModelBundleVersion in assignment
                    && assignment[ModelBundleVersion] != old(modelBundleVersion))
                || (old(cardDatabaseVersion).Some? && CardDatabaseVersion in assignment
                    && assignment[CardDatabaseVersion] != old(cardDatabaseVersion))
                || (old(gradingRulesVersion).Some? && GradingRulesVersion in assignment
                    && assignment[GradingRulesVersion] != old(gradingRulesVersion))
                || (old(marketSnapshotId).Some? && MarketSnapshotId in assignment
                    && assignment[MarketSnapshotId] != old(marketSnapshotId))
                || (old(economicConfigurationId).Some? && EconomicConfigurationId in assignment
                    && assignment[EconomicConfigurationId] != old(economicConfigurationId))
      ensures applicationVersion
              == if !refused && ApplicationVersion in assignment then assignment[ApplicationVersion]
                 else old(applicationVersion)
      ensures modelBundleVersion
              == if !refused && ModelBundleVersion in assignment then assignment[ModelBundleVersion]
                 else old(modelBundleVersion)
      ensures cardDatabaseVersion
              == if !refused && CardDatabaseVersion in assignment then assignment[CardDatabaseVersion]
                 else old(cardDatabaseVersion)
      ensures gradingRulesVersion
              == if !refused && GradingRulesVersion in assignment then assignment[GradingRulesVersion]
                 else old(gradingRulesVersion)
      ensures marketSnapshotId
              == if !refused && MarketSnapshotId in assignment then assignment[MarketSnapshotId]
                 else old(marketSnapshotId)
      ensures economicConfigurationId
              == if !refused && EconomicConfigurationId in assignment then assignment[EconomicConfigurationId]
                 else old(economicConfigurationId)
    {
      RefusedUnfolds(Record(), assignment);
      AssignedFieldByField(applicationVersion, modelBundleVersion, cardDatabaseVersion,
                           gradingRulesVersion, marketSnapshotId, economicConfigurationId, assignment);
      hide Refused, Assigned;
      refused :=
        || Changed(applicationVersion, assignment, ApplicationVersion)
        || Changed(modelBundleVersion, assignment, ModelBundleVersion)
        || Changed(cardDatabaseVersion, assignment, CardDatabaseVersion)
        || Changed(gradingRulesVersion, assignment, GradingRulesVersion)
        || Changed(marketSnapshotId, assignment, MarketSnapshotId)
        || Changed(economicConfigurationId, assignment, EconomicConfigurationId);
      if !refused {
        applicationVersion := Value(applicationVersion, assignment, ApplicationVersion);
        modelBundleVersion := Value(modelBundleVersion, assignment, ModelBundleVersion);
        cardDatabaseVersion := Value(cardDatabaseVersion, assignment, CardDatabaseVersion);
        gradingRulesVersion := Value(gradingRulesVersion, assignment, GradingRulesVersion);
        marketSnapshotId := Value(marketSnapshotId, assignment, MarketSnapshotId);
        economicConfigurationId := Value(economicConfigurationId, assignment, EconomicConfigurationId);
      }
    }
  }
}
