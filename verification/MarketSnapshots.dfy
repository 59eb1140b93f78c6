/**
  Market observations and the cut-lines taken through them, transaction by transaction. `now()` is the
  start of the transaction, rows become visible when it commits, and a trigger refuses every UPDATE.
 */
module MarketSnapshots {
  import opened Prelude

  type Id = nat

  /** A price as its provider reports it, in cents of SGD; a raw card has no company and no grade. */
  datatype Quote = Quote(provider: Id, card: Id, company: Option<string>, grade: Option<string>, price: int,
                         observedAt: int)

  datatype Observation = Observation(quote: Quote, createdAt: int)

  /** A snapshot stores no observations: `generatedAt` is the cut-line itself. */
  datatype Snapshot = Snapshot(provider: Id, generatedAt: int)

  /** What a transaction has written and nobody else can see yet. */
  datatype Pending = Pending(start: int, observations: map<Id, Observation>, snapshots: map<Id, Snapshot>)

  datatype Market = Market(clock: int, open: map<Id, Pending>, observations: map<Id, Observation>,
                           snapshots: map<Id, Snapshot>)

  datatype Statement =
    | Begin(tx: Id, now: int)
    | Record(tx: Id, id: Id, quote: Quote)
    | Cut(tx: Id, id: Id, provider: Id)
    | Commit(tx: Id)
    | Rollback(tx: Id)
    | UpdateObservation(id: Id, quote: Quote)
    | UpdateSnapshot(id: Id, provider: Id)
    | DeleteObservation(id: Id)

  const EMPTY := Market(0, map[], map[], map[])

  predicate ObservationTaken(m: Market, id: Id) {
    id in m.observations || exists tx :: tx in m.open && id in m.open[tx].observations
  }

  predicate SnapshotTaken(m: Market, id: Id) {
    id in m.snapshots || exists tx :: tx in m.open && id in m.open[tx].snapshots
  }

  /** What the store refuses: a clock that does not advance, a transaction that is not open, a used key, any rewrite. */
  predicate Refused(m: Market, s: Statement) {
    match s
    case Begin(tx, now) => tx in m.open || now <= m.clock
    case Record(tx, id, _) => tx !in m.open || ObservationTaken(m, id)
    case Cut(tx, id, _) => tx !in m.open || SnapshotTaken(m, id)
    case Commit(tx) => tx !in m.open
    case Rollback(tx) => tx !in m.open
    case UpdateObservation(id, _) => id in m.observations
    case UpdateSnapshot(id, _) => id in m.snapshots
    case DeleteObservation(_) => false
  }

  function Apply(m: Market, s: Statement): Market {
    if Refused(m, s) then m
    else
      match s
      case Begin(tx, now) => m.(clock := now, open := m.open[tx := Pending(now, map[], map[])])
      case Record(tx, id, quote) =>
        var p := m.open[tx];
        m.(open := m.open[tx := p.(observations := p.observations[id := Observation(quote, p.start)])])
      case Cut(tx, id, provider) =>
        var p := m.open[tx];
        m.(open := m.open[tx := p.(snapshots := p.snapshots[id := Snapshot(provider, p.start)])])
      case Commit(tx) =>
        m.(open := m.open - {tx}, observations := m.observations + m.open[tx].observations,
           snapshots := m.snapshots + m.open[tx].snapshots)
      case Rollback(tx) => m.(open := m.open - {tx})
      case UpdateObservation(_, _) => m
      case UpdateSnapshot(_, _) => m
      case DeleteObservation(id) => m.(observations := m.observations - {id})
  }

  function RunFrom(m: Market, statements: seq<Statement>): Market
    decreases |statements|
  {
    if statements == [] then m else RunFrom(Apply(m, statements[0]), statements[1..])
  }

  /** The observations a snapshot comprises. */
  function Resolved(m: Market, snapshot: Snapshot): map<Id, Observation> {
    map id | id in m.observations && m.observations[id].quote.provider == snapshot.provider
             && m.observations[id].createdAt <= snapshot.generatedAt :: m.observations[id]
  }

  // ----- What every run keeps

  /** Timestamps are the database's, never ahead of the clock, and no key is spoken for twice. */
  ghost predicate Consistent(m: Market) {
    Landed(m) && Uncommitted(m) && KeysApart(m)
  }

  ghost predicate Landed(m: Market) {
    && (forall id :: id in m.observations ==> m.observations[id].createdAt <= m.clock)
    && (forall id :: id in m.snapshots ==> m.snapshots[id].generatedAt <= m.clock)
  }

  ghost predicate Uncommitted(m: Market) {
    forall tx :: tx in m.open ==> PendingConsistent(m, m.open[tx])
  }

  ghost predicate PendingConsistent(m: Market, p: Pending) {
    && p.start <= m.clock
    && (forall id :: id in p.observations ==> p.observations[id].createdAt == p.start && id !in m.observations)
    && (forall id :: id in p.snapshots ==> p.snapshots[id].generatedAt == p.start && id !in m.snapshots)
  }

  predicate Apart(a: Pending, b: Pending) {
    a.observations.Keys !! b.observations.Keys && a.snapshots.Keys !! b.snapshots.Keys
  }

  ghost predicate KeysApart(m: Market) {
    forall a, b :: a in m.open && b in m.open && a != b ==> Apart(m.open[a], m.open[b])
  }

  lemma ApplyKeepsConsistency(m: Market, s: Statement)
    requires Consistent(m)
    ensures Consistent(Apply(m, s))
  {
    if !Refused(m, s) {
      hide Consistent;
      match s
      case Begin(_, _) => OpeningKeepsConsistency(m, s);
      case Record(tx, id, quote) => RecordKeepsConsistency(m, tx, id, quote);
      case Cut(tx, id, provider) => CutKeepsConsistency(m, tx, id, provider);
      case Commit(tx) => CommitKeepsConsistency(m, tx);
      case Rollback(_) => OpeningKeepsConsistency(m, s);
      case UpdateObservation(_, _) =>
      case UpdateSnapshot(_, _) =>
      case DeleteObservation(_) => OpeningKeepsConsistency(m, s);
    }
  }

  lemma OpeningKeepsConsistency(m: Market, s: Statement)
    requires Consistent(m) && (s.Begin? || s.Rollback? || s.DeleteObservation?)
    ensures Consistent(Apply(m, s))
  {
    var after := Apply(m, s);
    forall t | t in after.open ensures PendingConsistent(after, after.open[t]) {
      assert t in m.open ==> PendingConsistent(m, m.open[t]);
    }
  }

  lemma RecordKeepsConsistency(m: Market, tx: Id, id: Id, quote: Quote)
    requires Consistent(m) && !Refused(m, Record(tx, id, quote))
    ensures Consistent(Apply(m, Record(tx, id, quote)))
  {
    var after := Apply(m, Record(tx, id, quote));
    forall t | t in after.open ensures PendingConsistent(after, after.open[t]) {
      assert PendingConsistent(m, m.open[t]);
    }
    forall a, b | a in after.open && b in after.open && a != b ensures Apart(after.open[a], after.open[b]) {
      assert Apart(m.open[a], m.open[b]);
    }
  }

  lemma CutKeepsConsistency(m: Market, tx: Id, id: Id, provider: Id)
    requires Consistent(m) && !Refused(m, Cut(tx, id, provider))
    ensures Consistent(Apply(m, Cut(tx, id, provider)))
  {
    var after := Apply(m, Cut(tx, id, provider));
    forall t | t in after.open ensures PendingConsistent(after, after.open[t]) {
      assert PendingConsistent(m, m.open[t]);
    }
    forall a, b | a in after.open && b in after.open && a != b ensures Apart(after.open[a], after.open[b]) {
      assert Apart(m.open[a], m.open[b]);
    }
  }

  lemma CommitKeepsConsistency(m: Market, tx: Id)
    requires Consistent(m) && tx in m.open
    ensures Consistent(Apply(m, Commit(tx)))
  {
    var after := Apply(m, Commit(tx));
    assert PendingConsistent(m, m.open[tx]);
    forall t | t in after.open ensures PendingConsistent(after, after.open[t]) {
      assert PendingConsistent(m, m.open[t]) && Apart(m.open[t], m.open[tx]);
    }
    forall a, b | a in after.open && b in after.open && a != b ensures Apart(after.open[a], after.open[b]) {
      assert Apart(m.open[a], m.open[b]);
    }
  }

  lemma {:induction false} EveryRunIsConsistent(m: Market, statements: seq<Statement>)
    requires Consistent(m)
    ensures Consistent(RunFrom(m, statements))
    decreases |statements|
  {
    if statements != [] {
      ApplyKeepsConsistency(m, statements[0]);
      EveryRunIsConsistent(Apply(m, statements[0]), statements[1..]);
    }
  }

  // ----- Stability

  /** Nothing still open began at or before the cut. */
  ghost predicate Settled(m: Market, snapshot: Snapshot) {
    && snapshot.generatedAt <= m.clock
    && forall tx :: tx in m.open ==> m.open[tx].start > snapshot.generatedAt
  }

  /** Without one row landing twice under a key, a settled cut gains and alters nothing, and only a DELETE loses. */
  lemma ApplyKeepsASettledCut(m: Market, s: Statement, snapshot: Snapshot)
    requires Consistent(m) && Settled(m, snapshot)
    ensures Settled(Apply(m, s), snapshot)
    ensures Resolved(Apply(m, s), snapshot)
            == if s.DeleteObservation? then Resolved(m, snapshot) - {s.id} else Resolved(m, snapshot)
  {
    if s.Commit? && s.tx in m.open {
      CommitSparesASettledCut(m, s.tx, snapshot);
    } else {
      hide Consistent;
    }
  }

  lemma CommitSparesASettledCut(m: Market, tx: Id, snapshot: Snapshot)
    requires Consistent(m) && Settled(m, snapshot) && tx in m.open
    ensures Settled(Apply(m, Commit(tx)), snapshot)
    ensures Resolved(Apply(m, Commit(tx)), snapshot) == Resolved(m, snapshot)
  {
    hide KeysApart, Landed;
    assert PendingConsistent(m, m.open[tx]);
    hide Uncommitted;
  }

  predicate NoDelete(statements: seq<Statement>) {
    forall i :: 0 <= i < |statements| ==> !statements[i].DeleteObservation?
  }

  lemma {:induction false} SettledCutsAreStable(m: Market, statements: seq<Statement>, snapshot: Snapshot)
    requires Consistent(m) && Settled(m, snapshot)
    ensures var after := Resolved(RunFrom(m, statements), snapshot);
            && Settled(RunFrom(m, statements), snapshot)
            && (forall id :: id in after ==> id in Resolved(m, snapshot) && after[id] == Resolved(m, snapshot)[id])
            && (NoDelete(statements) ==> after == Resolved(m, snapshot))
    decreases |statements|
  {
    if statements != [] {
      ApplyKeepsASettledCut(m, statements[0], snapshot);
      ApplyKeepsConsistency(m, statements[0]);
      SettledCutsAreStable(Apply(m, statements[0]), statements[1..], snapshot);
      assert NoDelete(statements) ==> NoDelete(statements[1..]) && !statements[0].DeleteObservation?;
    }
  }

  lemma FreshId(used: set<Id>) returns (id: Id)
    ensures id !in used
  {
    id := 0;
    var left := used;
    while id in left
      invariant forall k :: k in used && k >= id ==> k in left
      invariant left <= used
      decreases left
    {
      left := left - {id};
      id := id + 1;
    }
  }

  /** A transaction that began no later than the cut can still slip a row in under it. */
  lemma UnsettledCutsCanGrow(m: Market, snapshot: Snapshot, tx: Id) returns (statements: seq<Statement>)
    requires Consistent(m) && tx in m.open && m.open[tx].start <= snapshot.generatedAt
    ensures NoDelete(statements) && Resolved(RunFrom(m, statements), snapshot) != Resolved(m, snapshot)
  {
    hide Consistent;
    var id := FreshId(m.observations.Keys + set t, i | t in m.open && i in m.open[t].observations :: i);
    assert !ObservationTaken(m, id);
    var record := Record(tx, id, Quote(snapshot.provider, 0, None, None, 0, 0));
    statements := [record, Commit(tx)];
    assert statements[1..] == [Commit(tx)] && statements[1..][1..] == [];
    var after := Apply(Apply(m, record), Commit(tx));
    assert RunFrom(after, statements[1..][1..]) == after;
    assert RunFrom(Apply(m, record), statements[1..]) == after;
    assert RunFrom(m, statements) == after;
    assert id in Resolved(after, snapshot) && id !in Resolved(m, snapshot);
  }

  /**
    A cut is reproducible, whatever happens next, exactly when no open transaction began at or before it.
    What begins afterwards may overlap as it likes.
   */
  lemma CutIsReproducibleIff(m: Market, snapshot: Snapshot)
    requires Consistent(m) && snapshot.generatedAt <= m.clock
    ensures (forall statements :: NoDelete(statements)
               ==> Resolved(RunFrom(m, statements), snapshot) == Resolved(m, snapshot))
            <==> Settled(m, snapshot)
  {
    if Settled(m, snapshot) {
      forall statements | NoDelete(statements)
        ensures Resolved(RunFrom(m, statements), snapshot) == Resolved(m, snapshot)
      {
        SettledCutsAreStable(m, statements, snapshot);
      }
    } else {
      var tx :| tx in m.open && m.open[tx].start <= snapshot.generatedAt;
      var statements := UnsettledCutsCanGrow(m, snapshot, tx);
    }
  }

  // ----- One writer at a time

  /** No transaction begins while another is open. */
  predicate Serial(m: Market, statements: seq<Statement>)
    decreases |statements|
  {
    statements == []
    || ((statements[0].Begin? ==> m.open == map[]) && Serial(Apply(m, statements[0]), statements[1..]))
  }

  /** What serial ingestion keeps: one open transaction at most, begun after every cut already committed. */
  ghost predicate OneWriter(m: Market) {
    && (forall a, b :: a in m.open && b in m.open ==> a == b)
    && (forall tx, id :: tx in m.open && id in m.snapshots ==> m.snapshots[id].generatedAt < m.open[tx].start)
  }

  lemma SerialStepKeepsOneWriter(m: Market, s: Statement)
    requires Consistent(m) && OneWriter(m) && (s.Begin? ==> m.open == map[])
    ensures OneWriter(Apply(m, s))
  {
  }

  lemma {:induction false} SerialRunsHaveOneWriter(m: Market, statements: seq<Statement>)
    requires Consistent(m) && OneWriter(m) && Serial(m, statements)
    ensures Consistent(RunFrom(m, statements)) && OneWriter(RunFrom(m, statements))
    decreases |statements|
  {
    if statements != [] {
      SerialStepKeepsOneWriter(m, statements[0]);
      ApplyKeepsConsistency(m, statements[0]);
      SerialRunsHaveOneWriter(Apply(m, statements[0]), statements[1..]);
    }
  }

  /**
    With one ingestion writer at a time, every snapshot any run has committed is reproducible for ever:
    no continuation, serial or not, adds or alters an observation in it, and without a DELETE none is lost.
   */
  lemma SerialSnapshotsAreReproducible(statements: seq<Statement>, later: seq<Statement>, id: Id)
    requires Serial(EMPTY, statements) && id in RunFrom(EMPTY, statements).snapshots
    ensures var m := RunFrom(EMPTY, statements);
            var snapshot := m.snapshots[id];
            var after := RunFrom(m, later);
            && id in after.snapshots && after.snapshots[id] == snapshot
            && (forall o :: o in Resolved(after, snapshot)
                  ==> o in Resolved(m, snapshot) && Resolved(after, snapshot)[o] == Resolved(m, snapshot)[o])
            && (NoDelete(later) ==> Resolved(after, snapshot) == Resolved(m, snapshot))
  {
    assert Consistent(EMPTY) && OneWriter(EMPTY);
    SerialRunsHaveOneWriter(EMPTY, statements);
    var m := RunFrom(EMPTY, statements);
    assert Settled(m, m.snapshots[id]);
    SettledCutsAreStable(m, later, m.snapshots[id]);
    SnapshotsAreForever(m, later, id);
  }

  lemma {:induction false} SnapshotsAreForever(m: Market, later: seq<Statement>, id: Id)
    requires Consistent(m) && id in m.snapshots
    ensures var after := RunFrom(m, later); id in after.snapshots && after.snapshots[id] == m.snapshots[id]
    decreases |later|
  {
    if later != [] {
      ApplyKeepsConsistency(m, later[0]);
      SnapshotsAreForever(Apply(m, later[0]), later[1..], id);
    }
  }

  /** The side condition is needed: an ingestion that began first and commits last joins a snapshot already taken. */
  lemma OverlappingWritersBreakIt()
    ensures var before := Apply(Apply(Apply(Apply(EMPTY, Begin(1, 1)), Begin(2, 2)), Cut(2, 7, 5)), Commit(2));
            var after := Apply(Apply(before, Record(1, 9, Quote(5, 3, None, None, 100, 0))), Commit(1));
            && before.snapshots == map[7 := Snapshot(5, 2)]
            && Resolved(before, Snapshot(5, 2)) == map[]
            && Resolved(after, Snapshot(5, 2)) == map[9 := Observation(Quote(5, 3, None, None, 100, 0), 1)]
  {
    var m1 := Apply(EMPTY, Begin(1, 1));
    assert m1 == Market(1, map[1 := Pending(1, map[], map[])], map[], map[]);
    var m2 := Apply(m1, Begin(2, 2));
    assert m2 == Market(2, map[1 := Pending(1, map[], map[]), 2 := Pending(2, map[], map[])], map[], map[]);
    var m3 := Apply(m2, Cut(2, 7, 5));
    assert m3 == Market(2, map[1 := Pending(1, map[], map[]), 2 := Pending(2, map[], map[7 := Snapshot(5, 2)])],
                        map[], map[]);
    var m4 := Apply(m3, Commit(2));
    assert m4 == Market(2, map[1 := Pending(1, map[], map[])], map[], map[7 := Snapshot(5, 2)]);
    var m5 := Apply(m4, Record(1, 9, Quote(5, 3, None, None, 100, 0)));
    assert m5 == Market(2, map[1 := Pending(1, map[9 := Observation(Quote(5, 3, None, None, 100, 0), 1)], map[])],
                        map[], map[7 := Snapshot(5, 2)]);
    var m6 := Apply(m5, Commit(1));
    assert m6.observations == map[9 := Observation(Quote(5, 3, None, None, 100, 0), 1)];
  }

  // ----- Why the comparison is `<=`

  /** The cut with a strict comparison, which the revision rejects. */
  function ResolvedStrictly(m: Market, snapshot: Snapshot): map<Id, Observation> {
    map id | id in m.observations && m.observations[id].quote.provider == snapshot.provider
             && m.observations[id].createdAt < snapshot.generatedAt :: m.observations[id]
  }

  /**
    A snapshot cut in the transaction that wrote the run's rows holds every one of them; with `<` it would
    hold none.
   */
  lemma CutHoldsItsOwnRun(m: Market, tx: Id, cut: Id, id: Id)
    requires Consistent(m) && tx in m.open && cut in m.open[tx].snapshots
    requires id in m.open[tx].observations
            && m.open[tx].observations[id].quote.provider == m.open[tx].snapshots[cut].provider
    ensures var after := Apply(m, Commit(tx));
            && cut in after.snapshots
            && id in Resolved(after, after.snapshots[cut])
            && id !in ResolvedStrictly(after, after.snapshots[cut])
  {
  }

  // ----- The prices a snapshot holds for a card

  /** `ORDER BY observed_at DESC, created_at DESC, id DESC`: `a` comes before `b`. */
  predicate Newer(a: Id, first: Observation, b: Id, second: Observation) {
    if first.quote.observedAt != second.quote.observedAt then first.quote.observedAt > second.quote.observedAt
    else if first.createdAt != second.createdAt then first.createdAt > second.createdAt
    else a > b
  }

  /** `DISTINCT ON (grading_company, grade)`, under which NULL is one value. */
  predicate SameKey(a: Quote, b: Quote) {
    a.card == b.card && a.company == b.company && a.grade == b.grade
  }

  /** The row is the first of its key. */
  predicate IsPick(rows: map<Id, Observation>, id: Id)
    requires id in rows
  {
    forall other :: other in rows && other != id && SameKey(rows[other].quote, rows[id].quote)
      ==> Newer(id, rows[id], other, rows[other])
  }

  function Picks(rows: map<Id, Observation>, card: Id): map<Id, Observation> {
    map id | id in rows && rows[id].quote.card == card && IsPick(rows, id) :: rows[id]
  }

  /** `resolve_prices`: the latest row of each company and grade, among those the snapshot comprises. */
  function Prices(m: Market, snapshot: Snapshot, card: Id): map<Id, Observation> {
    Picks(Resolved(m, snapshot), card)
  }

  /**
    Which rows a snapshot gives for a card: those of its provider stored at or before the cut that no other
    such row of the card, company and grade was observed after, or at the same moment stored after, or both at
    the same moment and has the greater id.
   */
  lemma PricesAreTheLatest(m: Market, snapshot: Snapshot, card: Id, id: Id)
    ensures id in Prices(m, snapshot, card) <==>
              && id in m.observations && m.observations[id].quote.provider == snapshot.provider
              && m.observations[id].createdAt <= snapshot.generatedAt && m.observations[id].quote.card == card
              && forall other ::
                   && other in m.observations && other != id
                   && m.observations[other].quote.provider == snapshot.provider
                   && m.observations[other].createdAt <= snapshot.generatedAt
                   && m.observations[other].quote.card == card
                   && m.observations[other].quote.company == m.observations[id].quote.company
                   && m.observations[other].quote.grade == m.observations[id].quote.grade
                   ==>
                     || m.observations[id].quote.observedAt > m.observations[other].quote.observedAt
                     || (m.observations[id].quote.observedAt == m.observations[other].quote.observedAt
                         && (m.observations[id].createdAt > m.observations[other].createdAt
                             || (m.observations[id].createdAt == m.observations[other].createdAt && id > other)))
    ensures id in Prices(m, snapshot, card) ==> Prices(m, snapshot, card)[id] == m.observations[id]
  {
    var rows: map<Id, Observation> := Resolved(m, snapshot);
    assert forall o :: o in rows ==> o in m.observations && rows[o] == m.observations[o];
    if id in rows {
      if IsPick(rows, id) {
        forall o | o in rows && o != id && SameKey(rows[o].quote, rows[id].quote)
          ensures Newer(id, m.observations[id], o, m.observations[o])
        {
        }
      } else {
        var o :| o in rows && o != id && SameKey(rows[o].quote, rows[id].quote) && !Newer(id, rows[id], o, rows[o]);
        assert m.observations[o] == rows[o];
      }
    }
  }

  /** Two prices in one run: the one observed later is the one given. */
  lemma TheLaterPriceIsGiven(m: Market, snapshot: Snapshot, early: Id, late: Id)
    requires early in m.observations && late in m.observations
    requires m.observations == map[early := Observation(Quote(5, 3, None, None, 100, 1), 1),
                                   late := Observation(Quote(5, 3, None, None, 200, 2), 1)]
    requires early != late && snapshot == Snapshot(5, 1)
    ensures Prices(m, snapshot, 3) == map[late := Observation(Quote(5, 3, None, None, 200, 2), 1)]
  {
    assert IsPick(m.observations, late) && !IsPick(m.observations, early);
    assert Resolved(m, snapshot) == m.observations;
  }

  lemma NewerIsTotal(a: Id, first: Observation, b: Id, second: Observation, c: Id, third: Observation)
    ensures a != b ==> (Newer(a, first, b, second) <==> !Newer(b, second, a, first))
    ensures Newer(a, first, b, second) && Newer(b, second, c, third) ==> Newer(a, first, c, third)
  {
  }

  /** Some row is the first of its key, if there is a row of that key at all. */
  lemma {:induction false} SomeRowIsFirst(rows: map<Id, Observation>, some: set<Id>, id: Id) returns (first: Id)
    requires id in some && some <= rows.Keys
    requires forall i :: i in some ==> SameKey(rows[i].quote, rows[id].quote)
    ensures first in some && forall i :: i in some && i != first ==> Newer(first, rows[first], i, rows[i])
    decreases |some|
  {
    hide Newer;
    if some == {id} {
      first := id;
    } else {
      var other :| other in some && other != id;
      var rest := SomeRowIsFirst(rows, some - {other}, id);
      first := if Newer(other, rows[other], rest, rows[rest]) then other else rest;
      NewerIsTotal(other, rows[other], rest, rows[rest], other, rows[other]);
      forall i | i in some && i != first ensures Newer(first, rows[first], i, rows[i]) {
        NewerIsTotal(other, rows[other], rest, rows[rest], i, rows[i]);
      }
    }
  }

  /** Each company and grade the snapshot has seen has exactly one price, whichever order the rows are read in. */
  lemma OnePriceAKey(m: Market, snapshot: Snapshot, card: Id, id: Id)
    requires id in Resolved(m, snapshot) && Resolved(m, snapshot)[id].quote.card == card
    ensures var prices := Prices(m, snapshot, card);
            && (exists i :: i in prices && SameKey(prices[i].quote, Resolved(m, snapshot)[id].quote))
            && (forall i, j :: i in prices && j in prices && SameKey(prices[i].quote, prices[j].quote) ==> i == j)
  {
    var rows: map<Id, Observation> := Resolved(m, snapshot);
    var some := set i | i in rows && SameKey(rows[i].quote, rows[id].quote);
    var first := SomeRowIsFirst(rows, some, id);
    assert IsPick(rows, first);
    assert first in Prices(m, snapshot, card) && SameKey(Prices(m, snapshot, card)[first].quote, rows[id].quote);
    forall i, j | i in Picks(rows, card) && j in Picks(rows, card) && SameKey(rows[i].quote, rows[j].quote)
      ensures i == j
    {
      NewerIsTotal(i, rows[i], j, rows[j], i, rows[i]);
    }
    hide Resolved, Newer;
  }

  /** Pruning a row changes a card's prices exactly when that row is one of them. */
  lemma PruningShowsIff(m: Market, snapshot: Snapshot, card: Id, id: Id)
    ensures Prices(Apply(m, DeleteObservation(id)), snapshot, card) == Prices(m, snapshot, card)
            <==> id !in Prices(m, snapshot, card)
  {
    var rows: map<Id, Observation> := Resolved(m, snapshot);
    var fewer: map<Id, Observation> := rows - {id};
    assert Resolved(Apply(m, DeleteObservation(id)), snapshot) == fewer;
    if id !in Picks(rows, card) && id in rows && rows[id].quote.card == card {
      var some := set i | i in rows && SameKey(rows[i].quote, rows[id].quote);
      var first := SomeRowIsFirst(rows, some, id);
      assert IsPick(rows, first);
      RemovingAnOlderRow(rows, id, first);
    } else if id !in Picks(rows, card) {
      OtherCardsDoNotMatter(rows, card, id);
    }
    hide Resolved, Apply;
  }

  lemma RemovingAnOlderRow(rows: map<Id, Observation>, id: Id, first: Id)
    requires id in rows && first in rows && first != id && SameKey(rows[first].quote, rows[id].quote)
            && IsPick(rows, first)
    ensures Picks(rows - {id}, rows[id].quote.card) == Picks(rows, rows[id].quote.card)
  {
    var fewer: map<Id, Observation> := rows - {id};
    NewerIsTotal(first, rows[first], id, rows[id], first, rows[first]);
    assert Newer(first, rows[first], id, rows[id]) && !IsPick(rows, id);
    forall i | i in fewer ensures IsPick(fewer, i) <==> IsPick(rows, i) {
      if IsPick(fewer, i) && SameKey(rows[id].quote, rows[i].quote) {
        assert first in fewer && SameKey(fewer[first].quote, fewer[i].quote);
        NewerIsTotal(i, rows[i], first, rows[first], id, rows[id]);
        assert Newer(i, rows[i], id, rows[id]);
      }
      PickOfFewer(rows, id, i);
    }
    hide Newer;
  }

  /** A row is the first of its key iff it is without `id`, and before `id` if that has the same key. */
  lemma PickOfFewer(rows: map<Id, Observation>, id: Id, i: Id)
    requires id in rows && i in rows && i != id
    ensures IsPick(rows, i) <==>
              IsPick(rows - {id}, i) && (SameKey(rows[id].quote, rows[i].quote) ==> Newer(i, rows[i], id, rows[id]))
  {
    hide Newer, SameKey;
    var fewer: map<Id, Observation> := rows - {id};
    assert forall other :: other in fewer ==> other in rows && fewer[other] == rows[other];
    assert forall other :: other in rows && other != id ==> other in fewer && fewer[other] == rows[other];
  }

  lemma OtherCardsDoNotMatter(rows: map<Id, Observation>, card: Id, id: Id)
    requires id in rows ==> rows[id].quote.card != card
    ensures Picks(rows - {id}, card) == Picks(rows, card)
  {
    hide Newer;
    if id in rows {
      forall i | i in rows && rows[i].quote.card == card ensures IsPick(rows - {id}, i) <==> IsPick(rows, i) {
        PickOfFewer(rows, id, i);
      }
    } else {
      assert rows - {id} == rows;
    }
  }

  /**
    What a historical analysis reads back: with one writer at a time, the prices a committed snapshot gives
    for a card are the same after any statements at all that delete no observation.
   */
  lemma PricesAreReproducible(statements: seq<Statement>, later: seq<Statement>, id: Id, card: Id)
    requires Serial(EMPTY, statements) && id in RunFrom(EMPTY, statements).snapshots && NoDelete(later)
    ensures var m := RunFrom(EMPTY, statements);
            Prices(RunFrom(m, later), m.snapshots[id], card) == Prices(m, m.snapshots[id], card)
  {
    SerialSnapshotsAreReproducible(statements, later, id);
    hide RunFrom, Resolved, Serial;
  }

  // ----- `data_version`, generated from `generated_at`

  const SECONDS_PER_DAY := 86400

  function DataVersion(snapshot: Snapshot): int {
    snapshot.generatedAt / SECONDS_PER_DAY
  }

  /** The version is the UTC day of the cut and nothing else, so versions never run against the order of the cuts. */
  lemma DataVersionIsTheDayOfTheCut(a: Snapshot, b: Snapshot)
    ensures forall day ::
              day == DataVersion(a) <==>
                day * SECONDS_PER_DAY <= a.generatedAt < (day + 1) * SECONDS_PER_DAY
    ensures a.generatedAt <= b.generatedAt ==> DataVersion(a) <= DataVersion(b)
  {
  }

  // ----- The store

  class MarketStore {
    var clock: int
    var open: map<Id, Pending>
    var observations: map<Id, Observation>
    var snapshots: map<Id, Snapshot>

    function State(): Market
      reads this
    {
      Market(clock, open, observations, snapshots)
    }

    ghost predicate Valid()
      reads this
    {
      Consistent(State())
    }

    constructor ()
      ensures Valid() && State() == EMPTY
    {
      clock, open, observations, snapshots := 0, map[], map[], map[];
    }

    method BeginTransaction(tx: Id, now: int) returns (refused: bool)
      requires Valid()
      modifies this
      ensures Valid() && refused == Refused(old(State()), Begin(tx, now))
      ensures State() == Apply(old(State()), Begin(tx, now))
      ensures refused <==> tx in old(open) || now <= old(clock)
      ensures refused ==> State() == old(State())
      ensures !refused ==> clock == now && open == old(open)[tx := Pending(now, map[], map[])]
      ensures observations == old(observations) && snapshots == old(snapshots)
    {
      refused := tx in open || now <= clock;
      if !refused {
        clock, open := now, open[tx := Pending(now, map[], map[])];
      }
    }

    /** The row is stamped with the start of its transaction, and nobody else sees it yet. */
    method InsertObservation(tx: Id, id: Id, quote: Quote) returns (refused: bool)
      requires Valid()
      modifies this
      ensures Valid() && refused == Refused(old(State()), Record(tx, id, quote))
      ensures State() == Apply(old(State()), Record(tx, id, quote))
      ensures refused <==> tx !in old(open) || id in old(observations)
                           || exists t :: t in old(open) && id in old(open)[t].observations
      ensures refused ==> State() == old(State())
      ensures !refused ==>
                var p := old(open)[tx];
                open == old(open)[tx := Pending(p.start, p.observations[id := Observation(quote, p.start)],
                                                p.snapshots)]
      ensures clock == old(clock) && observations == old(observations) && snapshots == old(snapshots)
    {
      ApplyKeepsConsistency(State(), Record(tx, id, quote));
      refused := tx !in open || ObservationTaken(State(), id);
      if !refused {
        var p := open[tx];
        open := open[tx := p.(observations := p.observations[id := Observation(quote, p.start)])];
      }
    }

    /** The cut is the start of its transaction, whatever the caller would like it to be. */
    method InsertSnapshot(tx: Id, id: Id, provider: Id) returns (refused: bool)
      requires Valid()
      modifies this
      ensures Valid() && refused == Refused(old(State()), Cut(tx, id, provider))
      ensures State() == Apply(old(State()), Cut(tx, id, provider))
      ensures refused <==> tx !in old(open) || id in old(snapshots)
                           || exists t :: t in old(open) && id in old(open)[t].snapshots
      ensures refused ==> State() == old(State())
      ensures !refused ==>
                var p := old(open)[tx];
                open == old(open)[tx := Pending(p.start, p.observations,
                                                p.snapshots[id := Snapshot(provider, p.start)])]
      ensures clock == old(clock) && observations == old(observations) && snapshots == old(snapshots)
    {
      ApplyKeepsConsistency(State(), Cut(tx, id, provider));
      refused := tx !in open || SnapshotTaken(State(), id);
      if !refused {
        var p := open[tx];
        open := open[tx := p.(snapshots := p.snapshots[id := Snapshot(provider, p.start)])];
      }
    }

    method CommitTransaction(tx: Id) returns (refused: bool)
      requires Valid()
      modifies this
      ensures Valid() && refused == Refused(old(State()), Commit(tx)) && State() == Apply(old(State()), Commit(tx))
      ensures refused <==> tx !in old(open)
      ensures refused ==> State() == old(State())
      ensures !refused ==>
                && clock == old(clock) && open == old(open) - {tx}
                && observations == old(observations) + old(open)[tx].observations
                && snapshots == old(snapshots) + old(open)[tx].snapshots
    {
      ApplyKeepsConsistency(State(), Commit(tx));
      refused := tx !in open;
      if !refused {
        var p := open[tx];
        observations, snapshots, open := observations + p.observations, snapshots + p.snapshots, open - {tx};
      }
    }

    method RollbackTransaction(tx: Id) returns (refused: bool)
      requires Valid()
      modifies this
      ensures Valid() && refused == Refused(old(State()), Rollback(tx)) && State() == Apply(old(State()), Rollback(tx))
      ensures refused <==> tx !in old(open)
      ensures open == old(open) - {tx} && clock == old(clock)
      ensures observations == old(observations) && snapshots == old(snapshots)
    {
      ApplyKeepsConsistency(State(), Rollback(tx));
      refused := tx !in open;
      if !refused {
        open := open - {tx};
      }
    }

    /** The trigger refuses an UPDATE that reaches a row; one that reaches none changes nothing. */
    method UpdateStoredObservation(id: Id, quote: Quote) returns (refused: bool)
      requires Valid()
      modifies this
      ensures Valid() && refused == Refused(old(State()), UpdateObservation(id, quote))
      ensures State() == Apply(old(State()), UpdateObservation(id, quote)) == old(State())
      ensures refused <==> id in old(observations)
    {
      refused := id in observations;
    }

    /** The snapshots' own trigger, on the same function: a cut-line is never moved. */
    method UpdateStoredSnapshot(id: Id, provider: Id) returns (refused: bool)
      requires Valid()
      modifies this
      ensures Valid() && refused == Refused(old(State()), UpdateSnapshot(id, provider))
      ensures State() == Apply(old(State()), UpdateSnapshot(id, provider)) == old(State())
      ensures refused <==> id in old(snapshots)
    {
      refused := id in snapshots;
    }

    /** The prices of a stored snapshot, one for each company and grade: the latest, none of another card. */
    method ResolvePrices(id: Id, card: Id) returns (prices: map<Id, Observation>)
      requires Valid() && id in snapshots
      ensures prices == Prices(State(), snapshots[id], card)
      ensures forall i :: i in prices ==>
                && i in observations && prices[i] == observations[i] && prices[i].quote.card == card
                && prices[i].quote.provider == snapshots[id].provider
                && prices[i].createdAt <= snapshots[id].generatedAt
      ensures forall i, other ::
                && i in prices && other in observations && other != i
                && observations[other].quote.provider == snapshots[id].provider
                && observations[other].createdAt <= snapshots[id].generatedAt
                && observations[other].quote.card == card
                && observations[other].quote.company == prices[i].quote.company
                && observations[other].quote.grade == prices[i].quote.grade
                ==>
                  || prices[i].quote.observedAt > observations[other].quote.observedAt
                  || (prices[i].quote.observedAt == observations[other].quote.observedAt
                      && (prices[i].createdAt > observations[other].createdAt
                          || (prices[i].createdAt == observations[other].createdAt && i > other)))
    {
      var snapshot := snapshots[id];
      var rows := map i | i in observations && observations[i].quote.provider == snapshot.provider
                       && observations[i].createdAt <= snapshot.generatedAt :: observations[i];
      prices := map i | i in rows && rows[i].quote.card == card && IsPick(rows, i) :: rows[i];
    }

    /** DELETE is not guarded: pruning is allowed. */
    method DeleteStoredObservation(id: Id)
      requires Valid()
      modifies this
      ensures Valid() && State() == Apply(old(State()), DeleteObservation(id))
      ensures observations == old(observations) - {id}
      ensures clock == old(clock) && open == old(open) && snapshots == old(snapshots)
    {
      ApplyKeepsConsistency(State(), DeleteObservation(id));
      observations := observations - {id};
    }
  }
}
