/**
  The catalog, the sessions and their analyses, and the market and economic rows an analysis names: one
  graph of foreign keys, some cascading and some restricting. A statement is refused or carried out whole.
 */
module Ledger {
  import opened Prelude
  import opened Sql
  import opened Provenance
  import ReproducibilityRecord

  type Id = string

  datatype CardSet = CardSet(game: string, language: string, code: string)

  datatype Card = Card(set_: Id, game: string, language: string, number: string, variant: Option<string>)

  datatype ExternalId = ExternalId(card: Id, provider: string, externalId: string)

  datatype Session = Session(token: string, createdAt: int, expiresAt: int, status: string)

  datatype Analysis = Analysis(
    session: Id, card: Option<Id>, status: string, completedAt: Option<int>,
    failureCode: Option<string>, failureReason: Option<string>, record: ReproducibilityRecord.Record)

  datatype Photograph = Photograph(
    analysis: Id, side: string, sha256: string, width: Option<int>, height: Option<int>,
    quality: Option<string>, qualityScore: Option<real>)

  datatype Provider = Provider(slug: string, version: Option<string>, commercialUse: bool)

  datatype Snapshot = Snapshot(provider: Id, generatedAt: int)

  datatype Observation = Observation(
    card: Id, provider: Id, company: Option<string>, grade: Option<string>, currency: string, cents: int,
    centsSgd: int, rate: Option<Id>, confidence: real)

  /** `rate` SGD for one unit of `base`, on one day. */
  datatype ExchangeRate = ExchangeRate(base: string, quote: string, rate: real, asOf: int)

  datatype Configuration = Configuration(
    currency: string, acquisitionCost: Option<int>, costs: map<Cost, int>, sellingFeeRate: real,
    thresholds: map<Threshold, real>, companies: seq<string>)

  datatype Cost =
    | GradingFee | OutboundShipping | ReturnShipping | Insurance | Miscellaneous | SellingFeeFlat | MinimumProfit

  datatype Threshold = ImageQuality | GradeConfidence | FigureConfidence | UnpricedProbability

  /** The keys an ingestion run holds. */
  datatype RunKeys = RunKeys(provider: Option<Id>, snapshot: Option<Id>)

  /** The tables outside this graph that restrict rows of it, by the keys they hold into it. */
  datatype Referrers = Referrers(
    trainingImages: map<Id, Option<Id>>,
    feedback: map<Id, Id>,
    quarantine: map<Id, Id>,
    runs: map<Id, RunKeys>)

  datatype Tables = Tables(
    sets: map<Id, CardSet>,
    cards: map<Id, Card>,
    externalIds: map<Id, ExternalId>,
    sessions: map<Id, Session>,
    analyses: map<Id, Analysis>,
    photographs: map<Id, Photograph>,
    providers: map<Id, Provider>,
    snapshots: map<Id, Snapshot>,
    rates: map<Id, ExchangeRate>,
    observations: map<Id, Observation>,
    configurations: map<Id, Configuration>,
    referrers: Referrers)

  const UNREFERRED := Referrers(map[], map[], map[], map[])

  const EMPTY :=
    Tables(map[], map[], map[], map[], map[], map[], map[], map[], map[], map[], map[], UNREFERRED)

  /** An INSERT, UPDATE or DELETE of one row of a table of `T`. */
  datatype Write<T> = Insert(id: Id, row: T) | Update(id: Id, row: T) | Delete(id: Id)

  datatype Statement =
    | OnSets(sets: Write<CardSet>)
    | OnCards(cards: Write<Card>)
    | OnExternalIds(externalIds: Write<ExternalId>)
    | OnSessions(sessions: Write<Session>)
    | OnAnalyses(analyses: Write<Analysis>)
    | OnPhotographs(photographs: Write<Photograph>)
    | OnProviders(providers: Write<Provider>)
    | OnSnapshots(snapshots: Write<Snapshot>)
    | OnRates(rates: Write<ExchangeRate>)
    | OnObservations(observations: Write<Observation>)
    | OnConfigurations(configurations: Write<Configuration>)
    | OnTrainingImages(trainingImages: Write<Option<Id>>)
    | OnFeedback(feedback: Write<Id>)
    | OnQuarantine(quarantine: Write<Id>)
    | OnRuns(runs: Write<RunKeys>)

  // ----- Vocabularies and CHECKs

  const SESSION_STATES: set<string> := {"active", "expired", "purged"}

  const TERMINAL_STATES: set<string> := {"completed", "failed"}

  const ANALYSIS_STATES: set<string> :=
    {"created", "uploading", "uploaded", "identifying", "awaiting_confirmation", "analyzing", "calculating"}
        + TERMINAL_STATES

  const QUALITY_STATUSES: set<string> := {"good", "acceptable", "poor", "unusable"}

  const GRADING_COMPANIES: set<string> := {"psa", "tag", "bgs"}

  const FAILURE_CODES: set<string> := {"image_quality_failure", "analysis_failed"}

  const FAILURE_REASONS: set<string> :=
    {"unusable_photograph", "catalog_unavailable", "grading_rules_unavailable", "image_store_unavailable",
     "model_failed", "job_dead_lettered", "timed_out", "stalled"}

  predicate SessionChecks(s: Session) {
    s.status in SESSION_STATES && s.expiresAt > s.createdAt
  }

  predicate AnalysisChecks(a: Analysis) {
    && Passes(Of(a.status in ANALYSIS_STATES))
    && Passes(Or(IsNull(a.completedAt), Of(a.status in TERMINAL_STATES)))
    && Passes(FailureIsRecorded(a))
    && Passes(And(Or(IsNull(a.failureCode), In(a.failureCode, FAILURE_CODES)),
                  Or(IsNull(a.failureReason), In(a.failureReason, FAILURE_REASONS))))
  }

  /** `failure_is_recorded_exactly_when_failed` */
  function FailureIsRecorded(a: Analysis): Tri {
    var failed := Of(a.status == "failed");
    Or(And(And(failed, Not(IsNull(a.failureCode))), Not(IsNull(a.failureReason))),
       And(And(Not(failed), IsNull(a.failureCode)), IsNull(a.failureReason)))
  }

  function Positive(column: Option<int>): Tri {
    if column.None? then Unknown else Of(column.value > 0)
  }

  predicate PhotographChecks(p: Photograph) {
    && p.side in SIDES && IsHex(p.sha256, 64)
    && Passes(Or(IsNull(p.quality), In(p.quality, QUALITY_STATUSES)))
    && Passes(And(Or(IsNull(p.width), Positive(p.width)), Or(IsNull(p.height), Positive(p.height))))
    && Passes(Or(IsNull(p.qualityScore), And(AtLeast(p.qualityScore, Some(0.0)), AtLeast(Some(1.0), p.qualityScore))))
  }

  /** `^[a-z0-9]+(-[a-z0-9]+)*$`: hyphens, but never first, last or two together. */
  predicate IsSlug(s: string) {
    && s != [] && s[0] != '-' && s[|s| - 1] != '-'
    && (forall i :: 0 <= i < |s| ==> 'a' <= s[i] <= 'z' || '0' <= s[i] <= '9' || s[i] == '-')
    && (forall i :: 0 < i < |s| ==> s[i - 1] != '-' || s[i] != '-')
  }

  predicate EndsWith(s: string, tail: string) {
    |s| >= |tail| && s[|s| - |tail|..] == tail
  }

  predicate IsGradeNumber(s: string) {
    s == "10" || (s != [] && '0' <= s[0] <= '9' && (s[1..] == "" || s[1..] == ".5"))
  }

  /** `^(10|[0-9](\.5)?)(_or_(lower|higher))?$` */
  predicate IsGradeKey(s: string) {
    || IsGradeNumber(s)
    || (EndsWith(s, "_or_lower") && IsGradeNumber(s[..|s| - 9]))
    || (EndsWith(s, "_or_higher") && IsGradeNumber(s[..|s| - 10]))
  }

  predicate IsCurrencyCode(s: string) {
    |s| == 3 && forall i :: 0 <= i < 3 ==> 'A' <= s[i] <= 'Z'
  }

  function MatchesGradeKey(column: Option<string>): Tri {
    if column.None? then Unknown else Of(IsGradeKey(column.value))
  }

  function PairingCheck(o: Observation): Tri {
    Same(IsNull(o.company), IsNull(o.grade))
  }

  predicate ObservationChecks(o: Observation) {
    Passes(PairingCheck(o)) && OtherObservationChecks(o)
  }

  predicate OtherObservationChecks(o: Observation) {
    && Passes(Or(IsNull(o.company), In(o.company, GRADING_COMPANIES)))
    && Passes(Or(IsNull(o.grade), MatchesGradeKey(o.grade)))
    && IsCurrencyCode(o.currency) && o.cents >= 0 && 0.0 <= o.confidence <= 1.0
    && o.centsSgd >= 0
    && Passes(Same(Of(o.currency == "SGD"), IsNull(o.rate)))
    && Passes(Or(Of(o.currency != "SGD"), Of(o.centsSgd == o.cents)))
  }

  predicate RateChecks(r: ExchangeRate) {
    IsCurrencyCode(r.base) && r.quote == "SGD" && r.rate > 0.0
  }

  /** The generated column `market_type`. */
  function MarketType(o: Observation): string {
    if o.company.None? then "raw" else "graded"
  }

  /** Every amount is NOT NULL except `acquisition_cost`. */
  predicate ConfigurationChecks(c: Configuration) {
    && c.currency == "SGD"
    && (c.acquisitionCost.None? || c.acquisitionCost.value >= 0)
    && (forall k: Cost :: k in c.costs && c.costs[k] >= 0)
    && 0.0 <= c.sellingFeeRate <= 1.0
    && (forall k: Threshold :: k in c.thresholds && 0.0 <= c.thresholds[k] <= 1.0)
    && |c.companies| >= 1
  }

  // ----- Foreign keys and unique constraints

  /** `(set_id, game, language)` references `sets (id, game, language)`. */
  predicate SetKeyHolds(sets: map<Id, CardSet>, c: Card) {
    c.set_ in sets && sets[c.set_].game == c.game && sets[c.set_].language == c.language
  }

  function SnapshotOf(a: Analysis): Option<Id> {
    a.record[ReproducibilityRecord.MarketSnapshotId]
  }

  function ConfigurationOf(a: Analysis): Option<Id> {
    a.record[ReproducibilityRecord.EconomicConfigurationId]
  }

  predicate AnalysisKeysHold(sessions: set<Id>, cards: set<Id>, snapshots: set<Id>, configurations: set<Id>,
                             a: Analysis)
  {
    && a.session in sessions
    && (a.card.Some? ==> a.card.value in cards)
    && (SnapshotOf(a).Some? ==> SnapshotOf(a).value in snapshots)
    && (ConfigurationOf(a).Some? ==> ConfigurationOf(a).value in configurations)
  }

  /** `UNIQUE NULLS NOT DISTINCT (set_id, card_number, variant)`: two missing variants are the same variant. */
  predicate SamePrinting(a: Card, b: Card) {
    a.set_ == b.set_ && a.number == b.number && a.variant == b.variant
  }

  /** The same constraint with NULLs distinct, as they are by default. */
  predicate SamePrintingByDefault(a: Card, b: Card) {
    a.variant.Some? && SamePrinting(a, b)
  }

  /** `UNIQUE NULLS NOT DISTINCT (slug, version)` */
  predicate SameProvider(a: Provider, b: Provider) {
    a.slug == b.slug && a.version == b.version
  }

  predicate SameSide(a: Photograph, b: Photograph) {
    a.analysis == b.analysis && a.side == b.side
  }

  predicate SameDay(a: ExchangeRate, b: ExchangeRate) {
    a.base == b.base && a.quote == b.quote && a.asOf == b.asOf
  }

  predicate ObservationKeysHold(cards: set<Id>, providers: set<Id>, rates: set<Id>, o: Observation) {
    o.card in cards && o.provider in providers && (o.rate.Some? ==> o.rate.value in rates)
  }

  predicate Resolves(key: Option<Id>, table: set<Id>) {
    key.Some? ==> key.value in table
  }

  // A unique constraint broken by putting `row` at `own`.

  predicate SetTaken(sets: map<Id, CardSet>, row: CardSet, own: Id) {
    exists i :: i in sets && i != own && sets[i] == row
  }

  predicate PrintingTaken(cards: map<Id, Card>, row: Card, own: Id) {
    exists i :: i in cards && i != own && SamePrinting(cards[i], row)
  }

  predicate ExternalIdTaken(links: map<Id, ExternalId>, row: ExternalId, own: Id) {
    exists i :: i in links && i != own && links[i] == row
  }

  predicate TokenTaken(sessions: map<Id, Session>, row: Session, own: Id) {
    exists i :: i in sessions && i != own && sessions[i].token == row.token
  }

  predicate SideTaken(photographs: map<Id, Photograph>, row: Photograph, own: Id) {
    exists i :: i in photographs && i != own && SameSide(photographs[i], row)
  }

  predicate ProviderTaken(providers: map<Id, Provider>, row: Provider, own: Id) {
    exists i :: i in providers && i != own && SameProvider(providers[i], row)
  }

  predicate RateTaken(rates: map<Id, ExchangeRate>, row: ExchangeRate, own: Id) {
    exists i :: i in rates && i != own && SameDay(rates[i], row)
  }

  // ----- Statements

  /** An UPDATE that reaches no row changes none. */
  function Written<T>(table: map<Id, T>, w: Write<T>): map<Id, T> {
    match w
    case Insert(id, row) => table[id := row]
    case Update(id, row) => if id in table then table[id := row] else table
    case Delete(id) => table - {id}
  }

  /** The named row is put or gone, and every other row is as it was. */
  lemma WrittenIs<T>(table: map<Id, T>, w: Write<T>)
    ensures var after := Written(table, w);
            && (w.id in after <==> w.Insert? || (w.Update? && w.id in table))
            && (w.id in after ==> after[w.id] == w.row)
            && after.Keys - {w.id} == table.Keys - {w.id}
            && (forall i :: i in table && i != w.id ==> after[i] == table[i])
  {
  }

  /** The row the statement leaves, if it leaves one. */
  predicate Puts<T>(table: map<Id, T>, w: Write<T>) {
    w.Insert? || (w.Update? && w.id in table)
  }

  /** An INSERT whose primary key is used. */
  predicate KeyTaken<T>(table: map<Id, T>, w: Write<T>) {
    w.Insert? && w.id in table
  }

  /** An UPDATE that reaches a row of an append-only table. */
  predicate Rewrites<T>(table: map<Id, T>, w: Write<T>) {
    w.Update? && w.id in table
  }

  /** The write-once trigger over the six columns of the record. */
  predicate RewritesRecord(analyses: map<Id, Analysis>, w: Write<Analysis>) {
    w.Update? && w.id in analyses && ReproducibilityRecord.Refused(analyses[w.id].record, w.row.record)
  }

  /** A used primary key, or a trigger. */
  predicate Stopped(t: Tables, s: Statement) {
    match s
    case OnSets(w) => KeyTaken(t.sets, w)
    case OnCards(w) => KeyTaken(t.cards, w)
    case OnExternalIds(w) => KeyTaken(t.externalIds, w)
    case OnSessions(w) => KeyTaken(t.sessions, w)
    case OnAnalyses(w) => KeyTaken(t.analyses, w) || RewritesRecord(t.analyses, w)
    case OnPhotographs(w) => KeyTaken(t.photographs, w)
    case OnProviders(w) => KeyTaken(t.providers, w) || Rewrites(t.providers, w)
    case OnSnapshots(w) => KeyTaken(t.snapshots, w) || Rewrites(t.snapshots, w)
    case OnRates(w) => KeyTaken(t.rates, w) || Rewrites(t.rates, w)
    case OnObservations(w) => KeyTaken(t.observations, w) || Rewrites(t.observations, w)
    case OnConfigurations(w) => KeyTaken(t.configurations, w) || Rewrites(t.configurations, w)
    case OnTrainingImages(w) => KeyTaken(t.referrers.trainingImages, w)
    case OnFeedback(w) => KeyTaken(t.referrers.feedback, w)
    case OnQuarantine(w) => KeyTaken(t.referrers.quarantine, w) || Rewrites(t.referrers.quarantine, w)
    case OnRuns(w) => KeyTaken(t.referrers.runs, w)
  }

  // A CHECK, a unique constraint, a key that does not resolve, or a row that RESTRICT holds in place.

  predicate CardOutOfStep(cards: map<Id, Card>, id: Id, row: CardSet) {
    exists c :: c in cards && cards[c].set_ == id && (cards[c].game != row.game || cards[c].language != row.language)
  }

  predicate SetNamed(cards: map<Id, Card>, id: Id) {
    exists c :: c in cards && cards[c].set_ == id
  }

  predicate CardAnalysed(analyses: map<Id, Analysis>, id: Id) {
    exists a :: a in analyses && analyses[a].card == Some(id)
  }

  predicate CardPriced(observations: map<Id, Observation>, id: Id) {
    exists o :: o in observations && observations[o].card == id
  }

  predicate ProviderCut(snapshots: map<Id, Snapshot>, id: Id) {
    exists s :: s in snapshots && snapshots[s].provider == id
  }

  predicate ProviderPriced(observations: map<Id, Observation>, id: Id) {
    exists o :: o in observations && observations[o].provider == id
  }

  predicate SnapshotNamed(analyses: map<Id, Analysis>, id: Id) {
    exists a :: a in analyses && SnapshotOf(analyses[a]) == Some(id)
  }

  predicate ConfigurationNamed(analyses: map<Id, Analysis>, id: Id) {
    exists a :: a in analyses && ConfigurationOf(analyses[a]) == Some(id)
  }

  predicate RateUsed(observations: map<Id, Observation>, id: Id) {
    exists o :: o in observations && observations[o].rate == Some(id)
  }

  /** A training image or a grade a user reported names the card. */
  predicate CardReferred(r: Referrers, id: Id) {
    || (exists i :: i in r.trainingImages && r.trainingImages[i] == Some(id))
    || (exists f :: f in r.feedback && r.feedback[f] == id)
  }

  /** A quarantined record or an ingestion run names the provider. */
  predicate ProviderReferred(r: Referrers, id: Id) {
    || (exists q :: q in r.quarantine && r.quarantine[q] == id)
    || (exists i :: i in r.runs && r.runs[i].provider == Some(id))
  }

  /** An ingestion run names the snapshot it cut. */
  predicate SnapshotReferred(r: Referrers, id: Id) {
    exists i :: i in r.runs && r.runs[i].snapshot == Some(id)
  }

  predicate SetsViolate(t: Tables, w: Write<CardSet>) {
    match w
    case Insert(id, row) => SetTaken(t.sets, row, id)
    case Update(id, row) => id in t.sets && (SetTaken(t.sets, row, id) || CardOutOfStep(t.cards, id, row))
    case Delete(id) => SetNamed(t.cards, id)
  }

  predicate CardsViolate(t: Tables, w: Write<Card>) {
    if w.Delete? then
      CardAnalysed(t.analyses, w.id) || CardPriced(t.observations, w.id) || CardReferred(t.referrers, w.id)
    else Puts(t.cards, w) && (!SetKeyHolds(t.sets, w.row) || PrintingTaken(t.cards, w.row, w.id))
  }

  predicate ExternalIdsViolate(t: Tables, w: Write<ExternalId>) {
    Puts(t.externalIds, w) && (w.row.card !in t.cards || ExternalIdTaken(t.externalIds, w.row, w.id))
  }

  predicate SessionsViolate(t: Tables, w: Write<Session>) {
    Puts(t.sessions, w) && (!SessionChecks(w.row) || TokenTaken(t.sessions, w.row, w.id))
  }

  predicate AnalysesViolate(t: Tables, w: Write<Analysis>) {
    Puts(t.analyses, w)
    && !(AnalysisChecks(w.row)
         && AnalysisKeysHold(t.sessions.Keys, t.cards.Keys, t.snapshots.Keys, t.configurations.Keys, w.row))
  }

  predicate PhotographsViolate(t: Tables, w: Write<Photograph>) {
    Puts(t.photographs, w)
    && (!PhotographChecks(w.row) || w.row.analysis !in t.analyses || SideTaken(t.photographs, w.row, w.id))
  }

  predicate ProvidersViolate(t: Tables, w: Write<Provider>) {
    if w.Delete? then
      ProviderCut(t.snapshots, w.id) || ProviderPriced(t.observations, w.id) || ProviderReferred(t.referrers, w.id)
    else Puts(t.providers, w) && (!IsSlug(w.row.slug) || ProviderTaken(t.providers, w.row, w.id))
  }

  predicate SnapshotsViolate(t: Tables, w: Write<Snapshot>) {
    if w.Delete? then SnapshotNamed(t.analyses, w.id) || SnapshotReferred(t.referrers, w.id)
    else Puts(t.snapshots, w) && w.row.provider !in t.providers
  }

  predicate ObservationsViolate(t: Tables, w: Write<Observation>) {
    Puts(t.observations, w)
    && !(ObservationChecks(w.row) && ObservationKeysHold(t.cards.Keys, t.providers.Keys, t.rates.Keys, w.row))
  }

  predicate RatesViolate(t: Tables, w: Write<ExchangeRate>) {
    if w.Delete? then RateUsed(t.observations, w.id)
    else Puts(t.rates, w) && (!RateChecks(w.row) || RateTaken(t.rates, w.row, w.id))
  }

  predicate TrainingImagesViolate(t: Tables, w: Write<Option<Id>>) {
    Puts(t.referrers.trainingImages, w) && !Resolves(w.row, t.cards.Keys)
  }

  predicate FeedbackViolates(t: Tables, w: Write<Id>) {
    Puts(t.referrers.feedback, w) && w.row !in t.cards
  }

  predicate QuarantineViolates(t: Tables, w: Write<Id>) {
    Puts(t.referrers.quarantine, w) && w.row !in t.providers
  }

  predicate RunsViolate(t: Tables, w: Write<RunKeys>) {
    Puts(t.referrers.runs, w)
    && !(Resolves(w.row.provider, t.providers.Keys) && Resolves(w.row.snapshot, t.snapshots.Keys))
  }

  predicate ConfigurationsViolate(t: Tables, w: Write<Configuration>) {
    if w.Delete? then ConfigurationNamed(t.analyses, w.id)
    else Puts(t.configurations, w) && !ConfigurationChecks(w.row)
  }

  predicate Violates(t: Tables, s: Statement) {
    match s
    case OnSets(w) => SetsViolate(t, w)
    case OnCards(w) => CardsViolate(t, w)
    case OnExternalIds(w) => ExternalIdsViolate(t, w)
    case OnSessions(w) => SessionsViolate(t, w)
    case OnAnalyses(w) => AnalysesViolate(t, w)
    case OnPhotographs(w) => PhotographsViolate(t, w)
    case OnProviders(w) => ProvidersViolate(t, w)
    case OnSnapshots(w) => SnapshotsViolate(t, w)
    case OnRates(w) => RatesViolate(t, w)
    case OnObservations(w) => ObservationsViolate(t, w)
    case OnConfigurations(w) => ConfigurationsViolate(t, w)
    case OnTrainingImages(w) => TrainingImagesViolate(t, w)
    case OnFeedback(w) => FeedbackViolates(t, w)
    case OnQuarantine(w) => QuarantineViolates(t, w)
    case OnRuns(w) => RunsViolate(t, w)
  }

  predicate Refused(t: Tables, s: Statement) {
    Stopped(t, s) || Violates(t, s)
  }

  /** ON DELETE CASCADE from a card to its external ids. */
  function WithoutLinksTo(links: map<Id, ExternalId>, card: Id): map<Id, ExternalId> {
    map i | i in links && links[i].card != card :: links[i]
  }

  function WithoutAnalysesOf(analyses: map<Id, Analysis>, session: Id): map<Id, Analysis> {
    map a | a in analyses && analyses[a].session != session :: analyses[a]
  }

  /** The photographs of the analyses that went. */
  function WithoutPhotographsOf(photographs: map<Id, Photograph>, gone: set<Id>): map<Id, Photograph> {
    map p | p in photographs && photographs[p].analysis !in gone :: photographs[p]
  }

  function CarryCards(t: Tables, w: Write<Card>): (u: Tables)
    ensures u.providers == t.providers && u.snapshots == t.snapshots
    ensures u.rates == t.rates && u.observations == t.observations && u.configurations == t.configurations
    ensures u.referrers == t.referrers
  {
    t.(cards := Written(t.cards, w),
       externalIds := if w.Delete? then WithoutLinksTo(t.externalIds, w.id) else t.externalIds)
  }

  function WithoutSession(t: Tables, session: Id): Tables {
    var kept := WithoutAnalysesOf(t.analyses, session);
    t.(sessions := t.sessions - {session}, analyses := kept,
       photographs := WithoutPhotographsOf(t.photographs, t.analyses.Keys - kept.Keys))
  }

  function CarrySessions(t: Tables, w: Write<Session>): (u: Tables)
    ensures u.sets == t.sets && u.cards == t.cards && u.externalIds == t.externalIds
    ensures u.providers == t.providers && u.snapshots == t.snapshots
    ensures u.rates == t.rates && u.observations == t.observations && u.configurations == t.configurations
    ensures u.referrers == t.referrers
  {
    if w.Delete? then WithoutSession(t, w.id) else t.(sessions := Written(t.sessions, w))
  }

  function CarryAnalyses(t: Tables, w: Write<Analysis>): (u: Tables)
    ensures u.sets == t.sets && u.cards == t.cards && u.externalIds == t.externalIds
    ensures u.providers == t.providers && u.snapshots == t.snapshots
    ensures u.rates == t.rates && u.observations == t.observations && u.configurations == t.configurations
    ensures u.referrers == t.referrers
  {
    t.(analyses := Written(t.analyses, w),
       photographs := if w.Delete? then WithoutPhotographsOf(t.photographs, {w.id}) else t.photographs)
  }

  /** The statement as its text has it, cascades included, guarded by nothing. */
  function Carry(t: Tables, s: Statement): Tables {
    match s
    case OnSets(w) => t.(sets := Written(t.sets, w))
    case OnCards(w) => CarryCards(t, w)
    case OnExternalIds(w) => t.(externalIds := Written(t.externalIds, w))
    case OnSessions(w) => CarrySessions(t, w)
    case OnAnalyses(w) => CarryAnalyses(t, w)
    case OnPhotographs(w) => t.(photographs := Written(t.photographs, w))
    case OnProviders(w) => t.(providers := Written(t.providers, w))
    case OnSnapshots(w) => t.(snapshots := Written(t.snapshots, w))
    case OnRates(w) => t.(rates := Written(t.rates, w))
    case OnObservations(w) => t.(observations := Written(t.observations, w))
    case OnConfigurations(w) => t.(configurations := Written(t.configurations, w))
    case OnTrainingImages(w) =>
      t.(referrers := t.referrers.(trainingImages := Written(t.referrers.trainingImages, w)))
    case OnFeedback(w) => t.(referrers := t.referrers.(feedback := Written(t.referrers.feedback, w)))
    case OnQuarantine(w) => t.(referrers := t.referrers.(quarantine := Written(t.referrers.quarantine, w)))
    case OnRuns(w) => t.(referrers := t.referrers.(runs := Written(t.referrers.runs, w)))
  }

  function Apply(t: Tables, s: Statement): Tables {
    if Refused(t, s) then t else Carry(t, s)
  }

  function Run(t: Tables, statements: seq<Statement>): Tables
    decreases |statements|
  {
    if statements == [] then t else Run(Apply(t, statements[0]), statements[1..])
  }

  // ----- Integrity

  ghost predicate SetsHold(sets: map<Id, CardSet>) {
    forall a, b :: a in sets && b in sets && a != b ==> sets[a] != sets[b]
  }

  ghost predicate CardsHold(sets: map<Id, CardSet>, cards: map<Id, Card>) {
    && (forall c :: c in cards ==> SetKeyHolds(sets, cards[c]))
    && (forall a, b :: a in cards && b in cards && a != b ==> !SamePrinting(cards[a], cards[b]))
  }

  ghost predicate LinksHold(cards: set<Id>, links: map<Id, ExternalId>) {
    && (forall i :: i in links ==> links[i].card in cards)
    && (forall a, b :: a in links && b in links && a != b ==> links[a] != links[b])
  }

  ghost predicate SessionsHold(sessions: map<Id, Session>) {
    && (forall i :: i in sessions ==> SessionChecks(sessions[i]))
    && (forall a, b :: a in sessions && b in sessions && a != b ==> sessions[a].token != sessions[b].token)
  }

  ghost predicate AnalysesHold(sessions: set<Id>, cards: set<Id>, snapshots: set<Id>, configurations: set<Id>,
                               analyses: map<Id, Analysis>)
  {
    forall a :: a in analyses ==>
      AnalysisChecks(analyses[a]) && AnalysisKeysHold(sessions, cards, snapshots, configurations, analyses[a])
  }

  ghost predicate PhotographsHold(analyses: set<Id>, photographs: map<Id, Photograph>) {
    && (forall p :: p in photographs ==> PhotographChecks(photographs[p]) && photographs[p].analysis in analyses)
    && (forall a, b :: a in photographs && b in photographs && a != b ==> !SameSide(photographs[a], photographs[b]))
  }

  ghost predicate ProvidersHold(providers: map<Id, Provider>) {
    && (forall p :: p in providers ==> IsSlug(providers[p].slug))
    && (forall a, b :: a in providers && b in providers && a != b ==> !SameProvider(providers[a], providers[b]))
  }

  ghost predicate SnapshotsHold(providers: set<Id>, snapshots: map<Id, Snapshot>) {
    forall s :: s in snapshots ==> snapshots[s].provider in providers
  }

  ghost predicate RatesHold(rates: map<Id, ExchangeRate>) {
    && (forall r :: r in rates ==> RateChecks(rates[r]))
    && (forall a, b :: a in rates && b in rates && a != b ==> !SameDay(rates[a], rates[b]))
  }

  ghost predicate ObservationsHold(cards: set<Id>, providers: set<Id>, rates: set<Id>,
                                   observations: map<Id, Observation>)
  {
    forall o :: o in observations ==>
      ObservationChecks(observations[o]) && ObservationKeysHold(cards, providers, rates, observations[o])
  }

  ghost predicate ReferrersHold(cards: set<Id>, providers: set<Id>, snapshots: set<Id>, r: Referrers) {
    && (forall i :: i in r.trainingImages ==> Resolves(r.trainingImages[i], cards))
    && (forall f :: f in r.feedback ==> r.feedback[f] in cards)
    && (forall q :: q in r.quarantine ==> r.quarantine[q] in providers)
    && (forall i :: i in r.runs ==> Resolves(r.runs[i].provider, providers) && Resolves(r.runs[i].snapshot, snapshots))
  }

  ghost predicate ConfigurationsHold(configurations: map<Id, Configuration>) {
    forall c :: c in configurations ==> ConfigurationChecks(configurations[c])
  }

  /** Every key resolves, every CHECK holds, every unique constraint holds. */
  ghost predicate Integrity(t: Tables) {
    && SetsHold(t.sets)
    && CardsHold(t.sets, t.cards)
    && LinksHold(t.cards.Keys, t.externalIds)
    && SessionsHold(t.sessions)
    && AnalysesHold(t.sessions.Keys, t.cards.Keys, t.snapshots.Keys, t.configurations.Keys, t.analyses)
    && PhotographsHold(t.analyses.Keys, t.photographs)
    && ProvidersHold(t.providers)
    && SnapshotsHold(t.providers.Keys, t.snapshots)
    && RatesHold(t.rates)
    && ObservationsHold(t.cards.Keys, t.providers.Keys, t.rates.Keys, t.observations)
    && ConfigurationsHold(t.configurations)
    && ReferrersHold(t.cards.Keys, t.providers.Keys, t.snapshots.Keys, t.referrers)
  }

  // ----- Each table on its own: what writing one row, or losing one parent, does to it

  lemma PutSet(sets: map<Id, CardSet>, id: Id, row: CardSet)
    requires SetsHold(sets)
    ensures SetsHold(sets[id := row]) <==> !SetTaken(sets, row, id)
  {
    var after := sets[id := row];
    if i :| i in sets && i != id && sets[i] == row {
      assert after[i] == after[id];
    }
  }

  lemma PutCard(sets: map<Id, CardSet>, cards: map<Id, Card>, id: Id, row: Card)
    requires CardsHold(sets, cards)
    ensures CardsHold(sets, cards[id := row]) <==> SetKeyHolds(sets, row) && !PrintingTaken(cards, row, id)
  {
    hide SetKeyHolds;
    var after := cards[id := row];
    assert after[id] == row;
    if i :| i in cards && i != id && SamePrinting(cards[i], row) {
      assert SamePrinting(after[i], after[id]);
    }
  }

  lemma PutLink(cards: set<Id>, links: map<Id, ExternalId>, id: Id, row: ExternalId)
    requires LinksHold(cards, links)
    ensures LinksHold(cards, links[id := row]) <==> row.card in cards && !ExternalIdTaken(links, row, id)
  {
    var after := links[id := row];
    assert after[id] == row;
    if i :| i in links && i != id && links[i] == row {
      assert after[i] == after[id];
    }
  }

  lemma PutSession(sessions: map<Id, Session>, id: Id, row: Session)
    requires SessionsHold(sessions)
    ensures SessionsHold(sessions[id := row]) <==> SessionChecks(row) && !TokenTaken(sessions, row, id)
  {
    hide SessionChecks;
    var after := sessions[id := row];
    assert after[id] == row;
    if i :| i in sessions && i != id && sessions[i].token == row.token {
      assert after[i].token == after[id].token;
    }
  }

  lemma PutAnalysis(sessions: set<Id>, cards: set<Id>, snapshots: set<Id>, configurations: set<Id>,
                    analyses: map<Id, Analysis>, id: Id, row: Analysis)
    requires AnalysesHold(sessions, cards, snapshots, configurations, analyses)
    ensures AnalysesHold(sessions, cards, snapshots, configurations, analyses[id := row])
            <==> AnalysisChecks(row) && AnalysisKeysHold(sessions, cards, snapshots, configurations, row)
  {
    hide AnalysisChecks, AnalysisKeysHold;
    assert analyses[id := row][id] == row;
  }

  lemma PutPhotograph(analyses: set<Id>, photographs: map<Id, Photograph>, id: Id, row: Photograph)
    requires PhotographsHold(analyses, photographs)
    ensures PhotographsHold(analyses, photographs[id := row])
            <==> PhotographChecks(row) && row.analysis in analyses && !SideTaken(photographs, row, id)
  {
    hide PhotographChecks;
    var after := photographs[id := row];
    assert after[id] == row;
    if i :| i in photographs && i != id && SameSide(photographs[i], row) {
      assert SameSide(after[i], after[id]);
    }
  }

  lemma PutProvider(providers: map<Id, Provider>, id: Id, row: Provider)
    requires ProvidersHold(providers)
    ensures ProvidersHold(providers[id := row]) <==> IsSlug(row.slug) && !ProviderTaken(providers, row, id)
  {
    hide IsSlug;
    var after := providers[id := row];
    assert after[id] == row;
    if i :| i in providers && i != id && SameProvider(providers[i], row) {
      assert SameProvider(after[i], after[id]);
    }
  }

  lemma PutSnapshot(providers: set<Id>, snapshots: map<Id, Snapshot>, id: Id, row: Snapshot)
    requires SnapshotsHold(providers, snapshots)
    ensures SnapshotsHold(providers, snapshots[id := row]) <==> row.provider in providers
  {
    assert snapshots[id := row][id] == row;
  }

  lemma PutObservation(cards: set<Id>, providers: set<Id>, rates: set<Id>, observations: map<Id, Observation>,
                       id: Id, row: Observation)
    requires ObservationsHold(cards, providers, rates, observations)
    ensures ObservationsHold(cards, providers, rates, observations[id := row])
            <==> ObservationChecks(row) && ObservationKeysHold(cards, providers, rates, row)
  {
    hide ObservationChecks, ObservationKeysHold;
    assert observations[id := row][id] == row;
  }

  lemma PutRate(rates: map<Id, ExchangeRate>, id: Id, row: ExchangeRate)
    requires RatesHold(rates)
    ensures RatesHold(rates[id := row]) <==> RateChecks(row) && !RateTaken(rates, row, id)
  {
    hide RateChecks;
    var after := rates[id := row];
    assert after[id] == row;
    if i :| i in rates && i != id && SameDay(rates[i], row) {
      assert SameDay(after[i], after[id]);
    }
  }

  lemma TrainingImageWritten(cards: set<Id>, providers: set<Id>, snapshots: set<Id>, r: Referrers, w: Write<Option<Id>>)
    requires ReferrersHold(cards, providers, snapshots, r)
    ensures ReferrersHold(cards, providers, snapshots, r.(trainingImages := Written(r.trainingImages, w)))
            <==> (Puts(r.trainingImages, w) ==> Resolves(w.row, cards))
  {
    hide Resolves;
    if !w.Delete? {
      assert r.trainingImages[w.id := w.row][w.id] == w.row;
    }
  }

  lemma FeedbackWritten(cards: set<Id>, providers: set<Id>, snapshots: set<Id>, r: Referrers, w: Write<Id>)
    requires ReferrersHold(cards, providers, snapshots, r)
    ensures ReferrersHold(cards, providers, snapshots, r.(feedback := Written(r.feedback, w)))
            <==> (Puts(r.feedback, w) ==> w.row in cards)
  {
    hide Resolves;
    if !w.Delete? {
      assert r.feedback[w.id := w.row][w.id] == w.row;
    }
  }

  lemma QuarantinedWritten(cards: set<Id>, providers: set<Id>, snapshots: set<Id>, r: Referrers, w: Write<Id>)
    requires ReferrersHold(cards, providers, snapshots, r)
    ensures ReferrersHold(cards, providers, snapshots, r.(quarantine := Written(r.quarantine, w)))
            <==> (Puts(r.quarantine, w) ==> w.row in providers)
  {
    hide Resolves;
    if !w.Delete? {
      assert r.quarantine[w.id := w.row][w.id] == w.row;
    }
  }

  lemma RunWritten(cards: set<Id>, providers: set<Id>, snapshots: set<Id>, r: Referrers, w: Write<RunKeys>)
    requires ReferrersHold(cards, providers, snapshots, r)
    ensures ReferrersHold(cards, providers, snapshots, r.(runs := Written(r.runs, w)))
            <==> (Puts(r.runs, w) ==> Resolves(w.row.provider, providers) && Resolves(w.row.snapshot, snapshots))
  {
    hide Resolves;
    if !w.Delete? {
      assert r.runs[w.id := w.row][w.id] == w.row;
    }
  }

  /** RESTRICT, as far as the tables outside go. */
  lemma ReferrersLoseAParent(cards: set<Id>, providers: set<Id>, snapshots: set<Id>, r: Referrers, id: Id)
    requires ReferrersHold(cards, providers, snapshots, r)
    ensures ReferrersHold(cards - {id}, providers, snapshots, r) <==> !CardReferred(r, id)
    ensures ReferrersHold(cards, providers - {id}, snapshots, r) <==> !ProviderReferred(r, id)
    ensures ReferrersHold(cards, providers, snapshots - {id}, r) <==> !SnapshotReferred(r, id)
  {
    if i :| i in r.trainingImages && r.trainingImages[i] == Some(id) {
      assert !Resolves(r.trainingImages[i], cards - {id});
    }
    if i :| i in r.runs && r.runs[i].provider == Some(id) {
      assert !Resolves(r.runs[i].provider, providers - {id});
    }
    if i :| i in r.runs && r.runs[i].snapshot == Some(id) {
      assert !Resolves(r.runs[i].snapshot, snapshots - {id});
    }
  }

  lemma ReferrersGainParents(cards: set<Id>, providers: set<Id>, snapshots: set<Id>, r: Referrers, id: Id)
    requires ReferrersHold(cards, providers, snapshots, r)
    ensures ReferrersHold(cards + {id}, providers, snapshots, r)
    ensures ReferrersHold(cards, providers + {id}, snapshots, r)
    ensures ReferrersHold(cards, providers, snapshots + {id}, r)
  {
  }

  lemma PutConfiguration(configurations: map<Id, Configuration>, id: Id, row: Configuration)
    requires ConfigurationsHold(configurations)
    ensures ConfigurationsHold(configurations[id := row]) <==> ConfigurationChecks(row)
  {
    hide ConfigurationChecks;
    assert configurations[id := row][id] == row;
  }

  /** Losing a card, a snapshot or a configuration: RESTRICT, as far as analyses go. */
  lemma AnalysesLoseAParent(sessions: set<Id>, cards: set<Id>, snapshots: set<Id>, configurations: set<Id>,
                            analyses: map<Id, Analysis>, id: Id)
    requires AnalysesHold(sessions, cards, snapshots, configurations, analyses)
    ensures AnalysesHold(sessions, cards - {id}, snapshots, configurations, analyses)
            <==> !CardAnalysed(analyses, id)
    ensures AnalysesHold(sessions, cards, snapshots - {id}, configurations, analyses)
            <==> !SnapshotNamed(analyses, id)
    ensures AnalysesHold(sessions, cards, snapshots, configurations - {id}, analyses)
            <==> !ConfigurationNamed(analyses, id)
  {
    hide AnalysisChecks, SnapshotOf, ConfigurationOf;
    if a :| a in analyses && analyses[a].card == Some(id) {
      assert !AnalysisKeysHold(sessions, cards - {id}, snapshots, configurations, analyses[a]);
    }
    if a :| a in analyses && SnapshotOf(analyses[a]) == Some(id) {
      assert !AnalysisKeysHold(sessions, cards, snapshots - {id}, configurations, analyses[a]);
    }
    if a :| a in analyses && ConfigurationOf(analyses[a]) == Some(id) {
      assert !AnalysisKeysHold(sessions, cards, snapshots, configurations - {id}, analyses[a]);
    }
  }

  lemma ObservationsLoseAParent(cards: set<Id>, providers: set<Id>, rates: set<Id>,
                                observations: map<Id, Observation>, id: Id)
    requires ObservationsHold(cards, providers, rates, observations)
    ensures ObservationsHold(cards - {id}, providers, rates, observations) <==> !CardPriced(observations, id)
    ensures ObservationsHold(cards, providers - {id}, rates, observations) <==> !ProviderPriced(observations, id)
    ensures ObservationsHold(cards, providers, rates - {id}, observations) <==> !RateUsed(observations, id)
  {
    hide ObservationChecks;
    if o :| o in observations && observations[o].card == id {
      assert !ObservationKeysHold(cards - {id}, providers, rates, observations[o]);
    }
    if o :| o in observations && observations[o].provider == id {
      assert !ObservationKeysHold(cards, providers - {id}, rates, observations[o]);
    }
    if o :| o in observations && observations[o].rate == Some(id) {
      assert !ObservationKeysHold(cards, providers, rates - {id}, observations[o]);
    }
  }

  lemma ObservationsGainParents(cards: set<Id>, providers: set<Id>, rates: set<Id>,
                                observations: map<Id, Observation>, id: Id)
    requires ObservationsHold(cards, providers, rates, observations)
    ensures ObservationsHold(cards + {id}, providers, rates, observations)
    ensures ObservationsHold(cards, providers + {id}, rates, observations)
    ensures ObservationsHold(cards, providers, rates + {id}, observations)
  {
    hide ObservationChecks;
  }

  lemma SnapshotsLoseAParent(providers: set<Id>, snapshots: map<Id, Snapshot>, id: Id)
    requires SnapshotsHold(providers, snapshots)
    ensures SnapshotsHold(providers - {id}, snapshots) <==> !ProviderCut(snapshots, id)
  {
  }

  /** A set may go, or change its game or language, exactly when no card says otherwise. */
  lemma CardsLoseASet(sets: map<Id, CardSet>, cards: map<Id, Card>, id: Id, row: CardSet)
    requires CardsHold(sets, cards)
    ensures CardsHold(sets - {id}, cards) <==> !SetNamed(cards, id)
    ensures CardsHold(sets[id := row], cards) <==> !CardOutOfStep(cards, id, row)
  {
    hide SamePrinting;
    if c :| c in cards && cards[c].set_ == id {
      assert !SetKeyHolds(sets - {id}, cards[c]);
    }
    if c :| c in cards && cards[c].set_ == id && (cards[c].game != row.game || cards[c].language != row.language) {
      assert !SetKeyHolds(sets[id := row], cards[c]);
    }
  }

  // ----- The guards are exact

  lemma SetGuardsAreExact(t: Tables, w: Write<CardSet>)
    requires Integrity(t) && !Stopped(t, OnSets(w))
    ensures SetsViolate(t, w) <==> !Integrity(Carry(t, OnSets(w)))
  {
    if w.Delete? {
      SetGoes(t, w.id);
    } else {
      PutSet(t.sets, w.id, w.row);
      SetChanges(t, w.id, w.row);
    }
    hide SetsHold, CardsHold, LinksHold, SessionsHold, AnalysesHold, PhotographsHold, ProvidersHold, SnapshotsHold,
      ObservationsHold, ConfigurationsHold, RatesHold, ReferrersHold, SetTaken, CardOutOfStep, SetNamed;
  }

  lemma SetGoes(t: Tables, id: Id)
    requires Integrity(t)
    ensures SetsHold(t.sets - {id}) && (CardsHold(t.sets - {id}, t.cards) <==> !SetNamed(t.cards, id))
  {
    hide LinksHold, SessionsHold, AnalysesHold, PhotographsHold, ProvidersHold, SnapshotsHold, ObservationsHold,
      ConfigurationsHold, RatesHold, ReferrersHold;
    CardsLoseASet(t.sets, t.cards, id, CardSet("", "", ""));
    hide CardsHold, SetNamed;
  }

  lemma SetChanges(t: Tables, id: Id, row: CardSet)
    requires Integrity(t)
    ensures CardsHold(t.sets[id := row], t.cards) <==> !CardOutOfStep(t.cards, id, row)
    ensures id !in t.sets ==> !CardOutOfStep(t.cards, id, row)
  {
    hide LinksHold, SessionsHold, AnalysesHold, PhotographsHold, ProvidersHold, SnapshotsHold, ObservationsHold,
      ConfigurationsHold, RatesHold, ReferrersHold;
    CardsLoseASet(t.sets, t.cards, id, row);
    hide SamePrinting;
    assert forall c :: c in t.cards ==> SetKeyHolds(t.sets, t.cards[c]);
  }

  lemma CardGuardsAreExact(t: Tables, w: Write<Card>)
    requires Integrity(t) && !Stopped(t, OnCards(w))
    ensures CardsViolate(t, w) <==> !Integrity(Carry(t, OnCards(w)))
  {
    if w.Delete? {
      CardGoes(t, w.id);
    } else {
      PutCard(t.sets, t.cards, w.id, w.row);
      CardComes(t, w.id, w.row);
    }
    hide SetsHold, CardsHold, LinksHold, SessionsHold, AnalysesHold, PhotographsHold, ProvidersHold, SnapshotsHold,
      ObservationsHold, ConfigurationsHold, RatesHold, ReferrersHold, SetKeyHolds, PrintingTaken, CardAnalysed,
      CardPriced, CardReferred, WithoutLinksTo;
  }

  lemma CardComes(t: Tables, id: Id, row: Card)
    requires Integrity(t)
    ensures var more := (t.cards[id := row]).Keys;
            && LinksHold(more, t.externalIds)
            && AnalysesHold(t.sessions.Keys, more, t.snapshots.Keys, t.configurations.Keys, t.analyses)
            && ObservationsHold(more, t.providers.Keys, t.rates.Keys, t.observations)
            && ReferrersHold(more, t.providers.Keys, t.snapshots.Keys, t.referrers)
  {
    hide AnalysisChecks, SetsHold, CardsHold, SessionsHold, PhotographsHold, ProvidersHold, SnapshotsHold,
      ConfigurationsHold, RatesHold;
    ObservationsGainParents(t.cards.Keys, t.providers.Keys, t.rates.Keys, t.observations, id);
    ReferrersGainParents(t.cards.Keys, t.providers.Keys, t.snapshots.Keys, t.referrers, id);
    hide ObservationsHold, ReferrersHold;
    assert (t.cards[id := row]).Keys == t.cards.Keys + {id};
  }

  lemma CardGoes(t: Tables, id: Id)
    requires Integrity(t)
    ensures var fewer := t.cards - {id};
            && CardsHold(t.sets, fewer)
            && LinksHold(fewer.Keys, WithoutLinksTo(t.externalIds, id))
            && (AnalysesHold(t.sessions.Keys, fewer.Keys, t.snapshots.Keys, t.configurations.Keys, t.analyses) <==>
                  !CardAnalysed(t.analyses, id))
            && (ObservationsHold(fewer.Keys, t.providers.Keys, t.rates.Keys, t.observations) <==>
                  !CardPriced(t.observations, id))
            && (ReferrersHold(fewer.Keys, t.providers.Keys, t.snapshots.Keys, t.referrers) <==>
                  !CardReferred(t.referrers, id))
  {
    CatalogLosesACard(t.sets, t.cards, t.externalIds, id);
    hide SetsHold, CardsHold, LinksHold, SessionsHold, AnalysesHold, PhotographsHold, ProvidersHold, SnapshotsHold,
      ObservationsHold, ConfigurationsHold, RatesHold, ReferrersHold, CardAnalysed, CardPriced, CardReferred,
      WithoutLinksTo;
    ReferrersLoseAParent(t.cards.Keys, t.providers.Keys, t.snapshots.Keys, t.referrers, id);
    AnalysesLoseAParent(t.sessions.Keys, t.cards.Keys, t.snapshots.Keys, t.configurations.Keys, t.analyses, id);
    ObservationsLoseAParent(t.cards.Keys, t.providers.Keys, t.rates.Keys, t.observations, id);
    assert (t.cards - {id}).Keys == t.cards.Keys - {id};
  }

  lemma CatalogLosesACard(sets: map<Id, CardSet>, cards: map<Id, Card>, links: map<Id, ExternalId>, id: Id)
    ensures CardsHold(sets, cards) ==> CardsHold(sets, cards - {id})
    ensures LinksHold(cards.Keys, links) ==> LinksHold((cards - {id}).Keys, WithoutLinksTo(links, id))
  {
    hide SetKeyHolds, SamePrinting;
  }

  lemma LinkGuardsAreExact(t: Tables, w: Write<ExternalId>)
    requires Integrity(t) && !Stopped(t, OnExternalIds(w))
    ensures ExternalIdsViolate(t, w) <==> !Integrity(Carry(t, OnExternalIds(w)))
  {
    if w.Delete? {
      assert LinksHold(t.cards.Keys, t.externalIds - {w.id});
    } else {
      PutLink(t.cards.Keys, t.externalIds, w.id, w.row);
    }
    hide SetsHold, CardsHold, LinksHold, SessionsHold, AnalysesHold, PhotographsHold, ProvidersHold, SnapshotsHold,
      ObservationsHold, ConfigurationsHold, RatesHold, ReferrersHold, ExternalIdTaken;
  }

  lemma SessionGuardsAreExact(t: Tables, w: Write<Session>)
    requires Integrity(t) && !Stopped(t, OnSessions(w))
    ensures SessionsViolate(t, w) <==> !Integrity(Carry(t, OnSessions(w)))
  {
    if w.Delete? {
      SessionGoes(t, w.id);
    } else {
      PutSession(t.sessions, w.id, w.row);
      SessionComes(t, w.id, w.row);
    }
    hide SetsHold, CardsHold, LinksHold, SessionsHold, AnalysesHold, PhotographsHold, ProvidersHold, SnapshotsHold,
      ObservationsHold, ConfigurationsHold, RatesHold, ReferrersHold, SessionChecks, TokenTaken, WithoutAnalysesOf,
      WithoutPhotographsOf;
  }

  lemma SessionComes(t: Tables, id: Id, row: Session)
    requires Integrity(t)
    ensures AnalysesHold((t.sessions[id := row]).Keys, t.cards.Keys, t.snapshots.Keys, t.configurations.Keys,
                         t.analyses)
  {
    hide AnalysisChecks, SetsHold, CardsHold, LinksHold, SessionsHold, PhotographsHold, ProvidersHold, SnapshotsHold,
      ObservationsHold, ConfigurationsHold, RatesHold, ReferrersHold;
    assert (t.sessions[id := row]).Keys == t.sessions.Keys + {id};
  }

  /** The cascade leaves nothing behind that names what went. */
  lemma SessionGoes(t: Tables, id: Id)
    requires Integrity(t)
    ensures var fewer := t.sessions - {id};
            var kept := WithoutAnalysesOf(t.analyses, id);
            && SessionsHold(fewer)
            && AnalysesHold(fewer.Keys, t.cards.Keys, t.snapshots.Keys, t.configurations.Keys, kept)
            && PhotographsHold(kept.Keys, WithoutPhotographsOf(t.photographs, t.analyses.Keys - kept.Keys))
  {
    hide SessionChecks, AnalysisChecks, SetsHold, CardsHold, LinksHold, ProvidersHold, SnapshotsHold, ObservationsHold,
      ConfigurationsHold, RatesHold, ReferrersHold;
    PhotographsGo(t.analyses.Keys, t.photographs, t.analyses.Keys - WithoutAnalysesOf(t.analyses, id).Keys);
    hide PhotographsHold, WithoutPhotographsOf;
    var kept := WithoutAnalysesOf(t.analyses, id);
    assert t.analyses.Keys - (t.analyses.Keys - kept.Keys) == kept.Keys;
    assert (t.sessions - {id}).Keys == t.sessions.Keys - {id};
  }

  lemma PhotographsGo(analyses: set<Id>, photographs: map<Id, Photograph>, gone: set<Id>)
    requires PhotographsHold(analyses, photographs)
    ensures PhotographsHold(analyses - gone, WithoutPhotographsOf(photographs, gone))
  {
    hide PhotographChecks, SameSide;
  }

  lemma AnalysisGuardsAreExact(t: Tables, w: Write<Analysis>)
    requires Integrity(t) && !Stopped(t, OnAnalyses(w))
    ensures AnalysesViolate(t, w) <==> !Integrity(Carry(t, OnAnalyses(w)))
  {
    if w.Delete? {
      AnalysisGoes(t, w.id);
    } else {
      PutAnalysis(t.sessions.Keys, t.cards.Keys, t.snapshots.Keys, t.configurations.Keys, t.analyses, w.id, w.row);
      AnalysisComes(t, w.id, w.row);
    }
    hide SetsHold, CardsHold, LinksHold, SessionsHold, AnalysesHold, PhotographsHold, ProvidersHold, SnapshotsHold,
      ObservationsHold, ConfigurationsHold, RatesHold, ReferrersHold, AnalysisChecks, AnalysisKeysHold,
      WithoutPhotographsOf, RewritesRecord;
  }

  lemma AnalysisComes(t: Tables, id: Id, row: Analysis)
    requires Integrity(t)
    ensures PhotographsHold((t.analyses[id := row]).Keys, t.photographs)
  {
    hide PhotographChecks, SameSide, SetsHold, CardsHold, LinksHold, SessionsHold, AnalysesHold, ProvidersHold,
      SnapshotsHold, ObservationsHold, ConfigurationsHold, RatesHold, ReferrersHold;
    assert (t.analyses[id := row]).Keys == t.analyses.Keys + {id};
  }

  lemma AnalysisGoes(t: Tables, id: Id)
    requires Integrity(t)
    ensures AnalysesHold(t.sessions.Keys, t.cards.Keys, t.snapshots.Keys, t.configurations.Keys, t.analyses - {id})
    ensures PhotographsHold((t.analyses - {id}).Keys, WithoutPhotographsOf(t.photographs, {id}))
  {
    hide AnalysisChecks, AnalysisKeysHold, SetsHold, CardsHold, LinksHold, SessionsHold, ProvidersHold, SnapshotsHold,
      ObservationsHold, ConfigurationsHold, RatesHold, ReferrersHold;
    PhotographsGo(t.analyses.Keys, t.photographs, {id});
    hide PhotographsHold, WithoutPhotographsOf;
    assert (t.analyses - {id}).Keys == t.analyses.Keys - {id};
  }

  lemma PhotographGuardsAreExact(t: Tables, w: Write<Photograph>)
    requires Integrity(t) && !Stopped(t, OnPhotographs(w))
    ensures PhotographsViolate(t, w) <==> !Integrity(Carry(t, OnPhotographs(w)))
  {
    if w.Delete? {
      PhotographGoes(t, w.id);
    } else {
      PutPhotograph(t.analyses.Keys, t.photographs, w.id, w.row);
    }
    hide SetsHold, CardsHold, LinksHold, SessionsHold, AnalysesHold, PhotographsHold, ProvidersHold, SnapshotsHold,
      ObservationsHold, ConfigurationsHold, RatesHold, ReferrersHold, PhotographChecks, SideTaken;
  }

  lemma PhotographGoes(t: Tables, id: Id)
    requires Integrity(t)
    ensures PhotographsHold(t.analyses.Keys, t.photographs - {id})
  {
    hide PhotographChecks, SameSide, SetsHold, CardsHold, LinksHold, SessionsHold, AnalysesHold, ProvidersHold,
      SnapshotsHold, ObservationsHold, ConfigurationsHold, RatesHold, ReferrersHold;
  }

  lemma ProviderGuardsAreExact(t: Tables, w: Write<Provider>)
    requires Integrity(t) && !Stopped(t, OnProviders(w))
    ensures ProvidersViolate(t, w) <==> !Integrity(Carry(t, OnProviders(w)))
  {
    if w.Delete? {
      ProviderGoes(t, w.id);
    } else {
      PutProvider(t.providers, w.id, w.row);
      ProviderComes(t, w.id, w.row);
    }
    hide SetsHold, CardsHold, LinksHold, SessionsHold, AnalysesHold, PhotographsHold, ProvidersHold, SnapshotsHold,
      ObservationsHold, ConfigurationsHold, RatesHold, ReferrersHold, IsSlug, ProviderTaken, ProviderCut,
      ProviderPriced, ProviderReferred;
  }

  lemma ProviderComes(t: Tables, id: Id, row: Provider)
    requires Integrity(t)
    ensures var more := (t.providers[id := row]).Keys;
            && SnapshotsHold(more, t.snapshots)
            && ObservationsHold(t.cards.Keys, more, t.rates.Keys, t.observations)
            && ReferrersHold(t.cards.Keys, more, t.snapshots.Keys, t.referrers)
  {
    ObservationsGainParents(t.cards.Keys, t.providers.Keys, t.rates.Keys, t.observations, id);
    ReferrersGainParents(t.cards.Keys, t.providers.Keys, t.snapshots.Keys, t.referrers, id);
    hide ObservationsHold, SetsHold, CardsHold, LinksHold, SessionsHold, AnalysesHold, PhotographsHold, ProvidersHold,
      ConfigurationsHold, RatesHold, ReferrersHold;
    assert (t.providers[id := row]).Keys == t.providers.Keys + {id};
  }

  lemma ProviderGoes(t: Tables, id: Id)
    requires Integrity(t)
    ensures var fewer := t.providers - {id};
            && ProvidersHold(fewer)
            && (SnapshotsHold(fewer.Keys, t.snapshots) <==> !ProviderCut(t.snapshots, id))
            && (ObservationsHold(t.cards.Keys, fewer.Keys, t.rates.Keys, t.observations) <==>
                  !ProviderPriced(t.observations, id))
            && (ReferrersHold(t.cards.Keys, fewer.Keys, t.snapshots.Keys, t.referrers) <==>
                  !ProviderReferred(t.referrers, id))
  {
    hide IsSlug, SameProvider, SetsHold, CardsHold, LinksHold, SessionsHold, AnalysesHold, PhotographsHold,
      ConfigurationsHold, RatesHold;
    ReferrersLoseAParent(t.cards.Keys, t.providers.Keys, t.snapshots.Keys, t.referrers, id);
    SnapshotsLoseAParent(t.providers.Keys, t.snapshots, id);
    ObservationsLoseAParent(t.cards.Keys, t.providers.Keys, t.rates.Keys, t.observations, id);
    hide SnapshotsHold, ObservationsHold, ReferrersHold, ProviderCut, ProviderPriced, ProviderReferred;
    assert (t.providers - {id}).Keys == t.providers.Keys - {id};
  }

  lemma SnapshotGuardsAreExact(t: Tables, w: Write<Snapshot>)
    requires Integrity(t) && !Stopped(t, OnSnapshots(w))
    ensures SnapshotsViolate(t, w) <==> !Integrity(Carry(t, OnSnapshots(w)))
  {
    if w.Delete? {
      SnapshotGoes(t, w.id);
    } else {
      PutSnapshot(t.providers.Keys, t.snapshots, w.id, w.row);
      SnapshotComes(t, w.id, w.row);
    }
    hide SetsHold, CardsHold, LinksHold, SessionsHold, AnalysesHold, PhotographsHold, ProvidersHold, SnapshotsHold,
      ObservationsHold, ConfigurationsHold, RatesHold, ReferrersHold, SnapshotNamed, SnapshotReferred;
  }

  lemma SnapshotComes(t: Tables, id: Id, row: Snapshot)
    requires Integrity(t)
    ensures AnalysesHold(t.sessions.Keys, t.cards.Keys, (t.snapshots[id := row]).Keys, t.configurations.Keys,
                         t.analyses)
    ensures ReferrersHold(t.cards.Keys, t.providers.Keys, (t.snapshots[id := row]).Keys, t.referrers)
  {
    hide AnalysisChecks, SetsHold, CardsHold, LinksHold, SessionsHold, PhotographsHold, ProvidersHold, SnapshotsHold,
      ObservationsHold, ConfigurationsHold, RatesHold;
    ReferrersGainParents(t.cards.Keys, t.providers.Keys, t.snapshots.Keys, t.referrers, id);
    hide ReferrersHold;
    assert (t.snapshots[id := row]).Keys == t.snapshots.Keys + {id};
  }

  lemma SnapshotGoes(t: Tables, id: Id)
    requires Integrity(t)
    ensures var fewer := t.snapshots - {id};
            && SnapshotsHold(t.providers.Keys, fewer)
            && (AnalysesHold(t.sessions.Keys, t.cards.Keys, fewer.Keys, t.configurations.Keys, t.analyses) <==>
                  !SnapshotNamed(t.analyses, id))
            && (ReferrersHold(t.cards.Keys, t.providers.Keys, fewer.Keys, t.referrers) <==>
                  !SnapshotReferred(t.referrers, id))
  {
    hide SetsHold, CardsHold, LinksHold, SessionsHold, PhotographsHold, ProvidersHold, ObservationsHold,
      ConfigurationsHold, RatesHold;
    ReferrersLoseAParent(t.cards.Keys, t.providers.Keys, t.snapshots.Keys, t.referrers, id);
    AnalysesLoseAParent(t.sessions.Keys, t.cards.Keys, t.snapshots.Keys, t.configurations.Keys, t.analyses, id);
    hide AnalysesHold, ReferrersHold, SnapshotNamed, SnapshotReferred;
    assert (t.snapshots - {id}).Keys == t.snapshots.Keys - {id};
  }

  lemma ObservationGuardsAreExact(t: Tables, w: Write<Observation>)
    requires Integrity(t) && !Stopped(t, OnObservations(w))
    ensures ObservationsViolate(t, w) <==> !Integrity(Carry(t, OnObservations(w)))
  {
    if w.Delete? {
      ObservationGoes(t, w.id);
    } else {
      PutObservation(t.cards.Keys, t.providers.Keys, t.rates.Keys, t.observations, w.id, w.row);
    }
    hide SetsHold, CardsHold, LinksHold, SessionsHold, AnalysesHold, PhotographsHold, ProvidersHold, SnapshotsHold,
      ObservationsHold, ConfigurationsHold, RatesHold, ReferrersHold, ObservationChecks, ObservationKeysHold;
  }

  lemma ObservationGoes(t: Tables, id: Id)
    requires Integrity(t)
    ensures ObservationsHold(t.cards.Keys, t.providers.Keys, t.rates.Keys, t.observations - {id})
  {
    hide ObservationChecks, ObservationKeysHold, SetsHold, CardsHold, LinksHold, SessionsHold, AnalysesHold,
      PhotographsHold, ProvidersHold, SnapshotsHold, ConfigurationsHold, RatesHold, ReferrersHold;
  }

  lemma RateGuardsAreExact(t: Tables, w: Write<ExchangeRate>)
    requires Integrity(t) && !Stopped(t, OnRates(w))
    ensures RatesViolate(t, w) <==> !Integrity(Carry(t, OnRates(w)))
  {
    if w.Delete? {
      RateGoes(t, w.id);
    } else {
      PutRate(t.rates, w.id, w.row);
      RateComes(t, w.id, w.row);
    }
    hide SetsHold, CardsHold, LinksHold, SessionsHold, AnalysesHold, PhotographsHold, ProvidersHold, SnapshotsHold,
      ObservationsHold, ConfigurationsHold, RatesHold, ReferrersHold, RateChecks, RateTaken, RateUsed;
  }

  lemma RateComes(t: Tables, id: Id, row: ExchangeRate)
    requires Integrity(t)
    ensures ObservationsHold(t.cards.Keys, t.providers.Keys, (t.rates[id := row]).Keys, t.observations)
  {
    ObservationsGainParents(t.cards.Keys, t.providers.Keys, t.rates.Keys, t.observations, id);
    hide Integrity, ObservationsHold;
    assert (t.rates[id := row]).Keys == t.rates.Keys + {id};
  }

  lemma RateGoes(t: Tables, id: Id)
    requires Integrity(t)
    ensures var fewer := t.rates - {id};
            && RatesHold(fewer)
            && (ObservationsHold(t.cards.Keys, t.providers.Keys, fewer.Keys, t.observations) <==>
                  !RateUsed(t.observations, id))
  {
    hide RateChecks, SameDay, SetsHold, CardsHold, LinksHold, SessionsHold, AnalysesHold, PhotographsHold,
      ProvidersHold, SnapshotsHold, ConfigurationsHold, ReferrersHold;
    ObservationsLoseAParent(t.cards.Keys, t.providers.Keys, t.rates.Keys, t.observations, id);
    hide ObservationsHold, RateUsed;
    assert (t.rates - {id}).Keys == t.rates.Keys - {id};
  }

  lemma TrainingImageGuardsAreExact(t: Tables, w: Write<Option<Id>>)
    requires Integrity(t) && !Stopped(t, OnTrainingImages(w))
    ensures TrainingImagesViolate(t, w) <==> !Integrity(Carry(t, OnTrainingImages(w)))
  {
    TrainingImageWritten(t.cards.Keys, t.providers.Keys, t.snapshots.Keys, t.referrers, w);
    hide SetsHold, CardsHold, LinksHold, SessionsHold, AnalysesHold, PhotographsHold, ProvidersHold, SnapshotsHold,
      ObservationsHold, ConfigurationsHold, RatesHold, ReferrersHold, Resolves, Written, Puts;
  }

  lemma FeedbackGuardsAreExact(t: Tables, w: Write<Id>)
    requires Integrity(t) && !Stopped(t, OnFeedback(w))
    ensures FeedbackViolates(t, w) <==> !Integrity(Carry(t, OnFeedback(w)))
  {
    FeedbackWritten(t.cards.Keys, t.providers.Keys, t.snapshots.Keys, t.referrers, w);
    hide SetsHold, CardsHold, LinksHold, SessionsHold, AnalysesHold, PhotographsHold, ProvidersHold, SnapshotsHold,
      ObservationsHold, ConfigurationsHold, RatesHold, ReferrersHold, Resolves, Written, Puts;
  }

  lemma QuarantineGuardsAreExact(t: Tables, w: Write<Id>)
    requires Integrity(t) && !Stopped(t, OnQuarantine(w))
    ensures QuarantineViolates(t, w) <==> !Integrity(Carry(t, OnQuarantine(w)))
  {
    QuarantinedWritten(t.cards.Keys, t.providers.Keys, t.snapshots.Keys, t.referrers, w);
    hide SetsHold, CardsHold, LinksHold, SessionsHold, AnalysesHold, PhotographsHold, ProvidersHold, SnapshotsHold,
      ObservationsHold, ConfigurationsHold, RatesHold, ReferrersHold, Resolves, Written, Puts;
  }

  lemma RunGuardsAreExact(t: Tables, w: Write<RunKeys>)
    requires Integrity(t) && !Stopped(t, OnRuns(w))
    ensures RunsViolate(t, w) <==> !Integrity(Carry(t, OnRuns(w)))
  {
    RunWritten(t.cards.Keys, t.providers.Keys, t.snapshots.Keys, t.referrers, w);
    hide SetsHold, CardsHold, LinksHold, SessionsHold, AnalysesHold, PhotographsHold, ProvidersHold, SnapshotsHold,
      ObservationsHold, ConfigurationsHold, RatesHold, ReferrersHold, Resolves, Written, Puts;
  }

  lemma ConfigurationGuardsAreExact(t: Tables, w: Write<Configuration>)
    requires Integrity(t) && !Stopped(t, OnConfigurations(w))
    ensures ConfigurationsViolate(t, w) <==> !Integrity(Carry(t, OnConfigurations(w)))
  {
    if w.Delete? {
      ConfigurationGoes(t, w.id);
    } else {
      PutConfiguration(t.configurations, w.id, w.row);
      ConfigurationComes(t, w.id, w.row);
    }
    hide SetsHold, CardsHold, LinksHold, SessionsHold, AnalysesHold, PhotographsHold, ProvidersHold, SnapshotsHold,
      ObservationsHold, ConfigurationsHold, RatesHold, ReferrersHold, ConfigurationChecks, ConfigurationNamed;
  }

  lemma ConfigurationComes(t: Tables, id: Id, row: Configuration)
    requires Integrity(t)
    ensures AnalysesHold(t.sessions.Keys, t.cards.Keys, t.snapshots.Keys, (t.configurations[id := row]).Keys,
                         t.analyses)
  {
    hide AnalysisChecks, SetsHold, CardsHold, LinksHold, SessionsHold, PhotographsHold, ProvidersHold, SnapshotsHold,
      ObservationsHold, ConfigurationsHold, RatesHold, ReferrersHold;
    assert (t.configurations[id := row]).Keys == t.configurations.Keys + {id};
  }

  lemma ConfigurationGoes(t: Tables, id: Id)
    requires Integrity(t)
    ensures var fewer := t.configurations - {id};
            && ConfigurationsHold(fewer)
            && (AnalysesHold(t.sessions.Keys, t.cards.Keys, t.snapshots.Keys, fewer.Keys, t.analyses) <==>
                  !ConfigurationNamed(t.analyses, id))
  {
    hide ConfigurationChecks, SetsHold, CardsHold, LinksHold, SessionsHold, PhotographsHold, ProvidersHold,
      SnapshotsHold, ObservationsHold;
    AnalysesLoseAParent(t.sessions.Keys, t.cards.Keys, t.snapshots.Keys, t.configurations.Keys, t.analyses, id);
    hide AnalysesHold, ConfigurationNamed;
    assert (t.configurations - {id}).Keys == t.configurations.Keys - {id};
  }

  /**
    A statement that reuses no key and meets no trigger is refused exactly when carrying it out, cascades
    included, would leave a database without integrity: the declared constraints refuse too little nowhere
    and too much nowhere.
   */
  lemma GuardsAreExact(t: Tables, s: Statement)
    requires Integrity(t) && !Stopped(t, s)
    ensures Refused(t, s) <==> !Integrity(Carry(t, s))
  {
    hide Integrity, Carry, Stopped;
    match s
    case OnSets(w) => SetGuardsAreExact(t, w);
    case OnCards(w) => CardGuardsAreExact(t, w);
    case OnExternalIds(w) => LinkGuardsAreExact(t, w);
    case OnSessions(w) => SessionGuardsAreExact(t, w);
    case OnAnalyses(w) => AnalysisGuardsAreExact(t, w);
    case OnPhotographs(w) => PhotographGuardsAreExact(t, w);
    case OnProviders(w) => ProviderGuardsAreExact(t, w);
    case OnSnapshots(w) => SnapshotGuardsAreExact(t, w);
    case OnRates(w) => RateGuardsAreExact(t, w);
    case OnObservations(w) => ObservationGuardsAreExact(t, w);
    case OnConfigurations(w) => ConfigurationGuardsAreExact(t, w);
    case OnTrainingImages(w) => TrainingImageGuardsAreExact(t, w);
    case OnFeedback(w) => FeedbackGuardsAreExact(t, w);
    case OnQuarantine(w) => QuarantineGuardsAreExact(t, w);
    case OnRuns(w) => RunGuardsAreExact(t, w);
  }

  /** An INSERT under an id its table holds already. */
  ghost predicate ReusesAnId(t: Tables, s: Statement) {
    || (s.OnSets? && s.sets.Insert? && s.sets.id in t.sets)
    || (s.OnCards? && s.cards.Insert? && s.cards.id in t.cards)
    || (s.OnExternalIds? && s.externalIds.Insert? && s.externalIds.id in t.externalIds)
    || (s.OnSessions? && s.sessions.Insert? && s.sessions.id in t.sessions)
    || (s.OnAnalyses? && s.analyses.Insert? && s.analyses.id in t.analyses)
    || (s.OnPhotographs? && s.photographs.Insert? && s.photographs.id in t.photographs)
    || (s.OnProviders? && s.providers.Insert? && s.providers.id in t.providers)
    || (s.OnSnapshots? && s.snapshots.Insert? && s.snapshots.id in t.snapshots)
    || (s.OnRates? && s.rates.Insert? && s.rates.id in t.rates)
    || (s.OnObservations? && s.observations.Insert? && s.observations.id in t.observations)
    || (s.OnConfigurations? && s.configurations.Insert? && s.configurations.id in t.configurations)
    || (s.OnTrainingImages? && s.trainingImages.Insert? && s.trainingImages.id in t.referrers.trainingImages)
    || (s.OnFeedback? && s.feedback.Insert? && s.feedback.id in t.referrers.feedback)
    || (s.OnQuarantine? && s.quarantine.Insert? && s.quarantine.id in t.referrers.quarantine)
    || (s.OnRuns? && s.runs.Insert? && s.runs.id in t.referrers.runs)
  }

  /** An UPDATE of a stored row of one of the six append-only tables. */
  ghost predicate UpdatesAnAppendOnlyRow(t: Tables, s: Statement) {
    || (s.OnProviders? && s.providers.Update? && s.providers.id in t.providers)
    || (s.OnSnapshots? && s.snapshots.Update? && s.snapshots.id in t.snapshots)
    || (s.OnRates? && s.rates.Update? && s.rates.id in t.rates)
    || (s.OnObservations? && s.observations.Update? && s.observations.id in t.observations)
    || (s.OnConfigurations? && s.configurations.Update? && s.configurations.id in t.configurations)
    || (s.OnQuarantine? && s.quarantine.Update? && s.quarantine.id in t.referrers.quarantine)
  }

  /** Some record column of `held` with a value gets another. */
  ghost predicate Overwrites(held: Analysis, row: Analysis) {
    exists c :: c in held.record && held.record[c].Some? && row.record[c] != held.record[c]
  }

  ghost predicate OverwritesARecord(t: Tables, s: Statement) {
    s.OnAnalyses? && s.analyses.Update? && s.analyses.id in t.analyses
    && Overwrites(t.analyses[s.analyses.id], s.analyses.row)
  }

  lemma RewritesRecordIff(analyses: map<Id, Analysis>, w: Write<Analysis>)
    ensures RewritesRecord(analyses, w)
            <==> w.Update? && w.id in analyses
                 && exists c ::
                   c in analyses[w.id].record && analyses[w.id].record[c].Some?
                   && w.row.record[c] != analyses[w.id].record[c]
  {
    if w.Update? && w.id in analyses {
      var held, row := analyses[w.id].record, w.row.record;
      assert ReproducibilityRecord.Assigned(held, row) == row;
      if c :| c in held && held[c].Some? && row[c] != held[c] {
        assert ReproducibilityRecord.Assigned(held, row)[c] != held[c];
      }
    }
  }

  /**
    A statement is refused for one of four reasons and no other: it inserts under a stored id, it updates a
    row of an append-only table, it gives a written record column of an analysis another value, or carrying
    it out would leave a database without integrity.
   */
  lemma RefusedIff(t: Tables, s: Statement)
    requires Integrity(t)
    ensures Refused(t, s)
            <==>
              || ReusesAnId(t, s) || UpdatesAnAppendOnlyRow(t, s) || OverwritesARecord(t, s)
              || !Integrity(Carry(t, s))
  {
    StoppedIff(t, s);
    hide Integrity, Carry, Violates, Stopped, ReusesAnId, UpdatesAnAppendOnlyRow, OverwritesARecord;
    if !Stopped(t, s) {
      GuardsAreExact(t, s);
    }
  }

  lemma StoppedIff(t: Tables, s: Statement)
    ensures Stopped(t, s) <==> ReusesAnId(t, s) || UpdatesAnAppendOnlyRow(t, s) || OverwritesARecord(t, s)
  {
    if s.OnAnalyses? {
      RewritesRecordIff(t.analyses, s.analyses);
    }
    hide RewritesRecord;
  }

  /**
    An UPDATE of a stored analysis that keeps its written columns is accepted exactly when the row it puts
    leaves integrity, and then it stores that row and touches nothing else.
   */
  lemma AnalysesMayChangeAroundTheRecord(t: Tables, id: Id, row: Analysis)
    requires Integrity(t) && id in t.analyses
    requires forall c ::
               c in t.analyses[id].record && t.analyses[id].record[c].Some? ==>
                 row.record[c] == t.analyses[id].record[c]
    ensures var s := OnAnalyses(Update(id, row));
            var put := t.(analyses := t.analyses[id := row]);
            && (Refused(t, s) <==> !Integrity(put))
            && Apply(t, s) == if Integrity(put) then put else t
  {
    hide Integrity, Refused, Carry;
    var s := OnAnalyses(Update(id, row));
    RefusedIff(t, s);
    CarryOfAnUpdate(t, id, row);
    assert !OverwritesARecord(t, s) && !ReusesAnId(t, s) && !UpdatesAnAppendOnlyRow(t, s);
    hide OverwritesARecord, ReusesAnId, UpdatesAnAppendOnlyRow;
  }

  lemma CarryOfAnUpdate(t: Tables, id: Id, row: Analysis)
    requires id in t.analyses
    ensures Carry(t, OnAnalyses(Update(id, row))) == t.(analyses := t.analyses[id := row])
  {
  }

  /** Moving an analysis on to another unfinished state, its record and keys as they were, is always allowed. */
  lemma AnalysesMayMoveOn(t: Tables, id: Id, status: string)
    requires Integrity(t) && id in t.analyses && t.analyses[id].status != "failed"
    requires status in {"created", "uploading", "uploaded", "identifying", "awaiting_confirmation", "analyzing",
                        "calculating"}
    requires t.analyses[id].completedAt.None?
    ensures var row := t.analyses[id].(status := status);
            Apply(t, OnAnalyses(Update(id, row))) == t.(analyses := t.analyses[id := row])
  {
    var row := t.analyses[id].(status := status);
    MovingOnPasses(t, id, status);
    PutAnalysis(t.sessions.Keys, t.cards.Keys, t.snapshots.Keys, t.configurations.Keys, t.analyses, id, row);
    AnalysisComes(t, id, row);
    assert Integrity(t.(analyses := t.analyses[id := row])) by {
      hide SetsHold, CardsHold, LinksHold, SessionsHold, AnalysesHold, PhotographsHold, ProvidersHold, SnapshotsHold,
        ObservationsHold, ConfigurationsHold, RatesHold, ReferrersHold, AnalysisChecks, AnalysisKeysHold;
    }
    hide Integrity, Apply, AnalysisChecks, AnalysisKeysHold;
    AnalysesMayChangeAroundTheRecord(t, id, row);
  }

  lemma MovingOnPasses(t: Tables, id: Id, status: string)
    requires Integrity(t) && id in t.analyses && t.analyses[id].status != "failed"
    requires status in {"created", "uploading", "uploaded", "identifying", "awaiting_confirmation", "analyzing",
                        "calculating"}
    requires t.analyses[id].completedAt.None?
    ensures AnalysesHold(t.sessions.Keys, t.cards.Keys, t.snapshots.Keys, t.configurations.Keys, t.analyses)
    ensures AnalysisChecks(t.analyses[id].(status := status))
    ensures AnalysisKeysHold(t.sessions.Keys, t.cards.Keys, t.snapshots.Keys, t.configurations.Keys,
                             t.analyses[id].(status := status))
  {
    hide SetsHold, CardsHold, LinksHold, SessionsHold, PhotographsHold, ProvidersHold, SnapshotsHold, ObservationsHold,
      ConfigurationsHold, RatesHold, ReferrersHold;
    AnalysisChecksMean(t.analyses[id]);
    AnalysisChecksMean(t.analyses[id].(status := status));
    UnfinishedIsNotFailed(status);
    hide AnalysisChecks;
  }

  lemma UnfinishedIsNotFailed(status: string)
    requires status in {"created", "uploading", "uploaded", "identifying", "awaiting_confirmation", "analyzing",
                        "calculating"}
    ensures status != "failed"
  {
    assert |"failed"| == 6;
    assert status[0] != 'f';
  }

  // ----- What each CHECK admits, its vocabulary spelled out, without NULL logic

  lemma SessionChecksMean(s: Session)
    ensures SessionChecks(s) <==> s.status in {"active", "expired", "purged"} && s.createdAt < s.expiresAt
  {
  }

  lemma AnalysisChecksMean(a: Analysis)
    ensures AnalysisChecks(a)
            <==>
              && a.status in {"created", "uploading", "uploaded", "identifying", "awaiting_confirmation",
                              "analyzing", "calculating", "completed", "failed"}
              && (a.completedAt.Some? ==> a.status == "completed" || a.status == "failed")
              && (if a.status == "failed" then
                    && a.failureCode in {Some("image_quality_failure"), Some("analysis_failed")}
                    && a.failureReason in {Some("unusable_photograph"), Some("catalog_unavailable"),
                                           Some("grading_rules_unavailable"), Some("image_store_unavailable"),
                                           Some("model_failed"), Some("job_dead_lettered"), Some("timed_out"),
                                           Some("stalled")}
                  else a.failureCode.None? && a.failureReason.None?)
  {
    FailureCodesAre(a.failureCode);
    FailureReasonsAre(a.failureReason);
    hide FAILURE_CODES, FAILURE_REASONS;
  }

  lemma FailureCodesAre(code: Option<string>)
    ensures code.Some? ==>
              (code.value in FAILURE_CODES <==> code in {Some("image_quality_failure"), Some("analysis_failed")})
    ensures code.None? ==> code !in {Some("image_quality_failure"), Some("analysis_failed")}
  {
  }

  lemma FailureReasonsAre(reason: Option<string>)
    ensures var known := {Some("unusable_photograph"), Some("catalog_unavailable"),
                          Some("grading_rules_unavailable"), Some("image_store_unavailable"), Some("model_failed"),
                          Some("job_dead_lettered"), Some("timed_out"), Some("stalled")};
            && (reason.Some? ==> (reason.value in FAILURE_REASONS <==> reason in known))
            && (reason.None? ==> reason !in known)
  {
  }

  lemma PhotographChecksMean(p: Photograph)
    ensures PhotographChecks(p)
            <==>
              && p.side in {"front", "back", "angled_front", "angled_back", "surface_front", "surface_back"}
              && |p.sha256| == 64
              && (forall i :: 0 <= i < 64 ==> '0' <= p.sha256[i] <= '9' || 'a' <= p.sha256[i] <= 'f')
              && (p.quality.Some? ==> p.quality.value in {"good", "acceptable", "poor", "unusable"})
              && (p.width.Some? ==> p.width.value > 0)
              && (p.height.Some? ==> p.height.value > 0)
              && (p.qualityScore.Some? ==> 0.0 <= p.qualityScore.value <= 1.0)
  {
  }

  lemma ObservationChecksMean(o: Observation)
    ensures ObservationChecks(o)
            <==>
              && (o.company.Some? <==> o.grade.Some?)
              && (o.company.Some? ==> o.company.value in {"psa", "tag", "bgs"})
              && (o.grade.Some? ==> IsGradeKey(o.grade.value))
              && |o.currency| == 3 && (forall i :: 0 <= i < 3 ==> 'A' <= o.currency[i] <= 'Z')
              && o.cents >= 0 && o.centsSgd >= 0 && 0.0 <= o.confidence <= 1.0
              && (if o.currency == "SGD" then o.rate.None? && o.centsSgd == o.cents else o.rate.Some?)
  {
    hide IsGradeKey;
  }

  predicate IsDigit(c: char) {
    '0' <= c <= '9'
  }

  /** A grade key is a grade, alone or as the end of a band: `10`, or a digit with or without a half. */
  lemma GradeKeysAre(s: string)
    ensures IsGradeKey(s) <==>
              exists grade, band ::
                && s == grade + band && band in {"", "_or_lower", "_or_higher"}
                && (|| grade == "10"
                    || (|grade| == 1 && IsDigit(grade[0]))
                    || (|grade| == 3 && IsDigit(grade[0]) && grade[1..] == ".5"))
  {
    if IsGradeKey(s) {
      var grade, band := GradeAndBand(s);
      GradeNumbersAre(grade);
    }
    forall grade, band |
      && s == grade + band && band in {"", "_or_lower", "_or_higher"}
      && (|| grade == "10"
          || (|grade| == 1 && IsDigit(grade[0]))
          || (|grade| == 3 && IsDigit(grade[0]) && grade[1..] == ".5"))
      ensures IsGradeKey(s)
    {
      GradeNumbersAre(grade);
      GradeWithBand(grade, band);
    }
    hide IsGradeKey, IsGradeNumber;
  }

  lemma GradeAndBand(s: string) returns (grade: string, band: string)
    requires IsGradeKey(s)
    ensures s == grade + band && band in {"", "_or_lower", "_or_higher"} && IsGradeNumber(grade)
  {
    hide IsGradeNumber;
    if IsGradeNumber(s) {
      grade, band := s, "";
    } else if EndsWith(s, "_or_lower") && IsGradeNumber(s[..|s| - 9]) {
      grade, band := s[..|s| - 9], "_or_lower";
    } else {
      grade, band := s[..|s| - 10], "_or_higher";
    }
  }

  lemma GradeWithBand(grade: string, band: string)
    requires IsGradeNumber(grade) && band in {"", "_or_lower", "_or_higher"}
    ensures IsGradeKey(grade + band)
  {
    hide IsGradeNumber;
    var s := grade + band;
    assert s[..|grade|] == grade && s[|grade|..] == band;
    if band == "_or_lower" {
      assert |s| - 9 == |grade| && EndsWith(s, "_or_lower");
    } else if band == "_or_higher" {
      assert |s| - 10 == |grade| && EndsWith(s, "_or_higher");
    } else {
      assert s == grade;
    }
  }

  lemma GradeNumbersAre(s: string)
    ensures IsGradeNumber(s)
            <==>
              || s == "10"
              || (|s| == 1 && IsDigit(s[0]))
              || (|s| == 3 && IsDigit(s[0]) && s[1..] == ".5")
  {
  }

  predicate IsWord(s: string) {
    s != "" && forall i :: 0 <= i < |s| ==> 'a' <= s[i] <= 'z' || '0' <= s[i] <= '9'
  }

  /** The words with a hyphen between each two. */
  function Hyphenated(words: seq<string>): string
    requires words != []
  {
    if |words| == 1 then words[0] else words[0] + "-" + Hyphenated(words[1..])
  }

  /** A slug is words joined by single hyphens. */
  lemma SlugsAreHyphenatedWords(s: string)
    ensures IsSlug(s) <==>
              exists words :: words != [] && (forall i :: 0 <= i < |words| ==> IsWord(words[i]))
                  && s == Hyphenated(words)
  {
    if IsSlug(s) {
      var words := WordsOf(s);
    }
    forall words | words != [] && (forall i :: 0 <= i < |words| ==> IsWord(words[i])) && s == Hyphenated(words)
      ensures IsSlug(s)
    {
      HyphenatedIsASlug(words);
    }
  }

  lemma {:induction false} WordsOf(s: string) returns (words: seq<string>)
    requires IsSlug(s)
    ensures words != [] && (forall i :: 0 <= i < |words| ==> IsWord(words[i])) && s == Hyphenated(words)
    decreases |s|
  {
    if i :| 0 <= i < |s| && s[i] == '-' && forall j :: 0 <= j < i ==> s[j] != '-' {
      assert s[i + 1] != '-';
      var tail := s[i + 1..];
      forall k | 0 < k < |tail| ensures tail[k - 1] != '-' || tail[k] != '-' {
        assert tail[k - 1] == s[i + k] && tail[k] == s[i + k + 1];
      }
      var rest := WordsOf(s[i + 1..]);
      words := [s[..i]] + rest;
      assert words[1..] == rest;
      assert s == s[..i] + "-" + s[i + 1..];
    } else {
      FirstHyphen(s, |s|);
      words := [s];
    }
  }

  /** Without a first hyphen there is none. */
  lemma {:induction false} FirstHyphen(s: string, n: nat)
    requires n <= |s|
    requires !exists i :: 0 <= i < |s| && s[i] == '-' && forall j :: 0 <= j < i ==> s[j] != '-'
    ensures forall j :: 0 <= j < n ==> s[j] != '-'
  {
    if n > 0 {
      FirstHyphen(s, n - 1);
    }
  }

  lemma {:induction false} HyphenatedIsASlug(words: seq<string>)
    requires words != [] && forall i :: 0 <= i < |words| ==> IsWord(words[i])
    ensures IsSlug(Hyphenated(words))
    decreases |words|
  {
    if |words| > 1 {
      HyphenatedIsASlug(words[1..]);
      JoinedByAHyphen(words[0], Hyphenated(words[1..]));
    }
  }

  lemma JoinedByAHyphen(word: string, slug: string)
    requires IsWord(word) && IsSlug(slug)
    ensures IsSlug(word + "-" + slug)
  {
    var s, n := word + "-" + slug, |word|;
    assert forall i :: 0 <= i < n ==> s[i] == word[i];
    assert s[n] == '-';
    assert forall i :: n < i < |s| ==> s[i] == slug[i - n - 1];
  }

  lemma RateChecksMean(r: ExchangeRate)
    ensures RateChecks(r)
            <==>
              && |r.base| == 3 && (forall i :: 0 <= i < 3 ==> 'A' <= r.base[i] <= 'Z')
              && r.quote == "SGD" && r.rate > 0.0
  {
  }

  /** Every amount but the acquisition cost must be there; amounts are not negative, shares lie in [0, 1]. */
  lemma ConfigurationChecksMean(c: Configuration)
    ensures ConfigurationChecks(c)
            <==>
              && c.currency == "SGD" && c.companies != [] && 0.0 <= c.sellingFeeRate <= 1.0
              && (c.acquisitionCost.Some? ==> c.acquisitionCost.value >= 0)
              && c.costs.Keys == {GradingFee, OutboundShipping, ReturnShipping, Insurance, Miscellaneous,
                                  SellingFeeFlat, MinimumProfit}
              && (forall k :: k in c.costs ==> c.costs[k] >= 0)
              && c.thresholds.Keys == {ImageQuality, GradeConfidence, FigureConfidence, UnpricedProbability}
              && (forall k :: k in c.thresholds ==> 0.0 <= c.thresholds[k] <= 1.0)
  {
    CostsAre(c.costs.Keys);
    ThresholdsAre(c.thresholds.Keys);
  }

  lemma CostsAre(costs: set<Cost>)
    ensures (forall k: Cost :: k in costs)
            <==> costs == {GradingFee, OutboundShipping, ReturnShipping, Insurance, Miscellaneous, SellingFeeFlat,
                           MinimumProfit}
  {
    var all := {GradingFee, OutboundShipping, ReturnShipping, Insurance, Miscellaneous, SellingFeeFlat, MinimumProfit};
    forall k: Cost ensures k in all {
      assert k.GradingFee? || k.OutboundShipping? || k.ReturnShipping? || k.Insurance? || k.Miscellaneous?
             || k.SellingFeeFlat? || k.MinimumProfit?;
    }
  }

  lemma ThresholdsAre(thresholds: set<Threshold>)
    ensures (forall k: Threshold :: k in thresholds)
            <==> thresholds == {ImageQuality, GradeConfidence, FigureConfidence, UnpricedProbability}
  {
    var all := {ImageQuality, GradeConfidence, FigureConfidence, UnpricedProbability};
    forall k: Threshold ensures k in all {
      assert k.ImageQuality? || k.GradeConfidence? || k.FigureConfidence? || k.UnpricedProbability?;
    }
  }

  lemma ApplyKeepsIntegrity(t: Tables, s: Statement)
    requires Integrity(t)
    ensures Integrity(Apply(t, s))
  {
    hide Integrity, Carry, Violates, Stopped;
    if !Refused(t, s) {
      GuardsAreExact(t, s);
    }
  }

  /** Whatever is inserted, updated or deleted, in whatever order. */
  lemma {:induction false} EveryRunKeepsIntegrity(t: Tables, statements: seq<Statement>)
    requires Integrity(t)
    ensures Integrity(Run(t, statements))
    decreases |statements|
  {
    if statements != [] {
      ApplyKeepsIntegrity(t, statements[0]);
      hide Integrity, Apply;
      EveryRunKeepsIntegrity(Apply(t, statements[0]), statements[1..]);
    }
  }

  // ----- What integrity gives in every reachable state

  lemma ReachableHasIntegrity(statements: seq<Statement>)
    ensures Integrity(Run(EMPTY, statements))
  {
    hide Run;
    EveryRunKeepsIntegrity(EMPTY, statements);
  }

  /** A card's game and language are its set's, whatever has been loaded, corrected or deleted. */
  lemma CardsMatchTheirSets(statements: seq<Statement>, id: Id)
    requires id in Run(EMPTY, statements).cards
    ensures var t := Run(EMPTY, statements);
            var card := t.cards[id];
            card.set_ in t.sets && t.sets[card.set_].game == card.game && t.sets[card.set_].language == card.language
  {
    ReachableHasIntegrity(statements);
    hide Run, SetsHold, LinksHold, SessionsHold, AnalysesHold, PhotographsHold, ProvidersHold, SnapshotsHold,
      ObservationsHold, ConfigurationsHold, RatesHold, ReferrersHold, SamePrinting;
  }

  /** A printing is stored once, with a variant or without one. */
  lemma PrintingsAreStoredOnce(statements: seq<Statement>, a: Id, b: Id)
    requires a in Run(EMPTY, statements).cards && b in Run(EMPTY, statements).cards
    requires SamePrinting(Run(EMPTY, statements).cards[a], Run(EMPTY, statements).cards[b])
    ensures a == b
  {
    ReachableHasIntegrity(statements);
    hide Run, SetsHold, LinksHold, SessionsHold, AnalysesHold, PhotographsHold, ProvidersHold, SnapshotsHold,
      ObservationsHold, ConfigurationsHold, RatesHold, ReferrersHold, SetKeyHolds, SamePrinting;
  }

  /** A card write judged by the constraint as it would be without `NULLS NOT DISTINCT`. */
  function ApplyByDefault(t: Tables, s: Statement): Tables {
    if s.OnCards? && !s.cards.Delete? then (if RefusedByDefault(t, s.cards) then t else Carry(t, s)) else Apply(t, s)
  }

  predicate RefusedByDefault(t: Tables, w: Write<Card>)
    requires !w.Delete?
  {
    || KeyTaken(t.cards, w)
    || (Puts(t.cards, w) && (!SetKeyHolds(t.sets, w.row) || PrintingTakenByDefault(t.cards, w.row, w.id)))
  }

  predicate PrintingTakenByDefault(cards: map<Id, Card>, row: Card, own: Id) {
    exists i :: i in cards && i != own && SamePrintingByDefault(cards[i], row)
  }

  function RunByDefault(t: Tables, statements: seq<Statement>): Tables
    decreases |statements|
  {
    if statements == [] then t else RunByDefault(ApplyByDefault(t, statements[0]), statements[1..])
  }

  ghost predicate NamedVariantsApart(cards: map<Id, Card>) {
    forall a, b :: a in cards && b in cards && a != b ==> !SamePrintingByDefault(cards[a], cards[b])
  }

  /** The default would still keep apart the printings that name a variant. */
  lemma {:induction false} OnlyVariantlessPrintingsRepeat(t: Tables, statements: seq<Statement>)
    requires NamedVariantsApart(t.cards)
    ensures NamedVariantsApart(RunByDefault(t, statements).cards)
    decreases |statements|
  {
    if statements != [] {
      StepKeepsNamedVariantsApart(t, statements[0]);
      OnlyVariantlessPrintingsRepeat(ApplyByDefault(t, statements[0]), statements[1..]);
    }
  }

  lemma StepKeepsNamedVariantsApart(t: Tables, s: Statement)
    requires NamedVariantsApart(t.cards)
    ensures NamedVariantsApart(ApplyByDefault(t, s).cards)
  {
    if s.OnCards? {
      CardsAfterByDefault(t, s.cards);
      hide ApplyByDefault;
    } else {
      OthersLeaveCardsAlone(t, s);
      hide Apply;
    }
  }

  lemma CardsAfterByDefault(t: Tables, w: Write<Card>)
    requires NamedVariantsApart(t.cards)
    ensures NamedVariantsApart(ApplyByDefault(t, OnCards(w)).cards)
  {
    AcceptedByDefault(t, w);
    hide ApplyByDefault;
    assert NamedVariantsApart(t.cards - {w.id});
    if Puts(t.cards, w) && !PrintingTakenByDefault(t.cards, w.row, w.id) {
      PutNamedVariant(t.cards, w.id, w.row);
    }
    hide NamedVariantsApart;
  }

  lemma AcceptedByDefault(t: Tables, w: Write<Card>)
    ensures var after := ApplyByDefault(t, OnCards(w)).cards;
            || after == t.cards
            || (after == Written(t.cards, w) && (Puts(t.cards, w) ==> !PrintingTakenByDefault(t.cards, w.row, w.id)))
  {
    hide Refused, KeyTaken, SetKeyHolds, PrintingTakenByDefault, WithoutLinksTo, Written;
  }

  lemma PutNamedVariant(cards: map<Id, Card>, id: Id, row: Card)
    requires NamedVariantsApart(cards) && !PrintingTakenByDefault(cards, row, id)
    ensures NamedVariantsApart(cards[id := row])
  {
    var after := cards[id := row];
    forall a, b | a in after && b in after && a != b ensures !SamePrintingByDefault(after[a], after[b]) {
      assert a in cards && a != id ==> !SamePrintingByDefault(cards[a], row);
      assert b in cards && b != id ==> !SamePrintingByDefault(cards[b], row);
    }
  }

  lemma OthersLeaveTrainingImagesAlone(t: Tables, s: Statement)
    requires !s.OnTrainingImages?
    ensures Apply(t, s).referrers.trainingImages == t.referrers.trainingImages
  {
    hide Refused, Written, CarryCards, CarrySessions, CarryAnalyses;
  }

  lemma OthersLeaveCardsAlone(t: Tables, s: Statement)
    requires !s.OnCards?
    ensures Apply(t, s).cards == t.cards
  {
    hide Refused, Written, CarryCards, CarrySessions, CarryAnalyses;
  }

  /** And without a variant it would not: the same card goes in twice. */
  lemma WithoutNullsNotDistinctACardRepeats()
    ensures var card := Card("base", "pokemon", "en", "4/102", None);
            var run := [OnSets(Insert("base", CardSet("pokemon", "en", "BS"))),
                        OnCards(Insert("first", card)), OnCards(Insert("second", card))];
            RunByDefault(EMPTY, run).cards == map["first" := card, "second" := card]
  {
    var cardSet := CardSet("pokemon", "en", "BS");
    var card := Card("base", "pokemon", "en", "4/102", None);
    var one, two := OnSets(Insert("base", cardSet)), OnCards(Insert("first", card));
    var three := OnCards(Insert("second", card));
    var t1 := EMPTY.(sets := map["base" := cardSet]);
    assert ApplyByDefault(EMPTY, one) == t1;
    VariantlessCardGoesIn(t1, "first", card);
    assert |"first"| == 5 && |"second"| == 6;
    VariantlessCardGoesIn(t1.(cards := map["first" := card]), "second", card);
    hide ApplyByDefault;
    assert [one, two, three][1..] == [two, three] && [two, three][1..] == [three] && [three][1..] == [];
    assert RunByDefault(t1, [two, three]) == RunByDefault(ApplyByDefault(t1, two), [three]);
  }

  /** Judged by the default, a card without a variant goes in whatever is stored already. */
  lemma VariantlessCardGoesIn(t: Tables, id: Id, card: Card)
    requires card.variant.None? && SetKeyHolds(t.sets, card) && id !in t.cards
    ensures ApplyByDefault(t, OnCards(Insert(id, card))) == t.(cards := t.cards[id := card])
  {
    assert !PrintingTakenByDefault(t.cards, card, id);
  }

  /**
    `market_type` says 'graded' of exactly the stored prices that carry both a company and a grade, 'raw' of
    those with neither.
   */
  lemma MarketTypeIsNeverWrong(statements: seq<Statement>, id: Id)
    requires id in Run(EMPTY, statements).observations
    ensures var o := Run(EMPTY, statements).observations[id];
            && (MarketType(o) == "graded" <==> o.company.Some? && o.grade.Some?)
            && (MarketType(o) == "raw" <==> o.company.None? && o.grade.None?)
  {
    ReachableHasIntegrity(statements);
    CheckedPricesArePaired(Run(EMPTY, statements).observations[id]);
    hide Run, SetsHold, CardsHold, LinksHold, SessionsHold, AnalysesHold, PhotographsHold, ProvidersHold, SnapshotsHold,
      ConfigurationsHold, RatesHold, ReferrersHold, ObservationChecks, ObservationKeysHold, MarketType;
  }

  lemma CheckedPricesArePaired(o: Observation)
    ensures ObservationChecks(o) ==>
              && (MarketType(o) == "graded" <==> o.company.Some? && o.grade.Some?)
              && (MarketType(o) == "raw" <==> o.company.None? && o.grade.None?)
  {
    hide OtherObservationChecks;
    assert |"raw"| == 3 && |"graded"| == 6;
  }

  /** The pairing CHECK is what the generated column rests on: with it dropped, a 'graded' price may have no grade. */
  lemma WithoutPairingAGradedPriceMayLackAGrade()
    ensures var o := Observation("card", "provider", Some("psa"), None, "USD", 100, 130, Some("rate"), 0.5);
            !Passes(PairingCheck(o)) && OtherObservationChecks(o) && MarketType(o) == "graded" && o.grade.None?
  {
  }

  function PhotographsOf(t: Tables, analysis: Id): set<Id> {
    set p | p in t.photographs && t.photographs[p].analysis == analysis
  }

  /** One photograph a side, so no analysis ever has more than six. */
  lemma AtMostSixPhotographs(statements: seq<Statement>, analysis: Id)
    ensures |PhotographsOf(Run(EMPTY, statements), analysis)| <= 6
  {
    ReachableHasIntegrity(statements);
    var t := Run(EMPTY, statements);
    hide Run, SetsHold, CardsHold, LinksHold, SessionsHold, AnalysesHold, ProvidersHold, SnapshotsHold,
      ObservationsHold, ConfigurationsHold, RatesHold, ReferrersHold, SameSide, IsHex;
    assert |SIDES| <= 6;
    PhotographsFitTheSides(t.analyses.Keys, t.photographs, analysis, PhotographsOf(t, analysis), SIDES);
  }

  lemma {:induction false} PhotographsFitTheSides(analyses: set<Id>, photographs: map<Id, Photograph>, analysis: Id,
                                                  some: set<Id>, sides: set<string>)
    requires PhotographsHold(analyses, photographs)
    requires forall p ::
               p in some ==>
                 p in photographs && photographs[p].analysis == analysis && photographs[p].side in sides
    ensures |some| <= |sides|
  {
    hide PhotographChecks;
    if some != {} {
      var p :| p in some;
      var side := photographs[p].side;
      forall q | q in some - {p} ensures photographs[q].side in sides - {side} {
        assert !SameSide(photographs[q], photographs[p]);
      }
      PhotographsFitTheSides(analyses, photographs, analysis, some - {p}, sides - {side});
    }
  }

  // ----- Deleting

  /** Every row of `a` is a row of `b`. */
  ghost predicate Rows<T(!new)>(a: map<Id, T>, b: map<Id, T>) {
    forall i :: i in a ==> i in b && a[i] == b[i]
  }

  ghost predicate Within(a: Tables, b: Tables) {
    && Rows(a.sets, b.sets) && Rows(a.cards, b.cards) && Rows(a.externalIds, b.externalIds)
    && Rows(a.sessions, b.sessions) && Rows(a.analyses, b.analyses) && Rows(a.photographs, b.photographs)
    && Rows(a.providers, b.providers) && Rows(a.snapshots, b.snapshots)
    && Rows(a.rates, b.rates) && Rows(a.observations, b.observations) && Rows(a.configurations, b.configurations)
    && Rows(a.referrers.trainingImages, b.referrers.trainingImages) && Rows(a.referrers.feedback, b.referrers.feedback)
    && Rows(a.referrers.quarantine, b.referrers.quarantine) && Rows(a.referrers.runs, b.referrers.runs)
  }

  predicate Deletes(s: Statement) {
    match s
    case OnSets(w) => w.Delete?
    case OnCards(w) => w.Delete?
    case OnExternalIds(w) => w.Delete?
    case OnSessions(w) => w.Delete?
    case OnAnalyses(w) => w.Delete?
    case OnPhotographs(w) => w.Delete?
    case OnProviders(w) => w.Delete?
    case OnSnapshots(w) => w.Delete?
    case OnRates(w) => w.Delete?
    case OnObservations(w) => w.Delete?
    case OnConfigurations(w) => w.Delete?
    case OnTrainingImages(w) => w.Delete?
    case OnFeedback(w) => w.Delete?
    case OnQuarantine(w) => w.Delete?
    case OnRuns(w) => w.Delete?
  }

  /** The row the statement deletes is not there. */
  predicate Gone(t: Tables, s: Statement)
    requires Deletes(s)
  {
    match s
    case OnSets(w) => w.id !in t.sets
    case OnCards(w) => w.id !in t.cards
    case OnExternalIds(w) => w.id !in t.externalIds
    case OnSessions(w) => w.id !in t.sessions
    case OnAnalyses(w) => w.id !in t.analyses
    case OnPhotographs(w) => w.id !in t.photographs
    case OnProviders(w) => w.id !in t.providers
    case OnSnapshots(w) => w.id !in t.snapshots
    case OnRates(w) => w.id !in t.rates
    case OnObservations(w) => w.id !in t.observations
    case OnConfigurations(w) => w.id !in t.configurations
    case OnTrainingImages(w) => w.id !in t.referrers.trainingImages
    case OnFeedback(w) => w.id !in t.referrers.feedback
    case OnQuarantine(w) => w.id !in t.referrers.quarantine
    case OnRuns(w) => w.id !in t.referrers.runs
  }

  /**
    A DELETE removes its row and never more than it must: any part of the database that has integrity and
    lacks the row is still there afterwards. With `GuardsAreExact`, what an accepted DELETE leaves is the
    largest such part.
   */
  lemma DeletesRemoveTheLeast(t: Tables, s: Statement, other: Tables)
    requires Deletes(s)
    requires Integrity(other) && Within(other, t) && Gone(other, s)
    ensures var after := Carry(t, s);
            Gone(after, s) && Within(after, t) && Within(other, after)
  {
    WithinItself(t);
    hide Integrity, Rows;
    match s
    case OnSets(w) => RowsWithout(other.sets, t.sets, w.id);
    case OnCards(w) => CardDeleteRemovesTheLeast(t, w.id, other);
    case OnExternalIds(w) => RowsWithout(other.externalIds, t.externalIds, w.id);
    case OnSessions(w) => SessionDeleteRemovesTheLeast(t, w.id, other);
    case OnAnalyses(w) => AnalysisDeleteRemovesTheLeast(t, w.id, other);
    case OnPhotographs(w) => RowsWithout(other.photographs, t.photographs, w.id);
    case OnProviders(w) => RowsWithout(other.providers, t.providers, w.id);
    case OnSnapshots(w) => RowsWithout(other.snapshots, t.snapshots, w.id);
    case OnRates(w) => RowsWithout(other.rates, t.rates, w.id);
    case OnObservations(w) => RowsWithout(other.observations, t.observations, w.id);
    case OnConfigurations(w) => RowsWithout(other.configurations, t.configurations, w.id);
    case OnTrainingImages(w) => RowsWithout(other.referrers.trainingImages, t.referrers.trainingImages, w.id);
    case OnFeedback(w) => RowsWithout(other.referrers.feedback, t.referrers.feedback, w.id);
    case OnQuarantine(w) => RowsWithout(other.referrers.quarantine, t.referrers.quarantine, w.id);
    case OnRuns(w) => RowsWithout(other.referrers.runs, t.referrers.runs, w.id);
  }

  lemma WithinItself(t: Tables)
    ensures Within(t, t)
  {
  }

  lemma RowsWithout<T(!new)>(others: map<Id, T>, table: map<Id, T>, id: Id)
    requires Rows(others, table) && id !in others
    ensures Rows(others, table - {id}) && Rows(table - {id}, table)
  {
  }

  lemma CascadeSparesAnalyses(others: map<Id, Analysis>, analyses: map<Id, Analysis>, session: Id)
    requires Rows(others, analyses) && forall a :: a in others ==> others[a].session != session
    ensures Rows(others, WithoutAnalysesOf(analyses, session)) && Rows(WithoutAnalysesOf(analyses, session), analyses)
  {
  }

  lemma CascadeSparesPhotographs(others: map<Id, Photograph>, photographs: map<Id, Photograph>, gone: set<Id>)
    requires Rows(others, photographs) && forall p :: p in others ==> others[p].analysis !in gone
    ensures Rows(others, WithoutPhotographsOf(photographs, gone))
            && Rows(WithoutPhotographsOf(photographs, gone), photographs)
  {
  }

  lemma CascadeSparesLinks(others: map<Id, ExternalId>, links: map<Id, ExternalId>, card: Id)
    requires Rows(others, links) && forall i :: i in others ==> others[i].card != card
    ensures Rows(others, WithoutLinksTo(links, card)) && Rows(WithoutLinksTo(links, card), links)
  {
  }

  lemma SessionDeleteRemovesTheLeast(t: Tables, id: Id, other: Tables)
    requires Integrity(other) && Within(other, t) && id !in other.sessions
    ensures var after := Carry(t, OnSessions(Delete(id)));
            id !in after.sessions && Within(after, t) && Within(other, after)
  {
    hide Integrity, WithoutPhotographsOf;
    WithinItself(t);
    RowsWithout(other.sessions, t.sessions, id);
    var kept := WithoutAnalysesOf(t.analyses, id);
    KeysOf(other);
    CascadeSparesAnalyses(other.analyses, t.analyses, id);
    assert forall a :: a in other.analyses ==> a in kept;
    CascadeSparesPhotographs(other.photographs, t.photographs, t.analyses.Keys - kept.Keys);
    hide Rows, WithoutAnalysesOf;
  }

  /** The keys the cascades follow. */
  lemma KeysOf(t: Tables)
    requires Integrity(t)
    ensures forall i :: i in t.externalIds ==> t.externalIds[i].card in t.cards
    ensures forall a :: a in t.analyses ==> t.analyses[a].session in t.sessions
    ensures forall p :: p in t.photographs ==> t.photographs[p].analysis in t.analyses
  {
    hide SetsHold, CardsHold, SessionsHold, ProvidersHold, SnapshotsHold, ObservationsHold, ConfigurationsHold,
      RatesHold, ReferrersHold, AnalysisChecks, PhotographChecks, SameSide;
  }

  lemma AnalysisDeleteRemovesTheLeast(t: Tables, id: Id, other: Tables)
    requires Integrity(other) && Within(other, t) && id !in other.analyses
    ensures var after := Carry(t, OnAnalyses(Delete(id)));
            id !in after.analyses && Within(after, t) && Within(other, after)
  {
    WithinItself(t);
    RowsWithout(other.analyses, t.analyses, id);
    KeysOf(other);
    hide Integrity;
    CascadeSparesPhotographs(other.photographs, t.photographs, {id});
    hide Rows, WithoutPhotographsOf;
  }

  lemma CardDeleteRemovesTheLeast(t: Tables, id: Id, other: Tables)
    requires Integrity(other) && Within(other, t) && id !in other.cards
    ensures var after := Carry(t, OnCards(Delete(id)));
            id !in after.cards && Within(after, t) && Within(other, after)
  {
    WithinItself(t);
    RowsWithout(other.cards, t.cards, id);
    KeysOf(other);
    hide Integrity;
    CascadeSparesLinks(other.externalIds, t.externalIds, id);
    hide Rows, WithoutLinksTo;
  }

  /**
    Expiring a session is always accepted and removes exactly the session, its analyses and their
    photographs; the catalog, the market and the configurations are untouched.
   */
  lemma DeletingASession(t: Tables, id: Id)
    requires Integrity(t)
    ensures var s := OnSessions(Delete(id));
            var after := Apply(t, s);
            && !Refused(t, s)
            && after.sessions == t.sessions - {id}
            && (forall a :: a in after.analyses <==> a in t.analyses && t.analyses[a].session != id)
            && (forall p :: p in after.photographs
                  <==> p in t.photographs && t.analyses[t.photographs[p].analysis].session != id)
            && Within(after, t)
            && after == t.(sessions := after.sessions, analyses := after.analyses, photographs := after.photographs)
  {
    SessionGoneExactly(t, id);
    WithoutSessionIsWithin(t, id);
    hide Integrity, Within, WithoutSession;
  }

  /** The photographs the cascade leaves are those of the analyses it leaves. */
  lemma CascadeLeaves(t: Tables, id: Id)
    requires Integrity(t)
    ensures var kept := WithoutAnalysesOf(t.analyses, id);
            var photographs := WithoutPhotographsOf(t.photographs, t.analyses.Keys - kept.Keys);
            && kept.Keys == (set a | a in t.analyses && t.analyses[a].session != id)
            && (forall a :: a in kept ==> kept[a] == t.analyses[a])
            && photographs.Keys == (set p | p in t.photographs && t.photographs[p].analysis in kept)
            && (forall p :: p in photographs ==> photographs[p] == t.photographs[p])
  {
    KeysOf(t);
    hide Integrity;
  }

  lemma CascadeFromAnAnalysis(photographs: map<Id, Photograph>, id: Id)
    ensures var left := WithoutPhotographsOf(photographs, {id});
            && left.Keys == (set p | p in photographs && photographs[p].analysis != id)
            && (forall p :: p in left ==> left[p] == photographs[p])
  {
  }

  lemma CascadeFromACard(links: map<Id, ExternalId>, id: Id)
    ensures var left := WithoutLinksTo(links, id);
            && left.Keys == (set i | i in links && links[i].card != id)
            && (forall i :: i in left ==> left[i] == links[i])
  {
  }

  lemma SessionGoneFrom(t: Tables, id: Id)
    ensures var kept := WithoutAnalysesOf(t.analyses, id);
            WithoutSession(t, id)
            == t.(sessions := t.sessions - {id}, analyses := kept,
                  photographs := WithoutPhotographsOf(t.photographs, t.analyses.Keys - kept.Keys))
  {
  }

  lemma NothingRestrictsASession(t: Tables, id: Id)
    ensures var s := OnSessions(Delete(id)); !Refused(t, s) && Apply(t, s) == WithoutSession(t, id)
  {
    hide WithoutSession;
  }

  lemma SessionGoneExactly(t: Tables, id: Id)
    requires Integrity(t)
    ensures var after := WithoutSession(t, id);
            && after.sessions == t.sessions - {id}
            && (forall a :: a in after.analyses <==> a in t.analyses && t.analyses[a].session != id)
            && (forall p :: p in after.photographs <==>
                  p in t.photographs && t.photographs[p].analysis in t.analyses
                  && t.analyses[t.photographs[p].analysis].session != id)
            && (forall p :: p in t.photographs ==> t.photographs[p].analysis in t.analyses)
            && after == t.(sessions := after.sessions, analyses := after.analyses, photographs := after.photographs)
  {
    KeysOf(t);
    hide Integrity;
  }

  lemma WithoutSessionIsWithin(t: Tables, id: Id)
    ensures Within(WithoutSession(t, id), t)
  {
    WithinItself(t);
    RowsWithout(map[], t.sessions, id);
    CascadeSparesAnalyses(map[], t.analyses, id);
    CascadeSparesPhotographs(map[], t.photographs, t.analyses.Keys - WithoutAnalysesOf(t.analyses, id).Keys);
    hide Rows, WithoutAnalysesOf, WithoutPhotographsOf;
  }

  /**
    A card goes, with its external ids and nothing else, exactly when no analysis, no price, no training
    image and no reported grade names it.
   */
  lemma DeletingACard(t: Tables, id: Id)
    ensures var s := OnCards(Delete(id));
            var after := Apply(t, s);
            && (Refused(t, s) <==>
                  || (exists a :: a in t.analyses && t.analyses[a].card == Some(id))
                  || (exists o :: o in t.observations && t.observations[o].card == id)
                  || (exists i :: i in t.referrers.trainingImages && t.referrers.trainingImages[i] == Some(id))
                  || (exists f :: f in t.referrers.feedback && t.referrers.feedback[f] == id))
            && (Refused(t, s) ==> after == t)
            && (!Refused(t, s) ==>
                  && after == t.(cards := t.cards - {id}, externalIds := after.externalIds)
                  && Rows(after.externalIds, t.externalIds)
                  && (forall i :: i in after.externalIds <==> i in t.externalIds && t.externalIds[i].card != id))
  {
    hide SamePrinting, SetKeyHolds;
  }

  /** In every reachable state an analysis says why it failed exactly when it failed, with a known code and reason. */
  lemma FailuresSayWhy(statements: seq<Statement>, id: Id)
    requires id in Run(EMPTY, statements).analyses
    ensures var a := Run(EMPTY, statements).analyses[id];
            && (a.status == "failed" <==> a.failureCode.Some?) && (a.status == "failed" <==> a.failureReason.Some?)
            && (a.status == "failed" ==>
                  a.failureCode.value in FAILURE_CODES && a.failureReason.value in FAILURE_REASONS)
  {
    ReachableHasIntegrity(statements);
    CheckedFailuresSayWhy(Run(EMPTY, statements).analyses[id]);
    hide Run, SetsHold, CardsHold, LinksHold, SessionsHold, PhotographsHold, ProvidersHold, SnapshotsHold,
      ObservationsHold, ConfigurationsHold, RatesHold, ReferrersHold, AnalysisChecks, AnalysisKeysHold;
  }

  lemma CheckedFailuresSayWhy(a: Analysis)
    ensures AnalysisChecks(a) ==>
              && (a.status == "failed" <==> a.failureCode.Some?) && (a.status == "failed" <==> a.failureReason.Some?)
              && (a.status == "failed" ==>
                    a.failureCode.value in FAILURE_CODES && a.failureReason.value in FAILURE_REASONS)
  {
  }

  /** In every reachable state a price in SGD stands as quoted and any other names the stored rate that converted it. */
  lemma ForeignPricesNameTheirRate(statements: seq<Statement>, id: Id)
    requires id in Run(EMPTY, statements).observations
    ensures var t := Run(EMPTY, statements);
            var o := t.observations[id];
            if o.currency == "SGD" then o.rate.None? && o.centsSgd == o.cents
            else o.rate.Some? && o.rate.value in t.rates && t.rates[o.rate.value].rate > 0.0
  {
    ReachableHasIntegrity(statements);
    var t := Run(EMPTY, statements);
    hide Run, SetsHold, CardsHold, LinksHold, SessionsHold, AnalysesHold, PhotographsHold, ProvidersHold, SnapshotsHold,
      ConfigurationsHold, ReferrersHold, ObservationChecks, SameDay, IsCurrencyCode;
    CheckedPricesAreConverted(t.observations[id]);
  }

  lemma CheckedPricesAreConverted(o: Observation)
    ensures ObservationChecks(o) ==>
              if o.currency == "SGD" then o.rate.None? && o.centsSgd == o.cents else o.rate.Some?
  {
    hide PairingCheck, IsGradeKey, MatchesGradeKey, IsCurrencyCode;
  }

  // ----- What an analysis names stays as it was

  /** The analysis is there now and after every statement of the run. */
  predicate StaysStored(t: Tables, statements: seq<Statement>, id: Id)
    decreases |statements|
  {
    id in t.analyses && (statements != [] ==> StaysStored(Apply(t, statements[0]), statements[1..], id))
  }

  /** The snapshot and its provider's licence, and the configuration, exactly as they were. */
  ghost predicate InputsKept(before: Tables, after: Tables, a: Analysis) {
    && (SnapshotOf(a).Some? ==> SnapshotKept(before, after, SnapshotOf(a).value))
    && (ConfigurationOf(a).Some? ==> ConfigurationKept(before, after, ConfigurationOf(a).value))
  }

  ghost predicate SnapshotKept(before: Tables, after: Tables, id: Id) {
    && id in before.snapshots && id in after.snapshots && after.snapshots[id] == before.snapshots[id]
    && before.snapshots[id].provider in before.providers && before.snapshots[id].provider in after.providers
    && after.providers[before.snapshots[id].provider] == before.providers[before.snapshots[id].provider]
  }

  ghost predicate ConfigurationKept(before: Tables, after: Tables, id: Id) {
    id in before.configurations && id in after.configurations && after.configurations[id] == before.configurations[id]
  }

  /**
    For as long as an analysis stays stored, every column written in its record keeps its value, and the
    market snapshot, the provider's terms and the economic configuration it names keep theirs, through any
    statements at all.
   */
  lemma {:induction false} AnalysesStayReproducible(t: Tables, statements: seq<Statement>, id: Id)
    requires Integrity(t) && StaysStored(t, statements, id)
    ensures var after := Run(t, statements);
            && id in after.analyses
            && ReproducibilityRecord.Extends(after.analyses[id].record, t.analyses[id].record)
            && InputsKept(t, after, t.analyses[id])
    decreases |statements|
  {
    hide Integrity, Apply;
    if statements == [] {
      InputsAreStored(t, id);
    } else {
      var next := Apply(t, statements[0]);
      ApplyKeepsIntegrity(t, statements[0]);
      StepKeepsTheRecord(t, statements[0], id);
      StepKeepsTheInputs(t, statements[0], id);
      AnalysesStayReproducible(next, statements[1..], id);
    }
  }

  lemma InputsAreStored(t: Tables, id: Id)
    requires Integrity(t) && id in t.analyses
    ensures InputsKept(t, t, t.analyses[id])
  {
    hide SetsHold, CardsHold, LinksHold, SessionsHold, PhotographsHold, ProvidersHold, ObservationsHold,
      ConfigurationsHold, RatesHold, ReferrersHold, AnalysisChecks;
    assert AnalysisKeysHold(t.sessions.Keys, t.cards.Keys, t.snapshots.Keys, t.configurations.Keys, t.analyses[id]);
  }

  lemma StepKeepsTheRecord(t: Tables, s: Statement, id: Id)
    requires id in t.analyses && id in Apply(t, s).analyses
    ensures ReproducibilityRecord.Extends(Apply(t, s).analyses[id].record, t.analyses[id].record)
  {
    AnalysesAfter(t, s);
    hide Apply, Violates;
    if s.OnAnalyses? && s.analyses.Update? && s.analyses.id == id && !Refused(t, s) {
      var held, written := t.analyses[id].record, s.analyses.row.record;
      assert ReproducibilityRecord.Assigned(held, written) == written;
    }
  }

  lemma AnalysesAfter(t: Tables, s: Statement)
    ensures var after := Apply(t, s).analyses;
            || after == t.analyses
            || (s.OnSessions? && s.sessions.Delete? && after == WithoutAnalysesOf(t.analyses, s.sessions.id))
            || (s.OnAnalyses? && !Refused(t, s) && after == Written(t.analyses, s.analyses))
  {
    hide Refused, Written, WithoutAnalysesOf, WithoutPhotographsOf, WithoutLinksTo;
    if !s.OnSessions? && !s.OnAnalyses? {
      OthersLeaveAnalysesAlone(t, s);
      hide Apply;
    }
  }

  lemma OthersLeaveAnalysesAlone(t: Tables, s: Statement)
    requires !s.OnSessions? && !s.OnAnalyses?
    ensures Apply(t, s).analyses == t.analyses
  {
    hide Refused, Written, WithoutLinksTo, CarrySessions, CarryAnalyses;
  }

  lemma InputsAfter(t: Tables, s: Statement)
    ensures var after := Apply(t, s);
            && (after.snapshots == t.snapshots
                || (s.OnSnapshots? && !Refused(t, s) && after.snapshots == Written(t.snapshots, s.snapshots)))
            && (after.providers == t.providers
                || (s.OnProviders? && !Refused(t, s) && after.providers == Written(t.providers, s.providers)))
            && (after.rates == t.rates || (s.OnRates? && !Refused(t, s) && after.rates == Written(t.rates, s.rates)))
            && (after.configurations == t.configurations
                || (s.OnConfigurations? && !Refused(t, s)
                    && after.configurations == Written(t.configurations, s.configurations)))
  {
    hide Refused, Written, CarryCards, CarrySessions, CarryAnalyses;
    if !s.OnSnapshots? && !s.OnProviders? && !s.OnRates? && !s.OnConfigurations? {
      OthersLeaveInputsAlone(t, s);
      hide Apply;
    }
  }

  lemma OthersLeaveInputsAlone(t: Tables, s: Statement)
    requires !s.OnSnapshots? && !s.OnProviders? && !s.OnRates? && !s.OnConfigurations?
    ensures var after := Apply(t, s);
            && after.snapshots == t.snapshots && after.providers == t.providers
            && after.rates == t.rates && after.configurations == t.configurations
  {
    hide Refused, Written, CarryCards, CarrySessions, CarryAnalyses;
  }

  /** RESTRICT and the append-only triggers: a named row is neither deleted nor rewritten. */
  lemma NamedRowsStay(t: Tables, s: Statement, id: Id)
    ensures id in t.snapshots && SnapshotNamed(t.analyses, id) ==>
              id in Apply(t, s).snapshots && Apply(t, s).snapshots[id] == t.snapshots[id]
    ensures id in t.providers && ProviderCut(t.snapshots, id) ==>
              id in Apply(t, s).providers && Apply(t, s).providers[id] == t.providers[id]
    ensures id in t.rates && RateUsed(t.observations, id) ==>
              id in Apply(t, s).rates && Apply(t, s).rates[id] == t.rates[id]
    ensures id in t.configurations && ConfigurationNamed(t.analyses, id) ==>
              id in Apply(t, s).configurations && Apply(t, s).configurations[id] == t.configurations[id]
  {
    InputsAfter(t, s);
    hide Apply, SnapshotNamed, ProviderCut, ConfigurationNamed, ProviderPriced, ProviderReferred, SnapshotReferred,
      RateUsed, ConfigurationChecks, RateChecks, RateTaken, IsSlug, ProviderTaken, SetsViolate, CardsViolate,
      ExternalIdsViolate, SessionsViolate, AnalysesViolate, PhotographsViolate, ObservationsViolate,
      TrainingImagesViolate, FeedbackViolates, QuarantineViolates, RunsViolate;
  }

  lemma StepKeepsTheInputs(t: Tables, s: Statement, id: Id)
    requires Integrity(t) && id in t.analyses
    ensures InputsKept(t, Apply(t, s), t.analyses[id])
  {
    InputsAreStored(t, id);
    hide Integrity, Apply;
    var a := t.analyses[id];
    if SnapshotOf(a).Some? {
      assert SnapshotNamed(t.analyses, SnapshotOf(a).value);
      StepKeepsTheSnapshot(t, s, SnapshotOf(a).value);
    }
    if ConfigurationOf(a).Some? {
      assert ConfigurationNamed(t.analyses, ConfigurationOf(a).value);
      NamedRowsStay(t, s, ConfigurationOf(a).value);
    }
    hide SnapshotKept, SnapshotNamed, ConfigurationNamed, ProviderCut;
  }

  lemma StepKeepsTheSnapshot(t: Tables, s: Statement, id: Id)
    requires SnapshotNamed(t.analyses, id) && SnapshotKept(t, t, id)
    ensures SnapshotKept(t, Apply(t, s), id)
  {
    hide Apply, SnapshotNamed;
    NamedRowsStay(t, s, id);
    assert ProviderCut(t.snapshots, t.snapshots[id].provider);
    NamedRowsStay(t, s, t.snapshots[id].provider);
  }

  // ----- The statements on each table, those that cascade first

  lemma OnACard(t: Tables, w: Write<Card>)
    ensures Refused(t, OnCards(w)) <==> KeyTaken(t.cards, w) || CardsViolate(t, w)
    ensures CarryCards(t, w)
            == t.(cards := Written(t.cards, w),
                  externalIds := if w.Delete? then WithoutLinksTo(t.externalIds, w.id) else t.externalIds)
    ensures Apply(t, OnCards(w)) == if Refused(t, OnCards(w)) then t else CarryCards(t, w)
  {
    hide Written, KeyTaken, CardsViolate, WithoutLinksTo;
  }

  lemma CardsViolateIff(t: Tables, w: Write<Card>)
    ensures CardsViolate(t, w) <==>
              || (!w.Delete? && (w.Insert? || w.id in t.cards)
                  && !(&& w.row.set_ in t.sets && t.sets[w.row.set_].game == w.row.game
                       && t.sets[w.row.set_].language == w.row.language))
              || (!w.Delete? && (w.Insert? || w.id in t.cards)
                  && exists i :: i in t.cards && i != w.id && t.cards[i].set_ == w.row.set_
                                 && t.cards[i].number == w.row.number && t.cards[i].variant == w.row.variant)
              || (w.Delete?
                  && (|| (exists a :: a in t.analyses && t.analyses[a].card == Some(w.id))
                      || (exists o :: o in t.observations && t.observations[o].card == w.id)
                      || (exists i :: i in t.referrers.trainingImages && t.referrers.trainingImages[i] == Some(w.id))
                      || (exists f :: f in t.referrers.feedback && t.referrers.feedback[f] == w.id)))
  {
  }

  lemma OnASession(t: Tables, w: Write<Session>)
    ensures Refused(t, OnSessions(w)) <==> KeyTaken(t.sessions, w) || SessionsViolate(t, w)
    ensures Apply(t, OnSessions(w)) == if Refused(t, OnSessions(w)) then t else CarrySessions(t, w)
    ensures !w.Delete? ==> CarrySessions(t, w) == t.(sessions := Written(t.sessions, w))
    ensures SessionsViolate(t, w)
            <==>
              && !w.Delete? && (w.Insert? || w.id in t.sessions)
              && (|| w.row.status !in {"active", "expired", "purged"} || w.row.expiresAt <= w.row.createdAt
                  || exists i :: i in t.sessions && i != w.id && t.sessions[i].token == w.row.token)
  {
    hide Written, KeyTaken, WithoutSession;
  }

  lemma OnAnAnalysis(t: Tables, w: Write<Analysis>)
    ensures Refused(t, OnAnalyses(w))
            <==> KeyTaken(t.analyses, w) || RewritesRecord(t.analyses, w) || AnalysesViolate(t, w)
    ensures CarryAnalyses(t, w)
            == t.(analyses := Written(t.analyses, w),
                  photographs := if w.Delete? then WithoutPhotographsOf(t.photographs, {w.id}) else t.photographs)
    ensures Apply(t, OnAnalyses(w)) == if Refused(t, OnAnalyses(w)) then t else CarryAnalyses(t, w)
  {
    hide Written, KeyTaken, RewritesRecord, AnalysesViolate, WithoutPhotographsOf;
  }

  lemma AnalysesViolateIff(t: Tables, w: Write<Analysis>)
    ensures AnalysesViolate(t, w)
            <==>
              && !w.Delete? && (w.Insert? || w.id in t.analyses)
              && !(&& AnalysisChecks(w.row) && w.row.session in t.sessions
                   && (w.row.card.Some? ==> w.row.card.value in t.cards)
                   && (w.row.record[ReproducibilityRecord.MarketSnapshotId].Some? ==>
                         w.row.record[ReproducibilityRecord.MarketSnapshotId].value in t.snapshots)
                   && (w.row.record[ReproducibilityRecord.EconomicConfigurationId].Some? ==>
                         w.row.record[ReproducibilityRecord.EconomicConfigurationId].value in t.configurations))
  {
    hide AnalysisChecks;
  }

  lemma OnASet(t: Tables, w: Write<CardSet>)
    ensures Refused(t, OnSets(w)) <==> KeyTaken(t.sets, w) || SetsViolate(t, w)
    ensures Apply(t, OnSets(w)) == if Refused(t, OnSets(w)) then t else t.(sets := Written(t.sets, w))
    ensures Refused(t, OnSets(w)) <==>
              || (w.Insert? && w.id in t.sets)
              || (!w.Delete? && (w.Insert? || w.id in t.sets)
                  && exists i :: i in t.sets && i != w.id && t.sets[i] == w.row)
              || (w.Update? && w.id in t.sets
                  && exists c :: c in t.cards && t.cards[c].set_ == w.id
                                 && (t.cards[c].game != w.row.game || t.cards[c].language != w.row.language))
              || (w.Delete? && exists c :: c in t.cards && t.cards[c].set_ == w.id)
  {
    hide Written;
  }

  lemma OnAnExternalId(t: Tables, w: Write<ExternalId>)
    ensures Refused(t, OnExternalIds(w)) <==> KeyTaken(t.externalIds, w) || ExternalIdsViolate(t, w)
    ensures Apply(t, OnExternalIds(w))
            == if Refused(t, OnExternalIds(w)) then t else t.(externalIds := Written(t.externalIds, w))
    ensures Refused(t, OnExternalIds(w)) <==>
              || (w.Insert? && w.id in t.externalIds)
              || (!w.Delete? && (w.Insert? || w.id in t.externalIds)
                  && (w.row.card !in t.cards
                      || exists i :: i in t.externalIds && i != w.id && t.externalIds[i] == w.row))
  {
    hide Written;
  }

  lemma OnAPhotograph(t: Tables, w: Write<Photograph>)
    ensures Refused(t, OnPhotographs(w)) <==> KeyTaken(t.photographs, w) || PhotographsViolate(t, w)
    ensures Apply(t, OnPhotographs(w))
            == if Refused(t, OnPhotographs(w)) then t else t.(photographs := Written(t.photographs, w))
    ensures Refused(t, OnPhotographs(w)) <==>
              || (w.Insert? && w.id in t.photographs)
              || (!w.Delete? && (w.Insert? || w.id in t.photographs)
                  && (|| !PhotographChecks(w.row) || w.row.analysis !in t.analyses
                      || exists i :: i in t.photographs && i != w.id && t.photographs[i].analysis == w.row.analysis
                                     && t.photographs[i].side == w.row.side))
  {
    hide Written, PhotographChecks;
  }

  lemma OnAProvider(t: Tables, w: Write<Provider>)
    ensures Refused(t, OnProviders(w))
            <==> KeyTaken(t.providers, w) || Rewrites(t.providers, w) || ProvidersViolate(t, w)
    ensures Apply(t, OnProviders(w))
            == if Refused(t, OnProviders(w)) then t else t.(providers := Written(t.providers, w))
    ensures Refused(t, OnProviders(w)) <==>
              || (w.Insert? && w.id in t.providers)
              || (w.Update? && w.id in t.providers)
              || (w.Insert?
                  && (|| !IsSlug(w.row.slug)
                      || exists i :: i in t.providers && i != w.id && t.providers[i].slug == w.row.slug
                                     && t.providers[i].version == w.row.version))
              || (w.Delete?
                  && (|| (exists s :: s in t.snapshots && t.snapshots[s].provider == w.id)
                      || (exists o :: o in t.observations && t.observations[o].provider == w.id)
                      || (exists q :: q in t.referrers.quarantine && t.referrers.quarantine[q] == w.id)
                      || (exists r :: r in t.referrers.runs && t.referrers.runs[r].provider == Some(w.id))))
  {
    hide Written, IsSlug;
  }

  lemma OnASnapshot(t: Tables, w: Write<Snapshot>)
    ensures Refused(t, OnSnapshots(w))
            <==> KeyTaken(t.snapshots, w) || Rewrites(t.snapshots, w) || SnapshotsViolate(t, w)
    ensures Apply(t, OnSnapshots(w))
            == if Refused(t, OnSnapshots(w)) then t else t.(snapshots := Written(t.snapshots, w))
    ensures Refused(t, OnSnapshots(w)) <==>
              || (w.Insert? && w.id in t.snapshots)
              || (w.Update? && w.id in t.snapshots)
              || (w.Insert? && w.row.provider !in t.providers)
              || (w.Delete?
                  && (|| (exists a :: a in t.analyses
                                      && t.analyses[a].record[ReproducibilityRecord.MarketSnapshotId] == Some(w.id))
                      || (exists r :: r in t.referrers.runs && t.referrers.runs[r].snapshot == Some(w.id))))
  {
    hide Written;
  }

  lemma OnAnObservation(t: Tables, w: Write<Observation>)
    ensures Refused(t, OnObservations(w))
            <==> KeyTaken(t.observations, w) || Rewrites(t.observations, w) || ObservationsViolate(t, w)
    ensures Apply(t, OnObservations(w))
            == if Refused(t, OnObservations(w)) then t else t.(observations := Written(t.observations, w))
    ensures Refused(t, OnObservations(w)) <==>
              || (w.Insert? && w.id in t.observations)
              || (w.Update? && w.id in t.observations)
              || (w.Insert?
                  && !(ObservationChecks(w.row) && w.row.card in t.cards && w.row.provider in t.providers
                       && (w.row.rate.Some? ==> w.row.rate.value in t.rates)))
  {
    hide Written, ObservationChecks;
  }

  lemma OnAConfiguration(t: Tables, w: Write<Configuration>)
    ensures Refused(t, OnConfigurations(w))
            <==> KeyTaken(t.configurations, w) || Rewrites(t.configurations, w) || ConfigurationsViolate(t, w)
    ensures Apply(t, OnConfigurations(w))
            == if Refused(t, OnConfigurations(w)) then t else t.(configurations := Written(t.configurations, w))
    ensures Refused(t, OnConfigurations(w)) <==>
              || (w.Insert? && w.id in t.configurations)
              || (w.Update? && w.id in t.configurations)
              || (w.Insert? && !ConfigurationChecks(w.row))
              || (w.Delete?
                  && exists a :: a in t.analyses
                                 && t.analyses[a].record[ReproducibilityRecord.EconomicConfigurationId] == Some(w.id))
  {
    hide Written, ConfigurationChecks;
  }

  lemma OnARate(t: Tables, w: Write<ExchangeRate>)
    ensures Refused(t, OnRates(w)) <==> KeyTaken(t.rates, w) || Rewrites(t.rates, w) || RatesViolate(t, w)
    ensures Apply(t, OnRates(w)) == if Refused(t, OnRates(w)) then t else t.(rates := Written(t.rates, w))
    ensures Refused(t, OnRates(w)) <==>
              || (w.Insert? && w.id in t.rates)
              || (w.Update? && w.id in t.rates)
              || (w.Insert?
                  && (|| !RateChecks(w.row)
                      || exists i :: i in t.rates && i != w.id && t.rates[i].base == w.row.base
                                     && t.rates[i].quote == w.row.quote && t.rates[i].asOf == w.row.asOf))
              || (w.Delete? && exists o :: o in t.observations && t.observations[o].rate == Some(w.id))
  {
    hide Written, RateChecks;
  }

  lemma OnATrainingImage(t: Tables, w: Write<Option<Id>>)
    ensures Refused(t, OnTrainingImages(w)) <==> KeyTaken(t.referrers.trainingImages, w) || TrainingImagesViolate(t, w)
    ensures Apply(t, OnTrainingImages(w))
            == if Refused(t, OnTrainingImages(w)) then t
               else t.(referrers := t.referrers.(trainingImages := Written(t.referrers.trainingImages, w)))
    ensures Refused(t, OnTrainingImages(w)) <==>
              || (w.Insert? && w.id in t.referrers.trainingImages)
              || (!w.Delete? && (w.Insert? || w.id in t.referrers.trainingImages) && w.row.Some?
                  && w.row.value !in t.cards)
  {
    hide Written;
  }

  lemma OnAReportedGrade(t: Tables, w: Write<Id>)
    ensures Refused(t, OnFeedback(w)) <==> KeyTaken(t.referrers.feedback, w) || FeedbackViolates(t, w)
    ensures Apply(t, OnFeedback(w))
            == if Refused(t, OnFeedback(w)) then t
               else t.(referrers := t.referrers.(feedback := Written(t.referrers.feedback, w)))
    ensures Refused(t, OnFeedback(w)) <==>
              || (w.Insert? && w.id in t.referrers.feedback)
              || (!w.Delete? && (w.Insert? || w.id in t.referrers.feedback) && w.row !in t.cards)
  {
    hide Written;
  }

  lemma OnAQuarantined(t: Tables, w: Write<Id>)
    ensures Refused(t, OnQuarantine(w))
            <==> KeyTaken(t.referrers.quarantine, w) || Rewrites(t.referrers.quarantine, w) || QuarantineViolates(t, w)
    ensures Apply(t, OnQuarantine(w))
            == if Refused(t, OnQuarantine(w)) then t
               else t.(referrers := t.referrers.(quarantine := Written(t.referrers.quarantine, w)))
    ensures Refused(t, OnQuarantine(w)) <==>
              || (w.Insert? && w.id in t.referrers.quarantine)
              || (w.Update? && w.id in t.referrers.quarantine)
              || (w.Insert? && w.row !in t.providers)
  {
    hide Written;
  }

  lemma OnARun(t: Tables, w: Write<RunKeys>)
    ensures Refused(t, OnRuns(w)) <==> KeyTaken(t.referrers.runs, w) || RunsViolate(t, w)
    ensures Apply(t, OnRuns(w))
            == if Refused(t, OnRuns(w)) then t
               else t.(referrers := t.referrers.(runs := Written(t.referrers.runs, w)))
    ensures Refused(t, OnRuns(w)) <==>
              || (w.Insert? && w.id in t.referrers.runs)
              || (!w.Delete? && (w.Insert? || w.id in t.referrers.runs)
                  && !(&& (w.row.provider.Some? ==> w.row.provider.value in t.providers)
                       && (w.row.snapshot.Some? ==> w.row.snapshot.value in t.snapshots)))
  {
    hide Written;
  }

  // ----- The store

  class LedgerStore {
    var sets: map<Id, CardSet>
    var cards: map<Id, Card>
    var externalIds: map<Id, ExternalId>
    var sessions: map<Id, Session>
    var analyses: map<Id, Analysis>
    var photographs: map<Id, Photograph>
    var providers: map<Id, Provider>
    var snapshots: map<Id, Snapshot>
    var rates: map<Id, ExchangeRate>
    var observations: map<Id, Observation>
    var configurations: map<Id, Configuration>
    var trainingImages: map<Id, Option<Id>>
    var feedback: map<Id, Id>
    var quarantine: map<Id, Id>
    var runs: map<Id, RunKeys>

    function State(): Tables
      reads this
    {
      Tables(sets, cards, externalIds, sessions, analyses, photographs, providers, snapshots, rates, observations,
             configurations, Referrers(trainingImages, feedback, quarantine, runs))
    }

    ghost predicate Valid()
      reads this
    {
      Integrity(State())
    }

    /** The statement was refused as it should be, and the whole state is what it should be. */
    ghost predicate Did(before: Tables, s: Statement, refused: bool)
      reads this
    {
      Valid() && refused == Refused(before, s) && State() == Apply(before, s)
    }

    constructor ()
      ensures Valid() && State() == EMPTY
    {
      sets, cards, externalIds, sessions, analyses := map[], map[], map[], map[], map[];
      photographs, providers, snapshots, observations, configurations := map[], map[], map[], map[], map[];
      rates, trainingImages, feedback, quarantine, runs := map[], map[], map[], map[], map[];
    }

    method WriteSet(w: Write<CardSet>) returns (refused: bool)
      requires Valid()
      modifies this`sets
      ensures Did(old(State()), OnSets(w), refused)
      ensures refused <==>
                || (w.Insert? && w.id in old(sets))
                || (!w.Delete? && (w.Insert? || w.id in old(sets))
                    && exists i :: i in old(sets) && i != w.id && old(sets)[i] == w.row)
                || (w.Update? && w.id in old(sets)
                    && exists c :: c in cards && cards[c].set_ == w.id
                                   && (cards[c].game != w.row.game || cards[c].language != w.row.language))
                || (w.Delete? && exists c :: c in cards && cards[c].set_ == w.id)
      ensures sets == if refused then old(sets) else Written(old(sets), w)
    {
      OnASet(State(), w);
      hide Integrity, Written, Refused, Apply, KeyTaken, SetsViolate;
      ApplyKeepsIntegrity(State(), OnSets(w));
      ghost var before := State();
      refused := KeyTaken(sets, w) || SetsViolate(State(), w);
      if !refused {
        sets := Written(sets, w);
      }
      assert State() == if refused then before else before.(sets := sets);
    }

    /** RESTRICT from analyses, prices, training images and reported grades, CASCADE to external ids. */
    method WriteCard(w: Write<Card>) returns (refused: bool)
      requires Valid()
      modifies this`cards, this`externalIds
      ensures Did(old(State()), OnCards(w), refused)
      ensures refused <==>
                || (w.Insert? && w.id in old(cards))
                || (!w.Delete? && (w.Insert? || w.id in old(cards))
                    && !(w.row.set_ in sets && sets[w.row.set_].game == w.row.game
                         && sets[w.row.set_].language == w.row.language))
                || (!w.Delete? && (w.Insert? || w.id in old(cards))
                    && exists i :: i in old(cards) && i != w.id && old(cards)[i].set_ == w.row.set_
                                   && old(cards)[i].number == w.row.number && old(cards)[i].variant == w.row.variant)
                || (w.Delete?
                    && (|| (exists a :: a in analyses && analyses[a].card == Some(w.id))
                        || (exists o :: o in observations && observations[o].card == w.id)
                        || (exists i :: i in trainingImages && trainingImages[i] == Some(w.id))
                        || (exists f :: f in feedback && feedback[f] == w.id)))
      ensures cards == if refused then old(cards) else Written(old(cards), w)
      ensures externalIds.Keys
              == set i | i in old(externalIds) && (refused || !w.Delete? || old(externalIds)[i].card != w.id)
      ensures forall i :: i in externalIds ==> externalIds[i] == old(externalIds)[i]
    {
      CascadeFromACard(externalIds, w.id);
      OnACard(State(), w);
      CardsViolateIff(State(), w);
      hide Integrity, Written, WithoutLinksTo, CardsViolate, CarryCards, Refused, Apply;
      ApplyKeepsIntegrity(State(), OnCards(w));
      ghost var before := State();
      refused := KeyTaken(cards, w) || CardsViolate(State(), w);
      if !refused {
        if w.Delete? { externalIds := WithoutLinksTo(externalIds, w.id); }
        cards := Written(cards, w);
      }
      assert State() == if refused then before else before.(cards := cards, externalIds := externalIds);
    }

    method WriteExternalId(w: Write<ExternalId>) returns (refused: bool)
      requires Valid()
      modifies this`externalIds
      ensures Did(old(State()), OnExternalIds(w), refused)
      ensures refused <==>
                || (w.Insert? && w.id in old(externalIds))
                || (!w.Delete? && (w.Insert? || w.id in old(externalIds))
                    && (w.row.card !in cards
                        || exists i :: i in old(externalIds) && i != w.id && old(externalIds)[i] == w.row))
      ensures externalIds == if refused then old(externalIds) else Written(old(externalIds), w)
    {
      OnAnExternalId(State(), w);
      hide Integrity, Written, Refused, Apply, KeyTaken, ExternalIdsViolate;
      ApplyKeepsIntegrity(State(), OnExternalIds(w));
      ghost var before := State();
      refused := KeyTaken(externalIds, w) || ExternalIdsViolate(State(), w);
      if !refused {
        externalIds := Written(externalIds, w);
      }
      assert State() == if refused then before else before.(externalIds := externalIds);
    }

    /** CASCADE to the session's analyses, and from them to their photographs; nothing restricts it. */
    method DeleteSession(id: Id)
      requires Valid()
      modifies this`sessions, this`analyses, this`photographs
      ensures Did(old(State()), OnSessions(Delete(id)), false)
      ensures sessions == old(sessions) - {id}
      ensures analyses.Keys == set a | a in old(analyses) && old(analyses)[a].session != id
      ensures forall a :: a in analyses ==> analyses[a] == old(analyses)[a]
      ensures photographs.Keys == set p | p in old(photographs) && old(photographs)[p].analysis in analyses
      ensures forall p :: p in photographs ==> photographs[p] == old(photographs)[p]
    {
      CascadeLeaves(State(), id);
      SessionGoneFrom(State(), id);
      hide Integrity, Apply, Refused, WithoutSession, WithoutAnalysesOf, WithoutPhotographsOf;
      ApplyKeepsIntegrity(State(), OnSessions(Delete(id)));
      NothingRestrictsASession(State(), id);
      ghost var before := State();
      var kept := WithoutAnalysesOf(analyses, id);
      var left := WithoutPhotographsOf(photographs, analyses.Keys - kept.Keys);
      sessions, analyses, photographs := sessions - {id}, kept, left;
      assert State() == before.(sessions := sessions, analyses := kept, photographs := left);
    }

    method WriteSession(w: Write<Session>) returns (refused: bool)
      requires Valid()
      modifies this`sessions, this`analyses, this`photographs
      ensures Did(old(State()), OnSessions(w), refused)
      ensures refused <==>
                || (w.Insert? && w.id in old(sessions))
                || (!w.Delete? && (w.Insert? || w.id in old(sessions))
                    && (|| w.row.status !in {"active", "expired", "purged"} || w.row.expiresAt <= w.row.createdAt
                        || exists i :: i in old(sessions) && i != w.id && old(sessions)[i].token == w.row.token))
      ensures sessions == if refused then old(sessions) else Written(old(sessions), w)
      ensures analyses.Keys == set a | a in old(analyses) && (!w.Delete? || old(analyses)[a].session != w.id)
      ensures forall a :: a in analyses ==> analyses[a] == old(analyses)[a]
      ensures photographs.Keys == set p | p in old(photographs) && old(photographs)[p].analysis in analyses
      ensures forall p :: p in photographs ==> photographs[p] == old(photographs)[p]
    {
      if w.Delete? {
        DeleteSession(w.id);
        refused := false;
      } else {
        OnASession(State(), w);
        KeysOf(State());
        hide Integrity, Written, Apply, Refused, SessionsViolate, CarrySessions;
        ApplyKeepsIntegrity(State(), OnSessions(w));
        ghost var before := State();
        refused := KeyTaken(sessions, w) || SessionsViolate(State(), w);
        if !refused {
          sessions := Written(sessions, w);
        }
        assert State() == if refused then before else before.(sessions := sessions);
      }
    }

    /** The write-once trigger guards UPDATE; DELETE cascades to photographs. */
    method WriteAnalysis(w: Write<Analysis>) returns (refused: bool)
      requires Valid()
      modifies this`analyses, this`photographs
      ensures Did(old(State()), OnAnalyses(w), refused)
      ensures refused <==>
                || (w.Insert? && w.id in old(analyses))
                || (w.Update? && w.id in old(analyses)
                    && exists c :: c in old(analyses)[w.id].record && old(analyses)[w.id].record[c].Some?
                                   && w.row.record[c] != old(analyses)[w.id].record[c])
                || (!w.Delete? && (w.Insert? || w.id in old(analyses))
                    && !(&& AnalysisChecks(w.row) && w.row.session in sessions
                         && (w.row.card.Some? ==> w.row.card.value in cards)
                         && (w.row.record[ReproducibilityRecord.MarketSnapshotId].Some? ==>
                               w.row.record[ReproducibilityRecord.MarketSnapshotId].value in snapshots)
                         && (w.row.record[ReproducibilityRecord.EconomicConfigurationId].Some? ==>
                               w.row.record[ReproducibilityRecord.EconomicConfigurationId].value in configurations)))
      ensures analyses == if refused then old(analyses) else Written(old(analyses), w)
      ensures photographs.Keys
              == set p | p in old(photographs) && (refused || !w.Delete? || old(photographs)[p].analysis != w.id)
      ensures forall p :: p in photographs ==> photographs[p] == old(photographs)[p]
    {
      CascadeFromAnAnalysis(photographs, w.id);
      RewritesRecordIff(analyses, w);
      OnAnAnalysis(State(), w);
      AnalysesViolateIff(State(), w);
      hide Integrity, Written, Apply, Refused, CarryAnalyses, AnalysesViolate, WithoutPhotographsOf, RewritesRecord,
        AnalysisChecks;
      ApplyKeepsIntegrity(State(), OnAnalyses(w));
      refused := KeyTaken(analyses, w) || RewritesRecord(analyses, w) || AnalysesViolate(State(), w);
      if !refused {
        if w.Delete? { photographs := WithoutPhotographsOf(photographs, {w.id}); }
        analyses := Written(analyses, w);
      }
    }

    method WritePhotograph(w: Write<Photograph>) returns (refused: bool)
      requires Valid()
      modifies this`photographs
      ensures Did(old(State()), OnPhotographs(w), refused)
      ensures refused <==>
                || (w.Insert? && w.id in old(photographs))
                || (!w.Delete? && (w.Insert? || w.id in old(photographs))
                    && (|| !PhotographChecks(w.row) || w.row.analysis !in analyses
                        || exists i :: i in old(photographs) && i != w.id
                            && old(photographs)[i].analysis == w.row.analysis
                                       && old(photographs)[i].side == w.row.side))
      ensures photographs == if refused then old(photographs) else Written(old(photographs), w)
    {
      OnAPhotograph(State(), w);
      hide Integrity, Written, Refused, Apply, KeyTaken, PhotographsViolate, PhotographChecks;
      ApplyKeepsIntegrity(State(), OnPhotographs(w));
      ghost var before := State();
      refused := KeyTaken(photographs, w) || PhotographsViolate(State(), w);
      if !refused {
        photographs := Written(photographs, w);
      }
      assert State() == if refused then before else before.(photographs := photographs);
    }

    /** Append-only: `commercial_use` can never be rewritten under the prices gathered on it. */
    method WriteProvider(w: Write<Provider>) returns (refused: bool)
      requires Valid()
      modifies this`providers
      ensures Did(old(State()), OnProviders(w), refused)
      ensures refused <==>
                || (w.Insert? && w.id in old(providers))
                || (w.Update? && w.id in old(providers))
                || (w.Insert?
                    && (|| !IsSlug(w.row.slug)
                        || exists i :: i in old(providers) && i != w.id && old(providers)[i].slug == w.row.slug
                                       && old(providers)[i].version == w.row.version))
                || (w.Delete?
                    && (|| (exists s :: s in snapshots && snapshots[s].provider == w.id)
                        || (exists o :: o in observations && observations[o].provider == w.id)
                        || (exists q :: q in quarantine && quarantine[q] == w.id)
                        || (exists r :: r in runs && runs[r].provider == Some(w.id))))
      ensures providers == if refused then old(providers) else Written(old(providers), w)
    {
      OnAProvider(State(), w);
      hide Integrity, Written, Refused, Apply, KeyTaken, Rewrites, ProvidersViolate, IsSlug;
      ApplyKeepsIntegrity(State(), OnProviders(w));
      ghost var before := State();
      refused := KeyTaken(providers, w) || Rewrites(providers, w) || ProvidersViolate(State(), w);
      if !refused {
        providers := Written(providers, w);
      }
      assert State() == if refused then before else before.(providers := providers);
    }

    /** Append-only, and RESTRICT from analyses. */
    method WriteSnapshot(w: Write<Snapshot>) returns (refused: bool)
      requires Valid()
      modifies this`snapshots
      ensures Did(old(State()), OnSnapshots(w), refused)
      ensures refused <==>
                || (w.Insert? && w.id in old(snapshots))
                || (w.Update? && w.id in old(snapshots))
                || (w.Insert? && w.row.provider !in providers)
                || (w.Delete?
                    && (|| (exists a :: a in analyses
                                        && analyses[a].record[ReproducibilityRecord.MarketSnapshotId] == Some(w.id))
                        || (exists r :: r in runs && runs[r].snapshot == Some(w.id))))
      ensures snapshots == if refused then old(snapshots) else Written(old(snapshots), w)
    {
      OnASnapshot(State(), w);
      hide Integrity, Written, Refused, Apply, KeyTaken, Rewrites, SnapshotsViolate;
      ApplyKeepsIntegrity(State(), OnSnapshots(w));
      ghost var before := State();
      refused := KeyTaken(snapshots, w) || Rewrites(snapshots, w) || SnapshotsViolate(State(), w);
      if !refused {
        snapshots := Written(snapshots, w);
      }
      assert State() == if refused then before else before.(snapshots := snapshots);
    }

    /** Append-only under UPDATE; DELETE is not guarded. */
    method WriteObservation(w: Write<Observation>) returns (refused: bool)
      requires Valid()
      modifies this`observations
      ensures Did(old(State()), OnObservations(w), refused)
      ensures refused <==>
                || (w.Insert? && w.id in old(observations))
                || (w.Update? && w.id in old(observations))
                || (w.Insert?
                    && !(ObservationChecks(w.row) && w.row.card in cards && w.row.provider in providers
                         && (w.row.rate.Some? ==> w.row.rate.value in rates)))
      ensures observations == if refused then old(observations) else Written(old(observations), w)
    {
      OnAnObservation(State(), w);
      hide Integrity, Written, Refused, Apply, KeyTaken, Rewrites, ObservationsViolate, ObservationChecks;
      ApplyKeepsIntegrity(State(), OnObservations(w));
      ghost var before := State();
      refused := KeyTaken(observations, w) || Rewrites(observations, w) || ObservationsViolate(State(), w);
      if !refused {
        observations := Written(observations, w);
      }
      assert State() == if refused then before else before.(observations := observations);
    }

    /** Append-only, and RESTRICT from analyses. */
    method WriteConfiguration(w: Write<Configuration>) returns (refused: bool)
      requires Valid()
      modifies this`configurations
      ensures Did(old(State()), OnConfigurations(w), refused)
      ensures refused <==>
                || (w.Insert? && w.id in old(configurations))
                || (w.Update? && w.id in old(configurations))
                || (w.Insert? && !ConfigurationChecks(w.row))
                || (w.Delete?
                    && exists a :: a in analyses
                                   && analyses[a].record[ReproducibilityRecord.EconomicConfigurationId] == Some(w.id))
      ensures configurations == if refused then old(configurations) else Written(old(configurations), w)
    {
      OnAConfiguration(State(), w);
      hide Integrity, Written, Refused, Apply, KeyTaken, Rewrites, ConfigurationsViolate, ConfigurationChecks;
      ApplyKeepsIntegrity(State(), OnConfigurations(w));
      ghost var before := State();
      refused := KeyTaken(configurations, w) || Rewrites(configurations, w) || ConfigurationsViolate(State(), w);
      if !refused {
        configurations := Written(configurations, w);
      }
      assert State() == if refused then before else before.(configurations := configurations);
    }

    /** Append-only, and RESTRICT from the prices it converted. */
    method WriteRate(w: Write<ExchangeRate>) returns (refused: bool)
      requires Valid()
      modifies this`rates
      ensures Did(old(State()), OnRates(w), refused)
      ensures refused <==>
                || (w.Insert? && w.id in old(rates))
                || (w.Update? && w.id in old(rates))
                || (w.Insert?
                    && (|| !RateChecks(w.row)
                        || exists i :: i in old(rates) && i != w.id && old(rates)[i].base == w.row.base
                                       && old(rates)[i].quote == w.row.quote && old(rates)[i].asOf == w.row.asOf))
                || (w.Delete? && exists o :: o in observations && observations[o].rate == Some(w.id))
      ensures rates == if refused then old(rates) else Written(old(rates), w)
    {
      OnARate(State(), w);
      hide Integrity, Written, Refused, Apply, KeyTaken, Rewrites, RatesViolate, RateChecks;
      ApplyKeepsIntegrity(State(), OnRates(w));
      ghost var before := State();
      refused := KeyTaken(rates, w) || Rewrites(rates, w) || RatesViolate(State(), w);
      if !refused {
        rates := Written(rates, w);
      }
      assert State() == if refused then before else before.(rates := rates);
    }

    /** A training image's reference to the card it shows. */
    method WriteTrainingImage(w: Write<Option<Id>>) returns (refused: bool)
      requires Valid()
      modifies this`trainingImages
      ensures Did(old(State()), OnTrainingImages(w), refused)
      ensures refused <==>
                || (w.Insert? && w.id in old(trainingImages))
                || (!w.Delete? && (w.Insert? || w.id in old(trainingImages)) && w.row.Some? && w.row.value !in cards)
      ensures trainingImages == if refused then old(trainingImages) else Written(old(trainingImages), w)
    {
      OnATrainingImage(State(), w);
      hide Integrity, Written, Refused, Apply, KeyTaken, TrainingImagesViolate;
      ApplyKeepsIntegrity(State(), OnTrainingImages(w));
      ghost var before := State();
      refused := KeyTaken(trainingImages, w) || TrainingImagesViolate(State(), w);
      if !refused {
        trainingImages := Written(trainingImages, w);
      }
      assert State()
             == if refused then before
                else before.(referrers := before.referrers.(trainingImages := trainingImages));
    }

    /** A reported grade's reference to its card. */
    method WriteFeedback(w: Write<Id>) returns (refused: bool)
      requires Valid()
      modifies this`feedback
      ensures Did(old(State()), OnFeedback(w), refused)
      ensures refused <==>
                || (w.Insert? && w.id in old(feedback))
                || (!w.Delete? && (w.Insert? || w.id in old(feedback)) && w.row !in cards)
      ensures feedback == if refused then old(feedback) else Written(old(feedback), w)
    {
      OnAReportedGrade(State(), w);
      hide Integrity, Written, Refused, Apply, KeyTaken, FeedbackViolates;
      ApplyKeepsIntegrity(State(), OnFeedback(w));
      ghost var before := State();
      refused := KeyTaken(feedback, w) || FeedbackViolates(State(), w);
      if !refused {
        feedback := Written(feedback, w);
      }
      assert State() == if refused then before else before.(referrers := before.referrers.(feedback := feedback));
    }

    /** Append-only: a quarantined record's reference to the provider that sent it. */
    method WriteQuarantined(w: Write<Id>) returns (refused: bool)
      requires Valid()
      modifies this`quarantine
      ensures Did(old(State()), OnQuarantine(w), refused)
      ensures refused <==>
                || (w.Insert? && w.id in old(quarantine))
                || (w.Update? && w.id in old(quarantine))
                || (w.Insert? && w.row !in providers)
      ensures quarantine == if refused then old(quarantine) else Written(old(quarantine), w)
    {
      OnAQuarantined(State(), w);
      hide Integrity, Written, Refused, Apply, KeyTaken, Rewrites, QuarantineViolates;
      ApplyKeepsIntegrity(State(), OnQuarantine(w));
      ghost var before := State();
      refused := KeyTaken(quarantine, w) || Rewrites(quarantine, w) || QuarantineViolates(State(), w);
      if !refused {
        quarantine := Written(quarantine, w);
      }
      assert State() == if refused then before else before.(referrers := before.referrers.(quarantine := quarantine));
    }

    /** An ingestion run's references to its provider and to the snapshot it cut. */
    method WriteRun(w: Write<RunKeys>) returns (refused: bool)
      requires Valid()
      modifies this`runs
      ensures Did(old(State()), OnRuns(w), refused)
      ensures refused <==>
                || (w.Insert? && w.id in old(runs))
                || (!w.Delete? && (w.Insert? || w.id in old(runs))
                    && !(&& (w.row.provider.Some? ==> w.row.provider.value in providers)
                         && (w.row.snapshot.Some? ==> w.row.snapshot.value in snapshots)))
      ensures runs == if refused then old(runs) else Written(old(runs), w)
    {
      OnARun(State(), w);
      hide Integrity, Written, Refused, Apply, KeyTaken, RunsViolate;
      ApplyKeepsIntegrity(State(), OnRuns(w));
      ghost var before := State();
      refused := KeyTaken(runs, w) || RunsViolate(State(), w);
      if !refused {
        runs := Written(runs, w);
      }
      assert State() == if refused then before else before.(referrers := before.referrers.(runs := runs));
    }
  }
}
