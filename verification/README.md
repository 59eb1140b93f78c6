# Proofs about the card-grading service

A Dafny model of the parts of the service where a wrong answer would be silent: the annotation tool's
geometry, the database's constraints and triggers, and two text codecs. Everything is proved for all
inputs, all runs or all reachable states.

- **Annotation geometry.** `Viewport` is the pan and zoom state machine; `Angles` and `Quads` put four
  clicked corners in order; `Centering` turns two boxes or two quadrilaterals into centering ratios;
  `TiltedCards` composes the two, from eight clicks to a reading; `AnnotationChecks` states the tables' CHECK
  expressions in three-valued logic (`Sql`) and shows that what the tool draws is what the tables store.
  Numbers are `real`; `atan2` is a half-plane and cross-product comparison, `hypot` a witness length proved
  unique.
- **The database as a guarded step machine.** `Ledger` has the catalog, sessions, analyses, photographs,
  providers, prices, exchange rates, snapshots and configurations, and the keys other tables hold into them;
  `Corpus` the training images, dataset versions, registered models, annotations and fingerprints
  (`Provenance` is their gate); `Database` joins the two over the cards they share; `GradingRules` the
  versioned standards with derived end dates; `MarketSnapshots` transactions, cut-lines and the prices read
  from them; `ReproducibilityRecord` the write-once columns of an analysis. Each has a state, statements,
  what is refused and what an accepted statement does, and all but `Database` a class that carries the
  statements out in place and is proved to do exactly that.
- **Codecs.** `AmountInput` moves decimal points on digit strings; `CardSearch` turns URLs into queries and
  back; `CardNumbers` is the generated catalog key. `Decimal` and `Text` hold the digits and string
  operations they share.

## Where the code and its comments part company

The model follows the code. In each case the exact condition is proved.

- `viewport.ts:99` says a zoom keeps what is under the pointer; the clamp can move it
  (`Viewport.ZoomKeepsThePointerIff`, with an input in `Viewport.ZoomCanMoveThePointer`).
- `viewport.ts:131` says one artifact pixel per CSS pixel; an image smaller than its frame stops at the
  fitted scale (`Viewport.ActualSizeIsOneToOneIff`, with an input in `Viewport.ActualSizeMissesASmallImage`).
- `annotations.ts:190` says the corner order is deterministic; two different points at one angle come out in
  click order (`Quads.ClickOrderIsIrrelevantIff`, with an input in `Quads.ClickOrderCanShow`).
- `annotations.ts:242` says rotating card and frame together changes nothing. It measures quadrilaterals that
  `orderedQuad` has started afresh at the corner nearest the origin (`ImageViewer.tsx:371`,
  `Annotator.tsx:597`), so past a certain tilt the axes trade places (`TiltedCards.TiltIsInvisibleIff`, and a
  quarter turn in `TiltedCards.QuarterTurnExchangesTheAxes`).
- The market-snapshot revision says a cut's set can never change; it needs one writer at a time, as
  `market/snapshots.py:200` admits (`MarketSnapshots.CutIsReproducibleIff`).
- The reproducibility revision says a retried transaction is safe; one that sets an empty column to NULL may
  be refused when repeated (`ReproducibilityRecord.RetryIsAcceptedIff`).

## Model

| member | source | states |
|---|---|---|
| `Viewport.Run` | apps/annotation/lib/viewport.ts:84-134 | After any finite run of gestures, with any factors, foci and deltas, the scale is within [min(fit, 8), 8] and on each axis the image is centred inside the frame or covers it |
| `Viewport.ApplyIsLegal` | apps/annotation/lib/viewport.ts:94-134 | One gesture makes any view of positive scale legal, whatever state it was in; where it lands is stated gesture by gesture below |
| `Viewport.DragFollowsTheHand` | apps/annotation/lib/viewport.ts:126-129 | After a drag from a legal view the scale is unchanged; on each axis the offset is the legal one nearest to where the hand took it, and the pixel that lay under p lies under p + dx iff that offset is legal |
| `Viewport.ZoomLandsNearest` | apps/annotation/lib/viewport.ts:99-119 | A wheel zoom lands at the scale in range nearest to the one asked for, and on each axis at the legal offset nearest to the one that keeps the pixel under the pointer |
| `Viewport.KeyZoomLandsNearest` | apps/annotation/lib/viewport.ts:121-124 | A keyboard zoom lands likewise, about the middle of the frame |
| `Viewport.KeyZoomInKeepsTheMiddle` | apps/annotation/lib/viewport.ts:121-124 | Zooming in from the keyboard always keeps the pixel in the middle of the frame, on covered and centred axes alike |
| `Viewport.OneToOneLandsNearest` | apps/annotation/lib/viewport.ts:131-134 | The 1:1 gesture lands at the scale in range nearest to 1, about the middle of the frame |
| `Viewport.FittingShowsTheWholeImage` | apps/annotation/lib/viewport.ts:94-97 | Fitting shows the whole image, centred both ways, at the fitted scale or the maximum |
| `Viewport.FitScaleIsTheLargestThatFits` | apps/annotation/lib/viewport.ts:49-62 | A scale is at most the fitted one iff both sides of the image fit in the frame at it |
| `Viewport.LegalIffClampFixesIt` | apps/annotation/lib/viewport.ts:77-92 | The legal views are exactly the fixed points of `clamp` |
| `Viewport.ClampIsIdempotent` | apps/annotation/lib/viewport.ts:84-92 | Clamping twice is clamping once, for every view, frame and image |
| `Viewport.ClampIsTheNearestLegalOffset` | apps/annotation/lib/viewport.ts:64-75 | `clampAxis` is the nearest-point projection on the legal offsets, and the nearest one is unique |
| `Viewport.ZoomKeepsThePointerIff` | apps/annotation/lib/viewport.ts:99-119 | On each axis the pixel under the pointer stays there exactly when the offset the zoom asks for is legal already, saturation included; the doc comment promises it always |
| `Viewport.ZoomCanMoveThePointer` | apps/annotation/lib/viewport.ts:99-119 | A tall image, fitted, zoomed by 2 off the middle: the pixel under the pointer goes from 10 to 30 |
| `Viewport.ZoomInIsAMagnifier` | apps/annotation/lib/viewport.ts:99-119 | Zooming in about a frame point never moves the pixel under it on a covered axis, so `fractionAt` of the pointer is unchanged |
| `Viewport.MagnifierIffFocusInFrame` | apps/annotation/lib/viewport.ts:64-75 | A covered axis can be zoomed into about a focus from every legal offset iff the focus is inside the frame: the side condition is necessary |
| `Viewport.CentredZoomKeepsOnlyTheMiddle` | apps/annotation/lib/viewport.ts:64-75 | On an axis the image does not fill, only the middle of the frame is kept by a zoom that changes the scale |
| `Viewport.ZoomInComposes` | apps/annotation/lib/viewport.ts:106-119 | Two zooms in about one frame point equal one by the product, saturation at the maximum included, on covered axes |
| `Viewport.ZoomThereAndBack` | apps/annotation/lib/viewport.ts:84-119 | Zooming in by k and out by 1/k returns exactly the starting view, covered and centred axes alike, when the maximum is not passed |
| `Viewport.ZoomThereAndBackOnlyBelowTheMaximum` | apps/annotation/lib/viewport.ts:106-108 | Past the maximum, from any scale above the fit, the round trip ends at a smaller scale: the side condition is necessary |
| `Viewport.ZoomThereAndBackIff` | apps/annotation/lib/viewport.ts:84-119 | Exactly: the round trip restores the view iff the maximum is not passed or the view is at the fitted scale |
| `Viewport.ActualSizeIsOneToOneIff` | apps/annotation/lib/viewport.ts:131-134 | The 1:1 gesture reaches one artifact pixel per CSS pixel iff the fitted scale is at most 1; the doc comment promises it always |
| `Viewport.ActualSizeMissesASmallImage` | apps/annotation/lib/viewport.ts:131-134 | A 50 by 50 image in a 100 by 100 frame: the gesture ends at scale 2 |
| `Viewport.FractionAtInvertsTheMap` | apps/annotation/lib/viewport.ts:159-184 | `fractionAt` inverts the drawing map for every point of the image |
| `Viewport.FractionAtStaysInTheUnitSquare` | apps/annotation/lib/viewport.ts:167-184 | Every frame point, inside the frame or not, gives a fraction in the unit square |
| `Viewport.FractionAtIsTheNearestPoint` | apps/annotation/lib/viewport.ts:167-184 | A frame point off the image is read as the nearest point of the image |
| `Angles.BeforeIsAStrictWeakOrder` | apps/annotation/lib/annotations.ts:203-206 | Comparing half-planes and cross products, which replaces the difference of two `atan2`, is a strict weak order with the zero vector at angle 0 |
| `Angles.TiedIffSameDirection` | apps/annotation/lib/annotations.ts:203-206 | Two vectors compare equal iff they point the same way |
| `Angles.BeforeIffSmallerAngle` | apps/annotation/lib/annotations.ts:203-206 | The comparison is the one of angles in (-pi, pi], read off the tangents of the half angles y / (length + x), with pi last and the zero vector at 0 |
| `Quads.OrderedQuad` | apps/annotation/lib/annotations.ts:198-215 | The method, with the source's loop over `start`, returns the cycle the next rows characterise |
| `Quads.OrderedCycleIsClockwise` | apps/annotation/lib/annotations.ts:189-215 | The cycle is a permutation of the clicks, starts at a point of least x + y, and no consecutive pair, the closing one included, turns counter-clockwise about the centroid |
| `Quads.OrderedQuadStartsAtTheFirstLeast` | apps/annotation/lib/annotations.ts:198-215 | Any stable sort of the clicks by angle about their mean, started at its first corner of least x + y, is the answer: the cycle is determined outright |
| `Quads.BalancedCycleNeverTurnsBack` | apps/annotation/lib/annotations.ts:199-206 | Vectors in ascending angle that sum to zero leave no angular gap wider than half a turn |
| `Quads.SortByAngleIsAStableSort` | apps/annotation/lib/annotations.ts:203-206 | The sorted cycle is ordered, a permutation, and keeps equal angles in click order |
| `Quads.StableSortIsUnique` | apps/annotation/lib/annotations.ts:203-206 | Any stable sort by this comparator returns the same list, whatever algorithm the engine runs |
| `Quads.SumsIgnoreOrder` | apps/annotation/lib/annotations.ts:199-202 | The centroid does not depend on the order of the clicks |
| `Quads.ClickOrderIsIrrelevantIff` | apps/annotation/lib/annotations.ts:189-215 | The ordered corners are the same for every click order iff no two different points share an angle about the centroid; the doc comment promises determinism without the condition |
| `Quads.TiesLeakTheClickOrder` | apps/annotation/lib/annotations.ts:203-213 | Whenever two different points do share an angle, two click orders with different results are constructed |
| `Quads.ClickOrderCanShow` | apps/annotation/lib/annotations.ts:189-215 | Four points of the unit square that share an angle, and two click orders that give different corners |
| `Centering.BoxFromSpansTheDrag` | apps/annotation/lib/annotations.ts:141-161 | A drag reads the same in both directions, is null iff it has no area, and otherwise the two points are opposite corners of the box |
| `Centering.BoxReading` | apps/annotation/lib/annotations.ts:311-329 | By boxes, each border is how far the inner box keeps inside that side of the card, or 0 where it reaches past it; the reading is left of left and right, top of top and bottom, and null when no axis is measured or a measured one has no border |
| `Centering.ReadingIsOfDistances` | apps/annotation/lib/annotations.ts:216-281 | For any eight corners the borders read are the perpendicular distances, in pixels, of the middles of the inner sides from the lines of the matching outer sides |
| `Centering.LineDistanceIsTheDistance` | apps/annotation/lib/annotations.ts:223-240 | The cross product over the length of the side is the distance to the foot of the perpendicular |
| `Centering.DistancesExist` | apps/annotation/lib/annotations.ts:223-240 | Such a foot and distance exist for every point and side |
| `Centering.StraightCardReading` | apps/annotation/lib/annotations.ts:256-281 | For any four inner corners on a straight card, the left border counts as the average x of the two left corners less the left of the card, and likewise right, top and bottom, unsigned |
| `Centering.TiltedCardReading` | apps/annotation/lib/annotations.ts:242-281 | The same for inner corners anywhere inside the card once card and clicks are turned, moved and scaled together |
| `Centering.CenteringIgnoresTheTilt` | apps/annotation/lib/annotations.ts:242-281 | For quadrilaterals whose corners are matched one to one, rotating, translating and uniformly scaling both together in pixels changes neither a ratio nor whether there is one |
| `Centering.SquareRootIsUnique` | apps/annotation/lib/annotations.ts:237-239 | The length that stands for `Math.hypot` is determined by its defining equation |
| `Centering.StraightQuadsAgreeWithBoxesIff` | apps/annotation/lib/annotations.ts:256-329 | On axis-aligned quads over a positive-size card the quadrilateral form equals the box form exactly when the inner box stays inside along every measured axis, or a measured axis has no gap at either end |
| `Centering.TiltedCardReadsLikeAStraightOne` | apps/annotation/lib/annotations.ts:260-329 | With its corners given in the card's own order, a tilted card reads like the straight one read by its boxes; the next rows say when `orderedQuad` gives that order |
| `TiltedCards.CycleStartsAtTheLeast` | apps/annotation/lib/annotations.ts:198-215 | Whatever the click order, a parallelogram comes out clockwise from its one corner of least x + y |
| `TiltedCards.ClickedReading` | apps/annotation/lib/annotations.ts:198-281 | `orderedQuad` and `centeringFromQuads` composed: eight clicks on a tilted card and frame, in any order, read the straight card from the corner the tilt brings nearest the origin, the axes trading places once for each corner further round |
| `TiltedCards.SlightTiltsAreInvisible` | apps/annotation/lib/annotations.ts:242-281 | While the card's own top left corner stays nearest, the clicked reading is the straight reading by boxes |
| `TiltedCards.TiltIsInvisibleIff` | apps/annotation/lib/annotations.ts:242-281 | A tilt changes no reading of any card, frame or click order iff a/W + b/H > 0 and a/H - b/W > 0, where the tilt takes (x, y) to (ax - by, bx + ay) in pixels of a W by H artifact; ties included |
| `TiltedCards.QuarterTurnExchangesTheAxes` | apps/annotation/lib/annotations.ts:249-254 | After a quarter turn a card that read 0.4 across and 0.5 down reads 0.5 across and 0.4 down; the doc comment says rotating together changes nothing |
| `TiltedCards.EveryCardCanBeClicked` | apps/annotation/lib/annotations.ts:198-215 | Clicks and side lengths as the rows above suppose exist for every card and tilt |
| `Centering.RatiosIgnoreScale` | apps/annotation/lib/annotations.ts:277-280 | Only the proportions of the borders matter, each axis scaled on its own |
| `AnnotationChecks.ChecksAdmitExactlyTheWellFormed` | database/migrations/versions/20260829_add_the_annotation_schema.py:278-297 | In three-valued logic the conjunction of the marker CHECKs admits exactly the markers that are well formed by a definition without NULL logic |
| `AnnotationChecks.KindCheckMeansAgreement` | database/migrations/versions/20260829_add_the_annotation_schema.py:79-104 | The kind, region and label CHECK passes iff the three agree |
| `AnnotationChecks.VocabulariesAgree` | database/migrations/versions/20260829_add_the_annotation_schema.py:79-104 | Which regions and findings a corner, an edge and a surface may name, label by label |
| `AnnotationChecks.BoxChecksMeanABox` | database/migrations/versions/20260829_add_the_annotation_schema.py:111-116 | The two box CHECKs pass iff there is no box or a whole one with area inside the unit square |
| `AnnotationChecks.AdmittedMeasurementsAreShares` | database/migrations/versions/20260829_add_the_annotation_schema.py:389-403 | A measurement is admitted iff it has an axis, every figure is a share and the annotator is a pseudonym |
| `AnnotationChecks.WithoutIsTrueARegionMayBeMissing` | database/migrations/versions/20260829_add_the_annotation_schema.py:85-89 | Without the trailing IS TRUE the kind CHECK admits, besides, exactly the corners and edges that name no region |
| `AnnotationChecks.IsTrueRefusesMore` | database/migrations/versions/20260829_add_the_annotation_schema.py:85-104 | A marker every other CHECK passes and only the IS TRUE refuses |
| `AnnotationChecks.WithoutNumNullsABoxMayBePartial` | database/migrations/versions/20260829_add_the_annotation_schema.py:111-116 | Exactly which partial boxes the inside CHECK passes on its own |
| `AnnotationChecks.NumNullsRefusesMore` | database/migrations/versions/20260829_add_the_annotation_schema.py:285-288 | A marker every other CHECK passes and only the whole-or-absent CHECK refuses |
| `AnnotationChecks.EveryDragIsStorable` | apps/annotation/lib/viewport.ts:167-184 | End to end: after any gestures, a drag between any two frame points gives no box or one both box CHECKs accept |
| `AnnotationChecks.StorableBoxesAreDrags` | apps/annotation/lib/annotations.ts:149-161 | Conversely, a box is in the unit square with area iff some drag in it produces that box |
| `AnnotationChecks.EveryBoxReadingIsStorable` | apps/annotation/lib/annotations.ts:311-329 | Every non-null box reading passes both measurement CHECKs |
| `AnnotationChecks.EveryQuadReadingIsStorable` | apps/annotation/lib/annotations.ts:260-281 | Every non-null quadrilateral reading passes both measurement CHECKs, for any corners |
| `AnnotationChecks.StorableReadingsAreBoxReadings` | database/migrations/versions/20260829_add_the_annotation_schema.py:389-393 | Conversely, every admitted measurement is the reading of some box and axes |
| `GradingRules.InForceIsTheGoverningRow` | services/api/src/tcg_api/grading/rules.py:127-147 | Under the unique constraint at most one row is in force, it is the latest start not after the date, and there is one iff some start is NULL or on or before the date |
| `GradingRules.NeverTwoInForceIff` | database/migrations/versions/20260824_add_the_versioned_grading_rules_schema.py:33-37 | A company has at most one standard in force on every date iff at most one of its rows is undated: NULLS NOT DISTINCT is exactly what is needed |
| `GradingRules.TwoUndatedOverlap` | database/migrations/versions/20260824_add_the_versioned_grading_rules_schema.py:33-37 | Two undated rows give a date with two standards in force |
| `GradingRules.PublishingChangesOnlyItsSpan` | database/migrations/versions/20260824_add_the_versioned_grading_rules_schema.py:17-32 | Publishing a version changes the answer on exactly the dates from its start up to the next start of its company, and there the answer is that version |
| `GradingRules.EveryReachableTableResolves` | services/api/src/tcg_api/grading/rules.py:98-112 | In every table any statements can produce, both unique constraints hold and the resolver finds at most one row |
| `GradingRules.PublishedRowsAreForever` | database/migrations/versions/20260824_add_the_versioned_grading_rules_schema.py:93-112 | No later statement rewrites or removes a published row |
| `GradingRules.RulesTable.Insert` | database/migrations/versions/20260824_add_the_versioned_grading_rules_schema.py:195-203 | An INSERT is refused iff the version is stored or the company has a row of that start date, NULL included; otherwise the row, and nothing else, is added |
| `GradingRules.RulesTable.Update` | database/migrations/versions/20260824_add_the_versioned_grading_rules_schema.py:108-112 | The trigger refuses an UPDATE that reaches a row, and nothing changes |
| `GradingRules.RulesTable.Delete` | database/migrations/versions/20260824_add_the_versioned_grading_rules_schema.py:108-112 | The trigger refuses a DELETE that reaches a row, and nothing changes |
| `GradingRules.RulesTable.Resolve` | services/api/src/tcg_api/grading/rules.py:127-147 | The resolver answers with the row of the company that has started by the date and that no other such row starts after, or none iff no row has started |
| `MarketSnapshots.CutIsReproducibleIff` | services/api/src/tcg_api/market/snapshots.py:200-206 | A cut resolves the same after every DELETE-free continuation iff no open transaction began at or before it |
| `MarketSnapshots.SettledCutsAreStable` | database/migrations/versions/20260824_add_the_market_snapshot_schema.py:17-26 | Once settled, a cut gains and alters nothing in any run, and only a DELETE loses a row |
| `MarketSnapshots.SerialSnapshotsAreReproducible` | database/migrations/versions/20260824_add_the_market_snapshot_schema.py:122-137 | With one writer at a time every committed snapshot keeps its observations through any continuation |
| `MarketSnapshots.UnsettledCutsCanGrow` | services/api/src/tcg_api/market/snapshots.py:200-206 | From every state with such a transaction open, a continuation that changes the cut is constructed |
| `MarketSnapshots.OverlappingWritersBreakIt` | services/api/src/tcg_api/market/snapshots.py:200-206 | Two overlapping transactions add a row to a committed snapshot; the table comment says the set can never change |
| `MarketSnapshots.CutHoldsItsOwnRun` | services/api/src/tcg_api/market/snapshots.py:183-190 | A snapshot cut in the run's own transaction holds every row of the run; with a strict comparison it would hold none |
| `MarketSnapshots.DataVersionIsTheDayOfTheCut` | database/migrations/versions/20260824_add_the_market_snapshot_schema.py:68-71 | The generated version is the UTC day of the cut, before the epoch too, and follows the order of the cuts |
| `MarketSnapshots.SnapshotsAreForever` | database/migrations/versions/20260824_add_the_market_snapshot_schema.py:75-79 | A committed snapshot is never moved or lost in any run without a DELETE of snapshots |
| `MarketSnapshots.OnePriceAKey` | services/api/src/tcg_api/market/snapshots.py:113-152 | For every company and grade seen of a card, the DISTINCT ON pick exists and is unique |
| `MarketSnapshots.PricesAreTheLatest` | services/api/src/tcg_api/market/snapshots.py:113-152 | A row is among the prices iff it is of the card asked for, within the cut, and against every other such row of its company and grade observed later; or as late and stored later; or both equal and of greater id |
| `MarketSnapshots.TheLaterPriceIsGiven` | services/api/src/tcg_api/market/snapshots.py:143-149 | Of two rows of one key within the cut, the earlier observed one is never given |
| `MarketSnapshots.PruningShowsIff` | services/api/src/tcg_api/market/snapshots.py:113-152 | Deleting an observation changes a card's prices iff it is one of them |
| `MarketSnapshots.PricesAreReproducible` | services/api/src/tcg_api/market/snapshots.py:263-297 | With one writer at a time, a committed snapshot gives the same prices for a card after any statements that delete no observation |
| `MarketSnapshots.MarketStore.ResolvePrices` | services/api/src/tcg_api/market/snapshots.py:288-297 | Every row returned is of the card asked for and within the cut, and later, by observation, storing and id in that order, than any other of its company and grade; every such company and grade has one |
| `MarketSnapshots.EveryRunIsConsistent` | database/migrations/versions/20260824_add_the_market_data_schema.py:344-356 | In every run the timestamps are transaction starts not ahead of the clock, and no key is used twice |
| `MarketSnapshots.MarketStore.BeginTransaction` | services/api/src/tcg_api/market/snapshots.py:200-206 | Opens a transaction at its own start time |
| `MarketSnapshots.MarketStore.InsertObservation` | database/migrations/versions/20260824_add_the_market_data_schema.py:344-356 | Writes a row stamped with the start of its transaction |
| `MarketSnapshots.MarketStore.InsertSnapshot` | services/api/src/tcg_api/market/snapshots.py:208-216 | Writes a cut-line stamped with the start of its transaction |
| `MarketSnapshots.MarketStore.CommitTransaction` | services/api/src/tcg_api/market/snapshots.py:197-206 | Makes a transaction's rows visible together |
| `MarketSnapshots.MarketStore.RollbackTransaction` | services/api/src/tcg_api/market/snapshots.py:197-206 | Discards a transaction's rows, which nobody else ever saw |
| `MarketSnapshots.MarketStore.UpdateStoredObservation` | database/migrations/versions/20260824_add_the_market_data_schema.py:114-118 | The trigger refuses an UPDATE that reaches an observation, and nothing changes |
| `MarketSnapshots.MarketStore.UpdateStoredSnapshot` | database/migrations/versions/20260824_add_the_market_snapshot_schema.py:75-79 | The trigger refuses an UPDATE that reaches a snapshot, and nothing changes |
| `MarketSnapshots.MarketStore.DeleteStoredObservation` | database/migrations/versions/20260824_add_the_market_data_schema.py:114-118 | DELETE is not guarded: the row goes and nothing else |
| `ReproducibilityRecord.WrittenOnce` | database/migrations/versions/20260822_add_the_reproducibility_record.py:30-50 | A value written to any of the six columns survives every run of updates |
| `ReproducibilityRecord.EachColumnTakesOneValue` | database/migrations/versions/20260822_add_the_reproducibility_record.py:30-50 | Any two moments of a run at which a column holds a value, it is the same value |
| `ReproducibilityRecord.EveryChangeFillsAColumn` | database/migrations/versions/20260822_add_the_reproducibility_record.py:42-45 | A refused update changes nothing; an accepted one changes nothing or leaves strictly fewer NULL columns |
| `ReproducibilityRecord.AtMostSixChanges` | database/migrations/versions/20260822_add_the_reproducibility_record.py:78-90 | At most six updates of any run change the record |
| `ReproducibilityRecord.RetryIsAcceptedIff` | database/migrations/versions/20260822_add_the_reproducibility_record.py:44-45 | After anything at all, repeating an accepted update is accepted, and then a no-op, iff no column it set to NULL has been filled since; writing values only, a retry is always safe |
| `ReproducibilityRecord.ClearingCannotAlwaysBeRepeated` | database/migrations/versions/20260822_add_the_reproducibility_record.py:44-45 | The accepted update whose retry is refused: setting an empty column to NULL, filled in between |
| `ReproducibilityRecord.RefusedUnfolds` | database/migrations/versions/20260822_add_the_reproducibility_record.py:87-90 | The six-way disjunction of the trigger's WHEN clause is the general condition |
| `ReproducibilityRecord.UpdateSetsWhatItNames` | database/migrations/versions/20260822_add_the_reproducibility_record.py:78-90 | Column by column: an accepted update sets exactly the columns it names, and is refused iff one of them holds another value |
| `ReproducibilityRecord.SixColumnsAreGuarded` | database/migrations/versions/20260822_add_the_reproducibility_record.py:78-85 | The record is the six columns by name, and no column is outside the trigger |
| `ReproducibilityRecord.AnalysisRow.Set` | database/migrations/versions/20260822_add_the_reproducibility_record.py:96-117 | The update is refused iff one of six fields with a value would get another; each field takes what the update names for it, or stays |
| `AmountInput.ParsePercentIsExact` | apps/web/lib/amount-input.ts:56-80 | A percentage is accepted iff it is in the grammar and at most 100, and what is sent has the form d.dddd, is exactly a hundredth of it, and meets the selling-fee CHECK |
| `AmountInput.FieldGrammars` | apps/web/lib/amount-input.ts:34-38 | The two grammars written forwards: digits, at most three for a percentage, alone or with a point and one or two more |
| `AmountInput.ProportionToPercentIsExact` | apps/web/lib/amount-input.ts:82-96 | A non-negative proportion of any length is shown as the canonical spelling of exactly 100 times its value cut to four places |
| `AmountInput.ProportionDigitsRoundDown` | apps/web/lib/amount-input.ts:87-88 | Cutting or filling the digits to four places is rounding down to ten-thousandths |
| `AmountInput.CanonicalSpellingIsUnique` | apps/web/lib/amount-input.ts:93-95 | A value has one canonical spelling, so the shown text is determined by the number |
| `AmountInput.TypedPercentComesBack` | apps/web/lib/amount-input.ts:82-96 | Sent and shown again, a percentage is the canonical spelling of what was typed |
| `AmountInput.ShownProportionComesBack` | apps/web/lib/amount-input.ts:67-96 | Shown and typed again, a proportion is accepted iff its four-place value is at most 1, and a stored rate comes back character for character |
| `AmountInput.ParseAmountSendsWhatWasTyped` | apps/web/lib/amount-input.ts:43-54 | A money field is blank, refused, or sends the trimmed text untouched, which is then a non-negative whole number of cents |
| `CardSearch.ToUrlSearchParams` | apps/web/lib/card-search.ts:119-141 | The loop fills the parameters the round trips below are about |
| `CardSearch.QueriesAreReadByName` | apps/web/lib/card-search.ts:76-113 | Each field comes from the parameter of its own name, trimmed; the language lower-cased if it is two letters, and otherwise dropped |
| `CardSearch.LinkAndApiAgreeByName` | apps/web/lib/card-search.ts:115-162 | Link and API carry each filter under the same name, the limit is 20, and the offset is the same, kept within 0 and 1000000 |
| `CardSearch.ParseIntReads` | apps/web/lib/card-search.ts:86-91 | `parseInt` reads spaces, a sign and digits, and stops at the first character that is not one |
| `CardSearch.ParseIntIsNaNIff` | apps/web/lib/card-search.ts:86-91 | And it is NaN of exactly the other strings |
| `CardSearch.OffsetIsRead` | apps/web/lib/card-search.ts:80-92 | The offset read is the number the parameter starts with, kept between 0 and 1000000 |
| `CardSearch.RoundTripIff` | apps/web/lib/card-search.ts:94-141 | A query survives a link unchanged iff it is normal: trimmed filters, a language code or none, an offset within bounds |
| `CardSearch.NormalIffReadable` | apps/web/lib/card-search.ts:94-113 | The normal queries are exactly those `parseSearchQuery` can produce |
| `CardSearch.ParsedQueriesAreNormal` | apps/web/lib/card-search.ts:76-113 | Any parameters, hand-edited or not, are read as a normal query, offset within [0, 1000000] included |
| `CardSearch.LinkNormalises` | apps/web/lib/card-search.ts:94-141 | Reading back the link of any query at all gives its normal form |
| `CardSearch.LinksAreStable` | apps/web/lib/card-search.ts:94-141 | Parse then print is idempotent on arbitrary parameters |
| `CardSearch.LinksAreDistinct` | apps/web/lib/card-search.ts:119-141 | Different normal queries have different parameters |
| `CardSearch.OffsetReachesTheApi` | apps/web/lib/card-search.ts:153-162 | The offset sent to the API is within bounds and the same from the form or from its link |
| `CardSearch.LinksAreMinimal` | apps/web/lib/card-search.ts:115-118 | A link never carries a blank filter or a first-page offset |
| `CardSearch.ParseIntOfPrint` | apps/web/lib/card-search.ts:86-91 | Printing a number and parsing it is the identity |
| `CardNumbers.KeysAgreeIffNumeratorsDo` | database/migrations/versions/20260818_125412_0d60d1982d83_add_the_card_catalog_schema.py:56-59 | For all-digit numerators of any length two keys are equal iff the numerators are the same number |
| `CardNumbers.KeyIs` | database/migrations/versions/20260818_125412_0d60d1982d83_add_the_card_catalog_schema.py:56-59 | The key of any number at all is what stands before its first slash, without leading zeros |
| `CardNumbers.KeyIsIdempotent` | database/migrations/versions/20260818_125412_0d60d1982d83_add_the_card_catalog_schema.py:56-59 | A key is its own key |
| `CardNumbers.KeyIgnoresTheDenominator` | database/migrations/versions/20260818_125412_0d60d1982d83_add_the_card_catalog_schema.py:56-59 | Everything from the first slash on makes no difference |
| `CardNumbers.TypedNumberFindsTheCard` | database/migrations/versions/20260818_125412_0d60d1982d83_add_the_card_catalog_schema.py:171-175 | Typing the number finds the card whatever zeros and denominator are printed |
| `Provenance.GateMeansMayTrain` | database/migrations/versions/20260828_add_the_dataset_and_provenance_schema.py:84-94 | The gate passes iff both rights are TRUE and the licence is neither NULL nor blank |
| `Provenance.ImageChecksMean` | database/migrations/versions/20260828_add_the_dataset_and_provenance_schema.py:285-306 | All CHECKs of a training image without NULL logic, its vocabulary spelled out |
| `Provenance.WithoutIsTrueUnstatedRightsPass` | database/migrations/versions/20260828_add_the_dataset_and_provenance_schema.py:84-88 | With bare column references exactly the images with no right denied would pass, stated or not |
| `Corpus.EveryRunKeepsIntegrity` | database/migrations/versions/20260828_add_the_dataset_and_provenance_schema.py:285-402 | Every key, CHECK and unique constraint of the dataset tables holds after any statements |
| `Corpus.EveryMemberMayBeTrainedOn` | database/migrations/versions/20260828_add_the_dataset_and_provenance_schema.py:84-94 | In every reachable state every member of every version names a stored image that may be trained on |
| `Corpus.EveryStoredMarkerIsWellFormed` | database/migrations/versions/20260829_add_the_annotation_schema.py:278-303 | In every reachable state every stored marker is well formed and its image is stored |
| `Corpus.DeletingAnImage` | database/migrations/versions/20260828_add_the_dataset_and_provenance_schema.py:387-398 | Deleting an image succeeds iff no member names it, and removes exactly its annotations, measurements and fingerprint |
| `Corpus.RestrictIsExact` | database/migrations/versions/20260828_add_the_dataset_and_provenance_schema.py:393-398 | The RESTRICT key refuses exactly the deletions that would leave the tables without integrity |
| `Corpus.VersionRestrictIsExact` | database/migrations/versions/20260831_add_the_model_registry.py:237-242 | Deleting a version is refused iff a registered model would lose the version it was trained on |
| `Corpus.TrainingVersionsAreForever` | database/migrations/versions/20260831_add_the_model_registry.py:140-152 | A registered model is neither rewritten nor deleted, and its dataset version stays stored under its name, in any run at all |
| `Corpus.MembersAreFrozen` | database/migrations/versions/20260828_add_the_dataset_and_provenance_schema.py:105-130 | Until its own or its version's DELETE, a member keeps its split, its version its name, and its image stays stored and trainable |
| `Corpus.CorpusStore.InsertImage` | database/migrations/versions/20260828_add_the_dataset_and_provenance_schema.py:285-306 | Refused iff the id or digest is stored, a key names nothing, or a CHECK fails; otherwise exactly that row is added, and it is trainable |
| `Corpus.CorpusStore.UpdateImage` | database/migrations/versions/20260828_add_the_dataset_and_provenance_schema.py:285-306 | A correction is refused on the same terms, so never out of the gate, and otherwise puts exactly that row |
| `Corpus.CorpusStore.DeleteImage` | database/migrations/versions/20260829_add_the_annotation_schema.py:298-303 | Refused iff a member names it; otherwise it goes with exactly its annotations, measurements and fingerprint |
| `Corpus.CorpusStore.InsertMember` | database/migrations/versions/20260828_add_the_dataset_and_provenance_schema.py:384-402 | Refused iff the pair is stored, the version or image is not, or the split is not one of the three names; otherwise the pair is stored with the split given |
| `Corpus.CorpusStore.UpdateMember` | database/migrations/versions/20260828_add_the_dataset_and_provenance_schema.py:126-130 | The trigger refuses an UPDATE that reaches a member |
| `Corpus.CorpusStore.UpdateVersion` | database/migrations/versions/20260828_add_the_dataset_and_provenance_schema.py:120-124 | The trigger refuses an UPDATE that reaches a version |
| `Corpus.CorpusStore.DeleteVersion` | database/migrations/versions/20260828_add_the_dataset_and_provenance_schema.py:387-392 | Refused iff a registered model names it; otherwise the version goes with its members and nothing else |
| `Corpus.CorpusStore.InsertAnnotation` | database/migrations/versions/20260829_add_the_annotation_schema.py:278-303 | Refused iff the id is stored, the image is not, or the marker is not well formed; otherwise exactly that marker is added |
| `Corpus.CorpusStore.UpdateAnnotation` | database/migrations/versions/20260829_add_the_annotation_schema.py:443-449 | The trigger refuses an UPDATE that reaches a marker |
| `Corpus.CorpusStore.InsertMeasurement` | database/migrations/versions/20260829_add_the_annotation_schema.py:389-403 | Refused iff the id is stored, the image is not, or the measurement is not admitted; otherwise exactly that row is added |
| `Corpus.CorpusStore.UpdateFingerprint` | database/migrations/versions/20260829_add_the_training_image_fingerprints.py:40-42 | A fingerprint may be rewritten, under its CHECKs, and then holds exactly the new row |
| `Corpus.CorpusStore.InsertFingerprint` | database/migrations/versions/20260829_add_the_training_image_fingerprints.py:151-162 | Refused iff the image has one or is not stored, or only one hash is given or is malformed; otherwise exactly that row is added |
| `Corpus.CorpusStore.InsertBundle` | database/migrations/versions/20260831_add_the_model_registry.py:237-242 | Refused iff the name is registered or the dataset version is not stored; otherwise exactly that model is added |
| `Corpus.CorpusStore.UpdateBundle` | database/migrations/versions/20260831_add_the_model_registry.py:140-146 | The trigger refuses to rewrite the version a model was trained on |
| `Corpus.CorpusStore.DeleteBundle` | database/migrations/versions/20260831_add_the_model_registry.py:148-152 | The trigger refuses to delete a registered model |
| `Database.OwnersDecide` | database/migrations/versions/20260828_add_the_dataset_and_provenance_schema.py:296-298 | Over the catalog, the market and the corpus as one database, a card statement is refused iff the ledger refuses it and an image statement iff the corpus does: the two never disagree |
| `Database.EachHalfDoesItsOwn` | database/migrations/versions/20260828_add_the_dataset_and_provenance_schema.py:296-298 | A statement does to its own half what that half does on its own, and to the other only what keeps the cards and the references to them the same |
| `Database.EveryRunKeepsIntegrity` | database/migrations/versions/20260828_add_the_dataset_and_provenance_schema.py:296-298 | In every reachable state both halves have integrity and hold the same cards and the same references to them |
| `Database.DeletingACard` | database/migrations/versions/20260828_add_the_dataset_and_provenance_schema.py:296-298 | In every reachable state a card goes, with exactly its external ids, iff no analysis, price, training image or reported grade names it |
| `Ledger.GuardsAreExact` | database/migrations/versions/20260819_073309_29d14fe0fcee_add_the_analysis_and_image_schema.py:249-270 | Over every table that holds a key into the catalog, the sessions or the market: a statement that reuses no key and meets no trigger is refused iff carrying it out, cascades included, would leave the tables without integrity |
| `Ledger.RefusedIff` | database/migrations/versions/20260819_073309_29d14fe0fcee_add_the_analysis_and_image_schema.py:249-270 | A statement is refused for one of four reasons and no other: it inserts under a stored id, it updates a row of one of six append-only tables, it gives a written record column of an analysis another value, or carrying it out would leave the tables without integrity |
| `Ledger.AnalysesMayChangeAroundTheRecord` | database/migrations/versions/20260822_add_the_reproducibility_record.py:87-117 | An UPDATE of an analysis that keeps its written columns is accepted iff the row it puts leaves integrity, and then stores exactly that row |
| `Ledger.AnalysesMayMoveOn` | database/migrations/versions/20260822_add_the_reproducibility_record.py:111-117 | An unfinished analysis may always move to any other unfinished state, its record as it was |
| `Ledger.WrittenIs` | database/migrations/versions/20260822_add_the_reproducibility_record.py:108-117 | A statement puts or removes the row it names and leaves every other row of its table |
| `Ledger.SessionChecksMean` | database/migrations/versions/20260819_073309_29d14fe0fcee_add_the_analysis_and_image_schema.py:159-163 | The CHECKs of a session, vocabulary spelled out |
| `Ledger.AnalysisChecksMean` | database/migrations/versions/20260906_record_why_an_analysis_failed.py:111-122 | The CHECKs of an analysis without NULL logic: nine states, finished only when completed or failed, a code and a reason of the known ones iff failed |
| `Ledger.PhotographChecksMean` | database/migrations/versions/20260819_073309_29d14fe0fcee_add_the_analysis_and_image_schema.py:405-414 | The CHECKs of a photograph without NULL logic, the six sides and four qualities spelled out |
| `Ledger.ObservationChecksMean` | database/migrations/versions/20260824_add_the_market_data_schema.py:357-389 | The CHECKs of a price without NULL logic, the companies spelled out |
| `Ledger.GradeKeysAre` | database/migrations/versions/20260824_add_the_market_data_schema.py:365-373 | A grade key is 10 or a digit with or without a half, alone or as the end of a band |
| `Ledger.SlugsAreHyphenatedWords` | database/migrations/versions/20260824_add_the_market_data_schema.py:221 | A slug is words of lower-case letters and digits joined by single hyphens |
| `Ledger.RateChecksMean` | database/migrations/versions/20260915_record_exchange_rates_and_market_quarantine.py:144-148 | The CHECKs of an exchange rate |
| `Ledger.ConfigurationChecksMean` | database/migrations/versions/20260827_add_the_economic_configuration_schema.py:281-316 | The CHECKs of an economic configuration, its seven amounts and four thresholds by name |
| `Ledger.EveryRunKeepsIntegrity` | database/migrations/versions/20260819_073309_29d14fe0fcee_add_the_analysis_and_image_schema.py:249-270 | After any statements every foreign key among these tables resolves, and every CHECK and unique constraint on the columns modelled holds |
| `Ledger.CardsMatchTheirSets` | database/migrations/versions/20260818_125412_0d60d1982d83_add_the_card_catalog_schema.py:235-243 | In every reachable state each card's game and language are its set's |
| `Ledger.PrintingsAreStoredOnce` | database/migrations/versions/20260818_125412_0d60d1982d83_add_the_card_catalog_schema.py:244-253 | In every reachable state a set, number and variant, or no variant, name one card |
| `Ledger.OnlyVariantlessPrintingsRepeat` | database/migrations/versions/20260818_125412_0d60d1982d83_add_the_card_catalog_schema.py:244-253 | Judged without NULLS NOT DISTINCT, in every run two cards of one printing can only be cards without a variant |
| `Ledger.WithoutNullsNotDistinctACardRepeats` | database/migrations/versions/20260818_125412_0d60d1982d83_add_the_card_catalog_schema.py:244-253 | And then they can: a run that stores the same variant-less card twice |
| `Ledger.MarketTypeIsNeverWrong` | database/migrations/versions/20260824_add_the_market_data_schema.py:357-364 | In every reachable state the generated type is 'graded' iff the price carries a company and a grade, 'raw' iff it carries neither |
| `Ledger.WithoutPairingAGradedPriceMayLackAGrade` | database/migrations/versions/20260824_add_the_market_data_schema.py:358-364 | A price every other CHECK passes, typed 'graded' without a grade, that only the pairing CHECK refuses |
| `Ledger.FailuresSayWhy` | database/migrations/versions/20260906_record_why_an_analysis_failed.py:111-122 | In every reachable state an analysis carries a failure code and reason, from the known ones, iff it failed |
| `Ledger.ForeignPricesNameTheirRate` | database/migrations/versions/20260915_record_exchange_rates_and_market_quarantine.py:165-182 | In every reachable state a price in SGD stands as quoted and names no rate, and any other names a stored, positive one |
| `Ledger.AtMostSixPhotographs` | database/migrations/versions/20260819_073309_29d14fe0fcee_add_the_analysis_and_image_schema.py:392-404 | In every reachable state an analysis has at most six photographs |
| `Ledger.DeletesRemoveTheLeast` | database/migrations/versions/20260819_073309_29d14fe0fcee_add_the_analysis_and_image_schema.py:250-262 | Any part of the database that has integrity and lacks the deleted row is still there afterwards: a cascade removes no more than it must |
| `Ledger.DeletingASession` | database/migrations/versions/20260819_073309_29d14fe0fcee_add_the_analysis_and_image_schema.py:398-404 | Always accepted, and removes exactly the session, its analyses and their photographs |
| `Ledger.DeletingACard` | database/migrations/versions/20260819_073309_29d14fe0fcee_add_the_analysis_and_image_schema.py:256-262 | Refused iff an analysis, a price, a training image or a reported grade names the card; otherwise it goes with exactly its external ids |
| `Ledger.NamedRowsStay` | database/migrations/versions/20260824_add_the_market_snapshot_schema.py:172-179 | No statement removes or rewrites a snapshot or configuration an analysis names, a provider a snapshot names, or an exchange rate a price names |
| `Ledger.AnalysesStayReproducible` | database/migrations/versions/20260827_add_the_economic_configuration_schema.py:92-99 | Through any run, while an analysis stays stored its written record columns keep their values, and the snapshot, its provider's terms and the configuration it names keep theirs |
| `Ledger.LedgerStore.WriteSet` | database/migrations/versions/20260818_125412_0d60d1982d83_add_the_card_catalog_schema.py:129-134 | Refused iff the id is stored, another row is the same set, or a card names the set and would go or no longer match; otherwise exactly that row is written |
| `Ledger.LedgerStore.WriteCard` | database/migrations/versions/20260818_125412_0d60d1982d83_add_the_card_catalog_schema.py:234-253 | Refused iff the id is stored, the set is not one of its game and language, another card is the same printing, or a DELETE is restricted by an analysis, a price, a training image or a reported grade; a DELETE takes exactly its external ids along |
| `Ledger.LedgerStore.WriteExternalId` | database/migrations/versions/20260818_125412_0d60d1982d83_add_the_card_catalog_schema.py:298-310 | Refused iff the id or the link is stored or the card is not; otherwise exactly that row is written |
| `Ledger.LedgerStore.DeleteSession` | database/migrations/versions/20260819_073309_29d14fe0fcee_add_the_analysis_and_image_schema.py:249-255 | Never refused; exactly the session, its analyses and their photographs go |
| `Ledger.LedgerStore.WriteSession` | database/migrations/versions/20260819_073309_29d14fe0fcee_add_the_analysis_and_image_schema.py:249-255 | Refused iff the id or token is stored, the status unknown or the end not after the start; a DELETE cascades |
| `Ledger.LedgerStore.WriteAnalysis` | database/migrations/versions/20260822_add_the_reproducibility_record.py:111-117 | Refused iff the id is stored, a record column with a value would get another, a CHECK fails or a key names nothing; otherwise exactly that row is written, and a DELETE takes exactly its photographs along |
| `Ledger.LedgerStore.WritePhotograph` | database/migrations/versions/20260819_073309_29d14fe0fcee_add_the_analysis_and_image_schema.py:392-404 | Refused iff the id is stored, a CHECK fails, the analysis is not stored or has a photograph of that side; otherwise exactly that row is written |
| `Ledger.LedgerStore.WriteProvider` | database/migrations/versions/20260824_add_the_market_data_schema.py:108-112 | Refused iff an UPDATE reaches a row, the id or slug and version are stored, the slug is malformed, or a snapshot, price, quarantined record or run names the provider to be deleted |
| `Ledger.LedgerStore.WriteSnapshot` | database/migrations/versions/20260824_add_the_market_snapshot_schema.py:170-179 | Refused iff an UPDATE reaches a row, the id is stored or the provider is not, or an analysis or run names the snapshot to be deleted |
| `Ledger.LedgerStore.WriteObservation` | database/migrations/versions/20260824_add_the_market_data_schema.py:357-389 | Refused iff an UPDATE reaches a row, the id is stored, a CHECK fails or a key names nothing; a DELETE never is |
| `Ledger.LedgerStore.WriteConfiguration` | database/migrations/versions/20260827_add_the_economic_configuration_schema.py:281-316 | Refused iff an UPDATE reaches a row, the id is stored, a CHECK fails, or an analysis names the configuration to be deleted |
| `Ledger.LedgerStore.WriteRate` | database/migrations/versions/20260915_record_exchange_rates_and_market_quarantine.py:137-155 | Refused iff an UPDATE reaches a row, the id or the day of the pair is stored, a CHECK fails, or a price names the rate to be deleted |
| `Ledger.LedgerStore.WriteTrainingImage` | database/migrations/versions/20260828_add_the_dataset_and_provenance_schema.py:296-298 | Refused iff the id is stored or the card it names is not; otherwise exactly that reference is written |
| `Ledger.LedgerStore.WriteFeedback` | database/migrations/versions/20260908_keep_a_prediction_for_a_reported_grade.py:277-282 | Refused iff the id is stored or the card is not; otherwise exactly that reference is written |
| `Ledger.LedgerStore.WriteQuarantined` | database/migrations/versions/20260915_record_exchange_rates_and_market_quarantine.py:243-260 | Refused iff an UPDATE reaches a row, the id is stored or the provider is not |
| `Ledger.LedgerStore.WriteRun` | database/migrations/versions/20260915_record_market_ingestion_runs.py:112-123 | Refused iff the id is stored or a provider or snapshot it names is not; otherwise exactly those keys are written |

## Left out

- Viewport.Run: floating-point rounding, NaN and infinities, and the non-finite guard of `unitInterval`; sizes of zero or less beyond the fallback of `fitScale`.
- Angles.BeforeIsAStrictWeakOrder: `atan2` of a negative zero, which differs from that of zero only in sign.
- Quads.OrderedQuad: lists of other than four points, which the caller never passes; `Array.sort` is the stable sort proved unique.
- TiltedCards.TiltIsInvisibleIff: cards and clicks anywhere in the plane rather than only inside the artifact.
- Centering.CenteringIgnoresTheTilt: lengths are witnesses of the defining equation rather than computed square roots.
- The viewport's `transformOf` and `showsRealPixels`, which only format or compare.
- MarketSnapshots.CutIsReproducibleIff: a key still uncommitted elsewhere is refused at once rather than waited for; clock times are distinct, and provider and card keys are in `Ledger`.
- MarketSnapshots.SnapshotsAreForever: the machine has no DELETE of snapshots; `Ledger` has one, refused while an analysis or an ingestion run names the row.
- MarketSnapshots.OnePriceAKey: the order of the returned tuple, and the validation of a grade when it is read back.
- AmountInput.ProportionToPercentIsExact: a leading minus, which `results-copy.ts` can pass and the digit grammar does not cover.
- AmountInput.ParseAmountSendsWhatWasTyped: amounts too large for the column, which the server refuses.
- CardSearch.ParsedQueriesAreNormal: an offset of more than 308 digits, which `parseInt` reads as infinity and the source turns into 0.
- CardSearch.LinkNormalises: Unicode case folding beyond results in a-z, and percent-encoding; parameters are a map, one value a name.
- Corpus.EveryRunKeepsIntegrity: the grammar of a dataset version, its generated ordinal, polygons, and columns without a constraint.
- Corpus.CorpusStore.InsertBundle: a registered model by the version it names; its other columns, and the lifecycle of its status.
- Corpus.MembersAreFrozen: membership may still grow after publication, and nothing guards a DELETE of a member or version; the schema enforces neither.
- Ledger.GuardsAreExact: training images, reported grades, quarantined records and ingestion runs are there by the keys they hold; the training images' other constraints are in `Corpus`, those of the rest are not modelled.
- Ledger.EveryRunKeepsIntegrity: columns without a constraint, changes of a primary key, TRUNCATE, and statements that reach several rows at once; rows change one statement at a time.
- Ledger.LedgerStore.WriteAnalysis: which status may follow which; the tables only know the nine names.
- Ledger.LedgerStore.WriteConfiguration: the seven amounts and four thresholds are two maps by column, amounts in cents.
- GradingRules.RulesTable.Insert: the JSON of the rules and the columns no query here reads.
- Grading outcomes, which go by CASCADE with the physical copy they describe; indexes, collations, comments and `downgrade`.
- The analysis state machine, the economic engine, the HTTP clients, the React components and the wording tables.
