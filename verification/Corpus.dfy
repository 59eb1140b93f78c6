/**
  The training corpus: images with their rights, frozen dataset versions and their members, and what
  hangs off an image. Rows are changed only by the statements below, each refused or carried out whole.
 */
module Corpus {
  import opened Prelude
  import opened Provenance
  import opened AnnotationChecks

  type Id = string

  datatype Copy = Copy(company: Option<string>, number: Option<string>)

  datatype Fingerprint = Fingerprint(hash: Option<string>, rotated: Option<string>, version: string)

  datatype Tables = Tables(
    cards: set<Id>,
    copies: map<Id, Copy>,
    images: map<Id, TrainingImage>,
    versions: map<Id, string>,
    bundles: map<Id, string>,
    members: map<(Id, Id), string>,
    annotations: map<Id, (Id, Marker)>,
    measurements: map<Id, (Id, Measurement)>,
    fingerprints: map<Id, Fingerprint>)

  const EMPTY := Tables({}, map[], map[], map[], map[], map[], map[], map[], map[])

  const SPLITS: set<string> := {"train", "validation", "test"}

  const COMPANIES: set<string> := {"psa", "tag", "bgs"}

  datatype Statement =
    | InsertCard(id: Id)
    | DeleteCard(id: Id)
    | InsertCopy(id: Id, copy: Copy)
    | UpdateCopy(id: Id, copy: Copy)
    | DeleteCopy(id: Id)
    | InsertImage(id: Id, row: TrainingImage)
    | UpdateImage(id: Id, row: TrainingImage)
    | DeleteImage(id: Id)
    | InsertVersion(id: Id, version: string)
    | UpdateVersion(id: Id, version: string)
    | DeleteVersion(id: Id)
    | InsertBundle(id: Id, version: string)
    | UpdateBundle(id: Id, version: string)
    | DeleteBundle(id: Id)
    | InsertMember(dataset: Id, image: Id, split: string)
    | UpdateMember(dataset: Id, image: Id, split: string)
    | DeleteMember(dataset: Id, image: Id)
    | InsertAnnotation(id: Id, image: Id, marker: Marker)
    | UpdateAnnotation(id: Id, marker: Marker)
    | DeleteAnnotation(id: Id)
    | InsertMeasurement(id: Id, image: Id, measurement: Measurement)
    | UpdateMeasurement(id: Id, measurement: Measurement)
    | DeleteMeasurement(id: Id)
    | InsertFingerprint(image: Id, fingerprint: Fingerprint)
    | UpdateFingerprint(image: Id, fingerprint: Fingerprint)
    | DeleteFingerprint(image: Id)

  // ----- Row conditions

  predicate CopyChecks(copy: Copy) {
    (copy.company.None? <==> copy.number.None?) && (copy.company.Some? ==> copy.company.value in COMPANIES)
  }

  /** `UNIQUE (certification_company, certification_number)`: NULLs are distinct, as by default. */
  predicate SameCertification(a: Copy, b: Copy) {
    a.company.Some? && a.number.Some? && a == b
  }

  predicate FingerprintChecks(f: Fingerprint) {
    && (f.hash.None? <==> f.rotated.None?)
    && (f.hash.Some? ==> IsHex(f.hash.value, 16)) && (f.rotated.Some? ==> IsHex(f.rotated.value, 16))
  }

  predicate ImageKeysHold(cards: set<Id>, copies: set<Id>, image: TrainingImage) {
    (image.copy.Some? ==> image.copy.value in copies) && (image.card.Some? ==> image.card.value in cards)
  }

  predicate ShaTaken(t: Tables, sha256: string, except: Option<Id>) {
    exists i :: i in t.images && Some(i) != except && t.images[i].sha256 == sha256
  }

  predicate CertificationTaken(t: Tables, copy: Copy, except: Option<Id>) {
    exists c :: c in t.copies && Some(c) != except && SameCertification(t.copies[c], copy)
  }

  predicate IsNamed(versions: map<Id, string>, version: string) {
    exists v :: v in versions && versions[v] == version
  }

  predicate ShowsCard(t: Tables, id: Id) {
    exists i :: i in t.images && t.images[i].card == Some(id)
  }

  predicate ShowsCopy(t: Tables, id: Id) {
    exists i :: i in t.images && t.images[i].copy == Some(id)
  }

  /** A registered model was trained on the version. */
  predicate TrainedOn(t: Tables, id: Id) {
    id in t.versions && exists b :: b in t.bundles && t.bundles[b] == t.versions[id]
  }

  /** Some frozen version names the image. */
  predicate IsMember(t: Tables, image: Id) {
    exists key :: key in t.members && key.1 == image
  }

  /** Primary keys, unique constraints, CHECKs, foreign keys and triggers, as each applies. */
  predicate Refused(t: Tables, s: Statement) {
    match s
    case InsertCard(id) => id in t.cards
    case DeleteCard(id) => ShowsCard(t, id)
    case InsertCopy(id, copy) => id in t.copies || !CopyChecks(copy) || CertificationTaken(t, copy, None)
    case UpdateCopy(id, copy) => id in t.copies && (!CopyChecks(copy) || CertificationTaken(t, copy, Some(id)))
    case DeleteCopy(id) => ShowsCopy(t, id)
    case InsertImage(id, image) =>
      id in t.images || !ImageChecks(image) || !ImageKeysHold(t.cards, t.copies.Keys, image)
          || ShaTaken(t, image.sha256, None)
    case UpdateImage(id, image) =>
      id in t.images && (!ImageChecks(image) || !ImageKeysHold(t.cards, t.copies.Keys, image)
                         || ShaTaken(t, image.sha256, Some(id)))
    case DeleteImage(id) => IsMember(t, id)
    case InsertVersion(id, version) => id in t.versions || IsNamed(t.versions, version)
    case UpdateVersion(id, _) => id in t.versions
    case DeleteVersion(id) => TrainedOn(t, id)
    case InsertBundle(id, version) => id in t.bundles || !IsNamed(t.versions, version)
    case UpdateBundle(id, version) => id in t.bundles && version != t.bundles[id]
    case DeleteBundle(id) => id in t.bundles
    case InsertMember(version, image, split) =>
      (version, image) in t.members || version !in t.versions || image !in t.images || split !in SPLITS
    case UpdateMember(version, image, _) => (version, image) in t.members
    case DeleteMember(_, _) => false
    case InsertAnnotation(id, image, marker) => id in t.annotations || image !in t.images || !Admitted(marker)
    case UpdateAnnotation(id, _) => id in t.annotations
    case DeleteAnnotation(_) => false
    case InsertMeasurement(id, image, measurement) =>
      id in t.measurements || image !in t.images || !MeasurementAdmitted(measurement)
    case UpdateMeasurement(id, _) => id in t.measurements
    case DeleteMeasurement(_) => false
    case InsertFingerprint(image, fingerprint) =>
      image in t.fingerprints || image !in t.images || !FingerprintChecks(fingerprint)
    case UpdateFingerprint(image, fingerprint) => image in t.fingerprints && !FingerprintChecks(fingerprint)
    case DeleteFingerprint(_) => false
  }

  /** ON DELETE CASCADE from an image to its annotations. */
  function WithoutAnnotationsOf(annotations: map<Id, (Id, Marker)>, image: Id): map<Id, (Id, Marker)> {
    map a | a in annotations && annotations[a].0 != image :: annotations[a]
  }

  function WithoutMeasurementsOf(measurements: map<Id, (Id, Measurement)>, image: Id): map<Id, (Id, Measurement)> {
    map m | m in measurements && measurements[m].0 != image :: measurements[m]
  }

  function WithoutMembersOf(members: map<(Id, Id), string>, version: Id): map<(Id, Id), string> {
    map key | key in members && key.0 != version :: members[key]
  }

  /** An image gone, with everything that hangs off it by CASCADE. */
  function WithoutImage(t: Tables, image: Id): Tables {
    t.(images := t.images - {image}, annotations := WithoutAnnotationsOf(t.annotations, image),
       measurements := WithoutMeasurementsOf(t.measurements, image), fingerprints := t.fingerprints - {image})
  }

  /** A version gone, with its members by CASCADE. */
  function WithoutVersion(t: Tables, version: Id): Tables {
    t.(versions := t.versions - {version}, members := WithoutMembersOf(t.members, version))
  }

  /** What an accepted statement does; a refused one does nothing, and an UPDATE that reaches no row changes none. */
  function Apply(t: Tables, s: Statement): Tables {
    if Refused(t, s) then t
    else
      match s
      case InsertCard(id) => t.(cards := t.cards + {id})
      case DeleteCard(id) => t.(cards := t.cards - {id})
      case InsertCopy(id, copy) => t.(copies := t.copies[id := copy])
      case UpdateCopy(id, copy) => if id in t.copies then t.(copies := t.copies[id := copy]) else t
      case DeleteCopy(id) => t.(copies := t.copies - {id})
      case InsertImage(id, image) => t.(images := t.images[id := image])
      case UpdateImage(id, image) => if id in t.images then t.(images := t.images[id := image]) else t
      case DeleteImage(id) => WithoutImage(t, id)
      case InsertVersion(id, version) => t.(versions := t.versions[id := version])
      case UpdateVersion(_, _) => t
      case DeleteVersion(id) => WithoutVersion(t, id)
      case InsertBundle(id, version) => t.(bundles := t.bundles[id := version])
      case UpdateBundle(_, _) => t
      case DeleteBundle(_) => t
      case InsertMember(version, image, split) => t.(members := t.members[(version, image) := split])
      case UpdateMember(_, _, _) => t
      case DeleteMember(version, image) => t.(members := t.members - {(version, image)})
      case InsertAnnotation(id, image, marker) => t.(annotations := t.annotations[id := (image, marker)])
      case UpdateAnnotation(_, _) => t
      case DeleteAnnotation(id) => t.(annotations := t.annotations - {id})
      case InsertMeasurement(id, image, measurement) => t.(measurements := t.measurements[id := (image, measurement)])
      case UpdateMeasurement(_, _) => t
      case DeleteMeasurement(id) => t.(measurements := t.measurements - {id})
      case InsertFingerprint(image, fingerprint) => t.(fingerprints := t.fingerprints[image := fingerprint])
      case UpdateFingerprint(image, fingerprint) =>
        if image in t.fingerprints then t.(fingerprints := t.fingerprints[image := fingerprint]) else t
      case DeleteFingerprint(image) => t.(fingerprints := t.fingerprints - {image})
  }

  function Run(t: Tables, statements: seq<Statement>): Tables
    decreases |statements|
  {
    if statements == [] then t else Run(Apply(t, statements[0]), statements[1..])
  }

  // ----- Integrity

  ghost predicate CopiesHold(copies: map<Id, Copy>) {
    && (forall c :: c in copies ==> CopyChecks(copies[c]))
    && (forall a, b :: a in copies && b in copies && a != b ==> !SameCertification(copies[a], copies[b]))
  }

  ghost predicate ImagesHold(cards: set<Id>, copies: set<Id>, images: map<Id, TrainingImage>) {
    && (forall i :: i in images ==> ImageChecks(images[i]) && ImageKeysHold(cards, copies, images[i]))
    && (forall a, b :: a in images && b in images && a != b ==> images[a].sha256 != images[b].sha256)
  }

  ghost predicate VersionsHold(versions: map<Id, string>) {
    forall a, b :: a in versions && b in versions && a != b ==> versions[a] != versions[b]
  }

  ghost predicate BundlesHold(versions: map<Id, string>, bundles: map<Id, string>) {
    forall b :: b in bundles ==> IsNamed(versions, bundles[b])
  }

  ghost predicate MembersHold(versions: set<Id>, images: set<Id>, members: map<(Id, Id), string>) {
    forall key :: key in members ==> key.0 in versions && key.1 in images && members[key] in SPLITS
  }

  ghost predicate AnnotationsHold(images: set<Id>, annotations: map<Id, (Id, Marker)>) {
    forall a :: a in annotations ==> annotations[a].0 in images && Admitted(annotations[a].1)
  }

  ghost predicate MeasurementsHold(images: set<Id>, measurements: map<Id, (Id, Measurement)>) {
    forall m :: m in measurements ==> measurements[m].0 in images && MeasurementAdmitted(measurements[m].1)
  }

  ghost predicate FingerprintsHold(images: set<Id>, fingerprints: map<Id, Fingerprint>) {
    forall f :: f in fingerprints ==> f in images && FingerprintChecks(fingerprints[f])
  }

  /** Every key resolves, every CHECK holds, every unique constraint holds. */
  ghost predicate Integrity(t: Tables) {
    && CopiesHold(t.copies)
    && ImagesHold(t.cards, t.copies.Keys, t.images)
    && VersionsHold(t.versions)
    && BundlesHold(t.versions, t.bundles)
    && MembersHold(t.versions.Keys, t.images.Keys, t.members)
    && AnnotationsHold(t.images.Keys, t.annotations)
    && MeasurementsHold(t.images.Keys, t.measurements)
    && FingerprintsHold(t.images.Keys, t.fingerprints)
  }

  lemma InsertImageKeepsIntegrity(t: Tables, s: Statement)
    requires Integrity(t) && s.InsertImage?
    ensures Integrity(Apply(t, s))
  {
    hide ImageChecks, Admitted, MeasurementAdmitted, FingerprintChecks, CopiesHold, VersionsHold, BundlesHold,
      ImageKeysHold;
    if !Refused(t, s) {
      assert (t.images[s.id := s.row]).Keys == t.images.Keys + {s.id};
    }
  }

  lemma UpdateImageKeepsIntegrity(t: Tables, s: Statement)
    requires Integrity(t) && s.UpdateImage?
    ensures Integrity(Apply(t, s))
  {
    hide ImageChecks, ImageKeysHold, CopiesHold, VersionsHold, BundlesHold, MembersHold, AnnotationsHold,
      MeasurementsHold, FingerprintsHold;
    if s.id in t.images {
      assert (t.images[s.id := s.row]).Keys == t.images.Keys;
    }
  }

  lemma DeleteImageKeepsIntegrity(t: Tables, s: Statement)
    requires Integrity(t) && s.DeleteImage?
    ensures Integrity(Apply(t, s))
  {
    hide ImageChecks, ImageKeysHold, Admitted, MeasurementAdmitted, FingerprintChecks, CopiesHold, VersionsHold,
      BundlesHold;
    if !Refused(t, s) {
      assert (t.images - {s.id}).Keys == t.images.Keys - {s.id};
    }
  }

  lemma ParentStatementsKeepIntegrity(t: Tables, s: Statement)
    requires Integrity(t) && (s.InsertCard? || s.DeleteCard? || s.InsertCopy? || s.UpdateCopy? || s.DeleteCopy?)
    ensures Integrity(Apply(t, s))
  {
    hide ImageChecks, VersionsHold, BundlesHold, MembersHold, AnnotationsHold, MeasurementsHold, FingerprintsHold;
  }

  lemma VersionWritesKeepIntegrity(t: Tables, s: Statement)
    requires Integrity(t) && (s.InsertVersion? || s.UpdateVersion?)
    ensures Integrity(Apply(t, s))
  {
    if s.InsertVersion? && s.id !in t.versions {
      NewVersionKeepsBundles(t.versions, t.bundles, s.id, s.version);
    }
    hide CopiesHold, ImagesHold, BundlesHold, AnnotationsHold, MeasurementsHold, FingerprintsHold;
  }

  lemma VersionDeletesKeepIntegrity(t: Tables, s: Statement)
    requires Integrity(t) && s.DeleteVersion?
    ensures Integrity(Apply(t, s))
  {
    if !TrainedOn(t, s.id) {
      UntrainedVersionLeavesBundles(t, s.id);
    }
    hide CopiesHold, ImagesHold, BundlesHold, AnnotationsHold, MeasurementsHold, FingerprintsHold, TrainedOn;
  }

  lemma NewVersionKeepsBundles(versions: map<Id, string>, bundles: map<Id, string>, id: Id, version: string)
    requires BundlesHold(versions, bundles) && id !in versions
    ensures BundlesHold(versions[id := version], bundles)
  {
    var after := versions[id := version];
    forall b | b in bundles ensures IsNamed(after, bundles[b]) {
      var v :| v in versions && versions[v] == bundles[b];
      assert after[v] == bundles[b];
    }
  }

  lemma UntrainedVersionLeavesBundles(t: Tables, id: Id)
    requires BundlesHold(t.versions, t.bundles) && !TrainedOn(t, id)
    ensures BundlesHold(t.versions - {id}, t.bundles)
  {
    var after := t.versions - {id};
    forall b | b in t.bundles ensures IsNamed(after, t.bundles[b]) {
      var v :| v in t.versions && t.versions[v] == t.bundles[b];
      assert after[v] == t.bundles[b];
    }
  }

  lemma MemberStatementsKeepIntegrity(t: Tables, s: Statement)
    requires Integrity(t) && (s.InsertMember? || s.UpdateMember? || s.DeleteMember?)
    ensures Integrity(Apply(t, s))
  {
    hide CopiesHold, ImagesHold, VersionsHold, BundlesHold, AnnotationsHold, MeasurementsHold, FingerprintsHold;
  }

  lemma BundleStatementsKeepIntegrity(t: Tables, s: Statement)
    requires Integrity(t) && (s.InsertBundle? || s.UpdateBundle? || s.DeleteBundle?)
    ensures Integrity(Apply(t, s))
  {
    hide CopiesHold, ImagesHold, VersionsHold, MembersHold, AnnotationsHold, MeasurementsHold, FingerprintsHold;
  }

  lemma ChildStatementsKeepIntegrity(t: Tables, s: Statement)
    requires Integrity(t)
    requires s.InsertAnnotation? || s.UpdateAnnotation? || s.DeleteAnnotation? || s.InsertMeasurement?
            || s.UpdateMeasurement?
             || s.DeleteMeasurement? || s.InsertFingerprint? || s.UpdateFingerprint? || s.DeleteFingerprint?
    ensures Integrity(Apply(t, s))
  {
    hide Admitted, MeasurementAdmitted, FingerprintChecks, CopiesHold, ImagesHold, VersionsHold, BundlesHold,
      MembersHold;
  }

  lemma ApplyKeepsIntegrity(t: Tables, s: Statement)
    requires Integrity(t)
    ensures Integrity(Apply(t, s))
  {
    hide Integrity, Apply;
    if s.InsertImage? {
      InsertImageKeepsIntegrity(t, s);
    } else if s.UpdateImage? {
      UpdateImageKeepsIntegrity(t, s);
    } else if s.DeleteImage? {
      DeleteImageKeepsIntegrity(t, s);
    } else if s.InsertCard? || s.DeleteCard? || s.InsertCopy? || s.UpdateCopy? || s.DeleteCopy? {
      ParentStatementsKeepIntegrity(t, s);
    } else if s.InsertVersion? || s.UpdateVersion? {
      VersionWritesKeepIntegrity(t, s);
    } else if s.DeleteVersion? {
      VersionDeletesKeepIntegrity(t, s);
    } else if s.InsertBundle? || s.UpdateBundle? || s.DeleteBundle? {
      BundleStatementsKeepIntegrity(t, s);
    } else if s.InsertMember? || s.UpdateMember? || s.DeleteMember? {
      MemberStatementsKeepIntegrity(t, s);
    } else {
      ChildStatementsKeepIntegrity(t, s);
    }
  }

  lemma {:induction false} EveryRunKeepsIntegrity(t: Tables, statements: seq<Statement>)
    requires Integrity(t)
    ensures Integrity(Run(t, statements))
    decreases |statements|
  {
    hide Integrity;
    if statements != [] {
      ApplyKeepsIntegrity(t, statements[0]);
      EveryRunKeepsIntegrity(Apply(t, statements[0]), statements[1..]);
    }
  }

  lemma ReachableHasIntegrity(statements: seq<Statement>)
    ensures Integrity(Run(EMPTY, statements))
  {
    hide Run;
    EveryRunKeepsIntegrity(EMPTY, statements);
  }

  /** In every reachable state, every member of every version is a stored image that may be trained on. */
  lemma EveryMemberMayBeTrainedOn(statements: seq<Statement>, version: Id, image: Id)
    requires (version, image) in Run(EMPTY, statements).members
    ensures var t := Run(EMPTY, statements);
            version in t.versions && image in t.images && MayTrain(t.images[image])
  {
    ReachableHasIntegrity(statements);
    GateMeansMayTrain(Run(EMPTY, statements).images[image]);
    hide Run, CopiesHold, VersionsHold, BundlesHold, AnnotationsHold, MeasurementsHold, FingerprintsHold, MayTrain,
      Gate, ImageKeysHold;
  }

  /** And every stored marker is well formed, every stored reading a pair of shares. */
  lemma EveryStoredMarkerIsWellFormed(statements: seq<Statement>, id: Id)
    requires id in Run(EMPTY, statements).annotations
    ensures var t := Run(EMPTY, statements);
            t.annotations[id].0 in t.images && WellFormed(t.annotations[id].1)
  {
    ReachableHasIntegrity(statements);
    ChecksAdmitExactlyTheWellFormed(Run(EMPTY, statements).annotations[id].1);
    hide Run, CopiesHold, ImagesHold, VersionsHold, BundlesHold, MembersHold, MeasurementsHold, FingerprintsHold,
      Admitted, WellFormed;
  }

  // ----- Deleting an image

  /**
    Deleting an image goes through iff no version names it, and then takes with it exactly its annotations,
    its measurements and its fingerprint.
   */
  lemma DeletingAnImage(t: Tables, id: Id)
    ensures Refused(t, DeleteImage(id)) <==> exists version :: (version, id) in t.members
    ensures var after := Apply(t, DeleteImage(id));
            if Refused(t, DeleteImage(id)) then after == t
            else
              && after.images == t.images - {id}
              && (forall a :: a in after.annotations <==> a in t.annotations && t.annotations[a].0 != id)
              && (forall a :: a in after.annotations ==> after.annotations[a] == t.annotations[a])
              && (forall m :: m in after.measurements <==> m in t.measurements && t.measurements[m].0 != id)
              && (forall m :: m in after.measurements ==> after.measurements[m] == t.measurements[m])
              && after.fingerprints == t.fingerprints - {id}
              && after.members == t.members && after.versions == t.versions
              && after.copies == t.copies && after.cards == t.cards
  {
    if IsMember(t, id) {
      var key :| key in t.members && key.1 == id;
      assert key == (key.0, id);
    }
  }

  /** RESTRICT refuses exactly the deletions that would leave a version naming an image that is gone. */
  lemma RestrictIsExact(t: Tables, id: Id)
    requires Integrity(t)
    ensures Refused(t, DeleteImage(id)) <==> !Integrity(WithoutImage(t, id))
  {
    hide CopiesHold, ImagesHold, VersionsHold, BundlesHold, AnnotationsHold, MeasurementsHold, FingerprintsHold;
    if Refused(t, DeleteImage(id)) {
      MembersPinTheirImage(t, id);
    } else {
      hide MembersHold;
      ApplyKeepsIntegrity(t, DeleteImage(id));
    }
  }

  lemma MembersPinTheirImage(t: Tables, id: Id)
    requires Refused(t, DeleteImage(id))
    ensures !Integrity(WithoutImage(t, id))
  {
    hide CopiesHold, ImagesHold, VersionsHold, BundlesHold, AnnotationsHold, MeasurementsHold, FingerprintsHold;
    var key :| key in t.members && key.1 == id;
    assert key.1 !in WithoutImage(t, id).images;
  }

  /** And exactly those that would leave a registered model without the version it was trained on. */
  lemma VersionRestrictIsExact(t: Tables, id: Id)
    requires Integrity(t)
    ensures Refused(t, DeleteVersion(id)) <==> !Integrity(WithoutVersion(t, id))
  {
    if TrainedOn(t, id) {
      var b :| b in t.bundles && t.bundles[b] == t.versions[id];
      assert b in WithoutVersion(t, id).bundles;
      assert !BundlesHold(WithoutVersion(t, id).versions, t.bundles);
    } else {
      ApplyKeepsIntegrity(t, DeleteVersion(id));
    }
    hide CopiesHold, ImagesHold, VersionsHold, BundlesHold, MembersHold, AnnotationsHold, MeasurementsHold,
      FingerprintsHold;
  }

  // ----- What a frozen version keeps

  /** The statements that take a member out: its own DELETE, or its version's. */
  predicate Removes(s: Statement, version: Id, image: Id) {
    s == DeleteVersion(version) || s == DeleteMember(version, image)
  }

  /**
    Until a DELETE names it, a member keeps its split and its version its name, and the image stays stored
    and trainable, whatever else is inserted, corrected or deleted.
   */
  lemma {:induction false} MembersAreFrozen(t: Tables, statements: seq<Statement>, version: Id, image: Id)
    requires Integrity(t) && (version, image) in t.members
    requires forall i :: 0 <= i < |statements| ==> !Removes(statements[i], version, image)
    ensures var after := Run(t, statements);
            && (version, image) in after.members && after.members[(version, image)] == t.members[(version, image)]
            && version in t.versions && version in after.versions && after.versions[version] == t.versions[version]
            && image in after.images && MayTrain(after.images[image])
    decreases |statements|
  {
    if statements == [] {
      GateMeansMayTrain(t.images[image]);
    } else {
      var next := Apply(t, statements[0]);
      ApplyKeepsIntegrity(t, statements[0]);
      MemberSurvives(t, statements[0], version, image);
      hide Integrity, Apply;
      MembersAreFrozen(next, statements[1..], version, image);
    }
  }

  lemma MemberSurvives(t: Tables, s: Statement, version: Id, image: Id)
    requires Integrity(t) && (version, image) in t.members && !Removes(s, version, image)
    ensures var after := Apply(t, s);
            && (version, image) in after.members && after.members[(version, image)] == t.members[(version, image)]
            && version in t.versions && version in after.versions && after.versions[version] == t.versions[version]
  {
    hide CopiesHold, ImagesHold, VersionsHold, BundlesHold, AnnotationsHold, MeasurementsHold, FingerprintsHold;
    if !(s.InsertVersion? || s.InsertMember? || s.DeleteVersion? || s.DeleteMember?) {
      OthersLeaveVersionsAlone(t, s);
      hide Apply, Refused;
    }
  }

  lemma OthersLeaveVersionsAlone(t: Tables, s: Statement)
    requires !(s.InsertVersion? || s.InsertMember? || s.DeleteVersion? || s.DeleteMember?)
    ensures Apply(t, s).versions == t.versions && Apply(t, s).members == t.members
  {
    hide Refused;
  }

  // ----- Which statements touch the tables shared with the catalog

  lemma OthersLeaveCardsAlone(t: Tables, s: Statement)
    requires !s.InsertCard? && !s.DeleteCard?
    ensures Apply(t, s).cards == t.cards
  {
    hide Refused;
  }

  lemma OthersLeaveImagesAlone(t: Tables, s: Statement)
    requires !s.InsertImage? && !s.UpdateImage? && !s.DeleteImage?
    ensures Apply(t, s).images == t.images
  {
    hide Refused;
  }

  // ----- What a registered model keeps

  /**
    A registered model can be neither rewritten nor deleted, so the dataset version it was trained on stays
    stored under its name through any statements at all.
   */
  lemma {:induction false} TrainingVersionsAreForever(t: Tables, statements: seq<Statement>, bundle: Id, version: Id)
    requires bundle in t.bundles && version in t.versions && t.versions[version] == t.bundles[bundle]
    ensures var after := Run(t, statements);
            && bundle in after.bundles && after.bundles[bundle] == t.bundles[bundle]
            && version in after.versions && after.versions[version] == t.bundles[bundle]
    decreases |statements|
  {
    hide Apply;
    if statements != [] {
      StepKeepsTheTrainingVersion(t, statements[0], bundle, version);
      TrainingVersionsAreForever(Apply(t, statements[0]), statements[1..], bundle, version);
    }
  }

  lemma StepKeepsTheTrainingVersion(t: Tables, s: Statement, bundle: Id, version: Id)
    requires bundle in t.bundles && version in t.versions && t.versions[version] == t.bundles[bundle]
    ensures var after := Apply(t, s);
            && bundle in after.bundles && after.bundles[bundle] == t.bundles[bundle]
            && version in after.versions && after.versions[version] == t.versions[version]
  {
    if s.InsertVersion? || s.DeleteVersion? || s.InsertBundle? {
      assert TrainedOn(t, version);
      hide IsNamed;
    } else {
      OthersLeaveBundlesAlone(t, s);
      hide Apply;
    }
  }

  lemma OthersLeaveBundlesAlone(t: Tables, s: Statement)
    requires !(s.InsertVersion? || s.DeleteVersion? || s.InsertBundle?)
    ensures Apply(t, s).versions == t.versions && Apply(t, s).bundles == t.bundles
  {
    hide Refused;
  }

  // ----- The store

  class CorpusStore {
    var cards: set<Id>
    var copies: map<Id, Copy>
    var images: map<Id, TrainingImage>
    var versions: map<Id, string>
    var bundles: map<Id, string>
    var members: map<(Id, Id), string>
    var annotations: map<Id, (Id, Marker)>
    var measurements: map<Id, (Id, Measurement)>
    var fingerprints: map<Id, Fingerprint>

    function State(): Tables
      reads this
    {
      Tables(cards, copies, images, versions, bundles, members, annotations, measurements, fingerprints)
    }

    ghost predicate Valid()
      reads this
    {
      Integrity(State())
    }

    /** The statement was refused as it should be, and the whole state is what it should be. */
    ghost predicate Did(before: Tables, s: Statement, refused: bool)
      reads this
    {
      Valid() && refused == Refused(before, s) && State() == Apply(before, s)
    }

    constructor ()
      ensures Valid() && State() == EMPTY
    {
      cards, copies, images, versions, bundles := {}, map[], map[], map[], map[];
      members, annotations, measurements, fingerprints := map[], map[], map[], map[];
    }

    method InsertCard(id: Id) returns (refused: bool)
      requires Valid()
      modifies this`cards
      ensures Did(old(State()), Statement.InsertCard(id), refused)
      ensures refused <==> id in old(cards)
      ensures cards == old(cards) + {id}
    {
      hide Integrity;
      ApplyKeepsIntegrity(State(), Statement.InsertCard(id));
      refused := id in cards;
      if !refused { cards := cards + {id}; }
    }

    method DeleteCard(id: Id) returns (refused: bool)
      requires Valid()
      modifies this`cards
      ensures Did(old(State()), Statement.DeleteCard(id), refused)
      ensures refused <==> exists i :: i in images && images[i].card == Some(id)
      ensures cards == if refused then old(cards) else old(cards) - {id}
    {
      hide Integrity;
      ApplyKeepsIntegrity(State(), Statement.DeleteCard(id));
      hide ShowsCard;
      refused := ShowsCard(State(), id);
      if !refused { cards := cards - {id}; }
    }

    method InsertCopy(id: Id, copy: Copy) returns (refused: bool)
      requires Valid()
      modifies this`copies
      ensures Did(old(State()), Statement.InsertCopy(id, copy), refused)
      ensures refused <==>
                || id in old(copies)
                || (copy.company.None? && copy.number.Some?) || (copy.company.Some? && copy.number.None?)
                || (copy.company.Some? && copy.company.value !in {"psa", "tag", "bgs"})
                || (copy.company.Some? && exists c :: c in old(copies) && old(copies)[c] == copy)
      ensures copies == if refused then old(copies) else old(copies)[id := copy]
    {
      hide Integrity;
      ApplyKeepsIntegrity(State(), Statement.InsertCopy(id, copy));
      refused := id in copies || !CopyChecks(copy) || CertificationTaken(State(), copy, None);
      if !refused { copies := copies[id := copy]; }
    }

    method UpdateCopy(id: Id, copy: Copy) returns (refused: bool)
      requires Valid()
      modifies this`copies
      ensures Did(old(State()), Statement.UpdateCopy(id, copy), refused)
      ensures refused <==>
                id in old(copies)
                && (|| (copy.company.None? && copy.number.Some?) || (copy.company.Some? && copy.number.None?)
                    || (copy.company.Some? && copy.company.value !in {"psa", "tag", "bgs"})
                    || (copy.company.Some? && exists c :: c in old(copies) && c != id && old(copies)[c] == copy))
      ensures copies == if id !in old(copies) || refused then old(copies) else old(copies)[id := copy]
    {
      hide Integrity;
      ApplyKeepsIntegrity(State(), Statement.UpdateCopy(id, copy));
      refused := id in copies && (!CopyChecks(copy) || CertificationTaken(State(), copy, Some(id)));
      if id in copies && !refused { copies := copies[id := copy]; }
    }

    method DeleteCopy(id: Id) returns (refused: bool)
      requires Valid()
      modifies this`copies
      ensures Did(old(State()), Statement.DeleteCopy(id), refused)
      ensures refused <==> exists i :: i in images && images[i].copy == Some(id)
      ensures copies == if refused then old(copies) else old(copies) - {id}
    {
      hide Integrity;
      ApplyKeepsIntegrity(State(), Statement.DeleteCopy(id));
      hide ShowsCopy;
      refused := ShowsCopy(State(), id);
      if !refused { copies := copies - {id}; }
    }

    method InsertImage(id: Id, row: TrainingImage) returns (refused: bool)
      requires Valid()
      modifies this`images
      ensures Did(old(State()), Statement.InsertImage(id, row), refused)
      ensures refused <==>
                || id in old(images) || !ImageChecks(row)
                || (row.copy.Some? && row.copy.value !in copies) || (row.card.Some? && row.card.value !in cards)
                || exists i :: i in old(images) && old(images)[i].sha256 == row.sha256
      ensures images == if refused then old(images) else old(images)[id := row]
      ensures !refused ==> MayTrain(row)
    {
      hide Integrity;
      ApplyKeepsIntegrity(State(), Statement.InsertImage(id, row));
      GateMeansMayTrain(row);
      refused := id in images || !ImageChecks(row) || !ImageKeysHold(cards, copies.Keys, row)
          || ShaTaken(State(), row.sha256, None);
      if !refused { images := images[id := row]; }
    }

    /** An image's card or provenance may be corrected, but never out of the gate. */
    method UpdateImage(id: Id, row: TrainingImage) returns (refused: bool)
      requires Valid()
      modifies this`images
      ensures Did(old(State()), Statement.UpdateImage(id, row), refused)
      ensures refused <==>
                id in old(images)
                && (|| !ImageChecks(row)
                    || (row.copy.Some? && row.copy.value !in copies) || (row.card.Some? && row.card.value !in cards)
                    || exists i :: i in old(images) && i != id && old(images)[i].sha256 == row.sha256)
      ensures images == if id !in old(images) || refused then old(images) else old(images)[id := row]
      ensures id in images && !refused ==> MayTrain(row)
    {
      hide Integrity;
      ApplyKeepsIntegrity(State(), Statement.UpdateImage(id, row));
      GateMeansMayTrain(row);
      refused := id in images
          && (!ImageChecks(row) || !ImageKeysHold(cards, copies.Keys, row) || ShaTaken(State(), row.sha256, Some(id)));
      if id in images && !refused { images := images[id := row]; }
    }

    /** RESTRICT from members, CASCADE to everything derived from the bytes. */
    method DeleteImage(id: Id) returns (refused: bool)
      requires Valid()
      modifies this`images, this`annotations, this`measurements, this`fingerprints
      ensures Did(old(State()), Statement.DeleteImage(id), refused)
      ensures refused <==> exists version :: (version, id) in members
      ensures refused ==> State() == old(State())
      ensures !refused ==> images == old(images) - {id} && fingerprints == old(fingerprints) - {id}
      ensures !refused ==> forall a :: a in annotations <==> a in old(annotations) && old(annotations)[a].0 != id
      ensures forall a :: a in annotations ==> annotations[a] == old(annotations)[a]
      ensures !refused ==> forall m :: m in measurements <==> m in old(measurements) && old(measurements)[m].0 != id
      ensures forall m :: m in measurements ==> measurements[m] == old(measurements)[m]
    {
      hide Integrity;
      ApplyKeepsIntegrity(State(), Statement.DeleteImage(id));
      hide WithoutAnnotationsOf, WithoutMeasurementsOf, IsMember;
      refused := IsMember(State(), id);
      if !refused {
        images := images - {id};
        annotations := WithoutAnnotationsOf(annotations, id);
        measurements := WithoutMeasurementsOf(measurements, id);
        fingerprints := fingerprints - {id};
      }
    }

    method InsertVersion(id: Id, version: string) returns (refused: bool)
      requires Valid()
      modifies this`versions
      ensures Did(old(State()), Statement.InsertVersion(id, version), refused)
      ensures refused <==> id in old(versions) || exists v :: v in old(versions) && old(versions)[v] == version
      ensures versions == if refused then old(versions) else old(versions)[id := version]
    {
      hide Integrity;
      ApplyKeepsIntegrity(State(), Statement.InsertVersion(id, version));
      refused := id in versions || IsNamed(versions, version);
      if !refused { versions := versions[id := version]; }
    }

    /** The trigger: an UPDATE that reaches a version changes nothing. */
    method UpdateVersion(id: Id, version: string) returns (refused: bool)
      requires Valid()
      ensures Did(State(), Statement.UpdateVersion(id, version), refused)
      ensures refused <==> id in versions
    {
      hide Integrity;
      refused := id in versions;
    }

    /** RESTRICT from the models trained on it, CASCADE to its members. */
    method DeleteVersion(id: Id) returns (refused: bool)
      requires Valid()
      modifies this`versions, this`members
      ensures Did(old(State()), Statement.DeleteVersion(id), refused)
      ensures refused <==> id in old(versions) && exists b :: b in bundles && bundles[b] == old(versions)[id]
      ensures refused ==> State() == old(State())
      ensures !refused ==> versions == old(versions) - {id}
      ensures !refused ==> forall key :: key in members <==> key in old(members) && key.0 != id
      ensures forall key :: key in members ==> members[key] == old(members)[key]
    {
      hide Integrity;
      ApplyKeepsIntegrity(State(), Statement.DeleteVersion(id));
      refused := TrainedOn(State(), id);
      if !refused {
        versions := versions - {id};
        members := WithoutMembersOf(members, id);
      }
    }

    method InsertBundle(id: Id, version: string) returns (refused: bool)
      requires Valid()
      modifies this`bundles
      ensures Did(old(State()), Statement.InsertBundle(id, version), refused)
      ensures refused <==> id in old(bundles) || !exists v :: v in versions && versions[v] == version
      ensures bundles == if refused then old(bundles) else old(bundles)[id := version]
    {
      hide Integrity;
      ApplyKeepsIntegrity(State(), Statement.InsertBundle(id, version));
      refused := id in bundles || !IsNamed(versions, version);
      if !refused { bundles := bundles[id := version]; }
    }

    /** The trigger: a registered model's training version is never rewritten. */
    method UpdateBundle(id: Id, version: string) returns (refused: bool)
      requires Valid()
      ensures Did(State(), Statement.UpdateBundle(id, version), refused)
      ensures refused <==> id in bundles && bundles[id] != version
    {
      hide Integrity;
      refused := id in bundles && version != bundles[id];
    }

    /** The other trigger: nor is a registered model ever deleted. */
    method DeleteBundle(id: Id) returns (refused: bool)
      requires Valid()
      ensures Did(State(), Statement.DeleteBundle(id), refused)
      ensures refused <==> id in bundles
    {
      hide Integrity;
      refused := id in bundles;
    }

    method InsertMember(version: Id, image: Id, split: string) returns (refused: bool)
      requires Valid()
      modifies this`members
      ensures Did(old(State()), Statement.InsertMember(version, image, split), refused)
      ensures refused <==>
                || (version, image) in old(members) || version !in versions || image !in images
                || split !in {"train", "validation", "test"}
      ensures members == if refused then old(members) else old(members)[(version, image) := split]
    {
      hide Integrity;
      ApplyKeepsIntegrity(State(), Statement.InsertMember(version, image, split));
      refused := (version, image) in members || version !in versions || image !in images || split !in SPLITS;
      if !refused { members := members[(version, image) := split]; }
    }

    method UpdateMember(version: Id, image: Id, split: string) returns (refused: bool)
      requires Valid()
      ensures Did(State(), Statement.UpdateMember(version, image, split), refused)
      ensures refused <==> (version, image) in members
    {
      hide Integrity;
      refused := (version, image) in members;
    }

    method DeleteMember(version: Id, image: Id)
      requires Valid()
      modifies this`members
      ensures Did(old(State()), Statement.DeleteMember(version, image), false)
      ensures members == old(members) - {(version, image)}
    {
      hide Integrity;
      ApplyKeepsIntegrity(State(), Statement.DeleteMember(version, image));
      members := members - {(version, image)};
    }

    method InsertAnnotation(id: Id, image: Id, marker: Marker) returns (refused: bool)
      requires Valid()
      modifies this`annotations
      ensures Did(old(State()), Statement.InsertAnnotation(id, image, marker), refused)
      ensures refused <==> id in old(annotations) || image !in images || !WellFormed(marker)
      ensures annotations == if refused then old(annotations) else old(annotations)[id := (image, marker)]
      ensures !refused ==> WellFormed(marker)
    {
      hide Integrity;
      ApplyKeepsIntegrity(State(), Statement.InsertAnnotation(id, image, marker));
      ChecksAdmitExactlyTheWellFormed(marker);
      refused := id in annotations || image !in images || !Admitted(marker);
      if !refused { annotations := annotations[id := (image, marker)]; }
    }

    method UpdateAnnotation(id: Id, marker: Marker) returns (refused: bool)
      requires Valid()
      ensures Did(State(), Statement.UpdateAnnotation(id, marker), refused)
      ensures refused <==> id in annotations
    {
      hide Integrity;
      refused := id in annotations;
    }

    method DeleteAnnotation(id: Id)
      requires Valid()
      modifies this`annotations
      ensures Did(old(State()), Statement.DeleteAnnotation(id), false)
      ensures annotations == old(annotations) - {id}
    {
      hide Integrity;
      ApplyKeepsIntegrity(State(), Statement.DeleteAnnotation(id));
      annotations := annotations - {id};
    }

    method InsertMeasurement(id: Id, image: Id, measurement: Measurement) returns (refused: bool)
      requires Valid()
      modifies this`measurements
      ensures Did(old(State()), Statement.InsertMeasurement(id, image, measurement), refused)
      ensures refused <==> id in old(measurements) || image !in images || !MeasurementAdmitted(measurement)
      ensures measurements == if refused then old(measurements) else old(measurements)[id := (image, measurement)]
    {
      hide Integrity;
      ApplyKeepsIntegrity(State(), Statement.InsertMeasurement(id, image, measurement));
      refused := id in measurements || image !in images || !MeasurementAdmitted(measurement);
      if !refused { measurements := measurements[id := (image, measurement)]; }
    }

    method UpdateMeasurement(id: Id, measurement: Measurement) returns (refused: bool)
      requires Valid()
      ensures Did(State(), Statement.UpdateMeasurement(id, measurement), refused)
      ensures refused <==> id in measurements
    {
      hide Integrity;
      refused := id in measurements;
    }

    method DeleteMeasurement(id: Id)
      requires Valid()
      modifies this`measurements
      ensures Did(old(State()), Statement.DeleteMeasurement(id), false)
      ensures measurements == old(measurements) - {id}
    {
      hide Integrity;
      ApplyKeepsIntegrity(State(), Statement.DeleteMeasurement(id));
      measurements := measurements - {id};
    }

    method InsertFingerprint(image: Id, fingerprint: Fingerprint) returns (refused: bool)
      requires Valid()
      modifies this`fingerprints
      ensures Did(old(State()), Statement.InsertFingerprint(image, fingerprint), refused)
      ensures refused <==>
                || image in old(fingerprints) || image !in images
                || (fingerprint.hash.None? && fingerprint.rotated.Some?)
                || (fingerprint.hash.Some? && fingerprint.rotated.None?)
                || (fingerprint.hash.Some? && !IsHex(fingerprint.hash.value, 16))
                || (fingerprint.rotated.Some? && !IsHex(fingerprint.rotated.value, 16))
      ensures fingerprints == if refused then old(fingerprints) else old(fingerprints)[image := fingerprint]
    {
      hide Integrity;
      ApplyKeepsIntegrity(State(), Statement.InsertFingerprint(image, fingerprint));
      refused := image in fingerprints || image !in images || !FingerprintChecks(fingerprint);
      if !refused { fingerprints := fingerprints[image := fingerprint]; }
    }

    /** No trigger here: a bumped hash version rewrites the row. */
    method UpdateFingerprint(image: Id, fingerprint: Fingerprint) returns (refused: bool)
      requires Valid()
      modifies this`fingerprints
      ensures Did(old(State()), Statement.UpdateFingerprint(image, fingerprint), refused)
      ensures refused <==>
                image in old(fingerprints)
                && (|| (fingerprint.hash.None? && fingerprint.rotated.Some?)
                    || (fingerprint.hash.Some? && fingerprint.rotated.None?)
                    || (fingerprint.hash.Some? && !IsHex(fingerprint.hash.value, 16))
                    || (fingerprint.rotated.Some? && !IsHex(fingerprint.rotated.value, 16)))
      ensures fingerprints
              == if image !in old(fingerprints) || refused then old(fingerprints)
                 else old(fingerprints)[image := fingerprint]
    {
      hide Integrity;
      ApplyKeepsIntegrity(State(), Statement.UpdateFingerprint(image, fingerprint));
      refused := image in fingerprints && !FingerprintChecks(fingerprint);
      if image in fingerprints && !refused { fingerprints := fingerprints[image := fingerprint]; }
    }

    method DeleteFingerprint(image: Id)
      requires Valid()
      modifies this`fingerprints
      ensures Did(old(State()), Statement.DeleteFingerprint(image), false)
      ensures fingerprints == old(fingerprints) - {image}
    {
      hide Integrity;
      ApplyKeepsIntegrity(State(), Statement.DeleteFingerprint(image));
      fingerprints := fingerprints - {image};
    }
  }
}
