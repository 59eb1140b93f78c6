/** The CHECKs on `training_images`, and the rights gate they exist for. */
module Provenance {
  import opened Prelude
  import opened Sql
  import opened Text

  /** The columns a training image's admission turns on. NOT NULL columns are plain. */
  datatype TrainingImage = TrainingImage(
    copy: Option<string>, card: Option<string>, side: string, sha256: string, width: int, height: int,
    source: string, acquisitionMethod: string,
    license: Option<string>, commercialUse: Option<bool>, derivativeUse: Option<bool>, redistribution: bool,
    withdrawalHash: Option<string>)

  const SIDES: set<string> := {"front", "back", "angled_front", "angled_back", "surface_front", "surface_back"}

  function TrimTrailingBlanks(s: string): string {
    if s != [] && s[|s| - 1] == ' ' then TrimTrailingBlanks(s[..|s| - 1]) else s
  }

  /** SQL's `btrim(s)`: blanks go from both ends, and nothing but blanks. */
  function BTrim(s: string): string {
    TrimTrailingBlanks(TrimLeading(s, ' '))
  }

  predicate IsBlank(s: string) {
    forall i :: 0 <= i < |s| ==> s[i] == ' '
  }

  lemma {:induction false} BTrimIsEmptyIffBlank(s: string)
    ensures BTrim(s) == "" <==> IsBlank(s)
  {
    LeadingBlanks(s);
    TrailingBlanks(TrimLeading(s, ' '));
  }

  lemma {:induction false} LeadingBlanks(s: string)
    ensures IsBlank(TrimLeading(s, ' ')) <==> IsBlank(s)
  {
    if s != [] && s[0] == ' ' {
      LeadingBlanks(s[1..]);
      assert s == [s[0]] + s[1..];
    }
  }

  lemma {:induction false} TrailingBlanks(s: string)
    ensures TrimTrailingBlanks(s) == "" <==> IsBlank(s)
  {
    if s != [] && s[|s| - 1] == ' ' {
      TrailingBlanks(s[..|s| - 1]);
    }
  }

  function Flag(column: Option<bool>): Tri {
    if column.None? then Unknown else Of(column.value)
  }

  function NotBlank(column: Option<string>): Tri {
    if column.None? then Unknown else Of(BTrim(column.value) != "")
  }

  /** `PROVENANCE_GATE`, clause by clause. */
  function Gate(image: TrainingImage): Tri {
    And(And(And(IsTrue(Flag(image.commercialUse)), IsTrue(Flag(image.derivativeUse))),
            Not(IsNull(image.license))),
        NotBlank(image.license))
  }

  /** The obvious spelling, with bare column references. */
  function GateWithoutIsTrue(image: TrainingImage): Tri {
    And(And(And(Flag(image.commercialUse), Flag(image.derivativeUse)), Not(IsNull(image.license))),
        NotBlank(image.license))
  }

  /** Both rights are stated and granted, under a licence that says something. */
  predicate MayTrain(image: TrainingImage) {
    && image.commercialUse == Some(true) && image.derivativeUse == Some(true)
    && image.license.Some? && !IsBlank(image.license.value)
  }

  /** The gate passes exactly the images that may be trained on: null, empty and blank are one refusal. */
  lemma GateMeansMayTrain(image: TrainingImage)
    ensures Passes(Gate(image)) <==> MayTrain(image)
  {
    if image.license.Some? {
      BTrimIsEmptyIffBlank(image.license.value);
    }
  }

  /** Without `IS TRUE` it would also pass every image whose rights were left unstated. */
  lemma WithoutIsTrueUnstatedRightsPass(image: TrainingImage)
    ensures Passes(GateWithoutIsTrue(image)) <==>
              && image.commercialUse != Some(false) && image.derivativeUse != Some(false)
              && image.license.Some? && !IsBlank(image.license.value)
  {
    if image.license.Some? {
      BTrimIsEmptyIffBlank(image.license.value);
    }
  }

  predicate IsHex(s: string, length: nat) {
    |s| == length && forall i :: 0 <= i < |s| ==> '0' <= s[i] <= '9' || 'a' <= s[i] <= 'f'
  }

  function MatchesDigest(column: Option<string>): Tri {
    if column.None? then Unknown else Of(IsHex(column.value, 64))
  }

  /** Every CHECK on the table. */
  predicate ImageChecks(image: TrainingImage) {
    && Passes(Gate(image))
    && Passes(NotBlank(Some(image.acquisitionMethod)))
    && Passes(NotBlank(Some(image.source)))
    && Passes(Of(IsHex(image.sha256, 64)))
    && Passes(In(Some(image.side), SIDES))
    && Passes(Of(image.width > 0 && image.height > 0))
    && Passes(Or(IsNull(image.withdrawalHash), MatchesDigest(image.withdrawalHash)))
  }

  /** A training image as the product means it, with no NULL logic. */
  lemma ImageChecksMean(image: TrainingImage)
    ensures ImageChecks(image) <==>
              && MayTrain(image) && !IsBlank(image.acquisitionMethod) && !IsBlank(image.source)
              && IsHex(image.sha256, 64) && image.width > 0 && image.height > 0
              && image.side in {"front", "back", "angled_front", "angled_back", "surface_front", "surface_back"}
              && (image.withdrawalHash.Some? ==> IsHex(image.withdrawalHash.value, 64))
  {
    GateMeansMayTrain(image);
    BTrimIsEmptyIffBlank(image.acquisitionMethod);
    BTrimIsEmptyIffBlank(image.source);
    hide Gate, MayTrain, IsBlank, BTrim, IsHex;
  }
}
