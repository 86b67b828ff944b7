/**
 * The recognition-result model of the client: a recognition response parsed
 * all-or-nothing into results and their candidates, the candidate a user has
 * selected for each result, and the weight and carbohydrate figures derived
 * from the selected candidate's densities (with -1 standing for "not available").
 */
module Structures {
  import opened Wrappers
  import opened Json

  datatype NetworkError = ConnectionLost | UnexpectedResponse

  /** Nutrition of a kind of food, each figure in kilograms per kilogram; absent means not available. */
  datatype NutritionInformation = NutritionInformation(
    carbs: Option<real>,
    calories: Option<real>,
    fat: Option<real>,
    protein: Option<real>)

  /** One possible classification of a detected food entity. */
  datatype Candidate = Candidate(
    name: string,
    groupName: string,
    score: int,
    nutritionInformation: NutritionInformation,
    volumeDensity: real,  // kilograms per cubic metre, 0 when unknown
    areaDensity: real)    // kilograms per square metre, 0 when unknown

  /** One food entity found in the image. */
  datatype RecognitionResult = RecognitionResult(
    boundingBox: (real, real, real, real),
    volume: real,  // cubic metres
    area: real,    // square metres
    candidates: seq<Candidate>,
    selectedCandidateIndex: int)

  /** All results of one recognition session, with the response they came from. */
  datatype SessionRecognitionResult = SessionRecognitionResult(
    results: seq<RecognitionResult>,
    rawJSON: Json<real>)

  // ---------------------------------------------------------------------------
  // Shape predicates on the raw response, stated on the JSON structure itself.

  /** True iff `j` has member `key` and it is a string. */
  predicate HasString(j: Json<real>, key: string) {
    Has(j, key) && j.fields[key].JStr?
  }

  /** True iff `j` has member `key` and it is a number. */
  predicate HasNumber(j: Json<real>, key: string) {
    Has(j, key) && j.fields[key].JNum?
  }

  /** The numeric entries of `items`, in order; any other entry is skipped. */
  function Numbers(items: seq<Json<real>>): (r: seq<real>)
    ensures |r| <= |items|
  {
    if items == [] then []
    else if items[0].JNum? then [items[0].n] + Numbers(items[1..])
    else Numbers(items[1..])
  }

  /** Skipping non-numeric entries distributes over concatenation. */
  lemma {:induction false} NumbersAppend(a: seq<Json<real>>, b: seq<Json<real>>)
    ensures Numbers(a + b) == Numbers(a) + Numbers(b)
  {
    if a == [] {
      assert a + b == b;
    } else {
      assert (a + b)[1..] == a[1..] + b;
      NumbersAppend(a[1..], b);
    }
  }

  /** An extra non-numeric bounding-box entry anywhere changes nothing; a numeric one is kept in place. */
  lemma NumbersOfInsertion(a: seq<Json<real>>, x: Json<real>, b: seq<Json<real>>)
    ensures !x.JNum? ==> Numbers(a + [x] + b) == Numbers(a + b)
    ensures x.JNum? ==> Numbers(a + [x] + b) == Numbers(a) + [x.n] + Numbers(b)
  {
    NumbersAppend(a + [x], b);
    NumbersAppend(a, [x]);
    NumbersAppend(a, b);
    assert Numbers([x]) == (if x.JNum? then [x.n] else []) by {
      assert [x][1..] == [];
    }
  }

  // ---------------------------------------------------------------------------
  // All-or-nothing parsing of a list, as Swift's throwing `map`.

  /** Applies `parse` to each item in order; the first failure fails the whole list. */
  function ParseAll<A, B>(items: seq<A>, parse: A -> Result<B, NetworkError>): (r: Result<seq<B>, NetworkError>)
    ensures r.Success? <==> forall i :: 0 <= i < |items| ==> parse(items[i]).Success?
    ensures r.Success? ==> |r.value| == |items|
    ensures r.Success? ==> forall i :: 0 <= i < |items| ==> r.value[i] == parse(items[i]).value
    ensures r.Failure? ==> exists i :: 0 <= i < |items| && parse(items[i]).Failure? && r.error == parse(items[i]).error
  {
    if items == [] then Success([])
    else
      match parse(items[0])
      case Failure(e) => Failure(e)
      case Success(b) =>
        match ParseAll(items[1..], parse)
        case Failure(e) =>
          assert forall i :: 1 <= i < |items| ==> items[i] == items[1..][i - 1];
          Failure(e)
        case Success(bs) =>
          assert forall i :: 1 <= i < |items| ==> items[i] == items[1..][i - 1];
          Success([b] + bs)
  }

  // ---------------------------------------------------------------------------
  // The initialisers.

  /** `NutritionInformation(json:)`: each figure is present exactly when its key holds a number. */
  function ParseNutrition(j: Json<real>): (r: NutritionInformation)
    ensures r.carbs.Some? <==> HasNumber(j, "totalCarbs")
    ensures r.calories.Some? <==> HasNumber(j, "calories")
    ensures r.fat.Some? <==> HasNumber(j, "totalFat")
    ensures r.protein.Some? <==> HasNumber(j, "protein")
    ensures r.carbs.Some? ==> r.carbs.value == j.fields["totalCarbs"].n
    ensures r.calories.Some? ==> r.calories.value == j.fields["calories"].n
    ensures r.fat.Some? ==> r.fat.value == j.fields["totalFat"].n
    ensures r.protein.Some? ==> r.protein.value == j.fields["protein"].n
  {
    NutritionInformation(
      Double(Get(j, "totalCarbs")),
      Double(Get(j, "calories")),
      Double(Get(j, "totalFat")),
      Double(Get(j, "protein")))
  }

  /** True iff `j` has every member a candidate needs, of the right kind. */
  predicate IsCandidateShape(j: Json<real>) {
    HasString(j, "name") && HasString(j, "group") && HasNumber(j, "score")
    && HasNumber(j, "volume_density") && HasNumber(j, "area_density")
  }

  /** `RecognitionEntityCandidate(json:)`. */
  function ParseCandidate(j: Json<real>): (r: Result<Candidate, NetworkError>)
    ensures r.Success? <==> IsCandidateShape(j)
    ensures r.Failure? ==> r.error == UnexpectedResponse
    ensures r.Success? ==>
      && r.value.name == j.fields["name"].s
      && r.value.groupName == j.fields["group"].s
      && r.value.score == Truncate(j.fields["score"].n)
      && r.value.volumeDensity == j.fields["volume_density"].n
      && r.value.areaDensity == j.fields["area_density"].n
      && r.value.nutritionInformation == ParseNutrition(Get(j, "nutrition"))
  {
    if Str(Get(j, "name")).None? || Str(Get(j, "group")).None? || Int(Get(j, "score")).None?
       || Double(Get(j, "volume_density")).None? || Double(Get(j, "area_density")).None?
    then Failure(UnexpectedResponse)
    else Success(Candidate(
      Str(Get(j, "name")).value,
      Str(Get(j, "group")).value,
      Int(Get(j, "score")).value,
      ParseNutrition(Get(j, "nutrition")),
      Double(Get(j, "volume_density")).value,
      Double(Get(j, "area_density")).value))
  }

  /** The numeric entries of the `bounding_box` member (none when it is missing or not an array). */
  function BoxNumbers(j: Json<real>): seq<real> {
    Numbers(ArrayValue(Get(j, "bounding_box")))
  }

  /** True iff `j` has the geometry a recognition result needs. */
  predicate IsResultShape(j: Json<real>) {
    |BoxNumbers(j)| == 4 && HasNumber(j, "volume") && HasNumber(j, "area")
  }

  /** `RecognitionResult(json:)`. */
  function ParseResult(j: Json<real>): (r: Result<RecognitionResult, NetworkError>)
    ensures r.Success? <==>
      IsResultShape(j) && forall i :: 0 <= i < |ArrayValue(Get(j, "candidates"))| ==> ParseCandidate(ArrayValue(Get(j, "candidates"))[i]).Success?
    ensures r.Failure? ==> r.error == UnexpectedResponse
    ensures r.Success? ==>
      && var box := r.value.boundingBox;
      && [box.0, box.1, box.2, box.3] == BoxNumbers(j)
      && r.value.volume == j.fields["volume"].n
      && r.value.area == j.fields["area"].n
      && |r.value.candidates| == |ArrayValue(Get(j, "candidates"))|
      && (forall i :: 0 <= i < |r.value.candidates| ==>
            r.value.candidates[i] == ParseCandidate(ArrayValue(Get(j, "candidates"))[i]).value)
      && r.value.selectedCandidateIndex == 0
  {
    var box := BoxNumbers(j);
    if |box| != 4 || Double(Get(j, "volume")).None? || Double(Get(j, "area")).None? then
      Failure(UnexpectedResponse)
    else
      match ParseAll(ArrayValue(Get(j, "candidates")), ParseCandidate)
      case Failure(e) => Failure(e)
      case Success(candidates) =>
        Success(RecognitionResult(
          (box[0], box[1], box[2], box[3]),
          Double(Get(j, "volume")).value,
          Double(Get(j, "area")).value,
          candidates,
          0))
  }

  /** `SessionRecognitionResult(json:)`. */
  function ParseSession(j: Json<real>): (r: Result<SessionRecognitionResult, NetworkError>)
    ensures r.Success? <==>
      forall i :: 0 <= i < |ArrayValue(Get(j, "results"))| ==> ParseResult(ArrayValue(Get(j, "results"))[i]).Success?
    ensures r.Failure? ==> r.error == UnexpectedResponse
    ensures r.Success? ==>
      && r.value.rawJSON == j
      && |r.value.results| == |ArrayValue(Get(j, "results"))|
      && forall i :: 0 <= i < |r.value.results| ==>
           r.value.results[i] == ParseResult(ArrayValue(Get(j, "results"))[i]).value
  {
    match ParseAll(ArrayValue(Get(j, "results")), ParseResult)
    case Failure(e) => Failure(e)
    case Success(results) => Success(SessionRecognitionResult(results, j))
  }

  // ---------------------------------------------------------------------------
  // Selection and derived quantities.

  /** The index names one of the result's candidates (reading `selectedCandidate` traps otherwise). */
  predicate HasSelection(r: RecognitionResult) {
    0 <= r.selectedCandidateIndex < |r.candidates|
  }

  function SelectedCandidate(r: RecognitionResult): (c: Candidate)
    requires HasSelection(r)
    ensures c in r.candidates
  {
    r.candidates[r.selectedCandidateIndex]
  }

  /** The weight in kilograms of `volume`/`area` under candidate `c`, -1 when `c` has no density. */
  function WeightFor(volume: real, area: real, c: Candidate): (w: real)
    ensures c.volumeDensity != 0.0 ==> w == volume * c.volumeDensity
    ensures c.volumeDensity == 0.0 && c.areaDensity != 0.0 ==> w == area * c.areaDensity
    ensures 0.0 <= volume && 0.0 <= area && 0.0 <= c.volumeDensity && 0.0 <= c.areaDensity ==>
      (w == -1.0 <==> c.volumeDensity == 0.0 && c.areaDensity == 0.0) && (w != -1.0 ==> 0.0 <= w)
  {
    if c.volumeDensity != 0.0 then volume * c.volumeDensity
    else if c.areaDensity != 0.0 then area * c.areaDensity
    else -1.0
  }

  /** The carbohydrate weight in kilograms under candidate `c`: -1 without a carbs figure, else weight times it. */
  function CarbsFor(volume: real, area: real, c: Candidate): (k: real)
    ensures c.nutritionInformation.carbs.None? ==> k == -1.0
    ensures c.nutritionInformation.carbs.Some? && WeightFor(volume, area, c) == -1.0 ==>
      k == -c.nutritionInformation.carbs.value
    ensures (0.0 <= volume && 0.0 <= area && 0.0 <= c.volumeDensity && 0.0 <= c.areaDensity
             && c.nutritionInformation.carbs.Some? && 0.0 <= c.nutritionInformation.carbs.value
             && (c.volumeDensity != 0.0 || c.areaDensity != 0.0)) ==> 0.0 <= k
  {
    match c.nutritionInformation.carbs
    case None => -1.0
    case Some(perKilogram) => WeightFor(volume, area, c) * perKilogram
  }

  /** `weight` of a result: the weight under its selected candidate. */
  function Weight(r: RecognitionResult): (w: real)
    requires HasSelection(r)
    ensures SelectedCandidate(r).volumeDensity != 0.0 ==> w == r.volume * SelectedCandidate(r).volumeDensity
    ensures SelectedCandidate(r).volumeDensity == 0.0 && SelectedCandidate(r).areaDensity != 0.0 ==>
      w == r.area * SelectedCandidate(r).areaDensity
    ensures SelectedCandidate(r).volumeDensity == 0.0 && SelectedCandidate(r).areaDensity == 0.0 ==> w == -1.0
  {
    WeightFor(r.volume, r.area, SelectedCandidate(r))
  }

  /** `carbs` of a result: -1 without a carbs figure, else `weight` times it, even when `weight` is -1. */
  function Carbs(r: RecognitionResult): (k: real)
    requires HasSelection(r)
    ensures SelectedCandidate(r).nutritionInformation.carbs.None? ==> k == -1.0
    ensures SelectedCandidate(r).nutritionInformation.carbs.Some? ==>
      k == Weight(r) * SelectedCandidate(r).nutritionInformation.carbs.value
  {
    CarbsFor(r.volume, r.area, SelectedCandidate(r))
  }

  /** Setting `selectedCandidateIndex` (a mutation of the value in place). */
  function Reselect(r: RecognitionResult, k: int): (r': RecognitionResult)
    ensures r'.selectedCandidateIndex == k
    ensures r'.boundingBox == r.boundingBox && r'.volume == r.volume && r'.area == r.area
    ensures r'.candidates == r.candidates
  {
    r.(selectedCandidateIndex := k)
  }

  /** After reselecting candidate k, the derived figures are those of candidate k, whatever was selected before. */
  lemma ReselectDerived(r: RecognitionResult, k: int)
    requires 0 <= k < |r.candidates|
    ensures HasSelection(Reselect(r, k))
    ensures SelectedCandidate(Reselect(r, k)) == r.candidates[k]
    ensures Weight(Reselect(r, k)) == WeightFor(r.volume, r.area, r.candidates[k])
    ensures Carbs(Reselect(r, k)) == CarbsFor(r.volume, r.area, r.candidates[k])
    ensures Reselect(Reselect(r, k), r.selectedCandidateIndex) == r
  {
  }

  // ---------------------------------------------------------------------------
  // Consequences of the parsing contracts.

  /** Every result of a parsed session starts on its first candidate. */
  lemma ParsedSelectionIsFirst(j: Json<real>)
    requires ParseSession(j).Success?
    ensures forall i :: 0 <= i < |ParseSession(j).value.results| ==>
      ParseSession(j).value.results[i].selectedCandidateIndex == 0
  {
  }

  /** A response without `results` parses to an empty session; a result without `candidates` to no candidates. */
  lemma MissingListsAreEmpty(j: Json<real>, rj: Json<real>)
    requires !Has(j, "results")
    requires IsResultShape(rj) && !Has(rj, "candidates")
    ensures ParseSession(j) == Success(SessionRecognitionResult([], j))
    ensures ParseResult(rj).Success? && ParseResult(rj).value.candidates == []
  {
  }

  /** A candidate without `nutrition` still parses, with every nutrition figure absent. */
  lemma MissingNutritionIsAbsent(j: Json<real>)
    requires IsCandidateShape(j) && !Has(j, "nutrition")
    ensures ParseCandidate(j).Success?
    ensures ParseCandidate(j).value.nutritionInformation == NutritionInformation(None, None, None, None)
  {
  }

  /** One malformed result anywhere in the list fails the whole session: no partial list is returned. */
  lemma OneBadResultFailsSession(j: Json<real>, i: nat)
    requires i < |ArrayValue(Get(j, "results"))|
    requires !IsResultShape(ArrayValue(Get(j, "results"))[i])
    ensures ParseSession(j) == Failure(UnexpectedResponse)
  {
  }

  /** One malformed candidate fails its result, and with it the session. */
  lemma OneBadCandidateFailsSession(j: Json<real>, i: nat, k: nat)
    requires i < |ArrayValue(Get(j, "results"))|
    requires k < |ArrayValue(Get(ArrayValue(Get(j, "results"))[i], "candidates"))|
    requires !IsCandidateShape(ArrayValue(Get(ArrayValue(Get(j, "results"))[i], "candidates"))[k])
    ensures ParseSession(j) == Failure(UnexpectedResponse)
  {
  }
}
