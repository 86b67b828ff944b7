/**
 * The review screen of a recognition session: a strip of entity items
 * ("All" followed by one item per result), a table of candidates for the
 * selected entity, and an information panel with the name, size, weight and
 * carbohydrate labels.
 */
module EstimateResult {
  import opened Wrappers
  import opened Text
  import opened Units
  import opened Structures

  /** The entity selected, -1 meaning all results. */
  const AllEntities: int := -1

  // ---------------------------------------------------------------------------
  // Entity strip.

  /** `selectedEntityIndex`: strip item k shows result k - 1; item 0 ("All") and no selection show all. */
  function EntityIndex(selectedItem: Option<int>): (e: int)
  {
    match selectedItem
    case None => AllEntities
    case Some(item) => item - 1
  }

  /** The strip item that shows entity `e`. */
  function ItemFor(e: int): (item: int)
    requires AllEntities <= e
    ensures 0 <= item
  {
    e + 1
  }

  /** The strip has one item more than there are results. */
  function ItemCount(results: seq<RecognitionResult>): (n: nat)
    ensures n == |results| + 1
  {
    |results| + 1
  }

  /** Every strip item names "All" or exactly one result, and every result has its item. */
  lemma {:induction false} StripCoversEntities(results: seq<RecognitionResult>, item: int, e: int)
    ensures 0 <= item < ItemCount(results) ==>
      EntityIndex(Some(item)) == AllEntities || 0 <= EntityIndex(Some(item)) < |results|
    ensures 0 <= item < ItemCount(results) ==> ItemFor(EntityIndex(Some(item))) == item
    ensures AllEntities <= e < |results| ==>
      0 <= ItemFor(e) < ItemCount(results) && EntityIndex(Some(ItemFor(e))) == e
    ensures EntityIndex(None) == EntityIndex(Some(0)) == AllEntities
  {
  }

  /** The caption of strip item `item`: "All" for item 0, otherwise its number. */
  function ItemCaption(item: nat): (s: string)
    ensures item == 0 <==> s == "All"
  {
    if item == 0 then "All" else NatToString(item)
  }

  /** Distinct strip items carry distinct captions. */
  lemma {:induction false} CaptionsDistinct(i: nat, j: nat)
    requires ItemCaption(i) == ItemCaption(j)
    ensures i == j
  {
    if i != 0 && j != 0 {
      NatToStringInjective(i, j);
    }
  }

  // ---------------------------------------------------------------------------
  // Totals over all results (All mode).

  /** The entries of `xs` that are greater than zero, in order. */
  function Positives(xs: seq<real>): (ys: seq<real>)
    ensures |ys| <= |xs|
    ensures forall i :: 0 <= i < |ys| ==> ys[i] > 0.0
  {
    if |xs| == 0 then []
    else Positives(xs[..|xs| - 1]) + (if xs[|xs| - 1] > 0.0 then [xs[|xs| - 1]] else [])
  }

  /** `reduce(0.0, +)`: the sum from the left. */
  function Sum(xs: seq<real>): real {
    if |xs| == 0 then 0.0 else Sum(xs[..|xs| - 1]) + xs[|xs| - 1]
  }

  /** The positive part of one figure, what it adds to a total. */
  function Contribution(x: real): (c: real)
    ensures 0.0 <= c && x <= c
  {
    if x > 0.0 then x else 0.0
  }

  /** `filter({$0 > 0}).reduce(0.0, +)`. */
  function PositiveSum(xs: seq<real>): real {
    Sum(Positives(xs))
  }

  lemma {:induction false} SumAppend(a: seq<real>, b: seq<real>)
    ensures Sum(a + b) == Sum(a) + Sum(b)
    decreases |b|
  {
    if |b| == 0 {
      assert a + b == a;
    } else {
      var b' := b[..|b| - 1];
      assert (a + b)[..|a + b| - 1] == a + b';
      SumAppend(a, b');
    }
  }

  lemma {:induction false} PositivesAppend(a: seq<real>, b: seq<real>)
    ensures Positives(a + b) == Positives(a) + Positives(b)
    decreases |b|
  {
    if |b| == 0 {
      assert a + b == a;
    } else {
      var b' := b[..|b| - 1];
      assert (a + b)[..|a + b| - 1] == a + b';
      PositivesAppend(a, b');
    }
  }

  /** A total splits over a concatenation. */
  lemma PositiveSumAppend(a: seq<real>, b: seq<real>)
    ensures PositiveSum(a + b) == PositiveSum(a) + PositiveSum(b)
  {
    PositivesAppend(a, b);
    SumAppend(Positives(a), Positives(b));
  }

  lemma PositiveSumSingleton(x: real)
    ensures PositiveSum([x]) == Contribution(x)
  {
    assert [x][..0] == [];
    assert Positives([x]) == (if x > 0.0 then [x] else []);
    if x > 0.0 {
      assert Sum([x]) == Sum([x][..0]) + x;
    }
  }

  /** A total is its prefix's total plus what the last entry contributes. */
  lemma PositiveSumStep(xs: seq<real>)
    requires |xs| > 0
    ensures PositiveSum(xs) == PositiveSum(xs[..|xs| - 1]) + Contribution(xs[|xs| - 1])
  {
    var last := xs[|xs| - 1];
    assert xs == xs[..|xs| - 1] + [last];
    PositiveSumAppend(xs[..|xs| - 1], [last]);
    PositiveSumSingleton(last);
  }

  /** An entry between two stretches contributes its positive part to the total. */
  lemma PositiveSumSplit(a: seq<real>, x: real, b: seq<real>)
    ensures PositiveSum(a + [x] + b) == PositiveSum(a) + Contribution(x) + PositiveSum(b)
  {
    PositiveSumAppend(a + [x], b);
    PositiveSumAppend(a, [x]);
    PositiveSumSingleton(x);
  }

  /** A total is never negative and no entry exceeds it. */
  lemma {:induction false} PositiveSumBounds(xs: seq<real>)
    ensures 0.0 <= PositiveSum(xs)
    ensures forall i :: 0 <= i < |xs| ==> xs[i] <= PositiveSum(xs)
    decreases |xs|
  {
    if |xs| > 0 {
      PositiveSumBounds(xs[..|xs| - 1]);
      PositiveSumStep(xs);
      forall i | 0 <= i < |xs|
        ensures xs[i] <= PositiveSum(xs)
      {
        if i < |xs| - 1 {
          assert xs[i] == xs[..|xs| - 1][i];
        }
      }
    }
  }

  /** Replacing one entry changes the total by the difference of the two contributions. */
  lemma PositiveSumUpdate(xs: seq<real>, i: int, v: real)
    requires 0 <= i < |xs|
    ensures PositiveSum(xs[i := v]) == PositiveSum(xs) - Contribution(xs[i]) + Contribution(v)
  {
    assert xs == xs[..i] + [xs[i]] + xs[i + 1..];
    assert xs[i := v] == xs[..i] + [v] + xs[i + 1..];
    PositiveSumSplit(xs[..i], xs[i], xs[i + 1..]);
    PositiveSumSplit(xs[..i], v, xs[i + 1..]);
  }

  /** Entries that are not positive, such as the -1 "not available" sentinel, add nothing. */
  lemma {:induction false} PositiveSumIgnoresSentinels(xs: seq<real>)
    requires forall i :: 0 <= i < |xs| ==> xs[i] <= 0.0
    ensures PositiveSum(xs) == 0.0
    decreases |xs|
  {
    if |xs| > 0 {
      PositiveSumIgnoresSentinels(xs[..|xs| - 1]);
      PositiveSumStep(xs);
    }
  }

  predicate AllSelected(results: seq<RecognitionResult>) {
    forall i :: 0 <= i < |results| ==> HasSelection(results[i])
  }

  /** The weights of the results, in order. */
  function Weights(results: seq<RecognitionResult>): (ws: seq<real>)
    requires AllSelected(results)
    ensures |ws| == |results| && forall i :: 0 <= i < |results| ==> ws[i] == Weight(results[i])
  {
    seq(|results|, i requires 0 <= i < |results| => Weight(results[i]))
  }

  /** The carbohydrate figures of the results, in order. */
  function CarbsList(results: seq<RecognitionResult>): (ks: seq<real>)
    requires AllSelected(results)
    ensures |ks| == |results| && forall i :: 0 <= i < |results| ==> ks[i] == Carbs(results[i])
  {
    seq(|results|, i requires 0 <= i < |results| => Carbs(results[i]))
  }

  /** The total weight shown in All mode. */
  function TotalWeight(results: seq<RecognitionResult>): (w: real)
    requires AllSelected(results)
    ensures 0.0 <= w
  {
    PositiveSumBounds(Weights(results));
    PositiveSum(Weights(results))
  }

  /** The total carbohydrate weight shown in All mode. */
  function TotalCarbs(results: seq<RecognitionResult>): (k: real)
    requires AllSelected(results)
    ensures 0.0 <= k
  {
    PositiveSumBounds(CarbsList(results));
    PositiveSum(CarbsList(results))
  }

  /** Reselecting a candidate of entity `e` changes the totals only by that entity's contribution. */
  lemma TotalsAfterReselect(results: seq<RecognitionResult>, e: int, row: int)
    requires AllSelected(results)
    requires 0 <= e < |results| && 0 <= row < |results[e].candidates|
    ensures AllSelected(results[e := Reselect(results[e], row)])
    ensures TotalWeight(results[e := Reselect(results[e], row)]) ==
      TotalWeight(results) - Contribution(Weight(results[e])) +
      Contribution(WeightFor(results[e].volume, results[e].area, results[e].candidates[row]))
    ensures TotalCarbs(results[e := Reselect(results[e], row)]) ==
      TotalCarbs(results) - Contribution(Carbs(results[e])) +
      Contribution(CarbsFor(results[e].volume, results[e].area, results[e].candidates[row]))
  {
    var r' := Reselect(results[e], row);
    var after := results[e := r'];
    ReselectDerived(results[e], row);
    assert Weights(after) == Weights(results)[e := Weight(r')];
    assert CarbsList(after) == CarbsList(results)[e := Carbs(r')];
    PositiveSumUpdate(Weights(results), e, Weight(r'));
    PositiveSumUpdate(CarbsList(results), e, Carbs(r'));
  }

  // ---------------------------------------------------------------------------
  // Information panel.

  /** The size label of one result: its area when the selected candidate has an area density, else its volume. */
  function SizeText(r: RecognitionResult): (s: string)
    requires HasSelection(r)
    ensures SelectedCandidate(r).areaDensity > 0.0 ==> s == AreaString(r.area)
    ensures SelectedCandidate(r).areaDensity <= 0.0 ==> s == VolumeString(r.volume)
  {
    if SelectedCandidate(r).areaDensity > 0.0 then AreaString(r.area)
    else if SelectedCandidate(r).volumeDensity > 0.0 then VolumeString(r.volume)
    else VolumeString(r.volume)
  }

  /**
   * The size label and the weight can rest on different measurements: with
   * both densities positive the size shows the area while the weight uses the volume.
   */
  lemma SizeAndWeightCanDisagree(r: RecognitionResult)
    requires HasSelection(r) && SelectedCandidate(r).areaDensity > 0.0 && SelectedCandidate(r).volumeDensity > 0.0
    ensures SizeText(r) == AreaString(r.area)
    ensures Weight(r) == r.volume * SelectedCandidate(r).volumeDensity
  {
  }

  datatype Panel = Panel(name: string, size: string, weight: string, carbs: string)

  /** `setInfoPanel` for entity `e`. */
  function InfoPanel(results: seq<RecognitionResult>, e: int): (p: Panel)
    requires AllSelected(results)
    requires e == AllEntities || 0 <= e < |results|
    ensures e == AllEntities ==>
      p == Panel("All Items", "Not Available", WeightString(TotalWeight(results)), WeightString(TotalCarbs(results)))
    ensures e != AllEntities ==>
      p.name == SelectedCandidate(results[e]).name && p.size == SizeText(results[e]) &&
      p.weight == WeightString(Weight(results[e])) && p.carbs == WeightString(Carbs(results[e]))
  {
    if e == AllEntities then
      Panel("All Items", "Not Available", WeightString(TotalWeight(results)), WeightString(TotalCarbs(results)))
    else
      var entity := results[e];
      Panel(SelectedCandidate(entity).name, SizeText(entity), WeightString(Weight(entity)), WeightString(Carbs(entity)))
  }

  /** Rows of the candidate table: one per result in All mode, else one per candidate of the entity. */
  function RowCount(results: seq<RecognitionResult>, e: int): (n: nat)
    requires e == AllEntities || 0 <= e < |results|
    ensures e == AllEntities ==> n == |results|
    ensures e != AllEntities ==> n == |results[e].candidates|
  {
    if e == AllEntities then |results| else |results[e].candidates|
  }

  /** What row `row` of the candidate table shows: the selected candidate of a result, or a candidate of the entity. */
  function RowCandidate(results: seq<RecognitionResult>, e: int, row: int): (c: Candidate)
    requires AllSelected(results)
    requires e == AllEntities || 0 <= e < |results|
    requires 0 <= row < RowCount(results, e)
    ensures e == AllEntities ==> c == SelectedCandidate(results[row])
    ensures e != AllEntities ==> c == results[e].candidates[row]
  {
    if e == AllEntities then SelectedCandidate(results[row]) else results[e].candidates[row]
  }

  /** A weight label reads back as the weight in grams rounded to tenths, never negative for a weight that is not. */
  lemma GramsReadBack(x: real)
    ensures Shows(WeightString(x), "g", Tenths(x * 1000.0))
    ensures 0.0 <= x ==> 0.0 <= Tenths(x * 1000.0)
  {
    LabelShows(x * 1000.0, "g");
    assert WeightString(x) == FormatTenths(x * 1000.0) + " " + "g";
  }

  /** The figure behind the panel's carbohydrate label (`carbs`) or weight label: the totals in All mode, else the entity's own. */
  function PanelFigure(results: seq<RecognitionResult>, e: int, carbs: bool): real
    requires AllSelected(results)
    requires e == AllEntities || 0 <= e < |results|
  {
    if e == AllEntities then (if carbs then TotalCarbs(results) else TotalWeight(results))
    else if carbs then Carbs(results[e]) else Weight(results[e])
  }

  /**
   * The panel's weight and carbohydrate labels read back as the figures they
   * stand for, in grams rounded to tenths; the All-mode totals never read
   * negative.
   */
  lemma PanelReadsBack(results: seq<RecognitionResult>, e: int, carbs: bool)
    requires AllSelected(results)
    requires e == AllEntities || 0 <= e < |results|
    ensures var p := InfoPanel(results, e);
      Shows(if carbs then p.carbs else p.weight, "g", Tenths(PanelFigure(results, e, carbs) * 1000.0))
    ensures e == AllEntities ==> 0.0 <= Tenths(PanelFigure(results, e, carbs) * 1000.0)
  {
    var p := InfoPanel(results, e);
    var x := PanelFigure(results, e, carbs);
    assert (if carbs then p.carbs else p.weight) == WeightString(x);
    GramsReadBack(x);
  }

  /**
   * For a single entity the table lists its candidates: the row highlighted on
   * selecting the entity shows its selected candidate, and after a tap on any
   * row the candidate that row shows is the selection the panel names.
   */
  lemma RowsShowSelection(results: seq<RecognitionResult>, e: int, row: int)
    requires AllSelected(results) && 0 <= e < |results|
    ensures 0 <= results[e].selectedCandidateIndex < RowCount(results, e)
    ensures RowCandidate(results, e, results[e].selectedCandidateIndex) == SelectedCandidate(results[e])
    ensures 0 <= row < RowCount(results, e) ==>
      var after := results[e := Reselect(results[e], row)];
      AllSelected(after) && SelectedCandidate(after[e]) == RowCandidate(results, e, row) &&
      InfoPanel(after, e).name == RowCandidate(results, e, row).name
  {
    if 0 <= row < RowCount(results, e) {
      ReselectDerived(results[e], row);
    }
  }

  // ---------------------------------------------------------------------------
  // The screen.

  class EstimateResultScreen {
    /** `sessionRecognitionResult`: the results being reviewed. */
    var session: SessionRecognitionResult
    /** The first selected item of the entity strip. */
    var selectedItem: Option<int>
    /** The selected row of the candidate table. */
    var highlightedRow: Option<int>
    /** The four labels of the information panel. */
    var panel: Panel

    function SelectedEntity(): int
      reads this
    {
      EntityIndex(selectedItem)
    }

    /** The screen state `setInfoPanel` and the table data source rely on. */
    predicate Valid()
      reads this
    {
      AllSelected(session.results) &&
      (selectedItem.None? || 0 <= selectedItem.value < ItemCount(session.results)) &&
      (highlightedRow.None? || 0 <= highlightedRow.value < RowCount(session.results, SelectedEntity())) &&
      panel == InfoPanel(session.results, SelectedEntity())
    }

    /** `viewDidLoad`: item 0 ("All") is selected and the panel shows the totals. */
    constructor (s: SessionRecognitionResult)
      requires AllSelected(s.results)
      ensures Valid()
      ensures session == s && selectedItem == Some(0) && highlightedRow == None
      ensures panel.name == "All Items" && panel.size == "Not Available"
      ensures panel.weight == WeightString(TotalWeight(s.results))
      ensures panel.carbs == WeightString(TotalCarbs(s.results))
    {
      session := s;
      selectedItem := Some(0);
      highlightedRow := None;
      panel := InfoPanel(s.results, AllEntities);
    }

    /**
     * `tableView(_:didSelectRowAt:)`: in All mode the row is only deselected;
     * otherwise the entity's candidate becomes `row` and the panel follows.
     */
    method DidSelectRow(row: int)
      requires Valid()
      requires 0 <= row < RowCount(session.results, SelectedEntity())
      modifies this
      ensures Valid()
      ensures selectedItem == old(selectedItem)
      ensures old(SelectedEntity()) == AllEntities ==>
        session == old(session) && highlightedRow == None && panel == old(panel)
      ensures old(SelectedEntity()) != AllEntities ==>
        session.rawJSON == old(session.rawJSON) &&
        session.results == old(session.results)[old(SelectedEntity()) := Reselect(old(session.results)[old(SelectedEntity())], row)] &&
        highlightedRow == Some(row)
    {
      var e := SelectedEntity();
      if e == AllEntities {
        highlightedRow := None;
        return;
      }
      var results := session.results;
      ReselectDerived(results[e], row);
      results := results[e := Reselect(results[e], row)];
      session := session.(results := results);
      highlightedRow := Some(row);
      panel := InfoPanel(session.results, e);
    }

    /**
     * `collectionView(_:didSelectItemAt:)`: the strip selects `item`, the table
     * reloads and, for a single entity, highlights its selected candidate.
     */
    method DidSelectItem(item: int)
      requires Valid()
      requires 0 <= item < ItemCount(session.results)
      modifies this
      ensures Valid()
      ensures session == old(session) && selectedItem == Some(item)
      ensures SelectedEntity() == AllEntities ==> highlightedRow == None
      ensures SelectedEntity() != AllEntities ==>
        highlightedRow == Some(session.results[SelectedEntity()].selectedCandidateIndex)
    {
      selectedItem := Some(item);
      var e := SelectedEntity();
      if e == AllEntities {
        highlightedRow := None;
      } else {
        highlightedRow := Some(session.results[e].selectedCandidateIndex);
      }
      panel := InfoPanel(session.results, e);
    }
  }

  /** Reselecting the candidate that is already selected changes no label. */
  lemma ReselectSameKeepsPanel(results: seq<RecognitionResult>, e: int)
    requires AllSelected(results) && 0 <= e < |results|
    ensures results[e := Reselect(results[e], results[e].selectedCandidateIndex)] == results
  {
  }
}
