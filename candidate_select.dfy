/**
 * The candidate picker pushed for one recognition result: it remembers the
 * row the user picked and hands that index to its delegate when it goes away.
 */
module CandidateSelect {
  import opened Structures

  class CandidateSelectScreen {
    /** `recognitionResult`: the result whose candidates are listed. */
    var result: RecognitionResult
    /** Whether a delegate is attached (`delegate` is optional). */
    var hasDelegate: bool
    /** `selectedIndex`. */
    var selectedIndex: int
    /** Rows whose cells are drawn as selected. */
    var highlighted: set<int>
    /** Every index handed to `candidateDidSelected(index:)`, in order. */
    var delivered: seq<int>

    /** The controller before `viewDidLoad`: `selectedIndex` is 0. */
    constructor (r: RecognitionResult, withDelegate: bool)
      ensures result == r && hasDelegate == withDelegate
      ensures selectedIndex == 0 && highlighted == {} && delivered == []
    {
      result := r;
      hasDelegate := withDelegate;
      selectedIndex := 0;
      highlighted := {};
      delivered := [];
    }

    /** `viewDidLoad`: start from the candidate already selected on the result. */
    method ViewDidLoad()
      modifies this
      ensures selectedIndex == result.selectedCandidateIndex
      ensures result == old(result) && hasDelegate == old(hasDelegate)
      ensures highlighted == old(highlighted) && delivered == old(delivered)
    {
      selectedIndex := result.selectedCandidateIndex;
    }

    /** `numberOfSections(in:)`. */
    function SectionCount(): (n: nat)
    {
      0
    }

    /** `tableView(_:numberOfRowsInSection:)`: one row per candidate. */
    function RowCount(): (n: nat)
      reads this
      ensures n == |result.candidates|
    {
      |result.candidates|
    }

    /** Rows the table lays out, every section asking for `RowCount()` rows: none, as it reports no section. */
    function VisibleRowCount(): (n: nat)
      reads this
      ensures n == 0
    {
      SectionCount() * RowCount()
    }

    /** `tableView(_:didSelectRowAt:)`: the previous row is drawn unselected, `row` selected, and remembered. */
    method DidSelectRow(row: int)
      modifies this
      ensures selectedIndex == row
      ensures highlighted == old(highlighted) - {old(selectedIndex)} + {row}
      ensures result == old(result) && hasDelegate == old(hasDelegate) && delivered == old(delivered)
    {
      highlighted := highlighted - {selectedIndex} + {row};
      selectedIndex := row;
    }

    /** `viewWillDisappear`: the delegate, if any, receives the index once. */
    method ViewWillDisappear()
      modifies this
      ensures hasDelegate ==> delivered == old(delivered) + [selectedIndex]
      ensures !hasDelegate ==> delivered == old(delivered)
      ensures result == old(result) && hasDelegate == old(hasDelegate)
      ensures selectedIndex == old(selectedIndex) && highlighted == old(highlighted)
    {
      if hasDelegate {
        delivered := delivered + [selectedIndex];
      }
    }
  }

  /**
   * A whole visit: load, pick rows `picks` in turn, leave. The delegate receives
   * exactly one index, the last pick, or the result's own selection when nothing was picked;
   * when every pick is one of the `RowCount()` rows, that index names a candidate.
   * In the app as written no pick can happen: `numberOfSections` is 0, so the
   * table shows no row (`VisibleRowCount`), and only an empty `picks` is a
   * run the screen can produce.
   */
  method Visit(r: RecognitionResult, picks: seq<int>) returns (delivered: seq<int>)
    ensures |delivered| == 1
    ensures |picks| == 0 ==> delivered == [r.selectedCandidateIndex]
    ensures |picks| > 0 ==> delivered == [picks[|picks| - 1]]
    ensures ((forall i :: 0 <= i < |picks| ==> 0 <= picks[i] < |r.candidates|) &&
             0 <= r.selectedCandidateIndex < |r.candidates|) ==>
      0 <= delivered[0] < |r.candidates|
  {
    var screen := new CandidateSelectScreen(r, true);
    screen.ViewDidLoad();
    var i := 0;
    while i < |picks|
      invariant 0 <= i <= |picks|
      invariant screen.result == r && screen.hasDelegate && screen.delivered == []
      invariant i == 0 ==> screen.selectedIndex == r.selectedCandidateIndex
      invariant i > 0 ==> screen.selectedIndex == picks[i - 1]
    {
      screen.DidSelectRow(picks[i]);
      i := i + 1;
    }
    screen.ViewWillDisappear();
    delivered := screen.delivered;
  }
}
