/**
 * The history screen: the list of stored estimate captures. Selecting one
 * opens the submission screen for it; when that screen closes after a
 * submission, the capture is marked submitted, in the list and in the store.
 * The list the store returns is a parameter of `ViewWillAppear`.
 */
module CaptureHistory {
  import opened Wrappers
  import opened DataModel
  import opened DataManagement

  const SubmissionSegue: string := "showEstimateCaptureSubmissionViewController"

  class CaptureHistoryScreen {
    const dataManager: DataManager
    var estimateCaptures: Option<seq<EstimateCapture>>
    /** The row whose capture is open in the submission screen. */
    var editingIndex: Option<nat>
    /** The captures given to the submission screen, in order. */
    var presented: seq<EstimateCapture>
    /** How many times the whole table was reloaded. */
    var reloads: nat
    /** The rows reloaded one by one, in order. */
    var reloadedRows: seq<nat>

    constructor (manager: DataManager)
      ensures dataManager == manager && estimateCaptures == None && editingIndex == None
      ensures presented == [] && reloads == 0 && reloadedRows == []
    {
      dataManager := manager;
      estimateCaptures := None;
      editingIndex := None;
      presented := [];
      reloads := 0;
      reloadedRows := [];
    }

    /** `numberOfRowsInSection` of the one section: no rows before the list has arrived. */
    function RowCount(): (n: nat)
      reads this
      ensures estimateCaptures.None? ==> n == 0
      ensures estimateCaptures.Some? ==> n == |estimateCaptures.value|
    {
      if estimateCaptures.None? then 0 else |estimateCaptures.value|
    }

    /** `viewWillAppear`: the list from the store replaces the shown one; a non-nil list reloads the table. */
    method ViewWillAppear(captures: Option<seq<EstimateCapture>>)
      modifies this
      ensures estimateCaptures == captures
      ensures reloads == old(reloads) + (if captures.Some? then 1 else 0)
      ensures editingIndex == old(editingIndex) && presented == old(presented)
      ensures reloadedRows == old(reloadedRows)
    {
      estimateCaptures := captures;
      if captures.Some? {
        reloads := reloads + 1;
      }
    }

    /** `prepare(for:sender:)`: the submission segue gives the edited capture to the submission screen. */
    method Prepare(segue: Option<string>)
      requires segue == Some(SubmissionSegue) ==>
        estimateCaptures.Some? && editingIndex.Some? && editingIndex.value < |estimateCaptures.value|
      modifies this
      ensures segue == Some(SubmissionSegue) ==>
        presented == old(presented) + [old(estimateCaptures).value[old(editingIndex).value]]
      ensures segue != Some(SubmissionSegue) ==> presented == old(presented)
      ensures estimateCaptures == old(estimateCaptures) && editingIndex == old(editingIndex)
      ensures reloads == old(reloads) && reloadedRows == old(reloadedRows)
    {
      if segue.None? {
        return;
      }
      if segue.value == SubmissionSegue {
        presented := presented + [estimateCaptures.value[editingIndex.value]];
      }
    }

    /** `didSelectRowAt`: remember the row and open the submission screen on its capture. */
    method DidSelectRow(row: nat)
      requires row < RowCount()
      modifies this
      ensures editingIndex == Some(row)
      ensures presented == old(presented) + [old(estimateCaptures).value[row]]
      ensures estimateCaptures == old(estimateCaptures)
      ensures reloads == old(reloads) && reloadedRows == old(reloadedRows)
    {
      editingIndex := Some(row);
      Prepare(Some(SubmissionSegue));
    }

    /**
     * `submissionViewControllerClosed`: nothing without an edited row; after
     * a submission only that capture's `isSubmitted` is set, which writes the
     * observed list and so fires its `didSet` reload of the whole table, the
     * capture is written back, and the row is reloaded and forgotten in the
     * store's completion; otherwise the row is just forgotten.
     */
    method SubmissionClosed(submitted: bool)
      requires submitted && editingIndex.Some? ==>
        estimateCaptures.Some? && editingIndex.value < |estimateCaptures.value|
      modifies this, dataManager
      ensures old(editingIndex).None? ==>
        estimateCaptures == old(estimateCaptures) && editingIndex == None &&
        dataManager.captureCalls == old(dataManager.captureCalls) && reloadedRows == old(reloadedRows)
      ensures old(editingIndex).Some? && !submitted ==>
        estimateCaptures == old(estimateCaptures) && editingIndex == None &&
        dataManager.captureCalls == old(dataManager.captureCalls) && reloadedRows == old(reloadedRows)
      ensures old(editingIndex).Some? && submitted ==>
        var i := old(editingIndex).value;
        var marked := old(estimateCaptures).value[i].(isSubmitted := true);
        estimateCaptures == Some(old(estimateCaptures).value[i := marked]) &&
        dataManager.captureCalls == old(dataManager.captureCalls) + [UpdateCapture(marked)] &&
        reloadedRows == old(reloadedRows) + [i] && editingIndex == None &&
        reloads == old(reloads) + 1
      ensures !(old(editingIndex).Some? && submitted) ==> reloads == old(reloads)
      ensures dataManager.records == old(dataManager.records) && dataManager.files == old(dataManager.files)
      ensures presented == old(presented)
    {
      if editingIndex.None? {
        return;
      }
      if submitted {
        var i := editingIndex.value;
        var captures := estimateCaptures.value;
        estimateCaptures := Some(captures[i := captures[i].(isSubmitted := true)]);
        reloads := reloads + 1;
        dataManager.UpdateEstimateCapture(estimateCaptures.value[i]);
        reloadedRows := reloadedRows + [i];
        editingIndex := None;
      } else {
        editingIndex := None;
      }
    }
  }

  /**
   * Opening capture `row` and submitting it: the list keeps its length, only
   * that capture changes, and only by becoming submitted; the store is asked
   * to update exactly that capture.
   */
  method SubmitFromHistory(captures: seq<EstimateCapture>, row: nat)
    returns (after: seq<EstimateCapture>, calls: seq<CaptureStoreCall>, shown: EstimateCapture)
    requires row < |captures|
    ensures |after| == |captures| && shown == captures[row]
    ensures after[row].isSubmitted && after[row] == captures[row].(isSubmitted := true)
    ensures forall j :: 0 <= j < |captures| && j != row ==> after[j] == captures[j]
    ensures calls == [UpdateCapture(after[row])]
  {
    var manager := new DataManager("", map[]);
    var screen := new CaptureHistoryScreen(manager);
    screen.ViewWillAppear(Some(captures));
    screen.DidSelectRow(row);
    screen.SubmissionClosed(true);
    after, calls, shown := screen.estimateCaptures.value, manager.captureCalls, screen.presented[0];
  }

  /**
   * Opening the screen: the table shows no row until the store answers,
   * then one row per stored capture, and every shown row can be selected.
   */
  method OpenHistory(captures: Option<seq<EstimateCapture>>) returns (rowsBefore: nat, rowsAfter: nat)
    ensures rowsBefore == 0
    ensures captures.None? ==> rowsAfter == 0
    ensures captures.Some? ==> rowsAfter == |captures.value|
  {
    var manager := new DataManager("", map[]);
    var screen := new CaptureHistoryScreen(manager);
    rowsBefore := screen.RowCount();
    screen.ViewWillAppear(captures);
    rowsAfter := screen.RowCount();
    if 0 < rowsAfter {
      screen.DidSelectRow(rowsAfter - 1);
    }
  }

  /** Closing the submission screen without submitting changes nothing and writes nothing. */
  method CloseWithoutSubmitting(captures: seq<EstimateCapture>, row: nat)
    returns (after: seq<EstimateCapture>, calls: seq<CaptureStoreCall>, editing: Option<nat>)
    requires row < |captures|
    ensures after == captures && calls == [] && editing == None
  {
    var manager := new DataManager("", map[]);
    var screen := new CaptureHistoryScreen(manager);
    screen.ViewWillAppear(Some(captures));
    screen.DidSelectRow(row);
    screen.SubmissionClosed(false);
    after, calls, editing := screen.estimateCaptures.value, manager.captureCalls, screen.editingIndex;
  }
}
