/**
 * The last screen of the data-collection pipeline: the user types the food's
 * name and weight. Done is enabled only for a non-empty name and a positive
 * weight, and the capture is stored when the screen goes away after Done.
 * `Double(String)` is the parameter `parseDouble`.
 */
module InitialInformation {
  import opened Wrappers
  import opened DataModel
  import opened DataManagement
  import opened ProgressHud

  const SavedStatus: string := "Data saved. You can submit it in History later."

  /** The weight a field's text gives, when it reads as a positive number; a nil text reads as "na". */
  function PositiveWeight(parseDouble: string -> Option<real>, weightText: Option<string>): (w: Option<real>)
    ensures w.Some? <==> parseDouble(weightText.GetOr("na")).Some? && parseDouble(weightText.GetOr("na")).value > 0.0
    ensures w.Some? ==> w == parseDouble(weightText.GetOr("na")) && w.value > 0.0
  {
    var parsed := parseDouble(weightText.GetOr("na"));
    if parsed.Some? && parsed.value > 0.0 then parsed else None
  }

  class InitialInformationScreen {
    const parseDouble: string -> Option<real>
    const dataManager: DataManager
    /** The capture handed in by the previous screen, completed here. */
    var estimateCapture: EstimateCapture
    var doneEnabled: bool
    var shouldSave: bool
    var hud: Hud
    var dismissed: bool

    constructor (parse: string -> Option<real>, manager: DataManager, capture: EstimateCapture, initiallyEnabled: bool)
      ensures parseDouble == parse && dataManager == manager && estimateCapture == capture
      ensures doneEnabled == initiallyEnabled && !shouldSave && hud == Hidden && !dismissed
    {
      parseDouble := parse;
      dataManager := manager;
      estimateCapture := capture;
      doneEnabled := initiallyEnabled;
      shouldSave := false;
      hud := Hidden;
      dismissed := false;
    }

    /**
     * `textFieldChanged`, given the two fields' texts: with a name and a
     * positive weight, Done is enabled and both go into the capture;
     * otherwise Done is disabled and the capture is left as it was.
     */
    method TextFieldChanged(name: string, weightText: Option<string>)
      modifies this
      ensures doneEnabled <==> |name| > 0 && PositiveWeight(parseDouble, weightText).Some?
      ensures doneEnabled ==> (estimateCapture ==
        old(estimateCapture).(foodName := Some(name), initialWeight := PositiveWeight(parseDouble, weightText)))
      ensures !doneEnabled ==> estimateCapture == old(estimateCapture)
      ensures shouldSave == old(shouldSave) && hud == old(hud) && dismissed == old(dismissed)
    {
      var weight := PositiveWeight(parseDouble, weightText);
      if !(|name| > 0 && weight.Some?) {
        doneEnabled := false;
        return;
      }
      doneEnabled := true;
      estimateCapture := estimateCapture.(foodName := Some(name));
      estimateCapture := estimateCapture.(initialWeight := Some(weight.value));
    }

    /** `doneButtonTapped`: mark the capture for saving, confirm, and dismiss. */
    method DoneButtonTapped()
      modifies this
      ensures shouldSave && hud == Succeeded(SavedStatus) && dismissed
      ensures estimateCapture == old(estimateCapture) && doneEnabled == old(doneEnabled)
    {
      shouldSave := true;
      hud := Succeeded(SavedStatus);
      dismissed := true;
    }

    /** `viewWillDisappear`: the capture is stored exactly when Done was tapped. */
    method ViewWillDisappear()
      modifies dataManager
      ensures shouldSave ==> dataManager.captureCalls == old(dataManager.captureCalls) + [SaveCapture(estimateCapture)]
      ensures !shouldSave ==> dataManager.captureCalls == old(dataManager.captureCalls)
      ensures dataManager.records == old(dataManager.records) && dataManager.files == old(dataManager.files)
    {
      if shouldSave {
        dataManager.SaveEstimateCapture(estimateCapture);
      }
    }
  }

  /**
   * Typing a name and a weight, then Done: the one stored capture carries the
   * name and the weight typed.
   */
  method FillInAndFinish(parse: string -> Option<real>, capture: EstimateCapture,
                         name: string, weightText: string)
    returns (stored: seq<CaptureStoreCall>)
    requires |name| > 0 && parse(weightText).Some? && parse(weightText).value > 0.0
    ensures stored == [SaveCapture(capture.(foodName := Some(name), initialWeight := parse(weightText)))]
  {
    var manager := new DataManager("", map[]);
    var screen := new InitialInformationScreen(parse, manager, capture, false);
    screen.TextFieldChanged(name, Some(weightText));
    screen.DoneButtonTapped();
    screen.ViewWillDisappear();
    stored := manager.captureCalls;
  }

  /** Leaving without Done stores nothing, whatever was typed. */
  method LeaveWithoutDone(parse: string -> Option<real>, capture: EstimateCapture,
                          name: string, weightText: Option<string>)
    returns (stored: seq<CaptureStoreCall>)
    ensures stored == []
  {
    var manager := new DataManager("", map[]);
    var screen := new InitialInformationScreen(parse, manager, capture, false);
    screen.TextFieldChanged(name, weightText);
    screen.ViewWillDisappear();
    stored := manager.captureCalls;
  }

  /** A text that is not a positive number never enables Done and never reaches the capture. */
  method InvalidWeightKeepsCapture(parse: string -> Option<real>, capture: EstimateCapture,
                                   name: string, weightText: Option<string>)
    returns (enabled: bool, kept: EstimateCapture)
    requires parse(weightText.GetOr("na")).None? || parse(weightText.GetOr("na")).value <= 0.0
    ensures !enabled && kept == capture
  {
    var manager := new DataManager("", map[]);
    var screen := new InitialInformationScreen(parse, manager, capture, true);
    screen.TextFieldChanged(name, weightText);
    enabled, kept := screen.doneEnabled, screen.estimateCapture;
  }
}
