/**
 * The main capture screen. It shows the camera preview, takes one photo per
 * tap of the capture button (or click of a volume button) while it is
 * available, saves the sensor document and the photo, asks for the weight of
 * the food and stores an estimate capture to submit later.
 *
 * The camera, the orientation indicator and the volume-button listener are
 * reduced to whether they run; the camera's answer to a capture request is the
 * `CaptureOutput` event. `Double(String)` is the parameter `parseDouble`.
 */
module MainCapture {
  import opened Wrappers
  import opened DataModel
  import opened DataManagement
  import opened ProgressHud

  /** The weight prompt while it is on screen: the text typed so far and whether Save is enabled. */
  datatype WeightPrompt = WeightPrompt(text: string, saveEnabled: bool)

  const ProcessingStatus: string := "Processing Calculation Data"
  const SaveErrorStatus: string := "Error occurred when saving the estimate."
  const SaveSuccessStatus: string := "Data Captured, you can submit it later."

  class MainCaptureScreen {
    /** `Double(String)`: the number a text reads as, if any. */
    const parseDouble: string -> Option<real>
    /** The shared store the screen saves into. */
    const dataManager: DataManager
    var loaded: bool
    var isDeviceSupported: bool
    /** Whether `EstimateImageCaptureManager` was created. */
    var hasCaptureManager: bool
    var isAvailable: bool
    var buttonEnabled: bool
    /** Whether the blur over the preview is shown (alpha 1). */
    var blurred: bool
    /** Whether `isAvailable` has ever changed; before that the button and blur keep their initial look. */
    var gateSet: bool
    var managerRunning: bool
    var indicatorRunning: bool
    var listenerStarted: bool
    /** How many times `captureImage` was called. */
    var captureRequests: nat
    var hud: Hud
    var prompt: Option<WeightPrompt>
    /** The URLs the two `saveFile` completions report for the latest capture. */
    var jsonURL: Option<Url>
    var photoURL: Option<Url>

    /**
     * The button and blur follow the gate once it has moved; a loaded screen
     * has a camera exactly when the device is supported; Save is enabled only
     * for a text that reads as a number; the prompt is up only once both files
     * are saved.
     */
    predicate Valid()
      reads this
    {
      (gateSet ==> buttonEnabled == isAvailable && blurred == !isAvailable) &&
      (!loaded ==> isDeviceSupported && !hasCaptureManager && !listenerStarted && !managerRunning && !indicatorRunning && !isAvailable) &&
      (loaded ==> (isDeviceSupported <==> hasCaptureManager)) &&
      (!isDeviceSupported ==> !managerRunning && !indicatorRunning && !isAvailable) &&
      (prompt.Some? ==> hasCaptureManager && jsonURL.Some? && photoURL.Some?) &&
      (prompt.Some? && prompt.value.saveEnabled ==> parseDouble(prompt.value.text).Some?)
    }

    constructor (parse: string -> Option<real>, manager: DataManager, initiallyEnabled: bool, initiallyBlurred: bool)
      ensures parseDouble == parse && dataManager == manager
      ensures !loaded && isDeviceSupported && !hasCaptureManager && !isAvailable
      ensures buttonEnabled == initiallyEnabled && blurred == initiallyBlurred && !gateSet
      ensures !managerRunning && !indicatorRunning && !listenerStarted && captureRequests == 0
      ensures hud == Hidden && prompt == None && jsonURL == None && photoURL == None
      ensures Valid()
    {
      parseDouble := parse;
      dataManager := manager;
      loaded := false;
      isDeviceSupported := true;
      hasCaptureManager := false;
      isAvailable := false;
      buttonEnabled := initiallyEnabled;
      blurred := initiallyBlurred;
      gateSet := false;
      managerRunning := false;
      indicatorRunning := false;
      listenerStarted := false;
      captureRequests := 0;
      hud := Hidden;
      prompt := None;
      jsonURL := None;
      photoURL := None;
    }

    /** The `isAvailable` observer: the button and blur are updated only when the value changes. */
    method SetAvailable(v: bool)
      requires Valid() && (v ==> loaded && isDeviceSupported)
      modifies this
      ensures Valid() && isAvailable == v
      ensures v != old(isAvailable) ==> buttonEnabled == v && blurred == !v
      ensures v == old(isAvailable) ==> buttonEnabled == old(buttonEnabled) && blurred == old(blurred)
      ensures loaded == old(loaded) && isDeviceSupported == old(isDeviceSupported)
      ensures hasCaptureManager == old(hasCaptureManager)
      ensures managerRunning == old(managerRunning) && indicatorRunning == old(indicatorRunning)
      ensures listenerStarted == old(listenerStarted) && captureRequests == old(captureRequests)
      ensures hud == old(hud) && prompt == old(prompt) && jsonURL == old(jsonURL) && photoURL == old(photoURL)
    {
      if v != isAvailable {
        buttonEnabled := v;
        blurred := !v;
        gateSet := true;
      }
      isAvailable := v;
    }

    /** `viewDidLoad`: an unsupported device keeps no camera and starts no listener. */
    method ViewDidLoad(cameraCreated: bool)
      requires Valid() && !loaded
      modifies this
      ensures Valid() && loaded
      ensures isDeviceSupported == cameraCreated && hasCaptureManager == cameraCreated
      ensures listenerStarted == cameraCreated
      ensures isAvailable == old(isAvailable) && buttonEnabled == old(buttonEnabled) && blurred == old(blurred)
      ensures managerRunning == old(managerRunning) && indicatorRunning == old(indicatorRunning)
      ensures captureRequests == old(captureRequests) && hud == old(hud) && prompt == old(prompt)
      ensures jsonURL == old(jsonURL) && photoURL == old(photoURL)
    {
      loaded := true;
      if !cameraCreated {
        isDeviceSupported := false;
        return;
      }
      hasCaptureManager := true;
      listenerStarted := true;
    }

    /** `viewWillAppear`: on a supported device, start the camera and the indicator and open the gate. */
    method ViewWillAppear()
      requires Valid() && loaded
      modifies this
      ensures Valid()
      ensures !isDeviceSupported ==>
        isAvailable == old(isAvailable) && managerRunning == old(managerRunning) &&
        indicatorRunning == old(indicatorRunning) &&
        buttonEnabled == old(buttonEnabled) && blurred == old(blurred)
      ensures isDeviceSupported ==> isAvailable && managerRunning && indicatorRunning
      ensures isDeviceSupported && !old(isAvailable) ==> buttonEnabled && !blurred
      ensures loaded == old(loaded) && isDeviceSupported == old(isDeviceSupported)
      ensures hasCaptureManager == old(hasCaptureManager) && listenerStarted == old(listenerStarted)
      ensures captureRequests == old(captureRequests) && hud == old(hud) && prompt == old(prompt)
      ensures jsonURL == old(jsonURL) && photoURL == old(photoURL)
    {
      if !isDeviceSupported {
        return;
      }
      managerRunning := true;
      indicatorRunning := true;
      SetAvailable(true);
    }

    /** `viewWillDisappear`: on a supported device, close the gate and stop the indicator and the camera. */
    method ViewWillDisappear()
      requires Valid() && loaded
      modifies this
      ensures Valid()
      ensures !isDeviceSupported ==>
        isAvailable == old(isAvailable) && managerRunning == old(managerRunning) &&
        indicatorRunning == old(indicatorRunning) &&
        buttonEnabled == old(buttonEnabled) && blurred == old(blurred)
      ensures isDeviceSupported ==> !isAvailable && !managerRunning && !indicatorRunning
      ensures isDeviceSupported && old(isAvailable) ==> !buttonEnabled && blurred
      ensures loaded == old(loaded) && isDeviceSupported == old(isDeviceSupported)
      ensures hasCaptureManager == old(hasCaptureManager) && listenerStarted == old(listenerStarted)
      ensures captureRequests == old(captureRequests) && hud == old(hud) && prompt == old(prompt)
      ensures jsonURL == old(jsonURL) && photoURL == old(photoURL)
    {
      if !isDeviceSupported {
        return;
      }
      SetAvailable(false);
      indicatorRunning := false;
      managerRunning := false;
    }

    /** `captureButtonTapped`: nothing while unavailable; otherwise close the gate and request one photo. */
    method CaptureButtonTapped()
      requires Valid()
      modifies this
      ensures Valid()
      ensures !old(isAvailable) ==>
        captureRequests == old(captureRequests) && hud == old(hud) &&
        buttonEnabled == old(buttonEnabled) && blurred == old(blurred)
      ensures old(isAvailable) ==>
        captureRequests == old(captureRequests) + 1 && hud == Progress(ProcessingStatus) &&
        !buttonEnabled && blurred
      ensures !isAvailable
      ensures loaded == old(loaded) && isDeviceSupported == old(isDeviceSupported)
      ensures hasCaptureManager == old(hasCaptureManager) && listenerStarted == old(listenerStarted)
      ensures managerRunning == old(managerRunning) && indicatorRunning == old(indicatorRunning)
      ensures prompt == old(prompt) && jsonURL == old(jsonURL) && photoURL == old(photoURL)
    {
      if !isAvailable {
        return;
      }
      SetAvailable(false);
      hud := Progress(ProcessingStatus);
      captureRequests := captureRequests + 1;
    }

    /** The volume-button delegate: a click of either button is a tap of the capture button. */
    method VolumeButtonClicked(isUpperButton: bool)
      requires Valid()
      modifies this
      ensures Valid()
      ensures !old(isAvailable) ==>
        captureRequests == old(captureRequests) && hud == old(hud) &&
        buttonEnabled == old(buttonEnabled) && blurred == old(blurred)
      ensures old(isAvailable) ==>
        captureRequests == old(captureRequests) + 1 && hud == Progress(ProcessingStatus) &&
        !buttonEnabled && blurred
      ensures !isAvailable
      ensures loaded == old(loaded) && isDeviceSupported == old(isDeviceSupported)
      ensures hasCaptureManager == old(hasCaptureManager) && listenerStarted == old(listenerStarted)
      ensures managerRunning == old(managerRunning) && indicatorRunning == old(indicatorRunning)
      ensures prompt == old(prompt) && jsonURL == old(jsonURL) && photoURL == old(photoURL)
    {
      CaptureButtonTapped();
    }

    /**
     * `captureOutput` and `submitCapturedData`: both files are saved, and once
     * both completions have run the weight prompt comes up with Save disabled.
     * Only a screen with a camera receives this event.
     */
    method CaptureOutput(document: Data, jpeg: Data, jsonUuid: Uuid, photoUuid: Uuid)
      requires Valid() && hasCaptureManager
      modifies this, dataManager
      ensures Valid()
      ensures jsonURL == Some(dataManager.FileUrl(jsonUuid, "json"))
      ensures photoURL == Some(dataManager.FileUrl(photoUuid, "jpg"))
      ensures dataManager.files == old(dataManager.files)[jsonURL.value := document][photoURL.value := jpeg]
      ensures dataManager.records == old(dataManager.records)
      ensures dataManager.captureCalls == old(dataManager.captureCalls)
      ensures prompt == Some(WeightPrompt("", false))
      ensures isAvailable == old(isAvailable) && buttonEnabled == old(buttonEnabled) && blurred == old(blurred)
      ensures loaded == old(loaded) && isDeviceSupported == old(isDeviceSupported)
      ensures hasCaptureManager == old(hasCaptureManager) && listenerStarted == old(listenerStarted)
      ensures managerRunning == old(managerRunning) && indicatorRunning == old(indicatorRunning)
      ensures captureRequests == old(captureRequests) && hud == old(hud)
    {
      var json := dataManager.SaveFile(document, "json", jsonUuid);
      jsonURL := Some(json);
      var photo := dataManager.SaveFile(jpeg, "jpg", photoUuid);
      photoURL := Some(photo);
      prompt := Some(WeightPrompt("", false));
    }

    /** The text-change observer of the prompt: Save is enabled exactly when the text reads as a number. */
    method PromptTextChanged(text: string)
      requires Valid() && prompt.Some?
      modifies this
      ensures Valid()
      ensures prompt == Some(WeightPrompt(text, parseDouble(text).Some?))
      ensures isAvailable == old(isAvailable) && buttonEnabled == old(buttonEnabled) && blurred == old(blurred)
      ensures loaded == old(loaded) && isDeviceSupported == old(isDeviceSupported)
      ensures hasCaptureManager == old(hasCaptureManager) && listenerStarted == old(listenerStarted)
      ensures managerRunning == old(managerRunning) && indicatorRunning == old(indicatorRunning)
      ensures captureRequests == old(captureRequests) && hud == old(hud)
      ensures jsonURL == old(jsonURL) && photoURL == old(photoURL)
    {
      prompt := Some(WeightPrompt(text, parseDouble(text).Some?));
    }

    /** Cancel: dismiss the HUD and open the gate again; nothing is stored. */
    method PromptCancelled()
      requires Valid() && prompt.Some?
      modifies this
      ensures Valid()
      ensures prompt == None && hud == Hidden && isAvailable
      ensures !old(isAvailable) ==> buttonEnabled && !blurred
      ensures loaded == old(loaded) && isDeviceSupported == old(isDeviceSupported)
      ensures hasCaptureManager == old(hasCaptureManager) && listenerStarted == old(listenerStarted)
      ensures managerRunning == old(managerRunning) && indicatorRunning == old(indicatorRunning)
      ensures captureRequests == old(captureRequests)
      ensures jsonURL == old(jsonURL) && photoURL == old(photoURL)
    {
      prompt := None;
      hud := Hidden;
      SetAvailable(true);
    }

    /** The capture Save stores: the two saved files, not submitted, with the typed weight. */
    function CaptureToStore(timestamp: Date, sessionId: Uuid): (c: EstimateCapture)
      requires Valid() && prompt.Some? && prompt.value.saveEnabled
      reads this
      ensures c.jsonURL == jsonURL && c.photoURL == photoURL && c.jsonURL.Some? && c.photoURL.Some?
      ensures c.timestamp == timestamp && c.sessionId == sessionId && !c.isSubmitted
      ensures c.initialWeight == parseDouble(prompt.value.text)
      ensures c.additionalPhotoURL.None? && c.plateWeight.None? && c.foodName.None?
    {
      EstimateCapture(jsonURL, photoURL, None, timestamp, sessionId, false,
        Some(parseDouble(prompt.value.text).GetOr(0.0)), None, None)
    }

    /**
     * Save: store the capture, report the outcome of the store on the HUD and
     * open the gate again, whatever the outcome.
     */
    method PromptSaved(timestamp: Date, sessionId: Uuid, storeFails: bool)
      requires Valid() && prompt.Some? && prompt.value.saveEnabled
      modifies this, dataManager
      ensures Valid()
      ensures dataManager.captureCalls ==
        old(dataManager.captureCalls) + [SaveCapture(old(CaptureToStore(timestamp, sessionId)))]
      ensures dataManager.records == old(dataManager.records) && dataManager.files == old(dataManager.files)
      ensures hud == (if storeFails then Failed(SaveErrorStatus) else Succeeded(SaveSuccessStatus))
      ensures prompt == None && isAvailable
      ensures !old(isAvailable) ==> buttonEnabled && !blurred
      ensures loaded == old(loaded) && isDeviceSupported == old(isDeviceSupported)
      ensures hasCaptureManager == old(hasCaptureManager) && listenerStarted == old(listenerStarted)
      ensures managerRunning == old(managerRunning) && indicatorRunning == old(indicatorRunning)
      ensures captureRequests == old(captureRequests)
      ensures jsonURL == old(jsonURL) && photoURL == old(photoURL)
    {
      var text := prompt.value.text;
      var capture := EstimateCapture(jsonURL, photoURL, None, timestamp, sessionId, false,
        Some(parseDouble(text).GetOr(0.0)), None, None);
      dataManager.SaveEstimateCapture(capture);
      prompt := None;
      if storeFails {
        hud := Failed(SaveErrorStatus);
      } else {
        hud := Succeeded(SaveSuccessStatus);
      }
      SetAvailable(true);
    }
  }

  /** Two taps in a row, or a tap and a volume click, request one photo. */
  method DoubleTapCapturesOnce(parse: string -> Option<real>, documents: string, secondByVolume: bool)
    returns (requests: nat, available: bool)
    ensures requests == 1 && !available
  {
    var manager := new DataManager(documents, map[]);
    var screen := new MainCaptureScreen(parse, manager, false, true);
    screen.ViewDidLoad(true);
    screen.ViewWillAppear();
    screen.CaptureButtonTapped();
    if secondByVolume {
      screen.VolumeButtonClicked(true);
    } else {
      screen.CaptureButtonTapped();
    }
    requests, available := screen.captureRequests, screen.isAvailable;
  }

  /** On a device whose camera cannot be set up, appearing neither starts the camera nor opens the gate. */
  method UnsupportedDeviceStaysClosed(parse: string -> Option<real>, documents: string)
    returns (requests: nat, available: bool, running: bool)
    ensures requests == 0 && !available && !running
  {
    var manager := new DataManager(documents, map[]);
    var screen := new MainCaptureScreen(parse, manager, true, false);
    screen.ViewDidLoad(false);
    screen.ViewWillAppear();
    screen.CaptureButtonTapped();
    screen.ViewWillDisappear();
    requests, available, running := screen.captureRequests, screen.isAvailable, screen.managerRunning;
  }

  /**
   * A whole capture: tap, camera output, a typed weight, Save. The one stored
   * capture points at the two saved files and carries the typed weight, and
   * the screen is available again.
   */
  method CaptureAndSave(parse: string -> Option<real>, documents: string, document: Data, jpeg: Data,
                        jsonUuid: Uuid, photoUuid: Uuid, typed: string, timestamp: Date, sessionId: Uuid)
    returns (stored: seq<CaptureStoreCall>, available: bool)
    requires parse(typed).Some?
    ensures |stored| == 1 && stored[0].SaveCapture? && available
    ensures stored[0].capture.jsonURL == Some(Url(documents + "/" + jsonUuid + ".json"))
    ensures stored[0].capture.photoURL == Some(Url(documents + "/" + photoUuid + ".jpg"))
    ensures stored[0].capture.initialWeight == parse(typed)
    ensures !stored[0].capture.isSubmitted && stored[0].capture.sessionId == sessionId
  {
    var manager := new DataManager(documents, map[]);
    var screen := new MainCaptureScreen(parse, manager, false, true);
    screen.ViewDidLoad(true);
    screen.ViewWillAppear();
    screen.CaptureButtonTapped();
    screen.CaptureOutput(document, jpeg, jsonUuid, photoUuid);
    screen.PromptTextChanged(typed);
    screen.PromptSaved(timestamp, sessionId, false);
    assert manager.FileUrl(jsonUuid, "json") == Url(documents + "/" + jsonUuid + ".json");
    assert manager.FileUrl(photoUuid, "jpg") == Url(documents + "/" + photoUuid + ".jpg");
    stored, available := manager.captureCalls, screen.isAvailable;
  }

  /** A cancelled prompt stores nothing and leaves the screen available. */
  method CaptureAndCancel(parse: string -> Option<real>, documents: string, document: Data, jpeg: Data,
                          jsonUuid: Uuid, photoUuid: Uuid)
    returns (stored: seq<CaptureStoreCall>, available: bool)
    ensures stored == [] && available
  {
    var manager := new DataManager(documents, map[]);
    var screen := new MainCaptureScreen(parse, manager, false, true);
    screen.ViewDidLoad(true);
    screen.ViewWillAppear();
    screen.CaptureButtonTapped();
    screen.CaptureOutput(document, jpeg, jsonUuid, photoUuid);
    screen.PromptCancelled();
    stored, available := manager.captureCalls, screen.isAvailable;
  }
}
