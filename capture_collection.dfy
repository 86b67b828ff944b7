/**
 * The capture screen of the data-collection pipeline. Its gate is the same
 * as the main capture screen's; a photo is not followed by a weight prompt:
 * the two saved files become a new estimate capture, which replaces (and
 * deletes the files of) the capture taken before and is handed on to the
 * additional-photo screen.
 */
module CollectionCapture {
  import opened Wrappers
  import opened DataModel
  import opened DataManagement
  import opened ProgressHud

  const ProcessingStatus: string := "Processing Calculation Data"
  /** The segue that carries the capture on to the additional-photo screen. */
  const AdditionalImageSegue: string := "showAdditionalImageCaptureViewController"

  /** The files a capture refers to: its JSON, photo and additional photo, where set. */
  function CaptureFiles(capture: Option<EstimateCapture>): (urls: set<Url>)
    ensures capture.None? ==> urls == {}
    ensures capture.Some? ==> forall u :: u in urls <==>
      Some(u) == capture.value.jsonURL || Some(u) == capture.value.photoURL ||
      Some(u) == capture.value.additionalPhotoURL
  {
    if capture.None? then {}
    else
      var c := capture.value;
      (if c.jsonURL.Some? then {c.jsonURL.value} else {}) +
      (if c.photoURL.Some? then {c.photoURL.value} else {}) +
      (if c.additionalPhotoURL.Some? then {c.additionalPhotoURL.value} else {})
  }

  class CollectionCaptureScreen {
    const dataManager: DataManager
    var loaded: bool
    var isDeviceSupported: bool
    var hasCaptureManager: bool
    var isAvailable: bool
    var buttonEnabled: bool
    var blurred: bool
    /** Whether `isAvailable` has ever changed; before that the button and blur keep their initial look. */
    var gateSet: bool
    var managerRunning: bool
    var indicatorRunning: bool
    var listenerStarted: bool
    var captureRequests: nat
    var hud: Hud
    /** The capture taken last, if any. */
    var estimateCapture: Option<EstimateCapture>
    /** The captures passed to the additional-photo screen, in order. */
    var handedOff: seq<EstimateCapture>
    var dismissed: bool

    predicate Valid()
      reads this
    {
      (gateSet ==> buttonEnabled == isAvailable && blurred == !isAvailable) &&
      (!loaded ==> (isDeviceSupported && !hasCaptureManager && !listenerStarted &&
                    !managerRunning && !indicatorRunning && !isAvailable)) &&
      (loaded ==> (isDeviceSupported <==> hasCaptureManager)) &&
      (!isDeviceSupported ==> !managerRunning && !indicatorRunning && !isAvailable)
    }

    constructor (manager: DataManager, initiallyEnabled: bool, initiallyBlurred: bool)
      ensures dataManager == manager
      ensures !loaded && isDeviceSupported && !hasCaptureManager && !isAvailable
      ensures buttonEnabled == initiallyEnabled && blurred == initiallyBlurred && !gateSet
      ensures !managerRunning && !indicatorRunning && !listenerStarted && captureRequests == 0
      ensures hud == Hidden && estimateCapture == None && handedOff == [] && !dismissed
      ensures Valid()
    {
      dataManager := manager;
      loaded := false;
      isDeviceSupported := true;
      hasCaptureManager := false;
      isAvailable := false;
      buttonEnabled := initiallyEnabled;
      blurred := initiallyBlurred;
      gateSet := false;
      managerRunning := false;
      indicatorRunning := false;
      listenerStarted := false;
      captureRequests := 0;
      hud := Hidden;
      estimateCapture := None;
      handedOff := [];
      dismissed := false;
    }

    /** The `isAvailable` observer: the button and blur are updated only when the value changes. */
    method SetAvailable(v: bool)
      requires Valid() && (v ==> loaded && isDeviceSupported)
      modifies this
      ensures Valid() && isAvailable == v
      ensures v != old(isAvailable) ==> buttonEnabled == v && blurred == !v
      ensures v == old(isAvailable) ==> buttonEnabled == old(buttonEnabled) && blurred == old(blurred)
      ensures loaded == old(loaded) && isDeviceSupported == old(isDeviceSupported)
      ensures hasCaptureManager == old(hasCaptureManager)
      ensures managerRunning == old(managerRunning) && indicatorRunning == old(indicatorRunning)
      ensures listenerStarted == old(listenerStarted) && captureRequests == old(captureRequests)
      ensures hud == old(hud) && estimateCapture == old(estimateCapture)
      ensures handedOff == old(handedOff) && dismissed == old(dismissed)
    {
      if v != isAvailable {
        buttonEnabled := v;
        blurred := !v;
        gateSet := true;
      }
      isAvailable := v;
    }

    /** `viewDidLoad`: an unsupported device keeps no camera and starts no listener. */
    method ViewDidLoad(cameraCreated: bool)
      requires Valid() && !loaded
      modifies this
      ensures Valid() && loaded
      ensures isDeviceSupported == cameraCreated && hasCaptureManager == cameraCreated
      ensures listenerStarted == cameraCreated
      ensures isAvailable == old(isAvailable) && buttonEnabled == old(buttonEnabled) && blurred == old(blurred)
      ensures managerRunning == old(managerRunning) && indicatorRunning == old(indicatorRunning)
      ensures captureRequests == old(captureRequests) && hud == old(hud)
      ensures estimateCapture == old(estimateCapture) && handedOff == old(handedOff) && dismissed == old(dismissed)
    {
      loaded := true;
      if !cameraCreated {
        isDeviceSupported := false;
        return;
      }
      hasCaptureManager := true;
      listenerStarted := true;
    }

    /** `viewWillAppear`: the only place the gate opens. */
    method ViewWillAppear()
      requires Valid() && loaded
      modifies this
      ensures Valid()
      ensures !isDeviceSupported ==>
        isAvailable == old(isAvailable) && managerRunning == old(managerRunning) &&
        indicatorRunning == old(indicatorRunning) &&
        buttonEnabled == old(buttonEnabled) && blurred == old(blurred)
      ensures isDeviceSupported ==> isAvailable && managerRunning && indicatorRunning
      ensures isDeviceSupported && !old(isAvailable) ==> buttonEnabled && !blurred
      ensures loaded == old(loaded) && isDeviceSupported == old(isDeviceSupported)
      ensures hasCaptureManager == old(hasCaptureManager) && listenerStarted == old(listenerStarted)
      ensures captureRequests == old(captureRequests) && hud == old(hud)
      ensures estimateCapture == old(estimateCapture) && handedOff == old(handedOff) && dismissed == old(dismissed)
    {
      if !isDeviceSupported {
        return;
      }
      managerRunning := true;
      indicatorRunning := true;
      SetAvailable(true);
    }

    /** `viewWillDisappear`: on a supported device, close the gate and stop the indicator and the camera. */
    method ViewWillDisappear()
      requires Valid() && loaded
      modifies this
      ensures Valid()
      ensures !isDeviceSupported ==>
        isAvailable == old(isAvailable) && managerRunning == old(managerRunning) &&
        indicatorRunning == old(indicatorRunning) &&
        buttonEnabled == old(buttonEnabled) && blurred == old(blurred)
      ensures isDeviceSupported ==> !isAvailable && !managerRunning && !indicatorRunning
      ensures isDeviceSupported && old(isAvailable) ==> !buttonEnabled && blurred
      ensures loaded == old(loaded) && isDeviceSupported == old(isDeviceSupported)
      ensures hasCaptureManager == old(hasCaptureManager) && listenerStarted == old(listenerStarted)
      ensures captureRequests == old(captureRequests) && hud == old(hud)
      ensures estimateCapture == old(estimateCapture) && handedOff == old(handedOff) && dismissed == old(dismissed)
    {
      if !isDeviceSupported {
        return;
      }
      SetAvailable(false);
      indicatorRunning := false;
      managerRunning := false;
    }

    /** `captureButtonTapped`: nothing while unavailable; otherwise close the gate and request one photo. */
    method CaptureButtonTapped()
      requires Valid()
      modifies this
      ensures Valid()
      ensures !old(isAvailable) ==>
        captureRequests == old(captureRequests) && hud == old(hud) &&
        buttonEnabled == old(buttonEnabled) && blurred == old(blurred)
      ensures old(isAvailable) ==>
        captureRequests == old(captureRequests) + 1 && hud == Progress(ProcessingStatus) &&
        !buttonEnabled && blurred
      ensures !isAvailable
      ensures loaded == old(loaded) && isDeviceSupported == old(isDeviceSupported)
      ensures hasCaptureManager == old(hasCaptureManager) && listenerStarted == old(listenerStarted)
      ensures managerRunning == old(managerRunning) && indicatorRunning == old(indicatorRunning)
      ensures estimateCapture == old(estimateCapture) && handedOff == old(handedOff) && dismissed == old(dismissed)
    {
      if !isAvailable {
        return;
      }
      SetAvailable(false);
      hud := Progress(ProcessingStatus);
      captureRequests := captureRequests + 1;
    }

    /** The volume-button delegate: a click of either button is a tap of the capture button. */
    method VolumeButtonClicked(isUpperButton: bool)
      requires Valid()
      modifies this
      ensures Valid()
      ensures !old(isAvailable) ==>
        captureRequests == old(captureRequests) && hud == old(hud) &&
        buttonEnabled == old(buttonEnabled) && blurred == old(blurred)
      ensures old(isAvailable) ==>
        captureRequests == old(captureRequests) + 1 && hud == Progress(ProcessingStatus) &&
        !buttonEnabled && blurred
      ensures !isAvailable
      ensures loaded == old(loaded) && isDeviceSupported == old(isDeviceSupported)
      ensures hasCaptureManager == old(hasCaptureManager) && listenerStarted == old(listenerStarted)
      ensures managerRunning == old(managerRunning) && indicatorRunning == old(indicatorRunning)
      ensures estimateCapture == old(estimateCapture) && handedOff == old(handedOff) && dismissed == old(dismissed)
    {
      CaptureButtonTapped();
    }

    /** `removeEstimateCaptureFiles`: the current capture's JSON, photo and additional photo; nil URLs are skipped. */
    method RemoveEstimateCaptureFiles()
      modifies dataManager
      ensures dataManager.files == Without(old(dataManager.files), CaptureFiles(estimateCapture))
      ensures dataManager.records == old(dataManager.records)
      ensures dataManager.captureCalls == old(dataManager.captureCalls)
    {
      ghost var before := dataManager.files;
      var json := if estimateCapture.Some? then estimateCapture.value.jsonURL else None;
      var photo := if estimateCapture.Some? then estimateCapture.value.photoURL else None;
      var additional := if estimateCapture.Some? then estimateCapture.value.additionalPhotoURL else None;
      dataManager.RemoveFile(json);
      dataManager.RemoveFile(photo);
      dataManager.RemoveFile(additional);
      ghost var a := if json.Some? then {json.value} else {};
      ghost var b := if photo.Some? then {photo.value} else {};
      ghost var c := if additional.Some? then {additional.value} else {};
      WithoutTwice(before, a, b);
      WithoutTwice(before, a + b, c);
      assert CaptureFiles(estimateCapture) == a + b + c;
    }

    /** `cancelButtonTapped`: delete the capture's files, then dismiss. */
    method CancelButtonTapped()
      requires Valid()
      modifies this, dataManager
      ensures Valid() && dismissed
      ensures dataManager.files == Without(old(dataManager.files), CaptureFiles(estimateCapture))
      ensures dataManager.records == old(dataManager.records)
      ensures dataManager.captureCalls == old(dataManager.captureCalls)
      ensures estimateCapture == old(estimateCapture) && handedOff == old(handedOff)
      ensures isAvailable == old(isAvailable) && captureRequests == old(captureRequests) && hud == old(hud)
    {
      RemoveEstimateCaptureFiles();
      dismissed := true;
    }

    /** The capture built from a photo's two saved files. */
    static function NewCapture(json: Url, photo: Url, timestamp: Date, sessionId: Uuid): (c: EstimateCapture)
      ensures c.jsonURL == Some(json) && c.photoURL == Some(photo) && c.additionalPhotoURL.None?
      ensures c.timestamp == timestamp && c.sessionId == sessionId && !c.isSubmitted
      ensures c.plateWeight == Some(0.0) && c.initialWeight.None? && c.foodName.None?
    {
      EstimateCapture(Some(json), Some(photo), None, timestamp, sessionId, false, None, Some(0.0), None)
    }

    /**
     * `captureOutput` and `processCapturedData`: save both files; once both
     * are saved, delete the previous capture's files, make the new capture,
     * hide the HUD and hand the capture on. The gate stays closed.
     */
    method CaptureOutput(document: Data, jpeg: Data, jsonUuid: Uuid, photoUuid: Uuid,
                         timestamp: Date, sessionId: Uuid)
      requires Valid() && hasCaptureManager
      modifies this, dataManager
      ensures Valid()
      ensures estimateCapture == Some(NewCapture(
        dataManager.FileUrl(jsonUuid, "json"), dataManager.FileUrl(photoUuid, "jpg"), timestamp, sessionId))
      ensures dataManager.files == Without(
        old(dataManager.files)[dataManager.FileUrl(jsonUuid, "json") := document]
                              [dataManager.FileUrl(photoUuid, "jpg") := jpeg],
        CaptureFiles(old(estimateCapture)))
      ensures dataManager.records == old(dataManager.records)
      ensures dataManager.captureCalls == old(dataManager.captureCalls)
      ensures handedOff == old(handedOff) + [estimateCapture.value]
      ensures hud == Hidden
      ensures isAvailable == old(isAvailable) && buttonEnabled == old(buttonEnabled) && blurred == old(blurred)
      ensures loaded == old(loaded) && isDeviceSupported == old(isDeviceSupported)
      ensures hasCaptureManager == old(hasCaptureManager) && listenerStarted == old(listenerStarted)
      ensures managerRunning == old(managerRunning) && indicatorRunning == old(indicatorRunning)
      ensures captureRequests == old(captureRequests) && dismissed == old(dismissed)
    {
      var json := dataManager.SaveFile(document, "json", jsonUuid);
      var photo := dataManager.SaveFile(jpeg, "jpg", photoUuid);
      RemoveEstimateCaptureFiles();
      estimateCapture := Some(NewCapture(json, photo, timestamp, sessionId));
      hud := Hidden;
      Prepare(AdditionalImageSegue, estimateCapture.value);
    }

    /** `prepare(for:sender:)`: the additional-photo segue passes the capture on unchanged. */
    method Prepare(segue: string, sender: EstimateCapture)
      modifies this
      ensures segue == AdditionalImageSegue ==> handedOff == old(handedOff) + [sender]
      ensures segue != AdditionalImageSegue ==> handedOff == old(handedOff)
      ensures estimateCapture == old(estimateCapture) && hud == old(hud) && dismissed == old(dismissed)
      ensures isAvailable == old(isAvailable) && buttonEnabled == old(buttonEnabled) && blurred == old(blurred)
      ensures loaded == old(loaded) && isDeviceSupported == old(isDeviceSupported)
      ensures hasCaptureManager == old(hasCaptureManager) && listenerStarted == old(listenerStarted)
      ensures managerRunning == old(managerRunning) && indicatorRunning == old(indicatorRunning)
      ensures captureRequests == old(captureRequests) && gateSet == old(gateSet)
    {
      if segue == AdditionalImageSegue {
        handedOff := handedOff + [sender];
      }
    }
  }

  /**
   * A retake: the first photo hands its capture to the additional-photo
   * screen, which covers this one (`viewWillDisappear`) until the user comes
   * back (`viewWillAppear`, which reopens the gate); a second tap then
   * requests a second photo. After it, the first photo's files are gone, the
   * second's are on disk, exactly two photos were requested, and the gate is
   * closed again.
   */
  method RetakeReplacesFiles(documents: string, d1: Data, p1: Data, d2: Data, p2: Data,
                             j1: Uuid, f1: Uuid, j2: Uuid, f2: Uuid, t1: Date, t2: Date, s1: Uuid, s2: Uuid)
    returns (files: map<Url, Data>, firstJson: Url, secondJson: Url, secondPhoto: Url,
             available: bool, requests: nat)
    requires j1 != j2 && f1 != f2 && |j1| == |j2| == |f1| == |f2|
    ensures firstJson !in files && secondJson in files && secondPhoto in files
    ensures files[secondJson] == d2 && files[secondPhoto] == p2
    ensures !available && requests == 2
  {
    var manager := new DataManager(documents, map[]);
    var screen := new CollectionCaptureScreen(manager, false, true);
    screen.ViewDidLoad(true);
    screen.ViewWillAppear();
    screen.CaptureButtonTapped();
    screen.CaptureOutput(d1, p1, j1, f1, t1, s1);
    screen.ViewWillDisappear();
    screen.ViewWillAppear();
    screen.CaptureButtonTapped();
    screen.CaptureOutput(d2, p2, j2, f2, t2, s2);
    firstJson := manager.FileUrl(j1, "json");
    secondJson := manager.FileUrl(j2, "json");
    secondPhoto := manager.FileUrl(f2, "jpg");
    var firstPhoto := manager.FileUrl(f1, "jpg");
    DistinctNamesDistinctFiles(manager, j1, j2, "json");
    DistinctNamesDistinctFiles(manager, f1, f2, "jpg");
    assert |secondJson.path| != |firstPhoto.path| && |secondPhoto.path| != |firstJson.path|;
    files, available, requests := manager.files, screen.isAvailable, screen.captureRequests;
  }
}
