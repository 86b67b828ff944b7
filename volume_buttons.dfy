/**
 * The volume-button listener used as a shutter release: it watches the
 * system output volume, reports a change of at least 0.05 from the volume
 * it started with as an up or down click, and sets the volume back. It stops
 * listening when the application resigns active and resumes on the
 * application's way back. The two copies of the listener differ only in the
 * notification they resume on, which is a parameter here.
 */
module VolumeButtons {
  import opened Wrappers
  import opened Reals

  /** The application notifications the listener can subscribe to. */
  datatype LifecycleEvent = DidBecomeActive | WillEnterForeground | WillResignActive

  /** The smallest volume change reported as a click. */
  const MinimumVolumeChange: real := 0.05

  /** The key path observed on the audio session. */
  const ObserverKey: string := "outputVolume"

  /** What a volume change means: no click, or a click of the upper (true) or lower (false) button. */
  function Click(current: real, original: real): (c: Option<bool>)
    ensures c.None? <==> Abs(current - original) < MinimumVolumeChange
    ensures c.Some? ==> (c.value <==> current > original)
  {
    if Abs(current - original) < MinimumVolumeChange then None else Some(current > original)
  }

  class VolumeButtonListener {
    /** The notification that resumes listening: did-become-active or will-enter-foreground. */
    const recoverOn: LifecycleEvent
    /** Whether a delegate is attached. */
    var hasDelegate: bool
    var isListening: bool
    var shouldRecoverListening: bool
    /** Whether `audioSession` has been set; it is set by the first start and never cleared. */
    var hasAudioSession: bool
    /** Whether the shared audio session is active. */
    var sessionActive: bool
    /** How many times this listener is registered as an observer of the output volume. */
    var observers: nat
    var originalVolume: real
    /** The system output volume (`currentVolume`). */
    var volume: real
    /** The clicks delivered to the delegate, `true` for the upper button. */
    var clicks: seq<bool>

    /** Stopped, with one observer registration per listening period. */
    predicate Valid()
      reads this
    {
      recoverOn != WillResignActive &&
      observers == (if isListening then 1 else 0) &&
      (shouldRecoverListening ==> !isListening) &&
      (isListening ==> hasAudioSession && sessionActive)
    }

    constructor (recoverEvent: LifecycleEvent, systemVolume: real, withDelegate: bool)
      requires recoverEvent != WillResignActive
      ensures recoverOn == recoverEvent && volume == systemVolume && hasDelegate == withDelegate
      ensures !isListening && !shouldRecoverListening && !hasAudioSession && !sessionActive
      ensures observers == 0 && originalVolume == 0.0 && clicks == []
      ensures Valid()
    {
      recoverOn := recoverEvent;
      hasDelegate := withDelegate;
      isListening := false;
      shouldRecoverListening := false;
      hasAudioSession := false;
      sessionActive := false;
      observers := 0;
      originalVolume := 0.0;
      volume := systemVolume;
      clicks := [];
    }

    /** `observeValue`: a click is reported and the volume put back; a small change is ignored. */
    method ObserveValue(keyPath: Option<string>)
      modifies this
      ensures keyPath != Some(ObserverKey) || Click(old(volume), originalVolume).None? ==>
        volume == old(volume) && clicks == old(clicks)
      ensures keyPath == Some(ObserverKey) && Click(old(volume), originalVolume).Some? ==>
        volume == originalVolume &&
        clicks == old(clicks) + (if hasDelegate then [Click(old(volume), originalVolume).value] else [])
      ensures originalVolume == old(originalVolume) && isListening == old(isListening)
      ensures shouldRecoverListening == old(shouldRecoverListening) && observers == old(observers)
      ensures hasAudioSession == old(hasAudioSession) && sessionActive == old(sessionActive)
      ensures hasDelegate == old(hasDelegate)
    {
      if keyPath != Some(ObserverKey) {
        return;
      }
      if Abs(volume - originalVolume) < MinimumVolumeChange {
        return;
      }
      if hasDelegate {
        clicks := clicks + [volume > originalVolume];
      }
      volume := originalVolume;
    }

    /** `startListening`: activate the session, observe the volume and remember it. */
    method StartListening()
      modifies this
      ensures isListening && hasAudioSession && sessionActive
      ensures observers == old(observers) + 1 && originalVolume == volume
      ensures volume == old(volume) && clicks == old(clicks) && hasDelegate == old(hasDelegate)
      ensures shouldRecoverListening == old(shouldRecoverListening)
    {
      hasAudioSession := true;
      sessionActive := true;
      isListening := true;
      observers := observers + 1;
      originalVolume := volume;
    }

    /** `stopListening`: before any start there is no session and only the flag changes. */
    method StopListening()
      requires hasAudioSession ==> observers > 0
      modifies this
      ensures !isListening
      ensures hasAudioSession ==> observers == old(observers) - 1 && !sessionActive
      ensures !hasAudioSession ==> observers == old(observers) && sessionActive == old(sessionActive)
      ensures hasAudioSession == old(hasAudioSession) && originalVolume == old(originalVolume)
      ensures volume == old(volume) && clicks == old(clicks) && hasDelegate == old(hasDelegate)
      ensures shouldRecoverListening == old(shouldRecoverListening)
    {
      if hasAudioSession {
        observers := observers - 1;
        sessionActive := false;
      }
      isListening := false;
    }

    /** The resume handler: restart only when a resign-active stopped the listener. */
    method Recover()
      requires Valid()
      modifies this
      ensures Valid() && !shouldRecoverListening
      ensures old(shouldRecoverListening) ==> isListening && originalVolume == volume
      ensures !old(shouldRecoverListening) ==>
        isListening == old(isListening) && originalVolume == old(originalVolume) && observers == old(observers)
      ensures volume == old(volume) && clicks == old(clicks)
    {
      if shouldRecoverListening {
        StartListening();
        shouldRecoverListening := false;
      }
    }

    /** `applicationResignActive`: stop, and remember to resume, only when listening. */
    method ResignActive()
      requires Valid()
      modifies this
      ensures Valid()
      ensures old(isListening) ==> !isListening && shouldRecoverListening && !sessionActive
      ensures !old(isListening) ==>
        isListening == old(isListening) && shouldRecoverListening == old(shouldRecoverListening) &&
        sessionActive == old(sessionActive)
      ensures originalVolume == old(originalVolume) && volume == old(volume) && clicks == old(clicks)
    {
      if isListening {
        StopListening();
        shouldRecoverListening := true;
      }
    }

    /** A lifecycle notification, delivered to whichever handler it is subscribed to. */
    method Notify(event: LifecycleEvent)
      requires Valid()
      modifies this
      ensures Valid()
      ensures event == WillResignActive && old(isListening) ==> !isListening && shouldRecoverListening
      ensures event == recoverOn && old(shouldRecoverListening) ==>
        isListening && !shouldRecoverListening && originalVolume == volume
      ensures event != WillResignActive && event != recoverOn ==>
        isListening == old(isListening) && shouldRecoverListening == old(shouldRecoverListening)
      ensures volume == old(volume) && clicks == old(clicks)
    {
      if event == WillResignActive {
        ResignActive();
      } else if event == recoverOn {
        Recover();
      }
    }
  }

  /**
   * One press of a button while listening: the observer sees the new volume,
   * reports one click and sets the volume back, and the reset, itself seen
   * as a volume change, reports nothing more. A change below the threshold
   * reports nothing and stays.
   */
  method PressOnce(systemVolume: real, pressedVolume: real) returns (clicks: seq<bool>, settled: real)
    ensures Abs(pressedVolume - systemVolume) >= MinimumVolumeChange ==>
      clicks == [pressedVolume > systemVolume] && settled == systemVolume
    ensures Abs(pressedVolume - systemVolume) < MinimumVolumeChange ==> clicks == [] && settled == pressedVolume
  {
    var listener := new VolumeButtonListener(DidBecomeActive, systemVolume, true);
    listener.StartListening();
    listener.volume := pressedVolume;
    listener.ObserveValue(Some(ObserverKey));
    listener.ObserveValue(Some(ObserverKey));
    clicks := listener.clicks;
    settled := listener.volume;
  }

  /**
   * A listener that was listening when the application resigned active is
   * listening again after the resume notification it subscribes to, with the
   * volume of that moment as its reference; the other resume notification
   * leaves it stopped.
   */
  method ResignAndResume(recoverEvent: LifecycleEvent, systemVolume: real, laterVolume: real)
    returns (resumedOnOwn: bool, resumedOnOther: bool)
    requires recoverEvent != WillResignActive
    ensures resumedOnOwn && !resumedOnOther
  {
    var other := if recoverEvent == DidBecomeActive then WillEnterForeground else DidBecomeActive;
    var listener := new VolumeButtonListener(recoverEvent, systemVolume, true);
    listener.StartListening();
    listener.Notify(WillResignActive);
    listener.volume := laterVolume;
    listener.Notify(other);
    resumedOnOther := listener.isListening;
    listener.Notify(recoverEvent);
    resumedOnOwn := listener.isListening && listener.originalVolume == laterVolume;
  }
}
