/** The horn screen component (HornDetection, or ButtonOneScreen) as an object
    whose handlers update its fields in place. Every handler is proved to make
    exactly the transition `HornEngine` gives it, so the lemmas there hold of
    the component. */
module HornScreen {
  import opened JsValues
  import opened AlertRecords
  import opened HornEngine

  class Screen {
    const variant: Variant
    // React state
    var alert: string
    var alertDetails: Details
    var alertHistory: seq<string>
    var isLoading: bool
    var mounted: bool
    // refs
    var soundLoaded: bool
    var resetTimerRef: Option<nat>
    // the Firestore subscription and the sound load in flight
    var listening: bool
    var soundLoading: bool
    // the runtime's clock and timer queue
    var pending: map<nat, int>
    var nextTimerId: nat
    var now: int
    // haptic feedback and sound requests issued so far
    ghost var effects: seq<Effect>

    ghost function State(): HornEngine.State
      reads this
    {
      HornEngine.State(alert, alertDetails, alertHistory, isLoading, mounted, listening,
                       soundLoading, soundLoaded, resetTimerRef, pending, nextTimerId, now, effects)
    }

    ghost predicate Valid()
      reads this
    {
      HornEngine.Valid(State())
    }

    constructor (variant: Variant, t0: int)
      ensures this.variant == variant
      ensures State() == Initial(t0) && Valid()
    {
      this.variant := variant;
      alert, alertDetails, alertHistory := NoHornText, IdleDetails, [];
      isLoading, mounted, listening := false, true, false;
      soundLoading, soundLoaded, resetTimerRef := false, false, None;
      pending, nextTimerId, now := map[], 1, t0;
      effects := [];
    }

    /** The mount effect: `loadSound()` then `setupFirestoreListener()`. */
    method Mount(at: int)
      modifies this
      ensures State() == Step(variant, old(State()), HornEngine.Mount(at))
      ensures old(Valid()) ==> Valid()
    {
      now := at;
      soundLoading := true;
      listening := true;
      if mounted {
        isLoading := true;
      }
    }

    /** The callback of the sound load. */
    method OnSoundLoaded(ok: bool, at: int)
      modifies this
      ensures State() == Step(variant, old(State()), SoundLoadResult(ok, at))
      ensures old(Valid()) ==> Valid()
    {
      now := at;
      soundLoading := false;
      if ok {
        soundLoaded := true;
      } else if mounted {
        alert := SoundFailedText;
      }
    }

    method PlaySound()
      modifies this
      ensures State() == HornEngine.PlaySound(old(State()))
    {
      if soundLoaded {
        effects := effects + [PlayAlertSound];
      }
    }

    method UnloadSound()
      modifies this
      ensures State() == HornEngine.UnloadSound(old(State()))
    {
      if soundLoaded {
        effects := effects + [ReleaseSound];
        soundLoaded := false;
      }
    }

    /** `handleFirestoreUpdate(data)`: the `type` switch, then the updates. */
    method HandleFirestoreUpdate(data: Doc)
      modifies this
      ensures State() == HandleUpdate(old(State()), ClassifyFor(variant, data))
      ensures old(Valid()) ==> Valid() && pending == map[old(nextTimerId) := now + ResetDelay]
    {
      var a := ClassifyFor(variant, data);
      Apply(a);
    }

    /** What `handleFirestoreUpdate` does once the switch has produced `a`. */
    method Apply(a: Alert)
      modifies this
      ensures State() == HandleUpdate(old(State()), a)
    {
      ShowAlert(a);
      GiveFeedback();
      RearmReset();
    }

    method ShowAlert(a: Alert)
      modifies this
      ensures State() == Show(old(State()), a)
    {
      if mounted {
        alert := a.text;
        alertDetails := a.details;
        alertHistory := alertHistory + [a.text];
      }
    }

    method GiveFeedback()
      modifies this
      ensures State() == Feedback(old(State()))
    {
      effects := effects + [HapticImpactHeavy];
      PlaySound();
    }

    method RearmReset()
      modifies this
      ensures State() == Rearm(old(State()))
    {
      if resetTimerRef.Some? && resetTimerRef.value != 0 {
        pending := pending - {resetTimerRef.value};
      }
      resetTimerRef := Some(nextTimerId);
      pending := pending[nextTimerId := now + ResetDelay];
      nextTimerId := nextTimerId + 1;
    }

    /** `refreshAlerts()`. */
    method RefreshAlerts()
      modifies this
      ensures State() == Refresh(old(State()))
      ensures old(Valid()) ==> Valid() && pending == map[]
    {
      if mounted {
        alert := NoHornText;
        alertDetails := IdleDetails;
      }
      if resetTimerRef.Some? && resetTimerRef.value != 0 {
        pending := pending - {resetTimerRef.value};
      }
    }

    /** The snapshot callback of the Firestore listener. */
    method OnSnapshot(docs: seq<Doc>, at: int)
      modifies this
      ensures State() == Step(variant, old(State()), Snapshot(docs, at))
      ensures old(Valid()) ==> Valid()
    {
      now := at;
      if |docs| > 0 {
        HandleFirestoreUpdate(docs[0]);
      }
      if mounted {
        isLoading := false;
      }
    }

    /** The error callback of the Firestore listener. */
    method OnListenerError(at: int)
      modifies this
      ensures State() == Step(variant, old(State()), ListenerError(at))
      ensures old(Valid()) ==> Valid()
    {
      now := at;
      if mounted {
        alert := ErrorText;
        isLoading := false;
      }
    }

    /** The Reset Alert button. */
    method PressReset(at: int)
      modifies this
      ensures State() == Step(variant, old(State()), ResetPressed(at))
      ensures old(Valid()) ==> Valid()
    {
      now := at;
      RefreshAlerts();
    }

    /** The runtime runs timer `id`; only a timer still in the queue runs. */
    method FireTimer(id: nat)
      modifies this
      ensures State() == Step(variant, old(State()), TimerFires(id))
      ensures old(Valid()) ==> Valid()
    {
      if id in pending {
        now := pending[id];
        pending := pending - {id};
        RefreshAlerts();
      }
    }

    /** The mount effect's cleanup. */
    method Unmount(at: int)
      modifies this
      ensures State() == Step(variant, old(State()), HornEngine.Unmount(at))
      ensures old(Valid()) ==> Valid()
    {
      now := at;
      UnloadSound();
      if resetTimerRef.Some? && resetTimerRef.value != 0 {
        pending := pending - {resetTimerRef.value};
      }
      mounted := false;
    }
  }
}
