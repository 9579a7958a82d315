/** The alert state of the two horn screens (HornDetection and ButtonOneScreen)
    as a pure state machine. The two screens run the same handlers and differ
    only in the `type` switch, chosen by `Variant`.

    Time is an integer clock. The runtime's timer queue is a map from timer id
    to due time; a cleared timer is removed from it and never runs. Haptic
    feedback and sound requests are recorded in an effect log. React ignores a
    state setter once the component is unmounted, while refs and timers keep
    working: `mounted` models that. */
module HornEngine {
  import opened JsValues
  import opened AlertRecords
  import HornDetection
  import ButtonOne

  datatype Variant = HornDetectionScreen | ButtonOneScreen

  function ClassifyFor(v: Variant, doc: Doc): Alert {
    match v
    case HornDetectionScreen => HornDetection.Classify(doc)
    case ButtonOneScreen => ButtonOne.Classify(doc)
  }

  /** Delay of the automatic reset, in milliseconds. */
  const ResetDelay: int := 5000

  datatype Effect = HapticImpactHeavy | PlayAlertSound | ReleaseSound

  datatype State = State(
    alert: string,
    details: Details,
    history: seq<string>,
    isLoading: bool,
    mounted: bool,
    listening: bool,           // the Firestore snapshot listener is registered
    soundLoading: bool,        // a sound load has been started and not answered
    soundLoaded: bool,         // `soundRef.current` holds a loaded sound
    resetRef: Option<nat>,     // `resetTimerRef.current`
    pending: map<nat, int>,    // timers of the runtime: id to due time
    nextId: nat,               // the id the next `setTimeout` returns
    now: int,
    effects: seq<Effect>)

  /** The component as first rendered, before its mount effect has run. */
  function Initial(t0: int): (s: State)
    ensures Valid(s) && s.pending == map[] && s.history == []
    ensures Alert(s.alert, s.details) == IdleAlert && s.mounted && !s.listening
    ensures !s.isLoading && !s.soundLoading && !s.soundLoaded && s.resetRef.None? && s.effects == []
    ensures s.now == t0
  {
    State(NoHornText, IdleDetails, [], false, true, false, false, false, None, map[], 1, t0, [])
  }

  /** At most one reset is pending, and it is the one `resetTimerRef` holds. */
  predicate Valid(s: State) {
    && s.nextId != 0
    && (s.resetRef.None? ==> s.pending == map[])
    && (s.resetRef.Some? ==>
          && 0 < s.resetRef.value < s.nextId
          && s.pending.Keys <= {s.resetRef.value})
  }

  /** Clears the timer the reset ref holds, if it holds a truthy id. */
  function Cancel(pending: map<nat, int>, ref: Option<nat>): map<nat, int> {
    if ref.Some? && ref.value != 0 then pending - {ref.value} else pending
  }

  function SetAlert(s: State, text: string): State {
    if s.mounted then s.(alert := text) else s
  }

  function SetLoading(s: State, loading: bool): State {
    if s.mounted then s.(isLoading := loading) else s
  }

  /** `playSound`: a request reaches the player only when a sound is loaded. */
  function PlaySound(s: State): (r: State)
    ensures r.effects == s.effects + (if s.soundLoaded then [PlayAlertSound] else [])
    ensures r.(effects := s.effects) == s
  {
    if s.soundLoaded then s.(effects := s.effects + [PlayAlertSound]) else s
  }

  /** `unloadSound`: releases a loaded sound and forgets it. */
  function UnloadSound(s: State): (r: State)
    ensures !r.soundLoaded
    ensures r.effects == s.effects + (if s.soundLoaded then [ReleaseSound] else [])
    ensures r.(effects := s.effects, soundLoaded := s.soundLoaded) == s
  {
    if s.soundLoaded then s.(soundLoaded := false, effects := s.effects + [ReleaseSound]) else s
  }

  /** `handleFirestoreUpdate` once the switch has produced `a`: show it,
      append its text to the history, buzz, request the sound, and replace
      whatever reset was pending by a single new one. */
  function HandleUpdate(s: State, a: Alert): (r: State)
    ensures Valid(s) ==> Valid(r) && r.pending == map[s.nextId := s.now + ResetDelay]
    ensures r.resetRef == Some(s.nextId)
    ensures s.mounted ==> r.alert == a.text && r.details == a.details
    ensures !s.mounted ==> r.alert == s.alert && r.details == s.details
    ensures r.history == s.history + (if s.mounted then [a.text] else [])
    ensures r.effects ==
      s.effects + [HapticImpactHeavy] + (if s.soundLoaded then [PlayAlertSound] else [])
    ensures r.isLoading == s.isLoading && r.now == s.now && r.soundLoaded == s.soundLoaded
    ensures r.mounted == s.mounted && r.listening == s.listening && r.soundLoading == s.soundLoading
  {
    Rearm(Feedback(Show(s, a)))
  }

  /** The three state setters of `handleFirestoreUpdate`. */
  function Show(s: State, a: Alert): State {
    if s.mounted then s.(alert := a.text, details := a.details, history := s.history + [a.text]) else s
  }

  /** Haptic feedback, then `playSound`. */
  function Feedback(s: State): State {
    PlaySound(s.(effects := s.effects + [HapticImpactHeavy]))
  }

  /** Clear the reset `resetTimerRef` holds, then arm a new one. */
  function Rearm(s: State): State {
    s.(pending := Cancel(s.pending, s.resetRef)[s.nextId := s.now + ResetDelay],
       resetRef := Some(s.nextId),
       nextId := s.nextId + 1)
  }

  /** `refreshAlerts`: back to the idle alert, with the pending reset cleared. */
  function Refresh(s: State): (r: State)
    ensures Valid(s) ==> Valid(r) && r.pending == map[]
    ensures s.mounted ==> Alert(r.alert, r.details) == IdleAlert
    ensures r.history == s.history && r.effects == s.effects && r.resetRef == s.resetRef
    ensures r.now == s.now && r.isLoading == s.isLoading && r.soundLoaded == s.soundLoaded
    ensures !s.mounted ==> r.alert == s.alert && r.details == s.details
    ensures r.(alert := s.alert, details := s.details, pending := s.pending) == s
  {
    var shown := if s.mounted then s.(alert := NoHornText, details := IdleDetails) else s;
    shown.(pending := Cancel(s.pending, s.resetRef))
  }

  /** Everything that can happen to a mounted horn screen. */
  datatype Event =
    | Mount(at: int)                         // the mount effect: load the sound, start listening
    | SoundLoadResult(ok: bool, at: int)     // the callback of the sound load
    | Snapshot(docs: seq<Doc>, at: int)      // the listener's snapshot callback
    | ListenerError(at: int)                 // the listener's error callback
    | ResetPressed(at: int)                  // the Reset Alert button
    | TimerFires(id: nat)                    // the runtime runs a due timer
    | Unmount(at: int)                       // the mount effect's cleanup

  /** The events that call `handleFirestoreUpdate`. */
  predicate IsUpdate(e: Event) {
    e.Snapshot? && |e.docs| > 0
  }

  /** The mount effect: `loadSound` starts loading, `setupFirestoreListener`
      raises the loading flag and registers the listener. */
  function OnMount(s: State, at: int): (r: State)
    ensures r.listening && r.soundLoading && (s.mounted ==> r.isLoading) && r.now == at
    ensures r.(isLoading := s.isLoading, listening := s.listening, soundLoading := s.soundLoading, now := s.now) == s
  {
    SetLoading(s.(now := at, listening := true, soundLoading := true), true)
  }

  /** The sound load callback: success stores the sound, failure only shows a
      message and leaves the sound absent. */
  function OnSoundLoaded(s: State, ok: bool, at: int): (r: State)
    ensures Valid(s) ==> Valid(r)
    ensures !r.soundLoading && r.soundLoaded == (ok || s.soundLoaded) && r.now == at
    ensures !ok && s.mounted ==> r.alert == SoundFailedText
    ensures r.details == s.details && r.history == s.history && r.effects == s.effects
    ensures r.pending == s.pending && r.resetRef == s.resetRef && r.listening == s.listening
    ensures ok || !s.mounted ==> r.alert == s.alert
    ensures r.(alert := s.alert, soundLoading := s.soundLoading, soundLoaded := s.soundLoaded, now := s.now) == s
  {
    var t := s.(now := at, soundLoading := false);
    if ok then t.(soundLoaded := true) else SetAlert(t, SoundFailedText)
  }

  /** The snapshot callback: a non-empty snapshot hands its first document to
      `handleFirestoreUpdate`; either way the loading flag drops. */
  function OnSnapshot(v: Variant, s: State, docs: seq<Doc>, at: int): (r: State)
    ensures Valid(s) ==> Valid(r)
    ensures s.mounted ==> !r.isLoading
    ensures !s.mounted ==> r.isLoading == s.isLoading
    ensures r.now == at
    ensures |docs| == 0 ==> r.(isLoading := s.isLoading, now := s.now) == s
    ensures |docs| > 0 ==> r.(isLoading := s.isLoading) == HandleUpdate(s.(now := at), ClassifyFor(v, docs[0]))
  {
    var t := s.(now := at);
    SetLoading(if |docs| > 0 then HandleUpdate(t, ClassifyFor(v, docs[0])) else t, false)
  }

  /** The listener's error callback: an error text, the loading flag down,
      nothing else touched. */
  function OnListenerError(s: State, at: int): (r: State)
    ensures s.mounted ==> r.alert == ErrorText && !r.isLoading
    ensures !s.mounted ==> r.alert == s.alert && r.isLoading == s.isLoading
    ensures r.now == at
    ensures r.(alert := s.alert, isLoading := s.isLoading, now := s.now) == s
  {
    SetLoading(SetAlert(s.(now := at), ErrorText), false)
  }

  /** The runtime runs timer `id`. A cleared timer is no longer in the queue
      and does nothing; a live one is removed and runs `refreshAlerts`. */
  function OnTimer(s: State, id: nat): (r: State)
    ensures Valid(s) ==> Valid(r)
    ensures id !in s.pending ==> r == s
    ensures id in s.pending ==> r.now == s.pending[id] && id !in r.pending
    ensures Valid(s) && id in s.pending ==> r.pending == map[]
    ensures id in s.pending && s.mounted ==> Alert(r.alert, r.details) == IdleAlert
  {
    if id in s.pending then Refresh(s.(now := s.pending[id], pending := s.pending - {id})) else s
  }

  /** The mount effect's cleanup: unload the sound and clear the pending
      reset. The listener is not unsubscribed. */
  function OnUnmount(s: State, at: int): (r: State)
    ensures Valid(s) ==> Valid(r) && r.pending == map[]
    ensures !r.mounted && !r.soundLoaded && r.listening == s.listening && r.now == at
    ensures r.effects == s.effects + (if s.soundLoaded then [ReleaseSound] else [])
    ensures r.history == s.history && r.alert == s.alert
    ensures r.(pending := s.pending, mounted := s.mounted, soundLoaded := s.soundLoaded, effects := s.effects, now := s.now) == s
  {
    var u := UnloadSound(s.(now := at));
    u.(pending := Cancel(u.pending, u.resetRef), mounted := false)
  }

  function Step(v: Variant, s: State, e: Event): State {
    match e
    case Mount(at) => OnMount(s, at)
    case SoundLoadResult(ok, at) => OnSoundLoaded(s, ok, at)
    case Snapshot(docs, at) => OnSnapshot(v, s, docs, at)
    case ListenerError(at) => OnListenerError(s, at)
    case ResetPressed(at) => Refresh(s.(now := at))
    case TimerFires(id) => OnTimer(s, id)
    case Unmount(at) => OnUnmount(s, at)
  }

  /** No timer is overdue at time `at`: the runtime has run every timer due
      before it. */
  predicate NoOverdue(s: State, at: int) {
    s.now <= at && forall id :: id in s.pending ==> at <= s.pending[id]
  }

  /** When the event can occur in state `s`. */
  predicate Enabled(s: State, e: Event) {
    match e
    case Mount(at) => NoOverdue(s, at) && s.mounted && !s.listening
    case SoundLoadResult(_, at) => NoOverdue(s, at) && s.soundLoading
    case Snapshot(_, at) => NoOverdue(s, at) && s.listening
    case ListenerError(at) => NoOverdue(s, at) && s.listening
    case ResetPressed(at) => NoOverdue(s, at) && s.mounted
    case TimerFires(id) => id in s.pending && s.now <= s.pending[id]
    case Unmount(at) => NoOverdue(s, at) && s.mounted
  }

  function Run(v: Variant, s: State, trace: seq<Event>): State
    decreases |trace|
  {
    if trace == [] then s
    else Step(v, Run(v, s, trace[..|trace| - 1]), trace[|trace| - 1])
  }

  predicate Admissible(v: Variant, s: State, trace: seq<Event>)
    decreases |trace|
  {
    trace == [] ||
    (Admissible(v, s, trace[..|trace| - 1]) &&
     Enabled(Run(v, s, trace[..|trace| - 1]), trace[|trace| - 1]))
  }

  /** The time of the latest event in `trace` that called `handleFirestoreUpdate`. */
  function LastUpdateAt(trace: seq<Event>): Option<int>
    decreases |trace|
  {
    if trace == [] then None
    else if IsUpdate(trace[|trace| - 1]) then Some(trace[|trace| - 1].at)
    else LastUpdateAt(trace[..|trace| - 1])
  }

  /** The alert texts that a run of updates appends. */
  function Texts(v: Variant, trace: seq<Event>): seq<string>
    requires forall i :: 0 <= i < |trace| ==> IsUpdate(trace[i])
    decreases |trace|
  {
    if trace == [] then []
    else
      var last := trace[|trace| - 1];
      assert IsUpdate(last);
      Texts(v, trace[..|trace| - 1]) + [ClassifyFor(v, last.docs[0]).text]
  }

  // ---------------------------------------------------------------------
  // One step

  lemma StepPreservesValid(v: Variant, s: State, e: Event)
    requires Valid(s)
    ensures Valid(Step(v, s, e))
  {
  }

  /** Only `handleFirestoreUpdate` writes the history, and then it appends
      exactly the new alert text; every other step leaves it alone. */
  lemma StepHistory(v: Variant, s: State, e: Event)
    ensures Step(v, s, e).history ==
      s.history + (if IsUpdate(e) && s.mounted then [ClassifyFor(v, e.docs[0]).text] else [])
  {
  }

  /** A valid state has at most one pending reset. */
  lemma AtMostOneResetPending(s: State)
    requires Valid(s)
    ensures |s.pending| <= 1
  {
    if s.resetRef.Some? {
      var k := s.resetRef.value;
      assert s.pending.Keys <= {k};
      if k in s.pending {
        assert s.pending.Keys == {k};
      } else {
        assert s.pending.Keys == {};
      }
    }
  }

  /** Every update, a recognised document or not, buzzes exactly once and
      requests the sound exactly when the sound is loaded. */
  lemma UpdateFeedback(v: Variant, s: State, docs: seq<Doc>, at: int)
    requires |docs| > 0
    ensures var r := Step(v, s, Snapshot(docs, at));
      r.effects == s.effects + [HapticImpactHeavy] + (if s.soundLoaded then [PlayAlertSound] else [])
  {
  }

  /** A snapshot only ever looks at its first document. */
  lemma OnlyFirstDocumentCounts(v: Variant, s: State, d: Doc, rest: seq<Doc>, at: int)
    ensures Step(v, s, Snapshot([d] + rest, at)) == Step(v, s, Snapshot([d], at))
  {
  }

  /** After an update on a mounted screen the new alert is shown and its
      reset is the only one pending, due `ResetDelay` after the update. */
  lemma UpdateSupersedes(v: Variant, s: State, docs: seq<Doc>, at: int)
    requires Valid(s) && s.mounted && |docs| > 0
    ensures var r := Step(v, s, Snapshot(docs, at));
      && Alert(r.alert, r.details) == ClassifyFor(v, docs[0])
      && r.pending == map[s.nextId := at + ResetDelay]
      && r.resetRef == Some(s.nextId)
  {
  }

  /** The reset that an earlier update armed is cleared by a later update:
      when its time comes, it finds nothing to run. */
  lemma SupersededTimerIsInert(v: Variant, s: State, docs: seq<Doc>, at: int, id: nat)
    requires Valid(s) && |docs| > 0 && id in s.pending
    ensures var r := Step(v, s, Snapshot(docs, at));
      id !in r.pending && Step(v, r, TimerFires(id)) == r
  {
    assert id == s.resetRef.value;
  }

  /** The reset timer and the Reset Alert button make the same transition. */
  lemma TimerAndButtonAgree(v: Variant, s: State, id: nat)
    requires Valid(s) && id in s.pending
    ensures Step(v, s, TimerFires(id)) == Step(v, s, ResetPressed(s.pending[id]))
  {
    assert id == s.resetRef.value;
    assert (s.pending - {id}) - {id} == s.pending - {id};
  }

  /** Pressing Reset Alert twice is pressing it once. */
  lemma ResetIdempotent(v: Variant, s: State, at: int)
    ensures Step(v, Step(v, s, ResetPressed(at)), ResetPressed(at)) == Step(v, s, ResetPressed(at))
  {
    var ref := s.resetRef;
    if ref.Some? && ref.value != 0 {
      assert (s.pending - {ref.value}) - {ref.value} == s.pending - {ref.value};
    }
  }

  /** The listener error shows its text and drops the loading flag; details,
      history, timers and feedback stay as they were. */
  lemma ListenerErrorTouchesOnlyText(v: Variant, s: State, at: int)
    requires s.mounted
    ensures var r := Step(v, s, ListenerError(at));
      && r.alert == ErrorText && !r.isLoading
      && r.details == s.details && r.history == s.history
      && r.pending == s.pending && r.resetRef == s.resetRef && r.effects == s.effects
  {
  }

  /** An empty snapshot changes nothing but the loading flag. */
  lemma EmptySnapshotKeepsAlert(v: Variant, s: State, at: int)
    requires s.mounted
    ensures var r := Step(v, s, Snapshot([], at));
      && !r.isLoading
      && r.alert == s.alert && r.details == s.details && r.history == s.history
      && r.pending == s.pending && r.effects == s.effects
  {
  }

  /** The cleanup never unsubscribes the listener, so an update after unmount
      still buzzes and arms a reset although nothing is shown any more. */
  lemma ListenerOutlivesUnmount(v: Variant, s: State, unmountAt: int, docs: seq<Doc>, at: int)
    requires Valid(s) && s.mounted && s.listening && |docs| > 0
    ensures var u := Step(v, s, Unmount(unmountAt));
      var r := Step(v, u, Snapshot(docs, at));
      && Enabled(u, Snapshot(docs, at)) == (unmountAt <= at)
      && r.alert == s.alert && r.history == s.history
      && r.effects == u.effects + [HapticImpactHeavy]
      && |r.pending| == 1
  {
    var u := Step(v, s, Unmount(unmountAt));
    assert u.pending == map[];
    var r := Step(v, u, Snapshot(docs, at));
    assert r.pending == map[u.nextId := at + ResetDelay];
  }

  /** Every step other than an update only keeps or clears timers: none is
      armed and no due time moves. */
  lemma OnlyUpdatesArmTimers(v: Variant, s: State, e: Event)
    requires Valid(s) && !IsUpdate(e)
    ensures var r := Step(v, s, e);
      forall id :: id in r.pending ==> id in s.pending && r.pending[id] == s.pending[id]
  {
    var r := Step(v, s, e);
    match e
    case Mount(at) => assert r.pending == s.pending;
    case SoundLoadResult(ok, at) => assert r.pending == s.pending;
    case Snapshot(docs, at) => assert r.pending == s.pending;
    case ListenerError(at) => assert r.pending == s.pending;
    case ResetPressed(at) => assert r.pending == map[];
    case TimerFires(id) => assert r.pending == map[] || r == s;
    case Unmount(at) => assert r.pending == map[];
  }

  // ---------------------------------------------------------------------
  // Runs

  lemma {:induction false} RunPreservesValid(v: Variant, s: State, trace: seq<Event>)
    requires Valid(s)
    ensures Valid(Run(v, s, trace))
    decreases |trace|
  {
    if trace != [] {
      RunPreservesValid(v, s, trace[..|trace| - 1]);
      StepPreservesValid(v, Run(v, s, trace[..|trace| - 1]), trace[|trace| - 1]);
    }
  }

  /** The history is append-only: no run shortens or rewrites it, and each
      event adds at most one entry. */
  lemma {:induction false} HistoryOnlyGrows(v: Variant, s: State, trace: seq<Event>)
    ensures s.history <= Run(v, s, trace).history
    ensures |Run(v, s, trace).history| <= |s.history| + |trace|
    decreases |trace|
  {
    if trace != [] {
      var prefix := trace[..|trace| - 1];
      HistoryOnlyGrows(v, s, prefix);
      StepHistory(v, Run(v, s, prefix), trace[|trace| - 1]);
    }
  }

  /** A burst of updates on a mounted screen: the last one is shown, and the
      history grows by exactly their texts, in arrival order. */
  lemma {:induction false} BurstOfUpdates(v: Variant, s: State, trace: seq<Event>)
    requires s.mounted && |trace| > 0
    requires forall i :: 0 <= i < |trace| ==> IsUpdate(trace[i])
    ensures var r := Run(v, s, trace);
      var last := trace[|trace| - 1];
      && IsUpdate(last)
      && r.mounted
      && Alert(r.alert, r.details) == ClassifyFor(v, last.docs[0])
      && r.history == s.history + Texts(v, trace)
    decreases |trace|
  {
    var prefix := trace[..|trace| - 1];
    var last := trace[|trace| - 1];
    assert IsUpdate(last);
    if |prefix| == 0 {
      assert Run(v, s, prefix) == s;
    } else {
      BurstOfUpdates(v, s, prefix);
    }
    var p := Run(v, s, prefix);
    assert p.mounted;
    assert Run(v, s, trace) == OnSnapshot(v, p, last.docs, last.at);
  }

  /** Every pending reset is due `ResetDelay` after the update at `last`. */
  predicate DueAfter(s: State, last: Option<int>) {
    forall id :: id in s.pending ==> last.Some? && s.pending[id] == last.value + ResetDelay
  }

  /** The central safety property: starting without a pending reset, every
      reset that is still pending is due exactly `ResetDelay` after the latest
      update. So no timer armed by an earlier update can clear a later alert. */
  lemma {:induction false} TimerSafety(v: Variant, s: State, trace: seq<Event>)
    requires Valid(s) && s.pending == map[]
    ensures DueAfter(Run(v, s, trace), LastUpdateAt(trace))
    decreases |trace|
  {
    if trace != [] {
      var prefix := trace[..|trace| - 1];
      var e := trace[|trace| - 1];
      TimerSafety(v, s, prefix);
      RunPreservesValid(v, s, prefix);
      var p := Run(v, s, prefix);
      var r := Step(v, p, e);
      if IsUpdate(e) {
        assert r.pending == map[p.nextId := e.at + ResetDelay];
      } else {
        assert LastUpdateAt(trace) == LastUpdateAt(prefix);
        OnlyUpdatesArmTimers(v, p, e);
        assert DueAfter(r, LastUpdateAt(trace));
      }
      assert Run(v, s, trace) == r;
    }
  }

  /** When the automatic reset runs, the clock reads exactly `ResetDelay`
      after the latest update, and the screen goes back to idle. */
  lemma ResetRunsDelayAfterLatestUpdate(v: Variant, s: State, trace: seq<Event>, id: nat)
    requires Valid(s) && s.pending == map[]
    requires id in Run(v, s, trace).pending
    ensures var r := Step(v, Run(v, s, trace), TimerFires(id));
      && LastUpdateAt(trace).Some?
      && r.now == LastUpdateAt(trace).value + ResetDelay
      && (Run(v, s, trace).mounted ==> Alert(r.alert, r.details) == IdleAlert)
  {
    TimerSafety(v, s, trace);
  }

  /** After a failed sound load no later step requests the sound. */
  lemma {:induction false} FailedLoadStaysSilent(v: Variant, s: State, trace: seq<Event>)
    requires s.listening && !s.soundLoading && !s.soundLoaded
    requires Admissible(v, s, trace)
    ensures var r := Run(v, s, trace);
      && r.listening && !r.soundLoading && !r.soundLoaded
      && s.effects <= r.effects
      && forall i :: |s.effects| <= i < |r.effects| ==> r.effects[i] != PlayAlertSound
    decreases |trace|
  {
    if trace != [] {
      var prefix := trace[..|trace| - 1];
      var e := trace[|trace| - 1];
      FailedLoadStaysSilent(v, s, prefix);
      var p := Run(v, s, prefix);
      var r := Step(v, p, e);
      assert Enabled(p, e);
      assert p.effects <= r.effects && !r.soundLoaded by {
        match e
        case Snapshot(docs, at) =>
        case Unmount(at) =>
        case _ =>
      }
      forall i | |s.effects| <= i < |r.effects|
        ensures r.effects[i] != PlayAlertSound
      {
        if i < |p.effects| {
          assert r.effects[i] == p.effects[i];
        }
      }
    }
  }
}
