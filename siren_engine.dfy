/** The siren alert of the app's root component as a pure state machine: each
    MQTT message shows the overlay, vibrates and schedules its own reset
    12000 ms later. No reset is ever cancelled, so any reset clears whatever
    message is showing when it runs. */
module SirenEngine {
  import opened JsValues

  /** Delay of every reset, in milliseconds. */
  const ResetDelay: int := 12000

  /** The vibration pattern: wait, buzz, pause, buzz, pause, buzz (milliseconds). */
  const VibrationPattern: seq<int> := [0, 800, 400, 800, 400, 1200]

  const NoSirenText: string := "No siren detected yet."
  const AlertActiveText: string := "\U{1F6A8} Alert Active"
  const MonitoringText: string := "\U{2705} Monitoring..."

  datatype Effect = Vibrate(pattern: seq<int>, repeat: bool)

  datatype State = State(
    alertMessage: Option<string>,
    showAlertScreen: bool,
    pending: map<nat, int>,   // timers of the runtime: id to due time
    nextId: nat,              // the id the next `setTimeout` returns
    now: int,
    effects: seq<Effect>)

  function Initial(t0: int): (s: State)
    ensures Valid(s) && s.pending == map[] && !s.showAlertScreen
    ensures s.alertMessage == None && s.effects == [] && s.now == t0
  {
    State(None, false, map[], 1, t0, [])
  }

  /** The overlay is up exactly when a message is stored; every timer id was
      handed out already; no reset is due more than `ResetDelay` ahead. */
  predicate Valid(s: State) {
    && (s.showAlertScreen <==> s.alertMessage.Some?)
    && (forall id :: id in s.pending ==> id < s.nextId)
    && (forall id :: id in s.pending ==> s.pending[id] <= s.now + ResetDelay)
  }

  /** The `message` handler: store the text, show the overlay, vibrate once,
      and schedule a new reset without touching the earlier ones. */
  function OnMessage(s: State, msg: string, at: int): (r: State)
    ensures r.alertMessage == Some(msg) && r.showAlertScreen && r.now == at && r.nextId == s.nextId + 1
    ensures r.effects == s.effects + [Vibrate(VibrationPattern, false)]
    ensures s.nextId in r.pending && r.pending[s.nextId] == at + ResetDelay
    ensures Valid(s) ==> forall id :: id in s.pending ==> id in r.pending && r.pending[id] == s.pending[id]
    ensures Valid(s) ==> |r.pending| == |s.pending| + 1
    ensures Valid(s) && s.now <= at ==> Valid(r)
  {
    s.(alertMessage := Some(msg),
       showAlertScreen := true,
       effects := s.effects + [Vibrate(VibrationPattern, false)],
       pending := s.pending[s.nextId := at + ResetDelay],
       nextId := s.nextId + 1,
       now := at)
  }

  /** The runtime runs reset `id`: whichever message scheduled it, the
      overlay goes down and the message is forgotten. */
  function FireReset(s: State, id: nat): (r: State)
    ensures id !in s.pending ==> r == s
    ensures id in s.pending ==>
      && !r.showAlertScreen && r.alertMessage == None
      && r.now == s.pending[id]
      && r.pending == s.pending - {id}
    ensures r.(showAlertScreen := s.showAlertScreen, alertMessage := s.alertMessage, now := s.now, pending := s.pending) == s
    ensures Valid(s) && (id in s.pending ==> s.now <= s.pending[id]) ==> Valid(r)
  {
    if id in s.pending then
      s.(showAlertScreen := false, alertMessage := None, now := s.pending[id], pending := s.pending - {id})
    else s
  }

  datatype Event = Message(text: string, at: int) | ResetFires(id: nat)

  function Step(s: State, e: Event): State {
    match e
    case Message(text, at) => OnMessage(s, text, at)
    case ResetFires(id) => FireReset(s, id)
  }

  /** When the event can occur: a message arrives no earlier than the clock
      and after every due reset has run; resets run in due order. */
  predicate Enabled(s: State, e: Event) {
    match e
    case Message(_, at) => s.now <= at && forall id :: id in s.pending ==> at <= s.pending[id]
    case ResetFires(id) =>
      && id in s.pending && s.now <= s.pending[id]
      && forall j :: j in s.pending ==> s.pending[id] <= s.pending[j]
  }

  function Run(s: State, trace: seq<Event>): State
    decreases |trace|
  {
    if trace == [] then s else Step(Run(s, trace[..|trace| - 1]), trace[|trace| - 1])
  }

  predicate Admissible(s: State, trace: seq<Event>)
    decreases |trace|
  {
    trace == [] ||
    (Admissible(s, trace[..|trace| - 1]) && Enabled(Run(s, trace[..|trace| - 1]), trace[|trace| - 1]))
  }

  /** The text of the Current Alert box: the message when it is non-empty,
      the placeholder otherwise. */
  function AlertText(msg: Option<string>): (text: string)
    ensures TruthyText(msg) ==> text == msg.value
    ensures !TruthyText(msg) ==> text == NoSirenText
  {
    if TruthyText(msg) then msg.value else NoSirenText
  }

  /** The System Status card: absent while the overlay is up; otherwise it
      reads Alert Active for a non-empty message and Monitoring else. */
  function StatusCard(s: State): (card: Option<string>)
    ensures card.None? <==> s.showAlertScreen
    ensures card == Some(AlertActiveText) ==> TruthyText(s.alertMessage)
    ensures !s.showAlertScreen ==>
      card == Some(if TruthyText(s.alertMessage) then AlertActiveText else MonitoringText)
  {
    if s.showAlertScreen then None
    else if TruthyText(s.alertMessage) then Some(AlertActiveText)
    else Some(MonitoringText)
  }

  // ---------------------------------------------------------------------

  lemma StepPreservesValid(s: State, e: Event)
    requires Valid(s) && Enabled(s, e)
    ensures Valid(Step(s, e))
  {
  }

  /** The overlay is shown exactly when a message is stored, after any run. */
  lemma {:induction false} RunPreservesValid(s: State, trace: seq<Event>)
    requires Valid(s) && Admissible(s, trace)
    ensures Valid(Run(s, trace))
    ensures Run(s, trace).showAlertScreen <==> Run(s, trace).alertMessage.Some?
    decreases |trace|
  {
    if trace != [] {
      RunPreservesValid(s, trace[..|trace| - 1]);
      StepPreservesValid(Run(s, trace[..|trace| - 1]), trace[|trace| - 1]);
    }
  }

  /** Since the overlay and the message come and go together, the status
      card never reads Alert Active. */
  lemma AlertActiveNeverShown(s: State)
    requires Valid(s)
    ensures StatusCard(s) != Some(AlertActiveText)
  {
  }

  /** Every message adds one pending reset and cancels none: after a run of
      messages the number of pending resets has grown by their count. */
  lemma {:induction false} PendingResetsGrow(s: State, trace: seq<Event>)
    requires Valid(s) && Admissible(s, trace)
    requires forall i :: 0 <= i < |trace| ==> trace[i].Message?
    ensures |Run(s, trace).pending| == |s.pending| + |trace|
    ensures s.pending.Keys <= Run(s, trace).pending.Keys
    decreases |trace|
  {
    if trace != [] {
      var prefix := trace[..|trace| - 1];
      PendingResetsGrow(s, prefix);
      RunPreservesValid(s, prefix);
      assert trace[|trace| - 1].Message?;
    }
  }

  /** A reset armed by an earlier message, still pending when a newer message
      arrives, clears the newer message before that message's own 12000 ms
      are up; the newer message's own reset stays pending. */
  lemma StaleResetHidesNewerSiren(s: State, msg: string, at: int, id: nat)
    requires Valid(s) && id in s.pending && s.now < at <= s.pending[id]
    ensures var m := OnMessage(s, msg, at);
      var r := FireReset(m, id);
      && m.alertMessage == Some(msg)
      && r.alertMessage == None && !r.showAlertScreen
      && r.now < at + ResetDelay
      && s.nextId in r.pending && r.pending[s.nextId] == at + ResetDelay
  {
    assert id != s.nextId;
  }

  /** A concrete run: siren A at 0 ms, siren B at 5000 ms; A's reset runs at
      12000 ms and hides B after 7000 ms on screen. */
  lemma TwoSirens()
    ensures var trace := [Message("A", 0), Message("B", 5000), ResetFires(1)];
      && Admissible(Initial(0), trace)
      && Run(Initial(0), trace).alertMessage == None
      && Run(Initial(0), trace).now == 12000
      && Run(Initial(0), trace).pending == map[2 := 17000]
  {
    var s0 := Initial(0);
    var s1 := Run(s0, [Message("A", 0)]);
    assert s1 == OnMessage(s0, "A", 0);
    var s2 := Run(s0, [Message("A", 0), Message("B", 5000)]);
    assert [Message("A", 0), Message("B", 5000)][..1] == [Message("A", 0)];
    assert s2 == OnMessage(s1, "B", 5000);
    var trace := [Message("A", 0), Message("B", 5000), ResetFires(1)];
    assert trace[..2] == [Message("A", 0), Message("B", 5000)];
    assert Run(s0, trace) == FireReset(s2, 1);
    assert s2.pending == map[1 := 12000, 2 := 17000];
    assert (map[1 := 12000, 2 := 17000] - {1}) == map[2 := 17000];
  }
}
