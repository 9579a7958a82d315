/** The app's root component as an object: the MQTT `message` handler and the
    resets it schedules update its two state variables in place. Each handler
    is proved to make the transition `SirenEngine` gives it. */
module SirenApp {
  import opened JsValues
  import opened SirenEngine

  class App {
    // React state
    var alertMessage: Option<string>
    var showAlertScreen: bool
    // the runtime's clock and timer queue
    var pending: map<nat, int>
    var nextTimerId: nat
    var now: int
    // vibration requests issued so far
    ghost var effects: seq<Effect>

    ghost function State(): SirenEngine.State
      reads this
    {
      SirenEngine.State(alertMessage, showAlertScreen, pending, nextTimerId, now, effects)
    }

    constructor (t0: int)
      ensures State() == Initial(t0)
    {
      alertMessage, showAlertScreen := None, false;
      pending, nextTimerId, now := map[], 1, t0;
      effects := [];
    }

    /** `client.on('message', ...)` for a message whose text is `msg`. */
    method OnMessage(msg: string, at: int)
      modifies this
      ensures State() == SirenEngine.OnMessage(old(State()), msg, at)
    {
      now := at;
      alertMessage := Some(msg);
      showAlertScreen := true;
      effects := effects + [Vibrate(VibrationPattern, false)];
      pending := pending[nextTimerId := at + ResetDelay];
      nextTimerId := nextTimerId + 1;
    }

    /** The runtime runs reset `id`, if it is still in the queue. */
    method FireReset(id: nat)
      modifies this
      ensures State() == SirenEngine.FireReset(old(State()), id)
    {
      if id in pending {
        now := pending[id];
        pending := pending - {id};
        showAlertScreen := false;
        alertMessage := None;
      }
    }

    /** The text of the Current Alert box. */
    method CurrentAlert() returns (text: string)
      ensures TruthyText(alertMessage) ==> text == alertMessage.value
      ensures !TruthyText(alertMessage) ==> text == NoSirenText
    {
      text := AlertText(alertMessage);
    }

    /** The System Status card, absent while the overlay is up. */
    method Status() returns (card: Option<string>)
      ensures card.None? <==> showAlertScreen
      ensures card == StatusCard(State())
    {
      card := StatusCard(SirenEngine.State(alertMessage, showAlertScreen, pending, nextTimerId, now, []));
    }
  }
}
