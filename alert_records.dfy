/** The records the two horn screens exchange with the `alerts` collection and
    with their view: the document fields they read, the details they display,
    the fixed alert texts and the per-kind defaults. */
module AlertRecords {
  import opened JsValues

  /** The fields of the latest `alerts` document that the screens read.
      `kind` is the document's `type` field. A value that is not a string
      matches no case of the switch, exactly like a missing one, so both are
      `None` here. */
  datatype Doc = Doc(
    kind: Option<string>,
    intensity: Option<int>,
    severity: Option<string>,
    direction: Option<string>)

  /** The `AlertDetails` record shown under the alert text. */
  datatype Details = Details(intensity: int, direction: string, severity: string)

  /** What one document turns into: the alert text and its details. */
  datatype Alert = Alert(text: string, details: Details)

  const NoHornText: string := "No Horn Detected"
  const HornText: string := "Horn Detected!"
  const LeftText: string := "Horn Detected: Left Side"
  const RightText: string := "Horn Detected: Right Side"
  const ErrorText: string := "Error connecting to Firestore"
  const SoundFailedText: string := "Failed to load alert sound"

  const IdleDetails: Details := Details(0, "None", "None")
  const IdleAlert: Alert := Alert(NoHornText, IdleDetails)

  /** The values of `type` that the switch recognises. */
  datatype Kind = Horn | Left | Right | Unrecognised

  function KindOf(doc: Doc): Kind {
    match doc.kind
    case Some(t) =>
      if t == "Horn" then Horn
      else if t == "Left" then Left
      else if t == "Right" then Right
      else Unrecognised
    case None => Unrecognised
  }

  /** Reference table: what each kind shows when the document supplies no
      usable intensity or severity. */
  function DefaultAlert(k: Kind): Alert {
    match k
    case Horn => Alert(HornText, Details(8, "Front", "Medium"))
    case Left => Alert(LeftText, Details(10, "Left", "High"))
    case Right => Alert(RightText, Details(10, "Right", "High"))
    case Unrecognised => IdleAlert
  }

  /** `a` takes its text and direction from the table, and its intensity and
      severity from the document where the document's value is truthy. */
  predicate FilledFromTable(doc: Doc, a: Alert) {
    var d := DefaultAlert(KindOf(doc));
    if KindOf(doc) == Unrecognised then a == IdleAlert
    else
      && a.text == d.text
      && a.details.direction == d.details.direction
      && a.details.intensity == NumberOr(doc.intensity, d.details.intensity)
      && a.details.severity == TextOr(doc.severity, d.details.severity)
  }
}
