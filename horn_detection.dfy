/** The `type` switch of `handleFirestoreUpdate` in the HornDetection screen:
    a document becomes an alert text and its details. */
module HornDetection {
  import opened JsValues
  import opened AlertRecords

  /** `Horn`, `Left` and `Right` documents raise an alert; any other `type`
      shows the idle alert. A `Horn` document always points to the front. */
  function Classify(doc: Doc): (a: Alert)
    ensures a.text == NoHornText <==> KindOf(doc) == Unrecognised
    ensures a.text == NoHornText <==> a.details == IdleDetails
    ensures a.details.direction == "None" <==> a.text == NoHornText
    ensures a.text != NoHornText ==> a.details.intensity != 0 && a.details.severity != ""
  {
    if doc.kind == Some("Horn") then
      Alert(HornText, Details(NumberOr(doc.intensity, 8), "Front", TextOr(doc.severity, "Medium")))
    else if doc.kind == Some("Left") then
      Alert(LeftText, Details(NumberOr(doc.intensity, 10), "Left", TextOr(doc.severity, "High")))
    else if doc.kind == Some("Right") then
      Alert(RightText, Details(NumberOr(doc.intensity, 10), "Right", TextOr(doc.severity, "High")))
    else
      IdleAlert
  }

  /** The switch agrees with the default table for every document. */
  lemma ClassifyFollowsTable(doc: Doc)
    ensures FilledFromTable(doc, Classify(doc))
  {
  }

  /** A missing, zero or empty field counts as missing and takes the default. */
  lemma DefaultsFillMissingFields(d: Option<string>)
    ensures Classify(Doc(Some("Horn"), None, None, d)) == Alert(HornText, Details(8, "Front", "Medium"))
    ensures Classify(Doc(Some("Horn"), Some(0), Some(""), d)) == Alert(HornText, Details(8, "Front", "Medium"))
    ensures Classify(Doc(Some("Left"), None, None, d)) == Alert(LeftText, Details(10, "Left", "High"))
    ensures Classify(Doc(Some("Left"), Some(0), Some(""), d)) == Alert(LeftText, Details(10, "Left", "High"))
    ensures Classify(Doc(Some("Right"), None, None, d)) == Alert(RightText, Details(10, "Right", "High"))
    ensures Classify(Doc(Some("Right"), Some(0), Some(""), d)) == Alert(RightText, Details(10, "Right", "High"))
  {
  }

  /** A truthy intensity or severity in a recognised document is shown as it is. */
  lemma SuppliedValuesKept(doc: Doc)
    requires KindOf(doc) != Unrecognised
    ensures TruthyNumber(doc.intensity) ==> Classify(doc).details.intensity == doc.intensity.value
    ensures TruthyText(doc.severity) ==> Classify(doc).details.severity == doc.severity.value
  {
  }

  /** This screen never reads the document's `direction` field. */
  lemma DirectionFieldIgnored(doc: Doc, d: Option<string>)
    ensures Classify(doc.(direction := d)) == Classify(doc)
  {
  }
}
