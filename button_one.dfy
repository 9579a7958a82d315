/** The `type` switch of `handleFirestoreUpdate` in ButtonOneScreen. It is the
    HornDetection switch except that a `Horn` document's own `direction` wins
    over 'Front'. */
module ButtonOne {
  import opened JsValues
  import opened AlertRecords
  import HornDetection

  function Classify(doc: Doc): (a: Alert)
    ensures a.text == NoHornText <==> KindOf(doc) == Unrecognised
    ensures a.text == NoHornText ==> a.details == IdleDetails
    ensures a.text != NoHornText ==>
      a.details.intensity != 0 && a.details.severity != "" && a.details.direction != ""
  {
    if doc.kind == Some("Horn") then
      Alert(HornText, Details(NumberOr(doc.intensity, 8), TextOr(doc.direction, "Front"), TextOr(doc.severity, "Medium")))
    else if doc.kind == Some("Left") then
      Alert(LeftText, Details(NumberOr(doc.intensity, 10), "Left", TextOr(doc.severity, "High")))
    else if doc.kind == Some("Right") then
      Alert(RightText, Details(NumberOr(doc.intensity, 10), "Right", TextOr(doc.severity, "High")))
    else
      IdleAlert
  }

  /** A `Horn` document shows its own direction when truthy, 'Front' otherwise. */
  lemma HornDirectionHonoured(doc: Doc)
    requires KindOf(doc) == Horn
    ensures TruthyText(doc.direction) ==> Classify(doc).details.direction == doc.direction.value
    ensures !TruthyText(doc.direction) ==> Classify(doc).details.direction == "Front"
  {
  }

  /** The two screens classify every document alike, except for the direction
      of a `Horn` document. */
  lemma AgreesWithHornDetection(doc: Doc)
    ensures var h := HornDetection.Classify(doc);
      Classify(doc) ==
        if KindOf(doc) == Horn then h.(details := h.details.(direction := TextOr(doc.direction, "Front")))
        else h
  {
  }

  /** Unlike HornDetection, this screen can show a detected horn whose
      direction reads 'None', for which the view hides intensity and severity. */
  lemma HornMayClaimNoDirection()
    ensures var a := Classify(Doc(Some("Horn"), None, None, Some("None")));
      a.text == HornText && a.details.direction == "None" && a.details != IdleDetails
  {
  }
}
