/**
 * `src/components/ConsultationDetails.tsx`: the details dialog of a
 * consultation. Nothing is drawn without a consultation; otherwise the
 * badge, the "Paid" mark, the optional sections and the buttons follow
 * from its status, type and payment.
 */
module ConsultationDetails {
  import opened Wrappers
  import opened Records
  import opened ConsultationCard

  datatype Variant = DefaultStyle | OutlineStyle

  /** What the dialog shows. */
  datatype DetailsView = DetailsView(
    tone: Tone, statusLabel: string, typeLine: string, paid: bool,
    showSymptoms: bool, showNotes: bool, joinLabel: Option<string>, messageVariant: Variant)

  /** The join button's text by consultation type. */
  function JoinLabel(t: ConsultationType): (text: string)
    ensures t == Video ==> text == "Join Video Call"
    ensures t == Audio ==> text == "Join Audio Call"
    ensures t == Chat ==> text == "Join Chat"
  {
    "Join " + (if t == Video then "Video Call" else if t == Audio then "Audio Call" else "Chat")
  }

  /** The dialog for a consultation, or nothing when there is none. */
  function Render(c: Option<Consultation>): (v: Option<DetailsView>)
    ensures v.None? <==> c.None?
    ensures v.Some? ==> v.value.tone == StatusColor(c.value.status)
    ensures v.Some? ==> v.value.statusLabel == StatusLabel(c.value.status)
    ensures v.Some? ==> v.value.typeLine == TypeLine(c.value.consultationType)
    ensures v.Some? ==> (v.value.paid <==> c.value.paymentStatus == PaymentCompleted)
    ensures v.Some? ==> (v.value.joinLabel.Some? <==> c.value.status == Upcoming)
    ensures v.Some? && v.value.joinLabel.Some? ==> v.value.joinLabel.value == JoinLabel(c.value.consultationType)
    ensures v.Some? ==> (v.value.messageVariant == OutlineStyle <==> c.value.status == Upcoming)
    ensures v.Some? ==> (v.value.showSymptoms <==> Present(c.value.symptoms))
    ensures v.Some? ==> (v.value.showNotes <==> Present(c.value.notes))
  {
    match c
    case None => None
    case Some(x) =>
      Some(DetailsView(
        StatusColor(x.status), StatusLabel(x.status), TypeLine(x.consultationType),
        x.paymentStatus == PaymentCompleted, Present(x.symptoms), Present(x.notes),
        if x.status == Upcoming then Some(JoinLabel(x.consultationType)) else None,
        if x.status == Upcoming then OutlineStyle else DefaultStyle))
  }
}
