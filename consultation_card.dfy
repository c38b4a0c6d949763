/**
 * `src/components/ConsultationCard.tsx`: the status badge and the footer
 * buttons of a consultation card.
 */
module ConsultationCard {
  import opened Wrappers
  import opened Records

  /** The badge colours. */
  datatype Tone = Green | Blue | Red | Yellow | Gray

  /** `getStatusColor`: one colour per status the card knows, gray for anything else. */
  function StatusColor(s: ConsultationStatus): (t: Tone)
    ensures t == Green <==> s == Upcoming
    ensures t == Blue <==> s == Completed
    ensures t == Red <==> s == Cancelled
    ensures t == Yellow <==> s == Pending
    ensures t == Gray <==> s == Negotiating
  {
    match s
    case Upcoming => Green
    case Completed => Blue
    case Cancelled => Red
    case Pending => Yellow
    case Negotiating => Gray
  }

  /** The status as stored. */
  function StatusText(s: ConsultationStatus): string
  {
    match s
    case Pending => "pending"
    case Upcoming => "upcoming"
    case Completed => "completed"
    case Cancelled => "cancelled"
    case Negotiating => "negotiating"
  }

  /** The consultation type as stored. */
  function TypeText(t: ConsultationType): string
  {
    match t
    case Video => "video"
    case Audio => "audio"
    case Chat => "chat"
  }

  /** `toUpperCase` on one character, for ASCII letters only: the card applies it to fixed ASCII words. */
  function Upper(c: char): (u: char)
    ensures 'a' <= c <= 'z' ==> 'A' <= u <= 'Z' && u as int == c as int - 32
    ensures !('a' <= c <= 'z') ==> u == c
  {
    if 'a' <= c <= 'z' then (c as int - 32) as char else c
  }

  /** `s.charAt(0).toUpperCase() + s.slice(1)`, for words whose first letter is ASCII. */
  function Capitalize(s: string): (r: string)
    ensures |r| == |s|
    ensures |s| > 0 ==> r[0] == Upper(s[0]) && r[1..] == s[1..]
  {
    if |s| == 0 then "" else [Upper(s[0])] + s[1..]
  }

  /** The badge text, e.g. "Upcoming". */
  function StatusLabel(s: ConsultationStatus): (text: string)
    ensures |text| == |StatusText(s)| && text[1..] == StatusText(s)[1..]
    ensures text[0] == Upper(StatusText(s)[0])
    ensures 'A' <= text[0] <= 'Z'
  {
    Capitalize(StatusText(s))
  }

  /** The type line, e.g. "Video Consultation". */
  function TypeLine(t: ConsultationType): (line: string)
    ensures var name := TypeText(t);
      && |line| == |name| + |" Consultation"|
      && line[0] == Upper(name[0]) && line[1..|name|] == name[1..]
      && line[|name|..] == " Consultation"
  {
    Capitalize(TypeText(t)) + " Consultation"
  }

  datatype FooterButton = ViewDetails | Custom(text: string) | JoinNow | LeaveReview | ConfirmButton

  /**
   * The footer, left to right: "View Details" always; the custom action when
   * both its label and its handler are given; otherwise, without a label,
   * the default action for the status.
   */
  function FooterButtons(status: ConsultationStatus, actionLabel: Option<string>, hasActionHandler: bool): (r: seq<FooterButton>)
    ensures |r| >= 1 && r[0] == ViewDetails
    ensures Custom(actionLabel.GetOr("")) in r <==> Present(actionLabel) && hasActionHandler
    ensures JoinNow in r <==> !Present(actionLabel) && status == Upcoming
    ensures LeaveReview in r <==> !Present(actionLabel) && status == Completed
    ensures ConfirmButton in r <==> !Present(actionLabel) && status == Pending
    ensures |r| <= 2
  {
    [ViewDetails]
    + (if Present(actionLabel) && hasActionHandler then [Custom(actionLabel.value)] else [])
    + (if !Present(actionLabel) && status == Upcoming then [JoinNow] else [])
    + (if !Present(actionLabel) && status == Completed then [LeaveReview] else [])
    + (if !Present(actionLabel) && status == Pending then [ConfirmButton] else [])
  }

  /** A cancelled (or negotiating) card without a custom action offers only "View Details". */
  lemma NoDefaultForCancelled(actionLabel: Option<string>, hasActionHandler: bool)
    ensures FooterButtons(Cancelled, actionLabel, hasActionHandler) ==
      (if Present(actionLabel) && hasActionHandler then [ViewDetails, Custom(actionLabel.value)] else [ViewDetails])
  {
  }
}
