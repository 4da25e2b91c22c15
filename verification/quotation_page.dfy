/**
 * The quotation page (src/pages/Quotation.tsx): its form state (status, amount, notes),
 * the status badge, the history timeline and the follow-up button, all of which are
 * derived from the selected status alone.
 */
module QuotationPage {
  import opened Types

  /** The entries the history card can show. */
  datatype TimelineEvent = QuotationSent | CustomerAccepted | CustomerRejected

  /**
   * The history card: absent for `not-created`; otherwise the "sent" entry, followed by the
   * "accepted" or "rejected" entry when the status is one of those.
   */
  function Timeline(status: QuotationStatus): (r: seq<TimelineEvent>)
    ensures r == [] <==> status == NotCreated
    ensures r != [] ==> r[0] == QuotationSent
    ensures |r| <= 2
    ensures CustomerAccepted in r <==> status == Accepted
    ensures CustomerRejected in r <==> status == Rejected
  {
    if status == NotCreated then []
    else [QuotationSent] + (if status == Accepted then [CustomerAccepted] else [])
                         + (if status == Rejected then [CustomerRejected] else [])
  }

  /** The status a timeline shows, read back from its entries. */
  function StatusOfTimeline(events: seq<TimelineEvent>): QuotationStatus {
    if events == [] then NotCreated
    else if CustomerAccepted in events then Accepted
    else if CustomerRejected in events then Rejected
    else Sent
  }

  /** The timeline determines the status: reading it back gives the status it was drawn from. */
  lemma TimelineDeterminesStatus(status: QuotationStatus)
    ensures StatusOfTimeline(Timeline(status)) == status
  {
  }

  /** `sent` shows only the "sent" entry; `accepted` and `rejected` add their own after it. */
  lemma TimelineByStatus()
    ensures Timeline(NotCreated) == []
    ensures Timeline(Sent) == [QuotationSent]
    ensures Timeline(Accepted) == [QuotationSent, CustomerAccepted]
    ensures Timeline(Rejected) == [QuotationSent, CustomerRejected]
  {
  }

  /** The "follow up customer" button: shown for `sent` only. */
  predicate FollowUpOffered(status: QuotationStatus) {
    status == Sent
  }

  /** Follow-up is offered exactly when the customer has not yet answered a sent quotation. */
  lemma FollowUpIffAwaitingAnswer(status: QuotationStatus)
    ensures FollowUpOffered(status) <==> Timeline(status) == [QuotationSent]
  {
  }

  /** The badge colours of `statusConfig`. */
  datatype QuotationTone = Gray | Blue | Green | Red

  function BadgeOf(status: QuotationStatus): QuotationTone {
    match status
    case NotCreated => Gray
    case Sent => Blue
    case Accepted => Green
    case Rejected => Red
  }

  /** Distinct statuses have distinct badges. */
  lemma BadgeIdentifiesStatus(s: QuotationStatus, t: QuotationStatus)
    ensures BadgeOf(s) == BadgeOf(t) <==> s == t
  {
  }

  /** The options of the status `<select>`, in order. */
  function StatusOptions(): (r: seq<QuotationStatus>)
    ensures |r| == 4
  {
    [NotCreated, Sent, Accepted, Rejected]
  }

  /** Every status is offered, so any status can be chosen from any other. */
  lemma EveryStatusSelectable(s: QuotationStatus)
    ensures s in StatusOptions()
  {
    match s
    case NotCreated => assert StatusOptions()[0] == s;
    case Sent => assert StatusOptions()[1] == s;
    case Accepted => assert StatusOptions()[2] == s;
    case Rejected => assert StatusOptions()[3] == s;
  }

  /** The page's form state. */
  class QuotationForm {
    var status: QuotationStatus
    var amount: int
    var notes: string

    constructor ()
      ensures status == NotCreated && amount == 150000 && notes == ""
      ensures Timeline(status) == [] && !FollowUpOffered(status)
    {
      status := NotCreated;
      amount := 150000;
      notes := "";
    }

    /** The select's `onChange`: any status replaces any other, with no guard. */
    method SetStatus(s: QuotationStatus)
      modifies this
      ensures status == s && amount == old(amount) && notes == old(notes)
      ensures FollowUpOffered(status) <==> s == Sent
    {
      status := s;
    }

    /** The amount input's `onChange`. */
    method SetAmount(a: int)
      modifies this
      ensures amount == a && status == old(status) && notes == old(notes)
    {
      amount := a;
    }

    /** The notes textarea's `onChange`. */
    method SetNotes(n: string)
      modifies this
      ensures notes == n && status == old(status) && amount == old(amount)
    {
      notes := n;
    }
  }
}
