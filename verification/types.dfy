/**
 * The domain records of src/types/index.ts. The three status unions become datatypes with
 * their wire strings; the interfaces become records whose `field?: T` members are `Option`s.
 * Currency amounts and distances (`number`) are integers here.
 */
module Types {
  import opened Wrappers

  /** The eight job statuses, in the order the union lists them. */
  datatype JobStatus =
    | Pending | Measuring | Quoting | Approved | InProgress | PendingFollow | Completed | Cancelled

  datatype PaymentStatus = Paid | PaymentPending | Overdue

  datatype QuotationStatus = NotCreated | Sent | Accepted | Rejected

  /** The string value each job status has in the source. */
  function JobStatusName(s: JobStatus): string {
    match s
    case Pending => "pending"
    case Measuring => "measuring"
    case Quoting => "quoting"
    case Approved => "approved"
    case InProgress => "in-progress"
    case PendingFollow => "pending-follow"
    case Completed => "completed"
    case Cancelled => "cancelled"
  }

  /** The job status a string denotes, if it is one of the eight. */
  function ParseJobStatus(w: string): (r: Option<JobStatus>)
    ensures r.Some? ==> JobStatusName(r.value) == w
  {
    if w == "pending" then Some(Pending)
    else if w == "measuring" then Some(Measuring)
    else if w == "quoting" then Some(Quoting)
    else if w == "approved" then Some(Approved)
    else if w == "in-progress" then Some(InProgress)
    else if w == "pending-follow" then Some(PendingFollow)
    else if w == "completed" then Some(Completed)
    else if w == "cancelled" then Some(Cancelled)
    else None
  }

  /** Every job status has its own string, and that string parses back to it. */
  lemma JobStatusNameRoundTrip(s: JobStatus)
    ensures ParseJobStatus(JobStatusName(s)) == Some(s)
  {
  }

  /** A string is a job status exactly when it is one of the eight names. */
  lemma JobStatusExactlyEight(w: string)
    ensures ParseJobStatus(w).Some? <==>
      w in ["pending", "measuring", "quoting", "approved", "in-progress", "pending-follow", "completed", "cancelled"]
  {
  }

  function PaymentStatusName(s: PaymentStatus): string {
    match s
    case Paid => "paid"
    case PaymentPending => "pending"
    case Overdue => "overdue"
  }

  function ParsePaymentStatus(w: string): (r: Option<PaymentStatus>)
    ensures r.Some? ==> PaymentStatusName(r.value) == w
    ensures r.Some? <==> w in ["paid", "pending", "overdue"]
  {
    if w == "paid" then Some(Paid)
    else if w == "pending" then Some(PaymentPending)
    else if w == "overdue" then Some(Overdue)
    else None
  }

  lemma PaymentStatusNameRoundTrip(s: PaymentStatus)
    ensures ParsePaymentStatus(PaymentStatusName(s)) == Some(s)
  {
  }

  function QuotationStatusName(s: QuotationStatus): string {
    match s
    case NotCreated => "not-created"
    case Sent => "sent"
    case Accepted => "accepted"
    case Rejected => "rejected"
  }

  function ParseQuotationStatus(w: string): (r: Option<QuotationStatus>)
    ensures r.Some? ==> QuotationStatusName(r.value) == w
    ensures r.Some? <==> w in ["not-created", "sent", "accepted", "rejected"]
  {
    if w == "not-created" then Some(NotCreated)
    else if w == "sent" then Some(Sent)
    else if w == "accepted" then Some(Accepted)
    else if w == "rejected" then Some(Rejected)
    else None
  }

  lemma QuotationStatusNameRoundTrip(s: QuotationStatus)
    ensures ParseQuotationStatus(QuotationStatusName(s)) == Some(s)
  {
  }

  /** A customer always has a name and a phone; the address may be absent. */
  datatype Customer = Customer(id: string, name: string, phone: string, address: Option<string>)

  /** A site-measurement appointment; `distance` is km from the depot, `fee` the measuring fee. */
  datatype Appointment = Appointment(
    id: string, jobId: string, date: string, time: string, address: string,
    distance: Option<int>, fee: Option<int>, notes: Option<string>)

  datatype Quotation = Quotation(
    id: string, jobId: string, status: QuotationStatus, amount: int,
    fileUrl: Option<string>, sentDate: Option<string>, responseDate: Option<string>,
    notes: Option<string>)

  /** One instalment of a job's payment schedule; `phase` is documented as 1 to 5. */
  datatype Payment = Payment(
    id: string, jobId: string, phase: int, amount: int, dueDate: string,
    paidDate: Option<string>, status: PaymentStatus, slipUrl: Option<string>)

  /** The range the declaration's comment gives for a payment's phase number (not enforced). */
  predicate PhaseInDocumentedRange(phase: int) {
    1 <= phase <= 5
  }

  datatype Expense = Expense(
    id: string, jobId: string, description: string, amount: int, date: string,
    category: string, receiptUrl: Option<string>)

  /** A day's on-site report: its image references and the expenses incurred that day. */
  datatype DailyReport = DailyReport(
    id: string, jobId: string, date: string, workDescription: string,
    images: seq<string>, expenses: seq<Expense>)

  /**
   * A job: at most one appointment and one quotation, and optional lists of payments and
   * expenses. The customer is held by value, as the record embeds it.
   */
  datatype Job = Job(
    id: string, code: string, customer: Customer, status: JobStatus, createdAt: string,
    appointment: Option<Appointment>, quotation: Option<Quotation>,
    payments: Option<seq<Payment>>, totalAmount: Option<int>, expenses: Option<seq<Expense>>)
}
