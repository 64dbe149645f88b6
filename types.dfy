/** Entities of one simulated sales pipeline run: the five status enums,
    the six document records, the audit-log entry and the aggregate state. */
module Types {

  datatype Option<+T> = None | Some(value: T)

  /** Kinds of business document that flow through the pipeline. */
  datatype DocumentType = LEAD | QUOTE | MEASUREMENT | SALES_ORDER | INSTALLATION | RECONCILIATION

  datatype LeadStatus = New | Assigned | Following | Converted | Invalid

  datatype QuoteVersionStatus = Draft | Preliminary | Measuring | Revised | Confirmed | Cancelled

  /** One enum shared by measurement and installation orders. */
  datatype ServiceOrderStatus = Pending | Assigning | Waiting | Confirming | Completed | Cancelled

  datatype SalesOrderStatus =
    | Draft | Confirmed | Purchasing | Shipping | Installing | Reconciliation | Completed | Cancelled

  datatype ReconciliationStatus = Pending | Reconciling | Discrepancy | Adjusted | Completed | Cancelled

  // The string value each enum member carries; several enums reuse the same strings.

  function LeadStatusName(s: LeadStatus): string {
    match s
    case New => "new"
    case Assigned => "assigned"
    case Following => "following"
    case Converted => "converted"
    case Invalid => "invalid"
  }

  function QuoteStatusName(s: QuoteVersionStatus): string {
    match s
    case Draft => "draft"
    case Preliminary => "preliminary"
    case Measuring => "measuring"
    case Revised => "revised"
    case Confirmed => "confirmed"
    case Cancelled => "cancelled"
  }

  function ServiceStatusName(s: ServiceOrderStatus): string {
    match s
    case Pending => "pending"
    case Assigning => "assigning"
    case Waiting => "waiting"
    case Confirming => "confirming"
    case Completed => "completed"
    case Cancelled => "cancelled"
  }

  function SalesStatusName(s: SalesOrderStatus): string {
    match s
    case Draft => "draft"
    case Confirmed => "confirmed"
    case Purchasing => "purchasing"
    case Shipping => "shipping"
    case Installing => "installing"
    case Reconciliation => "reconciliation"
    case Completed => "completed"
    case Cancelled => "cancelled"
  }

  function ReconStatusName(s: ReconciliationStatus): string {
    match s
    case Pending => "pending"
    case Reconciling => "reconciling"
    case Discrepancy => "discrepancy"
    case Adjusted => "adjusted"
    case Completed => "completed"
    case Cancelled => "cancelled"
  }

  const AllLeadStatuses: set<LeadStatus> :=
    {LeadStatus.New, LeadStatus.Assigned, LeadStatus.Following, LeadStatus.Converted, LeadStatus.Invalid}
  const AllQuoteStatuses: set<QuoteVersionStatus> :=
    {QuoteVersionStatus.Draft, QuoteVersionStatus.Preliminary, QuoteVersionStatus.Measuring,
     QuoteVersionStatus.Revised, QuoteVersionStatus.Confirmed, QuoteVersionStatus.Cancelled}
  const AllServiceStatuses: set<ServiceOrderStatus> :=
    {ServiceOrderStatus.Pending, ServiceOrderStatus.Assigning, ServiceOrderStatus.Waiting,
     ServiceOrderStatus.Confirming, ServiceOrderStatus.Completed, ServiceOrderStatus.Cancelled}
  const AllSalesStatuses: set<SalesOrderStatus> :=
    {SalesOrderStatus.Draft, SalesOrderStatus.Confirmed, SalesOrderStatus.Purchasing,
     SalesOrderStatus.Shipping, SalesOrderStatus.Installing, SalesOrderStatus.Reconciliation,
     SalesOrderStatus.Completed, SalesOrderStatus.Cancelled}
  const AllReconStatuses: set<ReconciliationStatus> :=
    {ReconciliationStatus.Pending, ReconciliationStatus.Reconciling, ReconciliationStatus.Discrepancy,
     ReconciliationStatus.Adjusted, ReconciliationStatus.Completed, ReconciliationStatus.Cancelled}

  // The string values of each enum, as written in the source.
  const LeadStatusNames: set<string> := {"new", "assigned", "following", "converted", "invalid"}
  const QuoteStatusNames: set<string> := {"draft", "preliminary", "measuring", "revised", "confirmed", "cancelled"}
  const ServiceStatusNames: set<string> := {"pending", "assigning", "waiting", "confirming", "completed", "cancelled"}
  const SalesStatusNames: set<string> :=
    {"draft", "confirmed", "purchasing", "shipping", "installing", "reconciliation", "completed", "cancelled"}
  const ReconStatusNames: set<string> := {"pending", "reconciling", "discrepancy", "adjusted", "completed", "cancelled"}

  datatype Lead = Lead(id: string, customerName: string, status: LeadStatus, tags: seq<string>, history: seq<string>)

  datatype QuoteVersion = QuoteVersion(versionId: string, status: QuoteVersionStatus, createdAt: string, isCurrent: bool)

  /** `currentStatus` is the document-level status; it uses the same enum as each version. */
  datatype Quote = Quote(id: string, leadId: string, versions: seq<QuoteVersion>, currentStatus: QuoteVersionStatus)

  datatype Measurement = Measurement(id: string, quoteVersionId: string, status: ServiceOrderStatus)

  datatype SalesOrder = SalesOrder(
    id: string, quoteId: string, quoteVersion: string, status: SalesOrderStatus,
    procurementIds: seq<string>, logisticsStatus: Option<string>, installImage: Option<string>)

  datatype Installation = Installation(id: string, salesOrderId: string, status: ServiceOrderStatus)

  datatype Reconciliation = Reconciliation(id: string, salesOrderId: string, status: ReconciliationStatus)

  datatype LogEntry = LogEntry(timestamp: string, actor: string, action: string, detail: string)

  /** The whole state of one demo run: six independently absent-or-present documents and the log,
      most recent entry first. */
  datatype SimulationState = SimulationState(
    lead: Option<Lead>,
    quote: Option<Quote>,
    measurement: Option<Measurement>,
    salesOrder: Option<SalesOrder>,
    installation: Option<Installation>,
    reconciliation: Option<Reconciliation>,
    logs: seq<LogEntry>)

  /** Whether the state holds a document of kind `d`. */
  predicate Present(s: SimulationState, d: DocumentType) {
    match d
    case LEAD => s.lead.Some?
    case QUOTE => s.quote.Some?
    case MEASUREMENT => s.measurement.Some?
    case SALES_ORDER => s.salesOrder.Some?
    case INSTALLATION => s.installation.Some?
    case RECONCILIATION => s.reconciliation.Some?
  }

  /** Whether `s` and `t` hold the same document (or both none) of kind `d`. */
  predicate SameDocument(s: SimulationState, t: SimulationState, d: DocumentType) {
    match d
    case LEAD => s.lead == t.lead
    case QUOTE => s.quote == t.quote
    case MEASUREMENT => s.measurement == t.measurement
    case SALES_ORDER => s.salesOrder == t.salesOrder
    case INSTALLATION => s.installation == t.installation
    case RECONCILIATION => s.reconciliation == t.reconciliation
  }

  /** The lead enum lists every value, they are pairwise distinct, and two of them are end states. */
  lemma LeadStatusEnum()
    ensures forall s: LeadStatus :: s in AllLeadStatuses
    ensures |AllLeadStatuses| == 5
    ensures forall s, t: LeadStatus :: LeadStatusName(s) == LeadStatusName(t) ==> s == t
    ensures LeadStatusName(LeadStatus.Converted) == "converted" && LeadStatusName(LeadStatus.Invalid) == "invalid"
  {
    forall s: LeadStatus ensures s in AllLeadStatuses {
      match s
      case New => case Assigned => case Following => case Converted => case Invalid =>
    }
  }

  /** The sales-order enum has eight distinct values; `reconciliation` is not `completed`. */
  lemma SalesStatusEnum()
    ensures forall s: SalesOrderStatus :: s in AllSalesStatuses
    ensures |AllSalesStatuses| == 8
    ensures forall s, t: SalesOrderStatus :: SalesStatusName(s) == SalesStatusName(t) ==> s == t
    ensures SalesStatusName(SalesOrderStatus.Reconciliation) != SalesStatusName(SalesOrderStatus.Completed)
  {
    forall s: SalesOrderStatus ensures s in AllSalesStatuses {
      match s
      case Draft => case Confirmed => case Purchasing => case Shipping =>
      case Installing => case Reconciliation => case Completed => case Cancelled =>
    }
  }

  /** The remaining enums are complete and their string values are pairwise distinct. */
  lemma OtherStatusEnums()
    ensures forall s: QuoteVersionStatus :: s in AllQuoteStatuses
    ensures forall s: ServiceOrderStatus :: s in AllServiceStatuses
    ensures forall s: ReconciliationStatus :: s in AllReconStatuses
    ensures |AllQuoteStatuses| == 6 && |AllServiceStatuses| == 6 && |AllReconStatuses| == 6
    ensures forall s, t: QuoteVersionStatus :: QuoteStatusName(s) == QuoteStatusName(t) ==> s == t
    ensures forall s, t: ServiceOrderStatus :: ServiceStatusName(s) == ServiceStatusName(t) ==> s == t
    ensures forall s, t: ReconciliationStatus :: ReconStatusName(s) == ReconStatusName(t) ==> s == t
  {
    forall s: QuoteVersionStatus ensures s in AllQuoteStatuses {
      match s
      case Draft => case Preliminary => case Measuring => case Revised => case Confirmed => case Cancelled =>
    }
    forall s: ServiceOrderStatus ensures s in AllServiceStatuses {
      match s
      case Pending => case Assigning => case Waiting => case Confirming => case Completed => case Cancelled =>
    }
    forall s: ReconciliationStatus ensures s in AllReconStatuses {
      match s
      case Pending => case Reconciling => case Discrepancy => case Adjusted => case Completed => case Cancelled =>
    }
  }

  /** Distinct enums share string values, so a table keyed by the string cannot tell them apart. */
  lemma SharedStatusNames()
    ensures QuoteStatusName(QuoteVersionStatus.Draft) == SalesStatusName(SalesOrderStatus.Draft)
    ensures QuoteStatusName(QuoteVersionStatus.Confirmed) == SalesStatusName(SalesOrderStatus.Confirmed)
    ensures ServiceStatusName(ServiceOrderStatus.Pending) == ReconStatusName(ReconciliationStatus.Pending)
    ensures ServiceStatusName(ServiceOrderStatus.Completed) == SalesStatusName(SalesOrderStatus.Completed)
    ensures ServiceStatusName(ServiceOrderStatus.Completed) == ReconStatusName(ReconciliationStatus.Completed)
    ensures QuoteStatusName(QuoteVersionStatus.Cancelled) == ServiceStatusName(ServiceOrderStatus.Cancelled)
    ensures QuoteStatusName(QuoteVersionStatus.Cancelled) == SalesStatusName(SalesOrderStatus.Cancelled)
    ensures QuoteStatusName(QuoteVersionStatus.Cancelled) == ReconStatusName(ReconciliationStatus.Cancelled)
  {
  }

  /** Every enum value's string is one of the listed strings of its enum. */
  lemma {:induction false} StatusNamesListed()
    ensures forall s: LeadStatus :: LeadStatusName(s) in LeadStatusNames
    ensures forall s: QuoteVersionStatus :: QuoteStatusName(s) in QuoteStatusNames
    ensures forall s: ServiceOrderStatus :: ServiceStatusName(s) in ServiceStatusNames
    ensures forall s: SalesOrderStatus :: SalesStatusName(s) in SalesStatusNames
    ensures forall s: ReconciliationStatus :: ReconStatusName(s) in ReconStatusNames
  {
    forall s: LeadStatus ensures LeadStatusName(s) in LeadStatusNames {
      match s
      case New => case Assigned => case Following => case Converted => case Invalid =>
    }
    forall s: QuoteVersionStatus ensures QuoteStatusName(s) in QuoteStatusNames {
      match s
      case Draft => case Preliminary => case Measuring => case Revised => case Confirmed => case Cancelled =>
    }
    forall s: ServiceOrderStatus ensures ServiceStatusName(s) in ServiceStatusNames {
      match s
      case Pending => case Assigning => case Waiting => case Confirming => case Completed => case Cancelled =>
    }
    forall s: SalesOrderStatus ensures SalesStatusName(s) in SalesStatusNames {
      match s
      case Draft => case Confirmed => case Purchasing => case Shipping =>
      case Installing => case Reconciliation => case Completed => case Cancelled =>
    }
    forall s: ReconciliationStatus ensures ReconStatusName(s) in ReconStatusNames {
      match s
      case Pending => case Reconciling => case Discrepancy => case Adjusted => case Completed => case Cancelled =>
    }
  }
}
