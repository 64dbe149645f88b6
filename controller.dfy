/** The control panel's eligibility logic: which actions it offers for the current state.
    The engine itself accepts any action whose target document exists; the status gating of
    the workflow lives here. */
module Controller {
  import opened Types
  import opened Pipeline

  // Section flags: a section is shown as active while its document exists and has not
  // reached a success or failure end state.

  predicate LeadActive(s: SimulationState) {
    s.lead.Some? && s.lead.value.status != LeadStatus.Converted && s.lead.value.status != LeadStatus.Invalid
  }

  predicate QuoteActive(s: SimulationState) {
    s.quote.Some? && s.quote.value.currentStatus != QuoteVersionStatus.Confirmed
    && s.quote.value.currentStatus != QuoteVersionStatus.Cancelled
  }

  predicate MeasureActive(s: SimulationState) {
    s.measurement.Some? && s.measurement.value.status != ServiceOrderStatus.Completed
    && s.measurement.value.status != ServiceOrderStatus.Cancelled
  }

  predicate SalesActive(s: SimulationState) {
    s.salesOrder.Some? && s.salesOrder.value.status != SalesOrderStatus.Completed
    && s.salesOrder.value.status != SalesOrderStatus.Cancelled
  }

  predicate InstallActive(s: SimulationState) {
    s.installation.Some? && s.installation.value.status != ServiceOrderStatus.Completed
    && s.installation.value.status != ServiceOrderStatus.Cancelled
  }

  predicate ReconActive(s: SimulationState) {
    s.reconciliation.Some? && s.reconciliation.value.status != ReconciliationStatus.Completed
    && s.reconciliation.value.status != ReconciliationStatus.Cancelled
  }

  /** The one tag the panel offers. */
  const QuotedTag := "已报价"

  /** Lead section: create while there is no lead, then one button set per status. */
  predicate LeadOffers(s: SimulationState, a: Action) {
    if s.lead.None? then a == CreateLead
    else match s.lead.value.status
      case New => a == AssignLead
      case Assigned => a == StartFollowing
      case Following => a == TagLead(QuotedTag) || a == ConvertLead || a == CloseLead
      case Converted | Invalid => false
  }

  /** Quote section: buttons only while a quote exists and no sales order does. */
  predicate QuoteOffers(s: SimulationState, a: Action) {
    if s.quote.None? || s.salesOrder.Some? then false
    else match s.quote.value.currentStatus
      case Draft => a == PublishQuote
      case Preliminary => s.measurement.None? && a == CreateMeasurement
      case Revised => a == ConfirmQuote || a == NewVersion
      case Measuring | Confirmed | Cancelled => false
  }

  predicate MeasureOffers(s: SimulationState, a: Action) {
    if s.measurement.None? then false
    else match s.measurement.value.status
      case Pending => a == MeasureAction("ASSIGN")
      case Assigning => a == MeasureAction("ACCEPT")
      case Waiting => a == MeasureAction("COMPLETE_SITE")
      case Confirming => a == MeasureAction("REJECT") || a == MeasureAction("CONFIRM")
      case Completed | Cancelled => false
  }

  predicate SalesOffers(s: SimulationState, a: Action) {
    if s.salesOrder.None? then false
    else match s.salesOrder.value.status
      case Draft => a == SalesAction("CONFIRM")
      case Confirmed => a == SalesAction("PROCURE")
      case Purchasing => a == SalesAction("SHIP")
      case Shipping => s.installation.None? && a == CreateInstall
      case Reconciliation => s.reconciliation.None? && a == CreateRecon
      case Installing | Completed | Cancelled => false
  }

  predicate InstallOffers(s: SimulationState, a: Action) {
    if s.installation.None? then false
    else match s.installation.value.status
      case Pending => a == InstallAction("ASSIGN")
      case Assigning => a == InstallAction("ACCEPT")
      case Waiting => a == InstallAction("COMPLETE_SITE")
      case Confirming => a == InstallAction("UPLOAD_PHOTOS") || a == InstallAction("CONFIRM")
      case Completed | Cancelled => false
  }

  predicate ReconOffers(s: SimulationState, a: Action) {
    if s.reconciliation.None? then false
    else match s.reconciliation.value.status
      case Pending | Adjusted => a == ReconAction("START")
      case Reconciling => a == ReconAction("DISCREPANCY") || a == ReconAction("COMPLETE")
      case Discrepancy => a == ReconAction("ADJUST")
      case Completed | Cancelled => false
  }

  /** Whether the panel offers action `a` in state `s`: some section shows its button, or it
      is the reset button, which is always there. */
  predicate Offered(s: SimulationState, a: Action) {
    || LeadOffers(s, a) || QuoteOffers(s, a) || MeasureOffers(s, a)
    || SalesOffers(s, a) || InstallOffers(s, a) || ReconOffers(s, a)
    || a == Reset
  }

  /** The panel never offers an action the engine would reject: whatever it offers has its
      target document present. */
  lemma {:induction false} OfferedNotRejected(s: SimulationState, a: Action)
    requires Offered(s, a)
    ensures !Rejected(s, a)
  {
    if LeadOffers(s, a) { LeadOffersAccepted(s, a); }
    else if QuoteOffers(s, a) { QuoteOffersAccepted(s, a); }
    else if MeasureOffers(s, a) { MeasureOffersAccepted(s, a); }
    else if SalesOffers(s, a) { SalesOffersAccepted(s, a); }
    else if InstallOffers(s, a) { InstallOffersAccepted(s, a); }
    else if ReconOffers(s, a) { ReconOffersAccepted(s, a); }
  }

  lemma {:induction false} LeadOffersAccepted(s: SimulationState, a: Action)
    requires LeadOffers(s, a)
    ensures !Rejected(s, a)
  {
  }

  lemma {:induction false} QuoteOffersAccepted(s: SimulationState, a: Action)
    requires QuoteOffers(s, a)
    ensures !Rejected(s, a)
  {
  }

  lemma {:induction false} MeasureOffersAccepted(s: SimulationState, a: Action)
    requires MeasureOffers(s, a)
    ensures !Rejected(s, a)
  {
  }

  lemma {:induction false} SalesOffersAccepted(s: SimulationState, a: Action)
    requires SalesOffers(s, a)
    ensures !Rejected(s, a)
  {
  }

  lemma {:induction false} InstallOffersAccepted(s: SimulationState, a: Action)
    requires InstallOffers(s, a)
    ensures !Rejected(s, a)
  {
  }

  lemma {:induction false} ReconOffersAccepted(s: SimulationState, a: Action)
    requires ReconOffers(s, a)
    ensures !Rejected(s, a)
  {
  }

  /** Lead buttons: create exactly while there is no lead, assign only for a new lead, start
      following only for an assigned one, convert and close only while following. No lead
      action is offered once the lead is converted or invalid. */
  lemma {:induction false} LeadGating(s: SimulationState)
    ensures Offered(s, CreateLead) <==> s.lead.None?
    ensures Offered(s, AssignLead) <==> s.lead.Some? && s.lead.value.status == LeadStatus.New
    ensures Offered(s, StartFollowing) <==> s.lead.Some? && s.lead.value.status == LeadStatus.Assigned
    ensures Offered(s, ConvertLead) <==> s.lead.Some? && s.lead.value.status == LeadStatus.Following
    ensures Offered(s, CloseLead) <==> s.lead.Some? && s.lead.value.status == LeadStatus.Following
    ensures s.lead.Some? && !LeadActive(s) ==> forall a :: !LeadOffers(s, a)
  {
  }

  /** The only tag offered is the fixed one, and only while the lead is being followed. */
  lemma {:induction false} TagGating(s: SimulationState, t: string)
    ensures Offered(s, TagLead(t)) <==> t == QuotedTag && s.lead.Some? && s.lead.value.status == LeadStatus.Following
  {
  }

  /** Quote buttons exist only while a quote exists and no sales order does: publish from
      draft, request a measurement from preliminary when none exists, confirm or create a new
      version from revised. */
  lemma {:induction false} QuoteGating(s: SimulationState)
    ensures var open := s.quote.Some? && s.salesOrder.None?;
      && (Offered(s, PublishQuote) <==> open && s.quote.value.currentStatus == QuoteVersionStatus.Draft)
      && (Offered(s, CreateMeasurement) <==>
            open && s.quote.value.currentStatus == QuoteVersionStatus.Preliminary && s.measurement.None?)
      && (Offered(s, ConfirmQuote) <==> open && s.quote.value.currentStatus == QuoteVersionStatus.Revised)
      && (Offered(s, NewVersion) <==> open && s.quote.value.currentStatus == QuoteVersionStatus.Revised)
  {
  }

  /** Measurement buttons follow its status one to one: pending offers ASSIGN, assigning
      ACCEPT, waiting COMPLETE_SITE, confirming REJECT and CONFIRM; nothing once completed. */
  lemma {:induction false} MeasureGating(s: SimulationState, p: string)
    ensures Offered(s, MeasureAction(p)) <==>
      s.measurement.Some? &&
      match s.measurement.value.status
      case Pending => p == "ASSIGN"
      case Assigning => p == "ACCEPT"
      case Waiting => p == "COMPLETE_SITE"
      case Confirming => p == "REJECT" || p == "CONFIRM"
      case Completed | Cancelled => false
  {
  }

  /** Installation buttons: as for measurement, except that confirming offers UPLOAD_PHOTOS
      instead of REJECT. */
  lemma {:induction false} InstallGating(s: SimulationState, p: string)
    ensures Offered(s, InstallAction(p)) <==>
      s.installation.Some? &&
      match s.installation.value.status
      case Pending => p == "ASSIGN"
      case Assigning => p == "ACCEPT"
      case Waiting => p == "COMPLETE_SITE"
      case Confirming => p == "UPLOAD_PHOTOS" || p == "CONFIRM"
      case Completed | Cancelled => false
  {
  }

  /** Sales-order buttons: draft offers CONFIRM, confirmed PROCURE, purchasing SHIP; shipping
      with no installation offers creating one; reconciliation with no reconciliation offers
      creating one. */
  lemma {:induction false} SalesGating(s: SimulationState, p: string)
    ensures Offered(s, SalesAction(p)) <==>
      s.salesOrder.Some? &&
      match s.salesOrder.value.status
      case Draft => p == "CONFIRM"
      case Confirmed => p == "PROCURE"
      case Purchasing => p == "SHIP"
      case _ => false
    ensures Offered(s, CreateInstall) <==>
      s.salesOrder.Some? && s.salesOrder.value.status == SalesOrderStatus.Shipping && s.installation.None?
    ensures Offered(s, CreateRecon) <==>
      s.salesOrder.Some? && s.salesOrder.value.status == SalesOrderStatus.Reconciliation && s.reconciliation.None?
  {
  }

  /** Reconciliation buttons: pending or adjusted offers START, reconciling DISCREPANCY and
      COMPLETE, discrepancy ADJUST; nothing once completed. */
  lemma {:induction false} ReconGating(s: SimulationState, p: string)
    ensures Offered(s, ReconAction(p)) <==>
      s.reconciliation.Some? &&
      match s.reconciliation.value.status
      case Pending | Adjusted => p == "START"
      case Reconciling => p == "DISCREPANCY" || p == "COMPLETE"
      case Discrepancy => p == "ADJUST"
      case Completed | Cancelled => false
  {
  }

  /** The panel never offers an action that would create a second lead, measurement, sales
      order, installation or reconciliation (the engine itself would overwrite it). Converting,
      which creates the quote, is offered for any following lead whatever the quote; the
      invariant of reachable states rules that case out (Workflow.InvNoDuplicateCreation). */
  lemma {:induction false} NoDuplicateCreation(s: SimulationState)
    ensures s.lead.Some? ==> !Offered(s, CreateLead)
    ensures s.measurement.Some? ==> !Offered(s, CreateMeasurement)
    ensures s.salesOrder.Some? ==> !Offered(s, ConfirmQuote)
    ensures s.installation.Some? ==> !Offered(s, CreateInstall)
    ensures s.reconciliation.Some? ==> !Offered(s, CreateRecon)
  {
  }
}
