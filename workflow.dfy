/** What the engine and the control panel guarantee together: along any run that starts from
    the initial state and only uses actions the panel offers, every document follows its status
    machine, a document in an end state never changes again, and the cascades keep the documents
    consistent with one another. */
module Workflow {
  import opened Types
  import opened Constants
  import opened Pipeline
  import opened Controller
  import opened PipelineMap

  // ---- Status machines ----

  predicate LeadTerminal(st: LeadStatus) {
    st == LeadStatus.Converted || st == LeadStatus.Invalid
  }

  predicate QuoteTerminal(st: QuoteVersionStatus) {
    st == QuoteVersionStatus.Confirmed || st == QuoteVersionStatus.Cancelled
  }

  predicate ServiceTerminal(st: ServiceOrderStatus) {
    st == ServiceOrderStatus.Completed || st == ServiceOrderStatus.Cancelled
  }

  predicate SalesTerminal(st: SalesOrderStatus) {
    st == SalesOrderStatus.Completed || st == SalesOrderStatus.Cancelled
  }

  predicate ReconTerminal(st: ReconciliationStatus) {
    st == ReconciliationStatus.Completed || st == ReconciliationStatus.Cancelled
  }

  /** Lead: new, assigned, following, then converted or invalid. Staying put is allowed. */
  predicate LeadNext(a: LeadStatus, b: LeadStatus) {
    a == b ||
    match a
    case New => b == LeadStatus.Assigned
    case Assigned => b == LeadStatus.Following
    case Following => b == LeadStatus.Converted || b == LeadStatus.Invalid
    case Converted | Invalid => false
  }

  /** Quote document status: draft, preliminary, measuring, revised, confirmed. */
  predicate QuoteNext(a: QuoteVersionStatus, b: QuoteVersionStatus) {
    a == b ||
    match a
    case Draft => b == QuoteVersionStatus.Preliminary
    case Preliminary => b == QuoteVersionStatus.Measuring
    case Measuring => b == QuoteVersionStatus.Revised
    case Revised => b == QuoteVersionStatus.Confirmed
    case Confirmed | Cancelled => false
  }

  /** Service order: pending, assigning, waiting, confirming, completed; with `rework` (the
      measurement) confirming may also go back to assigning. */
  predicate ServiceNext(rework: bool, a: ServiceOrderStatus, b: ServiceOrderStatus) {
    a == b ||
    match a
    case Pending => b == ServiceOrderStatus.Assigning
    case Assigning => b == ServiceOrderStatus.Waiting
    case Waiting => b == ServiceOrderStatus.Confirming
    case Confirming => b == ServiceOrderStatus.Completed || (rework && b == ServiceOrderStatus.Assigning)
    case Completed | Cancelled => false
  }

  /** Sales order: draft, confirmed, purchasing, shipping, installing, reconciliation, completed. */
  predicate SalesNext(a: SalesOrderStatus, b: SalesOrderStatus) {
    a == b ||
    match a
    case Draft => b == SalesOrderStatus.Confirmed
    case Confirmed => b == SalesOrderStatus.Purchasing
    case Purchasing => b == SalesOrderStatus.Shipping
    case Shipping => b == SalesOrderStatus.Installing
    case Installing => b == SalesOrderStatus.Reconciliation
    case Reconciliation => b == SalesOrderStatus.Completed
    case Completed | Cancelled => false
  }

  /** Reconciliation: pending, reconciling, then completed or the discrepancy, adjusted,
      reconciling retry loop. */
  predicate ReconNext(a: ReconciliationStatus, b: ReconciliationStatus) {
    a == b ||
    match a
    case Pending => b == ReconciliationStatus.Reconciling
    case Reconciling => b == ReconciliationStatus.Discrepancy || b == ReconciliationStatus.Completed
    case Discrepancy => b == ReconciliationStatus.Adjusted
    case Adjusted => b == ReconciliationStatus.Reconciling
    case Completed | Cancelled => false
  }

  // ---- One step, document by document: created in its initial status, never removed,
  // moved only along its table, and left entirely alone once in an end state. ----

  predicate LeadStep(before: Option<Lead>, after: Option<Lead>) {
    match before
    case None => after.None? || after.value.status == LeadStatus.New
    case Some(l) =>
      after.Some? && LeadNext(l.status, after.value.status) && (LeadTerminal(l.status) ==> after == before)
  }

  predicate QuoteStep(before: Option<Quote>, after: Option<Quote>) {
    match before
    case None => after.None? || after.value.currentStatus == QuoteVersionStatus.Draft
    case Some(q) =>
      after.Some? && QuoteNext(q.currentStatus, after.value.currentStatus)
      && (QuoteTerminal(q.currentStatus) ==> after == before)
  }

  predicate MeasurementStep(before: Option<Measurement>, after: Option<Measurement>) {
    match before
    case None => after.None? || after.value.status == ServiceOrderStatus.Pending
    case Some(m) =>
      after.Some? && ServiceNext(true, m.status, after.value.status)
      && (ServiceTerminal(m.status) ==> after == before)
  }

  predicate SalesStep(before: Option<SalesOrder>, after: Option<SalesOrder>) {
    match before
    case None => after.None? || after.value.status == SalesOrderStatus.Draft
    case Some(o) =>
      after.Some? && SalesNext(o.status, after.value.status) && (SalesTerminal(o.status) ==> after == before)
  }

  predicate InstallStep(before: Option<Installation>, after: Option<Installation>) {
    match before
    case None => after.None? || after.value.status == ServiceOrderStatus.Pending
    case Some(i) =>
      after.Some? && ServiceNext(false, i.status, after.value.status)
      && (ServiceTerminal(i.status) ==> after == before)
  }

  predicate ReconStep(before: Option<Reconciliation>, after: Option<Reconciliation>) {
    match before
    case None => after.None? || after.value.status == ReconciliationStatus.Pending
    case Some(c) =>
      after.Some? && ReconNext(c.status, after.value.status) && (ReconTerminal(c.status) ==> after == before)
  }

  predicate FollowsTables(s: SimulationState, t: SimulationState) {
    && LeadStep(s.lead, t.lead)
    && QuoteStep(s.quote, t.quote)
    && MeasurementStep(s.measurement, t.measurement)
    && SalesStep(s.salesOrder, t.salesOrder)
    && InstallStep(s.installation, t.installation)
    && ReconStep(s.reconciliation, t.reconciliation)
  }

  // ---- The invariant of every state reachable through offered actions ----

  /** How the documents of a reachable state relate. Each later document exists only once
      its predecessor has reached the status that spawns it, the cascades keep the pairs
      (measurement, quote), (installation, order) and (reconciliation, order) in step, and
      no cancelled status ever occurs. */
  predicate Inv(s: SimulationState) {
    // A quote exists only for a converted lead.
    && (s.quote.Some? ==> s.lead.Some? && s.lead.value.status == LeadStatus.Converted)
    // Measurement and quote.
    && (s.measurement.None? ==>
          s.quote.None? || s.quote.value.currentStatus in {QuoteVersionStatus.Draft, QuoteVersionStatus.Preliminary})
    && (s.measurement.Some? ==>
          && s.quote.Some?
          && s.measurement.value.status != ServiceOrderStatus.Cancelled
          && (if s.measurement.value.status == ServiceOrderStatus.Completed
              then s.quote.value.currentStatus in {QuoteVersionStatus.Revised, QuoteVersionStatus.Confirmed}
              else s.quote.value.currentStatus == QuoteVersionStatus.Measuring))
    // Sales order and quote.
    && (s.salesOrder.Some? <==> s.quote.Some? && s.quote.value.currentStatus == QuoteVersionStatus.Confirmed)
    && (s.salesOrder.Some? ==> s.salesOrder.value.status != SalesOrderStatus.Cancelled)
    // Installation and sales order.
    && (s.installation.Some? <==>
          s.salesOrder.Some? && s.salesOrder.value.status in
            {SalesOrderStatus.Installing, SalesOrderStatus.Reconciliation, SalesOrderStatus.Completed})
    && (s.installation.Some? ==>
          && s.installation.value.status != ServiceOrderStatus.Cancelled
          && (s.installation.value.status == ServiceOrderStatus.Completed <==>
                s.salesOrder.value.status != SalesOrderStatus.Installing))
    // Reconciliation and sales order.
    && (s.reconciliation.Some? ==>
          && s.salesOrder.Some?
          && s.salesOrder.value.status in {SalesOrderStatus.Reconciliation, SalesOrderStatus.Completed}
          && s.reconciliation.value.status != ReconciliationStatus.Cancelled
          && (s.reconciliation.value.status == ReconciliationStatus.Completed <==>
                s.salesOrder.value.status == SalesOrderStatus.Completed))
    && (s.salesOrder.Some? && s.salesOrder.value.status == SalesOrderStatus.Completed ==> s.reconciliation.Some?)
  }

  /** The result of reset, and so also the initial state, satisfies the invariant. */
  lemma InitialInv(startup: string, clock: Clock)
    ensures Inv(InitialState(startup))
    ensures Inv(Reduce(startup, InitialState(startup), Reset, clock))
  {
  }

  // Two lemmas per panel section: an offered action keeps the invariant, and it moves every
  // document along its table.

  lemma {:induction false} LeadSectionInv(startup: string, s: SimulationState, a: Action, clock: Clock)
    requires Inv(s) && LeadOffers(s, a)
    ensures Inv(Reduce(startup, s, a, clock))
  {
    StepFrame(startup, s, a, clock);
  }

  lemma {:induction false} LeadSectionTables(startup: string, s: SimulationState, a: Action, clock: Clock)
    requires Inv(s) && LeadOffers(s, a)
    ensures FollowsTables(s, Reduce(startup, s, a, clock))
  {
    StepFrame(startup, s, a, clock);
  }

  lemma {:induction false} QuoteSectionInv(startup: string, s: SimulationState, a: Action, clock: Clock)
    requires Inv(s) && QuoteOffers(s, a)
    ensures Inv(Reduce(startup, s, a, clock))
  {
    StepFrame(startup, s, a, clock);
  }

  lemma {:induction false} QuoteSectionTables(startup: string, s: SimulationState, a: Action, clock: Clock)
    requires Inv(s) && QuoteOffers(s, a)
    ensures FollowsTables(s, Reduce(startup, s, a, clock))
  {
    StepFrame(startup, s, a, clock);
  }

  lemma {:induction false} MeasureSectionInv(startup: string, s: SimulationState, a: Action, clock: Clock)
    requires Inv(s) && MeasureOffers(s, a)
    ensures Inv(Reduce(startup, s, a, clock))
  {
    StepFrame(startup, s, a, clock);
  }

  lemma {:induction false} MeasureSectionTables(startup: string, s: SimulationState, a: Action, clock: Clock)
    requires Inv(s) && MeasureOffers(s, a)
    ensures FollowsTables(s, Reduce(startup, s, a, clock))
  {
    StepFrame(startup, s, a, clock);
  }

  lemma {:induction false} SalesSectionInv(startup: string, s: SimulationState, a: Action, clock: Clock)
    requires Inv(s) && SalesOffers(s, a)
    ensures Inv(Reduce(startup, s, a, clock))
  {
    StepFrame(startup, s, a, clock);
  }

  lemma {:induction false} SalesSectionTables(startup: string, s: SimulationState, a: Action, clock: Clock)
    requires Inv(s) && SalesOffers(s, a)
    ensures FollowsTables(s, Reduce(startup, s, a, clock))
  {
    StepFrame(startup, s, a, clock);
  }

  lemma {:induction false} InstallSectionInv(startup: string, s: SimulationState, a: Action, clock: Clock)
    requires Inv(s) && InstallOffers(s, a)
    ensures Inv(Reduce(startup, s, a, clock))
  {
    StepFrame(startup, s, a, clock);
  }

  lemma {:induction false} InstallSectionTables(startup: string, s: SimulationState, a: Action, clock: Clock)
    requires Inv(s) && InstallOffers(s, a)
    ensures FollowsTables(s, Reduce(startup, s, a, clock))
  {
    StepFrame(startup, s, a, clock);
  }

  lemma {:induction false} ReconSectionInv(startup: string, s: SimulationState, a: Action, clock: Clock)
    requires Inv(s) && ReconOffers(s, a)
    ensures Inv(Reduce(startup, s, a, clock))
  {
    StepFrame(startup, s, a, clock);
  }

  lemma {:induction false} ReconSectionTables(startup: string, s: SimulationState, a: Action, clock: Clock)
    requires Inv(s) && ReconOffers(s, a)
    ensures FollowsTables(s, Reduce(startup, s, a, clock))
  {
    StepFrame(startup, s, a, clock);
  }

  /** Any offered action keeps the invariant; any offered action other than reset moves every
      document along its status table and leaves documents in end states untouched. */
  lemma {:induction false} OfferedStep(startup: string, s: SimulationState, a: Action, clock: Clock)
    requires Inv(s) && Offered(s, a)
    ensures Inv(Reduce(startup, s, a, clock))
    ensures a != Reset ==> FollowsTables(s, Reduce(startup, s, a, clock))
  {
    if LeadOffers(s, a) { LeadSectionInv(startup, s, a, clock); LeadSectionTables(startup, s, a, clock); }
    else if QuoteOffers(s, a) { QuoteSectionInv(startup, s, a, clock); QuoteSectionTables(startup, s, a, clock); }
    else if MeasureOffers(s, a) { MeasureSectionInv(startup, s, a, clock); MeasureSectionTables(startup, s, a, clock); }
    else if SalesOffers(s, a) { SalesSectionInv(startup, s, a, clock); SalesSectionTables(startup, s, a, clock); }
    else if InstallOffers(s, a) { InstallSectionInv(startup, s, a, clock); InstallSectionTables(startup, s, a, clock); }
    else if ReconOffers(s, a) { ReconSectionInv(startup, s, a, clock); ReconSectionTables(startup, s, a, clock); }
    else { InitialInv(startup, clock); }
  }

  // ---- Runs ----

  /** One dispatched action together with the clock readings of that moment. */
  datatype Step = Step(action: Action, clock: Clock)

  /** The state after feeding `steps` to the engine one by one, starting from `s`. */
  function Run(startup: string, s: SimulationState, steps: seq<Step>): SimulationState
    decreases |steps|
  {
    if steps == [] then s
    else
      var last := steps[|steps| - 1];
      Reduce(startup, Run(startup, s, steps[..|steps| - 1]), last.action, last.clock)
  }

  /** Every step of the run was offered by the panel in the state it was taken from. */
  predicate OfferedRun(startup: string, s: SimulationState, steps: seq<Step>) {
    forall i :: 0 <= i < |steps| ==> Offered(Run(startup, s, steps[..i]), steps[i].action)
  }

  lemma RunPrefix(startup: string, s: SimulationState, steps: seq<Step>, i: nat)
    requires i < |steps|
    ensures Run(startup, s, steps[..i + 1]) == Reduce(startup, Run(startup, s, steps[..i]), steps[i].action, steps[i].clock)
  {
    assert steps[..i + 1][..i] == steps[..i];
  }

  lemma OfferedRunPrefix(startup: string, s: SimulationState, steps: seq<Step>, n: nat)
    requires OfferedRun(startup, s, steps) && n <= |steps|
    ensures OfferedRun(startup, s, steps[..n])
  {
    forall i | 0 <= i < n ensures Offered(Run(startup, s, steps[..n][..i]), steps[..n][i].action) {
      assert steps[..n][..i] == steps[..i];
    }
  }

  /** Every state reached from the initial state through offered actions satisfies the
      invariant. */
  lemma {:induction false} ReachableInv(startup: string, steps: seq<Step>)
    requires OfferedRun(startup, InitialState(startup), steps)
    ensures Inv(Run(startup, InitialState(startup), steps))
    decreases |steps|
  {
    var init := InitialState(startup);
    if steps == [] {
      InitialInv(startup, Clock("", ""));
    } else {
      var n := |steps| - 1;
      OfferedRunPrefix(startup, init, steps, n);
      ReachableInv(startup, steps[..n]);
      OfferedStep(startup, Run(startup, init, steps[..n]), steps[n].action, steps[n].clock);
    }
  }

  /** Along an offered run from the initial state, every step other than a reset moves each
      document along its status table, creates documents only in their initial status, never
      removes one, and leaves a document in an end state exactly as it was. */
  lemma {:induction false} RunFollowsTables(startup: string, steps: seq<Step>, i: nat)
    requires OfferedRun(startup, InitialState(startup), steps)
    requires i < |steps| && steps[i].action != Reset
    ensures FollowsTables(Run(startup, InitialState(startup), steps[..i]), Run(startup, InitialState(startup), steps[..i + 1]))
  {
    var init := InitialState(startup);
    OfferedRunPrefix(startup, init, steps, i);
    ReachableInv(startup, steps[..i]);
    OfferedStep(startup, Run(startup, init, steps[..i]), steps[i].action, steps[i].clock);
    RunPrefix(startup, init, steps, i);
  }

  /** Every document that is in an end state in `s` is identical in `t`. */
  predicate EndStatesKept(s: SimulationState, t: SimulationState) {
    && (s.lead.Some? && LeadTerminal(s.lead.value.status) ==> t.lead == s.lead)
    && (s.quote.Some? && QuoteTerminal(s.quote.value.currentStatus) ==> t.quote == s.quote)
    && (s.measurement.Some? && ServiceTerminal(s.measurement.value.status) ==> t.measurement == s.measurement)
    && (s.salesOrder.Some? && SalesTerminal(s.salesOrder.value.status) ==> t.salesOrder == s.salesOrder)
    && (s.installation.Some? && ServiceTerminal(s.installation.value.status) ==> t.installation == s.installation)
    && (s.reconciliation.Some? && ReconTerminal(s.reconciliation.value.status) ==> t.reconciliation == s.reconciliation)
  }

  /** A step that follows the tables keeps every document that is in an end state. */
  lemma {:induction false} TablesKeepEndStates(s: SimulationState, t: SimulationState)
    requires FollowsTables(s, t)
    ensures EndStatesKept(s, t)
  {
  }

  lemma {:induction false} EndStatesKeptTrans(s: SimulationState, t: SimulationState, u: SimulationState)
    requires EndStatesKept(s, t) && EndStatesKept(t, u)
    ensures EndStatesKept(s, u)
  {
  }

  /** Once a document reaches an end state on an offered run, it stays exactly as it is for
      the rest of the run, up to the next reset. */
  lemma {:induction false} EndStatesAreFinal(startup: string, steps: seq<Step>, i: nat, j: nat)
    requires OfferedRun(startup, InitialState(startup), steps)
    requires i <= j <= |steps|
    requires forall k :: i <= k < j ==> steps[k].action != Reset
    ensures EndStatesKept(Run(startup, InitialState(startup), steps[..i]), Run(startup, InitialState(startup), steps[..j]))
    decreases j - i
  {
    var init := InitialState(startup);
    if i < j {
      EndStatesAreFinal(startup, steps, i, j - 1);
      RunFollowsTables(startup, steps, j - 1);
      TablesKeepEndStates(Run(startup, init, steps[..j - 1]), Run(startup, init, steps[..j]));
      EndStatesKeptTrans(Run(startup, init, steps[..i]), Run(startup, init, steps[..j - 1]), Run(startup, init, steps[..j]));
    }
  }

  /** On a reachable state the diagram never shows an error: only the lead could, and only
      once closed as invalid. The installation-to-order connector and the order-to-finance
      connector light up together, and each section's active flag agrees with its node. */
  lemma {:induction false} ReachableDiagram(startup: string, steps: seq<Step>)
    requires OfferedRun(startup, InitialState(startup), steps)
    ensures var s := Run(startup, InitialState(startup), steps);
      && (forall step :: NodeStatusOf(s, step) == Error ==> step == "lead")
      && (InstallToSales(s) <==> SalesToFinance(s))
      && (LeadActive(s) <==> NodeStatusOf(s, "lead") == Active)
      && (QuoteActive(s) <==> NodeStatusOf(s, "quote") == Active)
      && (MeasureActive(s) <==> NodeStatusOf(s, "measure") == Active)
      && (SalesActive(s) <==> NodeStatusOf(s, "sales") == Active)
      && (InstallActive(s) <==> NodeStatusOf(s, "install") == Active)
      && (ReconActive(s) <==> NodeStatusOf(s, "finance") == Active)
  {
    ReachableInv(startup, steps);
    var s := Run(startup, InitialState(startup), steps);
    NodeError(s);
  }

  /** On a state satisfying the invariant, and so on every reachable state (ReachableInv), no
      action that creates a document is offered while that document exists; this includes
      converting, which creates the quote and which the panel alone does not guard. */
  lemma {:induction false} InvNoDuplicateCreation(s: SimulationState)
    requires Inv(s)
    ensures s.lead.Some? ==> !Offered(s, CreateLead)
    ensures s.quote.Some? ==> !Offered(s, ConvertLead)
    ensures s.measurement.Some? ==> !Offered(s, CreateMeasurement)
    ensures s.salesOrder.Some? ==> !Offered(s, ConfirmQuote)
    ensures s.installation.Some? ==> !Offered(s, CreateInstall)
    ensures s.reconciliation.Some? ==> !Offered(s, CreateRecon)
  {
  }

  /** A reset anywhere in a run brings back the initial state of the same program load: no
      documents, and the reset entry on top of the very start-up log the run began with. */
  lemma {:induction false} RunResetRestarts(startup: string, s: SimulationState, steps: seq<Step>, clock: Clock)
    ensures var r := Run(startup, s, steps + [Step(Reset, clock)]);
      && (forall d :: !Present(r, d))
      && r.logs == [LogEntry(clock.localTime, "系统", "重置", "草稿本已翻页（重置）")] + InitialState(startup).logs
  {
    RunPrefix(startup, s, steps + [Step(Reset, clock)], |steps|);
    assert (steps + [Step(Reset, clock)])[..|steps|] == steps;
    ResetResult(startup, Run(startup, s, steps), clock);
  }

  /** Extending an offered run by one more offered step. */
  lemma ExtendRun(startup: string, s: SimulationState, steps: seq<Step>, a: Action, clock: Clock)
    requires OfferedRun(startup, s, steps) && Offered(Run(startup, s, steps), a)
    ensures OfferedRun(startup, s, steps + [Step(a, clock)])
    ensures Run(startup, s, steps + [Step(a, clock)]) == Reduce(startup, Run(startup, s, steps), a, clock)
  {
    var ext := steps + [Step(a, clock)];
    assert ext[..|steps|] == steps;
    forall i | 0 <= i < |ext| ensures Offered(Run(startup, s, ext[..i]), ext[i].action) {
      if i < |steps| { assert ext[..i] == steps[..i]; }
    }
  }

  lemma {:induction false} RunAppend(startup: string, s: SimulationState, a: seq<Step>, b: seq<Step>)
    ensures Run(startup, s, a + b) == Run(startup, Run(startup, s, a), b)
    decreases |b|
  {
    if b == [] {
      assert a + b == a;
    } else {
      var n := |b| - 1;
      RunAppend(startup, s, a, b[..n]);
      assert (a + b)[..|a + b| - 1] == a + b[..n];
    }
  }

  lemma OfferedRunAppend(startup: string, s: SimulationState, a: seq<Step>, b: seq<Step>)
    requires OfferedRun(startup, s, a) && OfferedRun(startup, Run(startup, s, a), b)
    ensures OfferedRun(startup, s, a + b)
  {
    forall i | 0 <= i < |a + b| ensures Offered(Run(startup, s, (a + b)[..i]), (a + b)[i].action) {
      if i < |a| {
        assert (a + b)[..i] == a[..i];
      } else {
        assert (a + b)[..i] == a + b[..i - |a|];
        RunAppend(startup, s, a, b[..i - |a|]);
      }
    }
  }

  /** The status of each document after the lead, or None while it is absent. */
  function QuoteStatusOf(s: SimulationState): Option<QuoteVersionStatus> {
    if s.quote.None? then None else Some(s.quote.value.currentStatus)
  }

  function VersionCount(s: SimulationState): nat {
    if s.quote.None? then 0 else |s.quote.value.versions|
  }

  function MeasurementStatusOf(s: SimulationState): Option<ServiceOrderStatus> {
    if s.measurement.None? then None else Some(s.measurement.value.status)
  }

  function SalesStatusOf(s: SimulationState): Option<SalesOrderStatus> {
    if s.salesOrder.None? then None else Some(s.salesOrder.value.status)
  }

  function InstallStatusOf(s: SimulationState): Option<ServiceOrderStatus> {
    if s.installation.None? then None else Some(s.installation.value.status)
  }

  function ReconStatusOf(s: SimulationState): Option<ReconciliationStatus> {
    if s.reconciliation.None? then None else Some(s.reconciliation.value.status)
  }

  /** A state with a lead, summarised by the lead's status, the quote's status and version
      count, and the status of every later document. */
  predicate Stage(s: SimulationState, l: LeadStatus, q: Option<QuoteVersionStatus>, versions: nat,
                  m: Option<ServiceOrderStatus>, so: Option<SalesOrderStatus>, inst: Option<ServiceOrderStatus>,
                  rec: Option<ReconciliationStatus>)
  {
    && s.lead.Some? && s.lead.value.status == l
    && QuoteStatusOf(s) == q && VersionCount(s) == versions
    && MeasurementStatusOf(s) == m && SalesStatusOf(s) == so
    && InstallStatusOf(s) == inst && ReconStatusOf(s) == rec
  }

  /** A single offered step is an offered run. */
  lemma OneStep(startup: string, s: SimulationState, a: Action, clock: Clock)
    requires Offered(s, a)
    ensures OfferedRun(startup, s, [Step(a, clock)])
    ensures Run(startup, s, [Step(a, clock)]) == Reduce(startup, s, a, clock)
  {
    ExtendRun(startup, s, [], a, clock);
    assert [] + [Step(a, clock)] == [Step(a, clock)];
  }

  /** Two offered steps in a row are an offered run. */
  lemma TwoSteps(startup: string, s: SimulationState, a: Action, b: Action, clock: Clock)
    requires Offered(s, a) && Offered(Reduce(startup, s, a, clock), b)
    ensures OfferedRun(startup, s, [Step(a, clock), Step(b, clock)])
    ensures Run(startup, s, [Step(a, clock), Step(b, clock)]) == Reduce(startup, Reduce(startup, s, a, clock), b, clock)
  {
    OneStep(startup, s, a, clock);
    ExtendRun(startup, s, [Step(a, clock)], b, clock);
    assert [Step(a, clock)] + [Step(b, clock)] == [Step(a, clock), Step(b, clock)];
  }

  // The happy path in phases of two steps, every phase an offered run from the stage the
  // previous one ends in.

  function AssignPhaseSteps(clock: Clock): seq<Step> {
    [Step(CreateLead, clock), Step(AssignLead, clock)]
  }

  lemma {:induction false} AssignPhase(startup: string, s: SimulationState, clock: Clock)
    requires s == InitialState(startup)
    ensures OfferedRun(startup, s, AssignPhaseSteps(clock))
    ensures Stage(Run(startup, s, AssignPhaseSteps(clock)), LeadStatus.Assigned, None, 0, None, None, None, None)
    ensures |Run(startup, s, AssignPhaseSteps(clock)).logs| == |s.logs| + 2
  {
    TwoSteps(startup, s, CreateLead, AssignLead, clock);
  }

  function FollowPhaseSteps(clock: Clock): seq<Step> {
    [Step(StartFollowing, clock), Step(TagLead(QuotedTag), clock)]
  }

  lemma {:induction false} FollowPhase(startup: string, s: SimulationState, clock: Clock)
    requires Stage(s, LeadStatus.Assigned, None, 0, None, None, None, None)
    ensures OfferedRun(startup, s, FollowPhaseSteps(clock))
    ensures Stage(Run(startup, s, FollowPhaseSteps(clock)), LeadStatus.Following, None, 0, None, None, None, None)
    ensures |Run(startup, s, FollowPhaseSteps(clock)).logs| == |s.logs| + 2
  {
    TwoSteps(startup, s, StartFollowing, TagLead(QuotedTag), clock);
  }

  function ConvertPhaseSteps(clock: Clock): seq<Step> {
    [Step(ConvertLead, clock), Step(PublishQuote, clock)]
  }

  lemma {:induction false} ConvertPhase(startup: string, s: SimulationState, clock: Clock)
    requires Stage(s, LeadStatus.Following, None, 0, None, None, None, None)
    ensures OfferedRun(startup, s, ConvertPhaseSteps(clock))
    ensures Stage(Run(startup, s, ConvertPhaseSteps(clock)), LeadStatus.Converted, Some(QuoteVersionStatus.Preliminary), 1, None, None, None, None)
    ensures |Run(startup, s, ConvertPhaseSteps(clock)).logs| == |s.logs| + 2
  {
    TwoSteps(startup, s, ConvertLead, PublishQuote, clock);
  }

  function RequestPhaseSteps(clock: Clock): seq<Step> {
    [Step(CreateMeasurement, clock), Step(MeasureAction("ASSIGN"), clock)]
  }

  lemma {:induction false} RequestPhase(startup: string, s: SimulationState, clock: Clock)
    requires Stage(s, LeadStatus.Converted, Some(QuoteVersionStatus.Preliminary), 1, None, None, None, None)
    ensures OfferedRun(startup, s, RequestPhaseSteps(clock))
    ensures Stage(Run(startup, s, RequestPhaseSteps(clock)), LeadStatus.Converted, Some(QuoteVersionStatus.Measuring), 1, Some(ServiceOrderStatus.Assigning), None, None, None)
    ensures |Run(startup, s, RequestPhaseSteps(clock)).logs| == |s.logs| + 2
  {
    TwoSteps(startup, s, CreateMeasurement, MeasureAction("ASSIGN"), clock);
  }

  function SurveyPhaseSteps(clock: Clock): seq<Step> {
    [Step(MeasureAction("ACCEPT"), clock), Step(MeasureAction("COMPLETE_SITE"), clock)]
  }

  lemma {:induction false} SurveyPhase(startup: string, s: SimulationState, clock: Clock)
    requires Stage(s, LeadStatus.Converted, Some(QuoteVersionStatus.Measuring), 1, Some(ServiceOrderStatus.Assigning), None, None, None)
    ensures OfferedRun(startup, s, SurveyPhaseSteps(clock))
    ensures Stage(Run(startup, s, SurveyPhaseSteps(clock)), LeadStatus.Converted, Some(QuoteVersionStatus.Measuring), 1, Some(ServiceOrderStatus.Confirming), None, None, None)
    ensures |Run(startup, s, SurveyPhaseSteps(clock)).logs| == |s.logs| + 2
  {
    TwoSteps(startup, s, MeasureAction("ACCEPT"), MeasureAction("COMPLETE_SITE"), clock);
  }

  function RejectPhaseSteps(clock: Clock): seq<Step> {
    [Step(MeasureAction("REJECT"), clock), Step(MeasureAction("ACCEPT"), clock)]
  }

  lemma {:induction false} RejectPhase(startup: string, s: SimulationState, clock: Clock)
    requires Stage(s, LeadStatus.Converted, Some(QuoteVersionStatus.Measuring), 1, Some(ServiceOrderStatus.Confirming), None, None, None)
    ensures OfferedRun(startup, s, RejectPhaseSteps(clock))
    ensures Stage(Run(startup, s, RejectPhaseSteps(clock)), LeadStatus.Converted, Some(QuoteVersionStatus.Measuring), 1, Some(ServiceOrderStatus.Waiting), None, None, None)
    ensures |Run(startup, s, RejectPhaseSteps(clock)).logs| == |s.logs| + 2
  {
    TwoSteps(startup, s, MeasureAction("REJECT"), MeasureAction("ACCEPT"), clock);
  }

  function MeasuredPhaseSteps(clock: Clock): seq<Step> {
    [Step(MeasureAction("COMPLETE_SITE"), clock), Step(MeasureAction("CONFIRM"), clock)]
  }

  lemma {:induction false} MeasuredPhase(startup: string, s: SimulationState, clock: Clock)
    requires Stage(s, LeadStatus.Converted, Some(QuoteVersionStatus.Measuring), 1, Some(ServiceOrderStatus.Waiting), None, None, None)
    ensures OfferedRun(startup, s, MeasuredPhaseSteps(clock))
    ensures Stage(Run(startup, s, MeasuredPhaseSteps(clock)), LeadStatus.Converted, Some(QuoteVersionStatus.Revised), 1, Some(ServiceOrderStatus.Completed), None, None, None)
    ensures |Run(startup, s, MeasuredPhaseSteps(clock)).logs| == |s.logs| + 2
  {
    TwoSteps(startup, s, MeasureAction("COMPLETE_SITE"), MeasureAction("CONFIRM"), clock);
  }

  function ConfirmPhaseSteps(clock: Clock): seq<Step> {
    [Step(NewVersion, clock), Step(ConfirmQuote, clock)]
  }

  lemma {:induction false} ConfirmPhase(startup: string, s: SimulationState, clock: Clock)
    requires Stage(s, LeadStatus.Converted, Some(QuoteVersionStatus.Revised), 1, Some(ServiceOrderStatus.Completed), None, None, None)
    ensures OfferedRun(startup, s, ConfirmPhaseSteps(clock))
    ensures Stage(Run(startup, s, ConfirmPhaseSteps(clock)), LeadStatus.Converted, Some(QuoteVersionStatus.Confirmed), 2, Some(ServiceOrderStatus.Completed), Some(SalesOrderStatus.Draft), None, None)
    ensures |Run(startup, s, ConfirmPhaseSteps(clock)).logs| == |s.logs| + 2
  {
    TwoSteps(startup, s, NewVersion, ConfirmQuote, clock);
  }

  function ProcurePhaseSteps(clock: Clock): seq<Step> {
    [Step(SalesAction("CONFIRM"), clock), Step(SalesAction("PROCURE"), clock)]
  }

  lemma {:induction false} ProcurePhase(startup: string, s: SimulationState, clock: Clock)
    requires Stage(s, LeadStatus.Converted, Some(QuoteVersionStatus.Confirmed), 2, Some(ServiceOrderStatus.Completed), Some(SalesOrderStatus.Draft), None, None)
    ensures OfferedRun(startup, s, ProcurePhaseSteps(clock))
    ensures Stage(Run(startup, s, ProcurePhaseSteps(clock)), LeadStatus.Converted, Some(QuoteVersionStatus.Confirmed), 2, Some(ServiceOrderStatus.Completed), Some(SalesOrderStatus.Purchasing), None, None)
    ensures |Run(startup, s, ProcurePhaseSteps(clock)).logs| == |s.logs| + 2
  {
    TwoSteps(startup, s, SalesAction("CONFIRM"), SalesAction("PROCURE"), clock);
  }

  function ShipPhaseSteps(clock: Clock): seq<Step> {
    [Step(SalesAction("SHIP"), clock), Step(CreateInstall, clock)]
  }

  lemma {:induction false} ShipPhase(startup: string, s: SimulationState, clock: Clock)
    requires Stage(s, LeadStatus.Converted, Some(QuoteVersionStatus.Confirmed), 2, Some(ServiceOrderStatus.Completed), Some(SalesOrderStatus.Purchasing), None, None)
    ensures OfferedRun(startup, s, ShipPhaseSteps(clock))
    ensures Stage(Run(startup, s, ShipPhaseSteps(clock)), LeadStatus.Converted, Some(QuoteVersionStatus.Confirmed), 2, Some(ServiceOrderStatus.Completed), Some(SalesOrderStatus.Installing), Some(ServiceOrderStatus.Pending), None)
    ensures |Run(startup, s, ShipPhaseSteps(clock)).logs| == |s.logs| + 2
  {
    TwoSteps(startup, s, SalesAction("SHIP"), CreateInstall, clock);
  }

  function InstallPhaseSteps(clock: Clock): seq<Step> {
    [Step(InstallAction("ASSIGN"), clock), Step(InstallAction("ACCEPT"), clock)]
  }

  lemma {:induction false} InstallPhase(startup: string, s: SimulationState, clock: Clock)
    requires Stage(s, LeadStatus.Converted, Some(QuoteVersionStatus.Confirmed), 2, Some(ServiceOrderStatus.Completed), Some(SalesOrderStatus.Installing), Some(ServiceOrderStatus.Pending), None)
    ensures OfferedRun(startup, s, InstallPhaseSteps(clock))
    ensures Stage(Run(startup, s, InstallPhaseSteps(clock)), LeadStatus.Converted, Some(QuoteVersionStatus.Confirmed), 2, Some(ServiceOrderStatus.Completed), Some(SalesOrderStatus.Installing), Some(ServiceOrderStatus.Waiting), None)
    ensures |Run(startup, s, InstallPhaseSteps(clock)).logs| == |s.logs| + 2
  {
    TwoSteps(startup, s, InstallAction("ASSIGN"), InstallAction("ACCEPT"), clock);
  }

  function SitePhaseSteps(clock: Clock): seq<Step> {
    [Step(InstallAction("COMPLETE_SITE"), clock), Step(InstallAction("UPLOAD_PHOTOS"), clock)]
  }

  lemma {:induction false} SitePhase(startup: string, s: SimulationState, clock: Clock)
    requires Stage(s, LeadStatus.Converted, Some(QuoteVersionStatus.Confirmed), 2, Some(ServiceOrderStatus.Completed), Some(SalesOrderStatus.Installing), Some(ServiceOrderStatus.Waiting), None)
    ensures OfferedRun(startup, s, SitePhaseSteps(clock))
    ensures Stage(Run(startup, s, SitePhaseSteps(clock)), LeadStatus.Converted, Some(QuoteVersionStatus.Confirmed), 2, Some(ServiceOrderStatus.Completed), Some(SalesOrderStatus.Installing), Some(ServiceOrderStatus.Confirming), None)
    ensures |Run(startup, s, SitePhaseSteps(clock)).logs| == |s.logs| + 2
  {
    TwoSteps(startup, s, InstallAction("COMPLETE_SITE"), InstallAction("UPLOAD_PHOTOS"), clock);
  }

  function HandOverPhaseSteps(clock: Clock): seq<Step> {
    [Step(InstallAction("CONFIRM"), clock), Step(CreateRecon, clock)]
  }

  lemma {:induction false} HandOverPhase(startup: string, s: SimulationState, clock: Clock)
    requires Stage(s, LeadStatus.Converted, Some(QuoteVersionStatus.Confirmed), 2, Some(ServiceOrderStatus.Completed), Some(SalesOrderStatus.Installing), Some(ServiceOrderStatus.Confirming), None)
    ensures OfferedRun(startup, s, HandOverPhaseSteps(clock))
    ensures Stage(Run(startup, s, HandOverPhaseSteps(clock)), LeadStatus.Converted, Some(QuoteVersionStatus.Confirmed), 2, Some(ServiceOrderStatus.Completed), Some(SalesOrderStatus.Reconciliation), Some(ServiceOrderStatus.Completed), Some(ReconciliationStatus.Pending))
    ensures |Run(startup, s, HandOverPhaseSteps(clock)).logs| == |s.logs| + 2
  {
    TwoSteps(startup, s, InstallAction("CONFIRM"), CreateRecon, clock);
  }

  function DiscrepancyPhaseSteps(clock: Clock): seq<Step> {
    [Step(ReconAction("START"), clock), Step(ReconAction("DISCREPANCY"), clock)]
  }

  lemma {:induction false} DiscrepancyPhase(startup: string, s: SimulationState, clock: Clock)
    requires Stage(s, LeadStatus.Converted, Some(QuoteVersionStatus.Confirmed), 2, Some(ServiceOrderStatus.Completed), Some(SalesOrderStatus.Reconciliation), Some(ServiceOrderStatus.Completed), Some(ReconciliationStatus.Pending))
    ensures OfferedRun(startup, s, DiscrepancyPhaseSteps(clock))
    ensures Stage(Run(startup, s, DiscrepancyPhaseSteps(clock)), LeadStatus.Converted, Some(QuoteVersionStatus.Confirmed), 2, Some(ServiceOrderStatus.Completed), Some(SalesOrderStatus.Reconciliation), Some(ServiceOrderStatus.Completed), Some(ReconciliationStatus.Discrepancy))
    ensures |Run(startup, s, DiscrepancyPhaseSteps(clock)).logs| == |s.logs| + 2
  {
    TwoSteps(startup, s, ReconAction("START"), ReconAction("DISCREPANCY"), clock);
  }

  function AdjustPhaseSteps(clock: Clock): seq<Step> {
    [Step(ReconAction("ADJUST"), clock), Step(ReconAction("START"), clock)]
  }

  lemma {:induction false} AdjustPhase(startup: string, s: SimulationState, clock: Clock)
    requires Stage(s, LeadStatus.Converted, Some(QuoteVersionStatus.Confirmed), 2, Some(ServiceOrderStatus.Completed), Some(SalesOrderStatus.Reconciliation), Some(ServiceOrderStatus.Completed), Some(ReconciliationStatus.Discrepancy))
    ensures OfferedRun(startup, s, AdjustPhaseSteps(clock))
    ensures Stage(Run(startup, s, AdjustPhaseSteps(clock)), LeadStatus.Converted, Some(QuoteVersionStatus.Confirmed), 2, Some(ServiceOrderStatus.Completed), Some(SalesOrderStatus.Reconciliation), Some(ServiceOrderStatus.Completed), Some(ReconciliationStatus.Reconciling))
    ensures |Run(startup, s, AdjustPhaseSteps(clock)).logs| == |s.logs| + 2
  {
    TwoSteps(startup, s, ReconAction("ADJUST"), ReconAction("START"), clock);
  }

  function ClosePhaseSteps(clock: Clock): seq<Step> {
    [Step(ReconAction("COMPLETE"), clock)]
  }

  lemma {:induction false} ClosePhase(startup: string, s: SimulationState, clock: Clock)
    requires Stage(s, LeadStatus.Converted, Some(QuoteVersionStatus.Confirmed), 2, Some(ServiceOrderStatus.Completed), Some(SalesOrderStatus.Reconciliation), Some(ServiceOrderStatus.Completed), Some(ReconciliationStatus.Reconciling))
    ensures OfferedRun(startup, s, ClosePhaseSteps(clock))
    ensures Stage(Run(startup, s, ClosePhaseSteps(clock)), LeadStatus.Converted, Some(QuoteVersionStatus.Confirmed), 2, Some(ServiceOrderStatus.Completed), Some(SalesOrderStatus.Completed), Some(ServiceOrderStatus.Completed), Some(ReconciliationStatus.Completed))
    ensures |Run(startup, s, ClosePhaseSteps(clock)).logs| == |s.logs| + 1
  {
    OneStep(startup, s, ReconAction("COMPLETE"), clock);
  }

  /** The complete run the panel walks a user through: lead to conversion, quote with one
      measurement rework, a new version and confirmation, order fulfilment, installation with a
      photo upload, and reconciliation with one discrepancy round. */
  function HappyPath(clock: Clock): seq<Step> {
    AssignPhaseSteps(clock) + FollowPhaseSteps(clock) + ConvertPhaseSteps(clock) + RequestPhaseSteps(clock) + SurveyPhaseSteps(clock) + RejectPhaseSteps(clock) + MeasuredPhaseSteps(clock) + ConfirmPhaseSteps(clock) + ProcurePhaseSteps(clock) + ShipPhaseSteps(clock) + InstallPhaseSteps(clock) + SitePhaseSteps(clock) + HandOverPhaseSteps(clock) + DiscrepancyPhaseSteps(clock) + AdjustPhaseSteps(clock) + ClosePhaseSteps(clock)
  }

  /** The happy path is an offered run from the initial state and ends with every document in
      its success end state, the quote holding two versions and the log one entry per step on
      top of the start-up entry. */
  lemma {:induction false} HappyPathCompletes(startup: string, clock: Clock)
    ensures OfferedRun(startup, InitialState(startup), HappyPath(clock))
    ensures var s := Run(startup, InitialState(startup), HappyPath(clock));
      Stage(s, LeadStatus.Converted, Some(QuoteVersionStatus.Confirmed), 2, Some(ServiceOrderStatus.Completed), Some(SalesOrderStatus.Completed), Some(ServiceOrderStatus.Completed), Some(ReconciliationStatus.Completed)) && |s.logs| == 1 + |HappyPath(clock)|
  {
    var s0 := InitialState(startup);
    AssignPhase(startup, s0, clock);
    var throughAssign := AssignPhaseSteps(clock);

    FollowPhase(startup, Run(startup, s0, throughAssign), clock);
    OfferedRunAppend(startup, s0, throughAssign, FollowPhaseSteps(clock));
    RunAppend(startup, s0, throughAssign, FollowPhaseSteps(clock));
    var throughFollow := throughAssign + FollowPhaseSteps(clock);

    ConvertPhase(startup, Run(startup, s0, throughFollow), clock);
    OfferedRunAppend(startup, s0, throughFollow, ConvertPhaseSteps(clock));
    RunAppend(startup, s0, throughFollow, ConvertPhaseSteps(clock));
    var throughConvert := throughFollow + ConvertPhaseSteps(clock);

    RequestPhase(startup, Run(startup, s0, throughConvert), clock);
    OfferedRunAppend(startup, s0, throughConvert, RequestPhaseSteps(clock));
    RunAppend(startup, s0, throughConvert, RequestPhaseSteps(clock));
    var throughRequest := throughConvert + RequestPhaseSteps(clock);

    SurveyPhase(startup, Run(startup, s0, throughRequest), clock);
    OfferedRunAppend(startup, s0, throughRequest, SurveyPhaseSteps(clock));
    RunAppend(startup, s0, throughRequest, SurveyPhaseSteps(clock));
    var throughSurvey := throughRequest + SurveyPhaseSteps(clock);

    RejectPhase(startup, Run(startup, s0, throughSurvey), clock);
    OfferedRunAppend(startup, s0, throughSurvey, RejectPhaseSteps(clock));
    RunAppend(startup, s0, throughSurvey, RejectPhaseSteps(clock));
    var throughReject := throughSurvey + RejectPhaseSteps(clock);

    MeasuredPhase(startup, Run(startup, s0, throughReject), clock);
    OfferedRunAppend(startup, s0, throughReject, MeasuredPhaseSteps(clock));
    RunAppend(startup, s0, throughReject, MeasuredPhaseSteps(clock));
    var throughMeasured := throughReject + MeasuredPhaseSteps(clock);

    ConfirmPhase(startup, Run(startup, s0, throughMeasured), clock);
    OfferedRunAppend(startup, s0, throughMeasured, ConfirmPhaseSteps(clock));
    RunAppend(startup, s0, throughMeasured, ConfirmPhaseSteps(clock));
    var throughConfirm := throughMeasured + ConfirmPhaseSteps(clock);

    ProcurePhase(startup, Run(startup, s0, throughConfirm), clock);
    OfferedRunAppend(startup, s0, throughConfirm, ProcurePhaseSteps(clock));
    RunAppend(startup, s0, throughConfirm, ProcurePhaseSteps(clock));
    var throughProcure := throughConfirm + ProcurePhaseSteps(clock);

    ShipPhase(startup, Run(startup, s0, throughProcure), clock);
    OfferedRunAppend(startup, s0, throughProcure, ShipPhaseSteps(clock));
    RunAppend(startup, s0, throughProcure, ShipPhaseSteps(clock));
    var throughShip := throughProcure + ShipPhaseSteps(clock);

    InstallPhase(startup, Run(startup, s0, throughShip), clock);
    OfferedRunAppend(startup, s0, throughShip, InstallPhaseSteps(clock));
    RunAppend(startup, s0, throughShip, InstallPhaseSteps(clock));
    var throughInstall := throughShip + InstallPhaseSteps(clock);

    SitePhase(startup, Run(startup, s0, throughInstall), clock);
    OfferedRunAppend(startup, s0, throughInstall, SitePhaseSteps(clock));
    RunAppend(startup, s0, throughInstall, SitePhaseSteps(clock));
    var throughSite := throughInstall + SitePhaseSteps(clock);

    HandOverPhase(startup, Run(startup, s0, throughSite), clock);
    OfferedRunAppend(startup, s0, throughSite, HandOverPhaseSteps(clock));
    RunAppend(startup, s0, throughSite, HandOverPhaseSteps(clock));
    var throughHandOver := throughSite + HandOverPhaseSteps(clock);

    DiscrepancyPhase(startup, Run(startup, s0, throughHandOver), clock);
    OfferedRunAppend(startup, s0, throughHandOver, DiscrepancyPhaseSteps(clock));
    RunAppend(startup, s0, throughHandOver, DiscrepancyPhaseSteps(clock));
    var throughDiscrepancy := throughHandOver + DiscrepancyPhaseSteps(clock);

    AdjustPhase(startup, Run(startup, s0, throughDiscrepancy), clock);
    OfferedRunAppend(startup, s0, throughDiscrepancy, AdjustPhaseSteps(clock));
    RunAppend(startup, s0, throughDiscrepancy, AdjustPhaseSteps(clock));
    var throughAdjust := throughDiscrepancy + AdjustPhaseSteps(clock);

    ClosePhase(startup, Run(startup, s0, throughAdjust), clock);
    OfferedRunAppend(startup, s0, throughAdjust, ClosePhaseSteps(clock));
    RunAppend(startup, s0, throughAdjust, ClosePhaseSteps(clock));
    var throughClose := throughAdjust + ClosePhaseSteps(clock);

    assert throughClose == HappyPath(clock);
  }
}
