/** The pipeline diagram's classifier: the display status of each stage node and which
    connectors between stages are lit. */
module PipelineMap {
  import opened Types

  datatype NodeStatus = Inactive | Active | Completed | Error

  /** The node names the diagram asks about, with the document each one shows. */
  function StepDocument(step: string): Option<DocumentType> {
    if step == "lead" then Some(LEAD)
    else if step == "quote" then Some(QUOTE)
    else if step == "measure" then Some(MEASUREMENT)
    else if step == "sales" then Some(SALES_ORDER)
    else if step == "install" then Some(INSTALLATION)
    else if step == "finance" then Some(RECONCILIATION)
    else None
  }

  /** A node is inactive while its document is absent, completed at its success end state,
      error at its failure end state (the installation and finance nodes have none), and
      active otherwise. An unknown node name is inactive. */
  function NodeStatusOf(s: SimulationState, step: string): (r: NodeStatus)
    ensures StepDocument(step).None? ==> r == Inactive
    ensures StepDocument(step).Some? ==> (r == Inactive <==> !Present(s, StepDocument(step).value))
    ensures r == Error ==> step in {"lead", "quote", "measure", "sales"}
  {
    if step == "lead" then
      if s.lead.None? then Inactive
      else if s.lead.value.status == LeadStatus.Converted then NodeStatus.Completed
      else if s.lead.value.status == LeadStatus.Invalid then Error
      else Active
    else if step == "quote" then
      if s.quote.None? then Inactive
      else if s.quote.value.currentStatus == QuoteVersionStatus.Confirmed then NodeStatus.Completed
      else if s.quote.value.currentStatus == QuoteVersionStatus.Cancelled then Error
      else Active
    else if step == "measure" then
      if s.measurement.None? then Inactive
      else if s.measurement.value.status == ServiceOrderStatus.Completed then NodeStatus.Completed
      else if s.measurement.value.status == ServiceOrderStatus.Cancelled then Error
      else Active
    else if step == "sales" then
      if s.salesOrder.None? then Inactive
      else if s.salesOrder.value.status == SalesOrderStatus.Completed then NodeStatus.Completed
      else if s.salesOrder.value.status == SalesOrderStatus.Cancelled then Error
      else Active
    else if step == "install" then
      if s.installation.None? then Inactive
      else if s.installation.value.status == ServiceOrderStatus.Completed then NodeStatus.Completed
      else Active
    else if step == "finance" then
      if s.reconciliation.None? then Inactive
      else if s.reconciliation.value.status == ReconciliationStatus.Completed then NodeStatus.Completed
      else Active
    else Inactive
  }

  // Connectors between nodes; an absent document lights nothing.

  predicate LeadToQuote(s: SimulationState) {
    s.lead.Some? && s.lead.value.status == LeadStatus.Converted
  }

  predicate QuoteToMeasure(s: SimulationState) {
    s.quote.Some? && s.quote.value.currentStatus in {QuoteVersionStatus.Preliminary, QuoteVersionStatus.Measuring}
  }

  predicate MeasureToQuote(s: SimulationState) {
    s.measurement.Some? && s.measurement.value.status == ServiceOrderStatus.Completed
  }

  predicate QuoteToSales(s: SimulationState) {
    s.quote.Some? && s.quote.value.currentStatus == QuoteVersionStatus.Confirmed
  }

  predicate SalesToInstall(s: SimulationState) {
    s.salesOrder.Some? && s.salesOrder.value.status in {SalesOrderStatus.Shipping, SalesOrderStatus.Installing}
  }

  predicate InstallToSales(s: SimulationState) {
    s.installation.Some? && s.installation.value.status == ServiceOrderStatus.Completed
  }

  predicate SalesToFinance(s: SimulationState) {
    s.salesOrder.Some? && s.salesOrder.value.status in {SalesOrderStatus.Reconciliation, SalesOrderStatus.Completed}
  }

  /** A node is completed exactly at its document's success end state: lead converted, quote
      confirmed, measurement, sales order, installation or reconciliation completed. */
  lemma NodeCompleted(s: SimulationState)
    ensures NodeStatusOf(s, "lead") == NodeStatus.Completed <==> s.lead.Some? && s.lead.value.status == LeadStatus.Converted
    ensures NodeStatusOf(s, "quote") == NodeStatus.Completed <==>
      s.quote.Some? && s.quote.value.currentStatus == QuoteVersionStatus.Confirmed
    ensures NodeStatusOf(s, "measure") == NodeStatus.Completed <==>
      s.measurement.Some? && s.measurement.value.status == ServiceOrderStatus.Completed
    ensures NodeStatusOf(s, "sales") == NodeStatus.Completed <==>
      s.salesOrder.Some? && s.salesOrder.value.status == SalesOrderStatus.Completed
    ensures NodeStatusOf(s, "install") == NodeStatus.Completed <==>
      s.installation.Some? && s.installation.value.status == ServiceOrderStatus.Completed
    ensures NodeStatusOf(s, "finance") == NodeStatus.Completed <==>
      s.reconciliation.Some? && s.reconciliation.value.status == ReconciliationStatus.Completed
  {
  }

  /** A node shows an error exactly for an invalid lead, a cancelled quote, a cancelled
      measurement or a cancelled sales order; the installation and finance nodes never do,
      even for a cancelled document. */
  lemma NodeError(s: SimulationState)
    ensures NodeStatusOf(s, "lead") == Error <==> s.lead.Some? && s.lead.value.status == LeadStatus.Invalid
    ensures NodeStatusOf(s, "quote") == Error <==>
      s.quote.Some? && s.quote.value.currentStatus == QuoteVersionStatus.Cancelled
    ensures NodeStatusOf(s, "measure") == Error <==>
      s.measurement.Some? && s.measurement.value.status == ServiceOrderStatus.Cancelled
    ensures NodeStatusOf(s, "sales") == Error <==>
      s.salesOrder.Some? && s.salesOrder.value.status == SalesOrderStatus.Cancelled
    ensures NodeStatusOf(s, "install") != Error && NodeStatusOf(s, "finance") != Error
  {
  }

  /** The connectors out of a finished stage light up exactly when that stage's node is
      completed; the connectors into installation and finance light up while the sales-order
      node is still active or (for finance) once it is completed. */
  lemma ConnectorsMatchNodes(s: SimulationState)
    ensures LeadToQuote(s) <==> NodeStatusOf(s, "lead") == NodeStatus.Completed
    ensures QuoteToSales(s) <==> NodeStatusOf(s, "quote") == NodeStatus.Completed
    ensures MeasureToQuote(s) <==> NodeStatusOf(s, "measure") == NodeStatus.Completed
    ensures InstallToSales(s) <==> NodeStatusOf(s, "install") == NodeStatus.Completed
    ensures QuoteToMeasure(s) ==> NodeStatusOf(s, "quote") == Active
    ensures SalesToInstall(s) ==> NodeStatusOf(s, "sales") == Active
    ensures SalesToFinance(s) ==> NodeStatusOf(s, "sales") in {Active, NodeStatus.Completed}
  {
    NodeCompleted(s);
  }
}
