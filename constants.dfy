/** Constant tables: the log a fresh run starts with and the badge-style table
    keyed by status string. */
module Constants {
  import opened Types

  /** The log of a fresh run: one start-up entry, stamped when the program loads. */
  function InitialLogs(startup: string): (logs: seq<LogEntry>)
    ensures |logs| == 1 && logs[0].timestamp == startup
  {
    [LogEntry(startup, "System", "Ready", "Windows XP 业务系统已启动。等待指令...")]
  }

  // The style table is one record literal written in five commented groups, one per entity.
  // Keys are the enum string values, so a group only needs the strings no earlier group has.

  const LeadColors: map<string, string> := map[
    "new" := "text-black",
    "assigned" := "text-[#000080] font-bold",
    "following" := "text-[#E68B2C] font-bold",
    "converted" := "text-[#3C8B18] font-bold",
    "invalid" := "text-gray-400 line-through"]

  const QuoteColors: map<string, string> := map[
    "draft" := "text-gray-500 italic",
    "preliminary" := "text-black",
    "measuring" := "text-[#003399] underline",
    "revised" := "text-[#E68B2C]",
    "confirmed" := "bg-[#3C8B18] text-white px-1 rounded-sm",
    "cancelled" := "text-red-600"]

  const SalesColors: map<string, string> := map[
    "purchasing" := "text-[#003399]",
    "shipping" := "text-[#E68B2C]",
    "installing" := "text-black font-bold",
    "reconciliation" := "bg-[#E68B2C] text-white px-1",
    "completed" := "bg-[#3C8B18] text-white px-1"]

  const ServiceColors: map<string, string> := map[
    "pending" := "text-gray-500",
    "assigning" := "text-[#000080]",
    "waiting" := "text-[#E68B2C]",
    "confirming" := "text-red-600 font-bold"]

  const ReconColors: map<string, string> := map[
    "reconciling" := "text-[#003399]",
    "discrepancy" := "bg-red-600 text-white px-1 blink",
    "adjusted" := "text-[#3C8B18]"]

  /** The whole table; in a record literal a later key wins, as with map union. */
  function StatusColors(): map<string, string> {
    LeadColors + QuoteColors + SalesColors + ServiceColors + ReconColors
  }

  // Every status of every enum has a key in the table.

  /** Every lead status has a key. */
  lemma {:induction false} LeadStatusesHaveColors()
    ensures forall s: LeadStatus :: LeadStatusName(s) in StatusColors()
  {
    StatusNamesListed();
    assert LeadStatusNames <= StatusColors().Keys;
  }

  /** Every quote status has a key. */
  lemma {:induction false} QuoteStatusesHaveColors()
    ensures forall s: QuoteVersionStatus :: QuoteStatusName(s) in StatusColors()
  {
    StatusNamesListed();
    assert QuoteStatusNames <= StatusColors().Keys;
  }

  /** Every sales-order status has a key. */
  lemma {:induction false} SalesStatusesHaveColors()
    ensures forall s: SalesOrderStatus :: SalesStatusName(s) in StatusColors()
  {
    StatusNamesListed();
    assert SalesStatusNames <= StatusColors().Keys;
  }

  /** Every service-order status has a key. */
  lemma {:induction false} ServiceStatusesHaveColors()
    ensures forall s: ServiceOrderStatus :: ServiceStatusName(s) in StatusColors()
  {
    StatusNamesListed();
    assert ServiceStatusNames <= StatusColors().Keys;
  }

  /** Every reconciliation status has a key. */
  lemma {:induction false} ReconStatusesHaveColors()
    ensures forall s: ReconciliationStatus :: ReconStatusName(s) in StatusColors()
  {
    StatusNamesListed();
    assert ReconStatusNames <= StatusColors().Keys;
  }

  // The lead and quote groups write every string of their enum; later groups write only the
  // strings no earlier group has.

  /** Every lead and quote status has a key in its own group. */
  lemma {:induction false} LeadAndQuoteGroupsComplete()
    ensures forall s: LeadStatus :: LeadStatusName(s) in LeadColors
    ensures forall s: QuoteVersionStatus :: QuoteStatusName(s) in QuoteColors
  {
    StatusNamesListed();
    assert LeadStatusNames <= LeadColors.Keys;
    assert QuoteStatusNames <= QuoteColors.Keys;
  }

  /** The sales group leaves out draft, confirmed and cancelled: those sales-order statuses
      have a key only through the quote group's keys. */
  lemma {:induction false} SalesColorsBorrowQuoteKeys()
    ensures forall s: SalesOrderStatus ::
      SalesStatusName(s) !in SalesColors <==> s in {SalesOrderStatus.Draft, SalesOrderStatus.Confirmed, SalesOrderStatus.Cancelled}
    ensures forall s: SalesOrderStatus :: SalesStatusName(s) !in SalesColors ==> SalesStatusName(s) in QuoteColors
  {
    forall s: SalesOrderStatus
      ensures SalesStatusName(s) !in SalesColors <==> s in {SalesOrderStatus.Draft, SalesOrderStatus.Confirmed, SalesOrderStatus.Cancelled}
    {
      match s
      case Draft => case Confirmed => case Purchasing => case Shipping =>
      case Installing => case Reconciliation => case Completed => case Cancelled =>
    }
  }

  /** The service group leaves out completed and cancelled, which have keys only through the
      sales and quote groups. */
  lemma {:induction false} ServiceColorsBorrowKeys()
    ensures forall s: ServiceOrderStatus ::
      ServiceStatusName(s) !in ServiceColors <==> s in {ServiceOrderStatus.Completed, ServiceOrderStatus.Cancelled}
    ensures ServiceStatusName(ServiceOrderStatus.Completed) in SalesColors
    ensures ServiceStatusName(ServiceOrderStatus.Cancelled) in QuoteColors
  {
    forall s: ServiceOrderStatus
      ensures ServiceStatusName(s) !in ServiceColors <==> s in {ServiceOrderStatus.Completed, ServiceOrderStatus.Cancelled}
    {
      match s
      case Pending => case Assigning => case Waiting => case Confirming => case Completed => case Cancelled =>
    }
  }

  /** The reconciliation group leaves out pending, completed and cancelled, which have keys
      only through other groups. */
  lemma {:induction false} ReconColorsBorrowKeys()
    ensures forall s: ReconciliationStatus ::
      ReconStatusName(s) !in ReconColors <==>
        s in {ReconciliationStatus.Pending, ReconciliationStatus.Completed, ReconciliationStatus.Cancelled}
  {
    forall s: ReconciliationStatus
      ensures ReconStatusName(s) !in ReconColors <==>
        s in {ReconciliationStatus.Pending, ReconciliationStatus.Completed, ReconciliationStatus.Cancelled}
    {
      match s
      case Pending => case Reconciling => case Discrepancy => case Adjusted => case Completed => case Cancelled =>
    }
  }
}
