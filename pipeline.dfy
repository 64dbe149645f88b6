/** The pipeline engine: one pure step function from a state and an action to the
    next state. It moves one opportunity through lead, quote, measurement, sales order,
    installation and reconciliation, applies the cross-document cascades in the same
    step, and prepends one entry to the log for every step it accepts.

    Its guards only check that the document an action targets is present; which
    actions make sense for which status is decided by the controller (module Controller). */
module Pipeline {
  import opened Types
  import opened Constants

  /** The actions the engine dispatches on. Payload-carrying actions keep the payload as
      the string it is compared against; any other action type is `Unknown`. */
  datatype Action =
    | CreateLead
    | AssignLead
    | StartFollowing
    | TagLead(tag: string)
    | ConvertLead
    | CloseLead
    | PublishQuote
    | CreateMeasurement
    | MeasureAction(payload: string)
    | NewVersion
    | ConfirmQuote
    | SalesAction(payload: string)
    | CreateInstall
    | InstallAction(payload: string)
    | CreateRecon
    | ReconAction(payload: string)
    | Reset
    | Unknown(kind: string)

  /** The host clock readings of one step: the local time (stamped on its log entry) and the
      same moment in ISO form (stamped on a new quote version). The time the program loaded is
      read once, when the start-up log is built; the engine and every run take it as the
      parameter `startup`, so a reset restores the very start-up log the run began with. */
  datatype Clock = Clock(localTime: string, isoTime: string)

  /** The state a run starts from and returns to on reset: no documents, the start-up log. */
  function InitialState(startup: string): (s: SimulationState)
    ensures forall d :: !Present(s, d)
    ensures |s.logs| == 1
  {
    SimulationState(None, None, None, None, None, None, InitialLogs(startup))
  }

  /** The log after a step: the new entry first, then every earlier entry unchanged. */
  function Log(s: SimulationState, clock: Clock, actor: string, action: string, detail: string): (logs: seq<LogEntry>)
    ensures |logs| == |s.logs| + 1 && logs[1..] == s.logs
    ensures logs[0].timestamp == clock.localTime
  {
    [LogEntry(clock.localTime, actor, action, detail)] + s.logs
  }

  /** The document an action needs; when it is absent the engine returns its input. */
  function Target(a: Action): Option<DocumentType> {
    match a
    case AssignLead | StartFollowing | TagLead(_) | ConvertLead | CloseLead => Some(LEAD)
    case PublishQuote | CreateMeasurement | NewVersion | ConfirmQuote => Some(QUOTE)
    case MeasureAction(_) => Some(MEASUREMENT)
    case SalesAction(_) | CreateInstall | CreateRecon => Some(SALES_ORDER)
    case InstallAction(_) => Some(INSTALLATION)
    case ReconAction(_) => Some(RECONCILIATION)
    case CreateLead | Reset | Unknown(_) => None
  }

  /** The engine ignores an action: its target is absent, or its type is not one it handles. */
  predicate Rejected(s: SimulationState, a: Action) {
    a.Unknown? || (Target(a).Some? && !Present(s, Target(a).value))
  }

  /** The documents a step of `a` may rewrite; every other document is carried over. */
  function Writes(a: Action): set<DocumentType> {
    match a
    case CreateLead | AssignLead | StartFollowing | TagLead(_) | CloseLead => {LEAD}
    case ConvertLead => {LEAD, QUOTE}
    case PublishQuote | NewVersion => {QUOTE}
    case CreateMeasurement | MeasureAction(_) => {MEASUREMENT, QUOTE}
    case ConfirmQuote => {QUOTE, SALES_ORDER}
    case SalesAction(_) => {SALES_ORDER}
    case CreateInstall | InstallAction(_) => {SALES_ORDER, INSTALLATION}
    case CreateRecon => {RECONCILIATION}
    case ReconAction(_) => {RECONCILIATION, SALES_ORDER}
    case Reset => {LEAD, QUOTE, MEASUREMENT, SALES_ORDER, INSTALLATION, RECONCILIATION}
    case Unknown(_) => {}
  }

  // Payload tables of the four status-changing actions. A payload not in a table keeps
  // the current status and logs an empty detail.

  function MeasureStatus(payload: string, current: ServiceOrderStatus): ServiceOrderStatus {
    if payload == "ASSIGN" then ServiceOrderStatus.Assigning
    else if payload == "ACCEPT" then ServiceOrderStatus.Waiting
    else if payload == "COMPLETE_SITE" then ServiceOrderStatus.Confirming
    else if payload == "REJECT" then ServiceOrderStatus.Assigning
    else if payload == "CONFIRM" then ServiceOrderStatus.Completed
    else current
  }

  function MeasureMessage(payload: string): string {
    if payload == "ASSIGN" then "已指派测量师"
    else if payload == "ACCEPT" then "测量师已接单"
    else if payload == "COMPLETE_SITE" then "上门测量完成，等待确认"
    else if payload == "REJECT" then "测量结果被驳回，重新指派"
    else if payload == "CONFIRM" then "测量数据确认无误。"
    else ""
  }

  /** Appended to a measurement entry when the step also sends the quote back to revised. */
  const QuoteRevisedNote := " 报价单同步为\"需修改(再稿)\"。"

  function SalesStatus(payload: string, current: SalesOrderStatus): SalesOrderStatus {
    if payload == "CONFIRM" then SalesOrderStatus.Confirmed
    else if payload == "PROCURE" then SalesOrderStatus.Purchasing
    else if payload == "SHIP" then SalesOrderStatus.Shipping
    else current
  }

  function SalesMessage(payload: string): string {
    if payload == "CONFIRM" then "销售订单已确认"
    else if payload == "PROCURE" then "采购信息已录入"
    else if payload == "SHIP" then "物流发货信息已添加"
    else ""
  }

  /** Installation payloads; UPLOAD_PHOTOS only logs. */
  function InstallStatus(payload: string, current: ServiceOrderStatus): ServiceOrderStatus {
    if payload == "ASSIGN" then ServiceOrderStatus.Assigning
    else if payload == "ACCEPT" then ServiceOrderStatus.Waiting
    else if payload == "COMPLETE_SITE" then ServiceOrderStatus.Confirming
    else if payload == "CONFIRM" then ServiceOrderStatus.Completed
    else current
  }

  function InstallMessage(payload: string): string {
    if payload == "ASSIGN" then "已指派安装师傅"
    else if payload == "ACCEPT" then "师傅已接单"
    else if payload == "COMPLETE_SITE" then "安装完成，等待验收"
    else if payload == "UPLOAD_PHOTOS" then "上传现场照片"
    else if payload == "CONFIRM" then "安装验收通过。"
    else ""
  }

  /** Appended to an installation entry when the step also moves the order to reconciliation. */
  const OrderReconciliationNote := " 订单同步为\"待对账\"。"

  function ReconStatus(payload: string, current: ReconciliationStatus): ReconciliationStatus {
    if payload == "START" then ReconciliationStatus.Reconciling
    else if payload == "DISCREPANCY" then ReconciliationStatus.Discrepancy
    else if payload == "ADJUST" then ReconciliationStatus.Adjusted
    else if payload == "COMPLETE" then ReconciliationStatus.Completed
    else current
  }

  function ReconMessage(payload: string): string {
    if payload == "START" then "开始核对账目"
    else if payload == "DISCREPANCY" then "发现账目差异，需复核"
    else if payload == "ADJUST" then "差异金额已调整"
    else if payload == "COMPLETE" then "对账完成，订单关闭。"
    else ""
  }

  /** One step of the engine. */
  function Reduce(startup: string, s: SimulationState, a: Action, clock: Clock): SimulationState
  {
    match a
    case CreateLead =>
      s.(lead := Some(Lead("LD-2024-001", "张三 (拟定)", LeadStatus.New, [], [])),
         logs := Log(s, clock, "销售顾问", "新建线索", "录入新客户张三，编号 LD-2024-001"))
    case AssignLead =>
      if s.lead.None? then s
      else s.(lead := Some(s.lead.value.(status := LeadStatus.Assigned)),
              logs := Log(s, clock, "店长", "分配", "分配给王牌销售"))
    case StartFollowing =>
      if s.lead.None? then s
      else s.(lead := Some(s.lead.value.(status := LeadStatus.Following)),
              logs := Log(s, clock, "销售顾问", "跟进", "开始电话联系客户"))
    case TagLead(tag) =>
      if s.lead.None? then s
      else s.(lead := Some(s.lead.value.(tags := s.lead.value.tags + [tag])),
              logs := Log(s, clock, "销售顾问", "打标签", "添加标签: " + tag))
    case ConvertLead =>
      if s.lead.None? then s
      else s.(lead := Some(s.lead.value.(status := LeadStatus.Converted)),
              quote := Some(Quote("QT-888", s.lead.value.id,
                                  [QuoteVersion("V1.0", QuoteVersionStatus.Draft, clock.isoTime, true)],
                                  QuoteVersionStatus.Draft)),
              logs := Log(s, clock, "系统", "转化", "线索转化成功。生成报价单 QT-888 (V1.0 草稿)"))
    case CloseLead =>
      if s.lead.None? then s
      else s.(lead := Some(s.lead.value.(status := LeadStatus.Invalid)),
              logs := Log(s, clock, "销售顾问", "关闭", "线索标记为无效"))
    case PublishQuote =>
      if s.quote.None? then s
      else s.(quote := Some(s.quote.value.(currentStatus := QuoteVersionStatus.Preliminary)),
              logs := Log(s, clock, "销售顾问", "发布", "报价单 V1.0 设为初稿"))
    case CreateMeasurement =>
      if s.quote.None? then s
      else s.(measurement := Some(Measurement("MS-101", "V1.0", ServiceOrderStatus.Pending)),
              quote := Some(s.quote.value.(currentStatus := QuoteVersionStatus.Measuring)),
              logs := Log(s, clock, "系统", "测量需求", "创建测量任务 MS-101。报价单状态同步为\"测量中\""))
    case MeasureAction(p) =>
      if s.measurement.None? then s
      else
        var status := MeasureStatus(p, s.measurement.value.status);
        var cascade := status == ServiceOrderStatus.Completed && s.quote.Some?;
        s.(measurement := Some(s.measurement.value.(status := status)),
           quote := if cascade then Some(s.quote.value.(currentStatus := QuoteVersionStatus.Revised)) else s.quote,
           logs := Log(s, clock, "测量师", "更新进度", MeasureMessage(p) + (if cascade then QuoteRevisedNote else "")))
    case NewVersion =>
      if s.quote.None? then s
      else s.(quote := Some(s.quote.value.(
                versions := s.quote.value.versions + [QuoteVersion("V1.1", QuoteVersionStatus.Draft, clock.isoTime, true)],
                currentStatus := QuoteVersionStatus.Revised)),
              logs := Log(s, clock, "销售顾问", "版本迭代", "基于测量数据创建 V1.1 版本"))
    case ConfirmQuote =>
      if s.quote.None? then s
      else s.(quote := Some(s.quote.value.(currentStatus := QuoteVersionStatus.Confirmed)),
              salesOrder := Some(SalesOrder("SO-9000", s.quote.value.id, "V1.1", SalesOrderStatus.Draft, [], None, None)),
              logs := Log(s, clock, "客户", "签字确认", "报价 V1.1 已确认。生成销售订单 SO-9000 (草稿)"))
    case SalesAction(p) =>
      if s.salesOrder.None? then s
      else s.(salesOrder := Some(s.salesOrder.value.(status := SalesStatus(p, s.salesOrder.value.status))),
              logs := Log(s, clock, "订单客服", "订单更新", SalesMessage(p)))
    case CreateInstall =>
      if s.salesOrder.None? then s
      else s.(salesOrder := Some(s.salesOrder.value.(status := SalesOrderStatus.Installing)),
              installation := Some(Installation("INS-500", s.salesOrder.value.id, ServiceOrderStatus.Pending)),
              logs := Log(s, clock, "客服", "安装需求", "创建安装任务 INS-500。订单同步为\"安装中\""))
    case InstallAction(p) =>
      if s.installation.None? then s
      else
        var status := InstallStatus(p, s.installation.value.status);
        var cascade := status == ServiceOrderStatus.Completed && s.salesOrder.Some?;
        s.(installation := Some(s.installation.value.(status := status)),
           salesOrder := if cascade then Some(s.salesOrder.value.(status := SalesOrderStatus.Reconciliation)) else s.salesOrder,
           logs := Log(s, clock, "安装师", "更新进度", InstallMessage(p) + (if cascade then OrderReconciliationNote else "")))
    case CreateRecon =>
      if s.salesOrder.None? then s
      else s.(reconciliation := Some(Reconciliation.Reconciliation("REC-2024-NOV", s.salesOrder.value.id, ReconciliationStatus.Pending)),
              logs := Log(s, clock, "财务", "对账初始化", "生成对账结算单。"))
    case ReconAction(p) =>
      if s.reconciliation.None? then s
      else
        var status := ReconStatus(p, s.reconciliation.value.status);
        var cascade := status == ReconciliationStatus.Completed && s.salesOrder.Some?;
        s.(reconciliation := Some(s.reconciliation.value.(status := status)),
           salesOrder := if cascade then Some(s.salesOrder.value.(status := SalesOrderStatus.Completed)) else s.salesOrder,
           logs := Log(s, clock, "财务", "对账更新", ReconMessage(p)))
    case Reset =>
      var init := InitialState(startup);
      init.(logs := Log(init, clock, "系统", "重置", "草稿本已翻页（重置）"))
    case Unknown(_) =>
      s
  }

  /** A step other than reset leaves the state exactly as it was if and only if it is
      rejected; an accepted one prepends exactly one entry, stamped now, and keeps the old
      log as its tail. */
  lemma {:induction false} StepLog(startup: string, s: SimulationState, a: Action, clock: Clock)
    ensures !a.Reset? ==> (Reduce(startup, s, a, clock) == s <==> Rejected(s, a))
    ensures !a.Reset? && !Rejected(s, a) ==>
      var r := Reduce(startup, s, a, clock);
      |r.logs| == |s.logs| + 1 && r.logs[1..] == s.logs && r.logs[0].timestamp == clock.localTime
  {
    if a.CreateLead? || a.AssignLead? || a.StartFollowing? || a.TagLead? || a.ConvertLead? || a.CloseLead? {
      StepLogLead(startup, s, a, clock);
    } else if a.PublishQuote? || a.CreateMeasurement? || a.MeasureAction? || a.NewVersion? || a.ConfirmQuote? {
      StepLogQuote(startup, s, a, clock);
    } else if a.SalesAction? || a.CreateInstall? || a.InstallAction? || a.CreateRecon? || a.ReconAction? {
      StepLogOrder(startup, s, a, clock);
    }
  }

  lemma {:induction false} StepLogLead(startup: string, s: SimulationState, a: Action, clock: Clock)
    requires a.CreateLead? || a.AssignLead? || a.StartFollowing? || a.TagLead? || a.ConvertLead? || a.CloseLead?
    ensures Reduce(startup, s, a, clock) == s <==> Rejected(s, a)
    ensures !Rejected(s, a) ==>
      var r := Reduce(startup, s, a, clock);
      |r.logs| == |s.logs| + 1 && r.logs[1..] == s.logs && r.logs[0].timestamp == clock.localTime
  {
    match a
    case CreateLead =>
    case AssignLead =>
    case StartFollowing =>
    case TagLead(_) =>
    case ConvertLead =>
    case CloseLead =>
    case PublishQuote | CreateMeasurement | MeasureAction(_) | NewVersion | ConfirmQuote | SalesAction(_) | CreateInstall | InstallAction(_) | CreateRecon | ReconAction(_) | Reset | Unknown(_) => assert false;
  }

  lemma {:induction false} StepLogQuote(startup: string, s: SimulationState, a: Action, clock: Clock)
    requires a.PublishQuote? || a.CreateMeasurement? || a.MeasureAction? || a.NewVersion? || a.ConfirmQuote?
    ensures Reduce(startup, s, a, clock) == s <==> Rejected(s, a)
    ensures !Rejected(s, a) ==>
      var r := Reduce(startup, s, a, clock);
      |r.logs| == |s.logs| + 1 && r.logs[1..] == s.logs && r.logs[0].timestamp == clock.localTime
  {
    match a
    case PublishQuote =>
    case CreateMeasurement =>
    case MeasureAction(_) =>
    case NewVersion =>
    case ConfirmQuote =>
    case CreateLead | AssignLead | StartFollowing | TagLead(_) | ConvertLead | CloseLead | SalesAction(_) | CreateInstall | InstallAction(_) | CreateRecon | ReconAction(_) | Reset | Unknown(_) => assert false;
  }

  lemma {:induction false} StepLogOrder(startup: string, s: SimulationState, a: Action, clock: Clock)
    requires a.SalesAction? || a.CreateInstall? || a.InstallAction? || a.CreateRecon? || a.ReconAction?
    ensures Reduce(startup, s, a, clock) == s <==> Rejected(s, a)
    ensures !Rejected(s, a) ==>
      var r := Reduce(startup, s, a, clock);
      |r.logs| == |s.logs| + 1 && r.logs[1..] == s.logs && r.logs[0].timestamp == clock.localTime
  {
    match a
    case SalesAction(_) =>
    case CreateInstall =>
    case InstallAction(_) =>
    case CreateRecon =>
    case ReconAction(_) =>
    case CreateLead | AssignLead | StartFollowing | TagLead(_) | ConvertLead | CloseLead | PublishQuote | CreateMeasurement | MeasureAction(_) | NewVersion | ConfirmQuote | Reset | Unknown(_) => assert false;
  }

  /** Documents the action does not name are carried over unchanged. */
  lemma {:induction false} StepFrame(startup: string, s: SimulationState, a: Action, clock: Clock)
    ensures forall d :: d !in Writes(a) ==> SameDocument(s, Reduce(startup, s, a, clock), d)
  {
    if a.CreateLead? || a.AssignLead? || a.StartFollowing? || a.TagLead? || a.ConvertLead? || a.CloseLead? {
      StepFrameLead(startup, s, a, clock);
    } else if a.PublishQuote? || a.CreateMeasurement? || a.MeasureAction? || a.NewVersion? || a.ConfirmQuote? {
      StepFrameQuote(startup, s, a, clock);
    } else if a.SalesAction? || a.CreateInstall? || a.InstallAction? || a.CreateRecon? || a.ReconAction? {
      StepFrameOrder(startup, s, a, clock);
    }
  }

  lemma {:induction false} StepFrameLead(startup: string, s: SimulationState, a: Action, clock: Clock)
    requires a.CreateLead? || a.AssignLead? || a.StartFollowing? || a.TagLead? || a.ConvertLead? || a.CloseLead?
    ensures forall d :: d !in Writes(a) ==> SameDocument(s, Reduce(startup, s, a, clock), d)
  {
    match a
    case CreateLead =>
    case AssignLead =>
    case StartFollowing =>
    case TagLead(_) =>
    case ConvertLead =>
    case CloseLead =>
    case PublishQuote | CreateMeasurement | MeasureAction(_) | NewVersion | ConfirmQuote | SalesAction(_) | CreateInstall | InstallAction(_) | CreateRecon | ReconAction(_) | Reset | Unknown(_) => assert false;
  }

  lemma {:induction false} StepFrameQuote(startup: string, s: SimulationState, a: Action, clock: Clock)
    requires a.PublishQuote? || a.CreateMeasurement? || a.MeasureAction? || a.NewVersion? || a.ConfirmQuote?
    ensures forall d :: d !in Writes(a) ==> SameDocument(s, Reduce(startup, s, a, clock), d)
  {
    match a
    case PublishQuote =>
    case CreateMeasurement =>
    case MeasureAction(_) =>
    case NewVersion =>
    case ConfirmQuote =>
    case CreateLead | AssignLead | StartFollowing | TagLead(_) | ConvertLead | CloseLead | SalesAction(_) | CreateInstall | InstallAction(_) | CreateRecon | ReconAction(_) | Reset | Unknown(_) => assert false;
  }

  lemma {:induction false} StepFrameOrder(startup: string, s: SimulationState, a: Action, clock: Clock)
    requires a.SalesAction? || a.CreateInstall? || a.InstallAction? || a.CreateRecon? || a.ReconAction?
    ensures forall d :: d !in Writes(a) ==> SameDocument(s, Reduce(startup, s, a, clock), d)
  {
    match a
    case SalesAction(_) =>
    case CreateInstall =>
    case InstallAction(_) =>
    case CreateRecon =>
    case ReconAction(_) =>
    case CreateLead | AssignLead | StartFollowing | TagLead(_) | ConvertLead | CloseLead | PublishQuote | CreateMeasurement | MeasureAction(_) | NewVersion | ConfirmQuote | Reset | Unknown(_) => assert false;
  }

  /** Reset empties every document and leaves a two-entry log, the reset entry followed by
      the start-up entry; the result does not depend on the state before. */
  lemma ResetResult(startup: string, s: SimulationState, clock: Clock)
    ensures var r := Reduce(startup, s, Reset, clock);
      && (forall d :: !Present(r, d))
      && |r.logs| == 2
      && r.logs[0] == LogEntry(clock.localTime, "系统", "重置", "草稿本已翻页（重置）")
      && r.logs[1..] == InitialLogs(startup)
    ensures forall t :: Reduce(startup, t, Reset, clock) == Reduce(startup, s, Reset, clock)
  {
  }

  /** Creating a lead installs a fresh `new` lead with no tags, replacing any lead already there. */
  lemma CreateLeadResult(startup: string, s: SimulationState, clock: Clock)
    ensures var r := Reduce(startup, s, CreateLead, clock);
      && r.lead.Some?
      && r.lead.value.id == "LD-2024-001"
      && r.lead.value.status == LeadStatus.New
      && r.lead.value.tags == [] && r.lead.value.history == []
  {
  }

  /** The lead actions set the status they name whatever the current status is (assigning a
      converted lead sends it back to assigned), and tagging appends the tag at the end
      without touching the status. Nothing else in the lead changes. */
  lemma LeadActionResults(startup: string, s: SimulationState, clock: Clock, tag: string)
    requires s.lead.Some?
    ensures Reduce(startup, s, AssignLead, clock).lead == Some(s.lead.value.(status := LeadStatus.Assigned))
    ensures Reduce(startup, s, StartFollowing, clock).lead == Some(s.lead.value.(status := LeadStatus.Following))
    ensures Reduce(startup, s, CloseLead, clock).lead == Some(s.lead.value.(status := LeadStatus.Invalid))
    ensures Reduce(startup, s, TagLead(tag), clock).lead == Some(s.lead.value.(tags := s.lead.value.tags + [tag]))
  {
  }

  /** Converting a lead marks it converted and, in the same step, creates its quote: owned by
      the lead, one current draft version V1.0 stamped now, document status draft. */
  lemma ConvertLeadResult(startup: string, s: SimulationState, clock: Clock)
    requires s.lead.Some?
    ensures var r := Reduce(startup, s, ConvertLead, clock);
      && r.lead == Some(s.lead.value.(status := LeadStatus.Converted))
      && r.quote.Some?
      && r.quote.value.leadId == s.lead.value.id
      && r.quote.value.currentStatus == QuoteVersionStatus.Draft
      && |r.quote.value.versions| == 1
      && r.quote.value.versions[0] == QuoteVersion("V1.0", QuoteVersionStatus.Draft, clock.isoTime, true)
  {
  }

  /** Publishing sets the quote's document status to preliminary. Requesting a measurement
      creates a pending measurement for version V1.0 and sets the quote to measuring in the
      same step. Confirming sets the quote to confirmed and creates a draft sales order for
      that quote with no procurement ids, whatever the quote's status was; the order always
      names version V1.1, whether or not a new version was ever made. */
  lemma QuoteActionResults(startup: string, s: SimulationState, clock: Clock)
    requires s.quote.Some?
    ensures Reduce(startup, s, PublishQuote, clock).quote == Some(s.quote.value.(currentStatus := QuoteVersionStatus.Preliminary))
    ensures var r := Reduce(startup, s, CreateMeasurement, clock);
      && r.measurement.Some?
      && r.measurement.value.status == ServiceOrderStatus.Pending
      && r.measurement.value.quoteVersionId == "V1.0"
      && r.quote == Some(s.quote.value.(currentStatus := QuoteVersionStatus.Measuring))
    ensures var r := Reduce(startup, s, ConfirmQuote, clock);
      && r.quote == Some(s.quote.value.(currentStatus := QuoteVersionStatus.Confirmed))
      && r.salesOrder.Some?
      && r.salesOrder.value.quoteId == s.quote.value.id
      && r.salesOrder.value.quoteVersion == "V1.1"
      && r.salesOrder.value.status == SalesOrderStatus.Draft
      && r.salesOrder.value.procurementIds == []
  {
  }

  /** A new version appends exactly one current draft version, leaves every earlier version as
      it was (their `isCurrent` flags included), and keeps the document status at revised. */
  lemma NewVersionResult(startup: string, s: SimulationState, clock: Clock)
    requires s.quote.Some?
    ensures var q := Reduce(startup, s, NewVersion, clock).quote.value;
      var old_versions := s.quote.value.versions;
      && q.id == s.quote.value.id && q.leadId == s.quote.value.leadId
      && |q.versions| == |old_versions| + 1
      && q.versions[..|old_versions|] == old_versions
      && q.versions[|old_versions|] == QuoteVersion("V1.1", QuoteVersionStatus.Draft, clock.isoTime, true)
      && q.currentStatus == QuoteVersionStatus.Revised
  {
    var q := Reduce(startup, s, NewVersion, clock).quote.value;
    assert q.versions == s.quote.value.versions + [QuoteVersion("V1.1", QuoteVersionStatus.Draft, clock.isoTime, true)];
  }

  /** The measurement payload table: ASSIGN and REJECT lead to assigning, ACCEPT to waiting,
      COMPLETE_SITE to confirming, CONFIRM to completed; any other payload keeps the status but
      is still logged. The quote becomes revised exactly when the new status is completed and a
      quote exists, and is otherwise left as it was. */
  lemma MeasureActionResult(startup: string, s: SimulationState, p: string, clock: Clock)
    requires s.measurement.Some?
    ensures var r := Reduce(startup, s, MeasureAction(p), clock);
      var m := r.measurement.value;
      && r.measurement.Some?
      && m.(status := s.measurement.value.status) == s.measurement.value
      && (p == "ASSIGN" || p == "REJECT" ==> m.status == ServiceOrderStatus.Assigning)
      && (p == "ACCEPT" ==> m.status == ServiceOrderStatus.Waiting)
      && (p == "COMPLETE_SITE" ==> m.status == ServiceOrderStatus.Confirming)
      && (p == "CONFIRM" ==> m.status == ServiceOrderStatus.Completed)
      && (p !in {"ASSIGN", "ACCEPT", "COMPLETE_SITE", "REJECT", "CONFIRM"} ==>
            m == s.measurement.value && |r.logs| == |s.logs| + 1)
      && r.quote == (if m.status == ServiceOrderStatus.Completed && s.quote.Some?
                     then Some(s.quote.value.(currentStatus := QuoteVersionStatus.Revised))
                     else s.quote)
  {
    StepLog(startup, s, MeasureAction(p), clock);
  }

  /** The sales-order payload table: CONFIRM to confirmed, PROCURE to purchasing, SHIP to
      shipping; any other payload keeps the status. Only the status changes. */
  lemma SalesActionResult(startup: string, s: SimulationState, p: string, clock: Clock)
    requires s.salesOrder.Some?
    ensures var o := Reduce(startup, s, SalesAction(p), clock).salesOrder.value;
      && o.(status := s.salesOrder.value.status) == s.salesOrder.value
      && (p == "CONFIRM" ==> o.status == SalesOrderStatus.Confirmed)
      && (p == "PROCURE" ==> o.status == SalesOrderStatus.Purchasing)
      && (p == "SHIP" ==> o.status == SalesOrderStatus.Shipping)
      && (p !in {"CONFIRM", "PROCURE", "SHIP"} ==> o == s.salesOrder.value)
  {
  }

  /** Creating an installation makes a pending installation for the sales order and, in the
      same step, moves the order to installing. */
  lemma CreateInstallResult(startup: string, s: SimulationState, clock: Clock)
    requires s.salesOrder.Some?
    ensures var r := Reduce(startup, s, CreateInstall, clock);
      && r.installation.Some?
      && r.installation.value.salesOrderId == s.salesOrder.value.id
      && r.installation.value.status == ServiceOrderStatus.Pending
      && r.salesOrder == Some(s.salesOrder.value.(status := SalesOrderStatus.Installing))
  {
  }

  /** The installation payload table: ASSIGN to assigning, ACCEPT to waiting, COMPLETE_SITE to
      confirming, CONFIRM to completed; UPLOAD_PHOTOS and any other payload keep the status.
      The order moves to reconciliation exactly when the new status is completed and an order
      exists. */
  lemma InstallActionResult(startup: string, s: SimulationState, p: string, clock: Clock)
    requires s.installation.Some?
    ensures var r := Reduce(startup, s, InstallAction(p), clock);
      var i := r.installation.value;
      && r.installation.Some?
      && i.(status := s.installation.value.status) == s.installation.value
      && (p == "ASSIGN" ==> i.status == ServiceOrderStatus.Assigning)
      && (p == "ACCEPT" ==> i.status == ServiceOrderStatus.Waiting)
      && (p == "COMPLETE_SITE" ==> i.status == ServiceOrderStatus.Confirming)
      && (p == "CONFIRM" ==> i.status == ServiceOrderStatus.Completed)
      && (p !in {"ASSIGN", "ACCEPT", "COMPLETE_SITE", "CONFIRM"} ==> i == s.installation.value)
      && r.salesOrder == (if i.status == ServiceOrderStatus.Completed && s.salesOrder.Some?
                          then Some(s.salesOrder.value.(status := SalesOrderStatus.Reconciliation))
                          else s.salesOrder)
  {
  }

  /** Creating a reconciliation makes a pending one for the sales order and leaves the order
      itself untouched. */
  lemma CreateReconResult(startup: string, s: SimulationState, clock: Clock)
    requires s.salesOrder.Some?
    ensures var r := Reduce(startup, s, CreateRecon, clock);
      && r.reconciliation.Some?
      && r.reconciliation.value.salesOrderId == s.salesOrder.value.id
      && r.reconciliation.value.status == ReconciliationStatus.Pending
      && r.salesOrder == s.salesOrder
  {
  }

  /** The reconciliation payload table: START to reconciling, DISCREPANCY to discrepancy,
      ADJUST to adjusted, COMPLETE to completed; any other payload keeps the status. The order
      is closed (completed) exactly when the new status is completed and an order exists. */
  lemma ReconActionResult(startup: string, s: SimulationState, p: string, clock: Clock)
    requires s.reconciliation.Some?
    ensures var r := Reduce(startup, s, ReconAction(p), clock);
      var c := r.reconciliation.value;
      && r.reconciliation.Some?
      && c.(status := s.reconciliation.value.status) == s.reconciliation.value
      && (p == "START" ==> c.status == ReconciliationStatus.Reconciling)
      && (p == "DISCREPANCY" ==> c.status == ReconciliationStatus.Discrepancy)
      && (p == "ADJUST" ==> c.status == ReconciliationStatus.Adjusted)
      && (p == "COMPLETE" ==> c.status == ReconciliationStatus.Completed)
      && (p !in {"START", "DISCREPANCY", "ADJUST", "COMPLETE"} ==> c == s.reconciliation.value)
      && r.salesOrder == (if c.status == ReconciliationStatus.Completed && s.salesOrder.Some?
                          then Some(s.salesOrder.value.(status := SalesOrderStatus.Completed))
                          else s.salesOrder)
  {
  }

  /** Because the cascade tests the new status and not the change, an installation action that
      leaves an already completed installation completed (UPLOAD_PHOTOS, say) moves a closed
      order back to reconciliation. The controller never offers an action on a completed
      installation, so this is not reachable from the user interface. */
  lemma CompletedInstallationReopensOrder(startup: string, s: SimulationState, clock: Clock)
    requires s.installation.Some? && s.installation.value.status == ServiceOrderStatus.Completed
    requires s.salesOrder.Some? && s.salesOrder.value.status == SalesOrderStatus.Completed
    ensures Reduce(startup, s, InstallAction("UPLOAD_PHOTOS"), clock).salesOrder.value.status == SalesOrderStatus.Reconciliation
  {
  }

  /** Likewise a measurement action with a payload outside the table, on a completed
      measurement, sends a confirmed quote back to revised. */
  lemma CompletedMeasurementReopensQuote(startup: string, s: SimulationState, p: string, clock: Clock)
    requires s.measurement.Some? && s.measurement.value.status == ServiceOrderStatus.Completed
    requires s.quote.Some? && s.quote.value.currentStatus == QuoteVersionStatus.Confirmed
    requires p !in {"ASSIGN", "ACCEPT", "COMPLETE_SITE", "REJECT", "CONFIRM"}
    ensures Reduce(startup, s, MeasureAction(p), clock).quote.value.currentStatus == QuoteVersionStatus.Revised
  {
  }
}
