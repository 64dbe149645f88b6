# Sales pipeline simulator: engine, control panel and pipeline map

The program simulates one customer opportunity as it moves through six documents:

- a lead;
- a quote with its versions;
- a measurement service order;
- a sales order;
- an installation service order;
- a financial reconciliation.

A reducer (`simulationReducer`) takes the current `SimulationState` and a dispatched action and
returns the next state. Every accepted step prepends one entry to the log. Some steps also
update a second document in the same step (the "cascades"): converting a lead creates its quote,
confirming the quote creates the sales order, and a measurement, installation or reconciliation
reaching `completed` moves its quote or order on. The reducer only checks that the document an
action targets is present. Which actions make sense for which status is decided by the control
panel, which shows one button per offered action. A diagram colours each stage node and lights
the connectors between stages.

The model has six modules:

- `Types` (types.dfy): the status enums, their string values, the document records and the
  state.
- `Constants` (constants.dfy): the start-up log and the status-keyed style table.
- `Pipeline` (pipeline.dfy): the reducer as the pure function `Reduce`, with `Log`,
  `InitialState` and the per-action results.
- `Controller` (controller.dfy): the panel's eligibility logic as the predicate
  `Offered(s, a)`, with its per-section gating.
- `PipelineMap` (pipeline_map.dfy): the node classifier and the connectors.
- `Workflow` (workflow.dfy): what the engine and the panel guarantee together.
  - `Inv` is an invariant of every state reachable through offered actions.
  - On such a run, each document follows its status table, and a document in an end state
    never changes again.
  - A complete 31-step run through all six documents is offered from start to finish.

The clock is a parameter. The time the program loaded is read once and passed to the engine and
to every run as the parameter `startup`, so every reset restores the same start-up log. A `Clock`
value carries the local time of one step and its ISO form. Log texts and names are opaque strings copied from the source.

## Model

| member | source | states |
|---|---|---|
| Types.LeadStatusEnum | types.ts:12-18 | the lead enum has exactly five values with pairwise distinct strings, including the end states `converted` and `invalid` |
| Types.SalesStatusEnum | types.ts:38-47 | the sales-order enum has exactly eight values with distinct strings; `reconciliation` differs from `completed` |
| Types.OtherStatusEnums | types.ts:20-56 | the quote-version, service-order and reconciliation enums each have six values with pairwise distinct strings |
| Types.SharedStatusNames | types.ts:20-56 | `draft`, `confirmed`, `pending`, `completed` and `cancelled` are each the string of values in two or more enums, so a table keyed by string cannot tell them apart |
| Constants.InitialLogs | constants.ts:9-16 | the start-up log has exactly one entry, stamped with the load time |
| Constants.StatusColors | constants.ts:19-52 | the style table is the union of the lead, quote, sales-order, service-order and reconciliation groups; what it covers is stated by the five lemmas below |
| Constants.LeadStatusesHaveColors | constants.ts:19-52 | every lead status string is a key of the style table |
| Constants.QuoteStatusesHaveColors | constants.ts:19-52 | every quote-version status string is a key of the style table |
| Constants.SalesStatusesHaveColors | constants.ts:19-52 | every sales-order status string is a key of the style table |
| Constants.ServiceStatusesHaveColors | constants.ts:19-52 | every service-order status string is a key of the style table |
| Constants.ReconStatusesHaveColors | constants.ts:19-52 | every reconciliation status string is a key of the style table |
| Constants.LeadAndQuoteGroupsComplete | constants.ts:21-33 | the lead group and the quote group each list every string of their own enum |
| Constants.SalesColorsBorrowQuoteKeys | constants.ts:28-40 | the sales group omits exactly `draft`, `confirmed` and `cancelled`; those keys come from the quote group |
| Constants.ServiceColorsBorrowKeys | constants.ts:28-46 | the service group omits exactly `completed` and `cancelled`; they come from the sales and quote groups |
| Constants.ReconColorsBorrowKeys | constants.ts:49-51 | the reconciliation group omits exactly `pending`, `completed` and `cancelled` |
| Pipeline.InitialState | App.tsx:19-27 | the initial state holds no document and the one-entry start-up log |
| Pipeline.Log | App.tsx:29-31 | a new entry stamped with the step's local time goes first; the old log is kept unchanged as the tail |
| Pipeline.Reduce | App.tsx:33-206 | the engine: one case per action type, a missing target document leaves the state unchanged, and an unknown type changes nothing; what each case does is stated by the lemmas below |
| Pipeline.StepLog | App.tsx:33-204 | for every action except reset, the result equals the input exactly when the target document is absent (and always for an unknown action type); an accepted step grows the log by one and keeps the old log as its tail |
| Pipeline.StepFrame | App.tsx:33-198 | every document an action does not write, the result carries over unchanged from the input |
| Pipeline.ResetResult | App.tsx:200-201 | reset empties every document and leaves two log entries, the reset entry followed by the start-up log of the initial state (App.tsx:19-27); the result does not depend on the prior state |
| Pipeline.CreateLeadResult | App.tsx:35-40 | creating a lead installs a fresh `new` lead with no tags and no history, replacing any existing lead |
| Pipeline.LeadActionResults | App.tsx:41-49 | assign, start following and close (App.tsx:58-60) set their status from any status; tagging appends the tag at the end and changes nothing else in the lead |
| Pipeline.ConvertLeadResult | App.tsx:50-57 | converting marks the lead converted and creates its quote: owned by the lead, one current draft version `V1.0`, document status draft |
| Pipeline.QuoteActionResults | App.tsx:63-73 | publishing sets preliminary; requesting a measurement creates a pending one for `V1.0` and sets the quote to measuring; confirming (App.tsx:112-119) sets confirmed from any status and creates a draft order for the quote that always names version `V1.1` |
| Pipeline.NewVersionResult | App.tsx:100-110 | a new version appends exactly one current draft version `V1.1`, keeps all earlier versions unchanged (their `isCurrent` flags included) and sets revised |
| Pipeline.MeasureActionResult | App.tsx:76-98 | ASSIGN and REJECT lead to assigning, ACCEPT to waiting, COMPLETE_SITE to confirming, CONFIRM to completed; any other payload keeps the status but is still logged; the quote becomes revised exactly when the new status is completed and a quote exists |
| Pipeline.SalesActionResult | App.tsx:122-134 | CONFIRM leads to confirmed, PROCURE to purchasing, SHIP to shipping; any other payload keeps the order; only the status changes |
| Pipeline.CreateInstallResult | App.tsx:136-143 | creating an installation makes a pending one for the order and moves the order to installing in the same step |
| Pipeline.InstallActionResult | App.tsx:146-168 | ASSIGN, ACCEPT, COMPLETE_SITE and CONFIRM set their statuses; UPLOAD_PHOTOS and others keep the status; the order moves to reconciliation exactly when the new status is completed and an order exists |
| Pipeline.CreateReconResult | App.tsx:170-176 | creating a reconciliation makes a pending one for the order and leaves the order untouched |
| Pipeline.ReconActionResult | App.tsx:178-198 | START, DISCREPANCY, ADJUST and COMPLETE set their statuses; any other payload keeps the status; the order becomes completed exactly when the new status is completed and an order exists |
| Pipeline.CompletedInstallationReopensOrder | App.tsx:146-168 | the cascade tests the new status and not a change, so UPLOAD_PHOTOS on a completed installation moves a completed order back to reconciliation |
| Pipeline.CompletedMeasurementReopensQuote | App.tsx:76-98 | an unknown payload on a completed measurement sends a confirmed quote back to revised |
| Controller.LeadActive | components/SimulationController.tsx:73-74 | the lead section is active while a lead exists that is neither converted nor invalid |
| Controller.QuoteActive | components/SimulationController.tsx:76-77 | the quote section is active while a quote exists that is neither confirmed nor cancelled |
| Controller.MeasureActive | components/SimulationController.tsx:79-80 | the measurement section is active while a measurement exists that is neither completed nor cancelled |
| Controller.SalesActive | components/SimulationController.tsx:82-83 | the sales section is active while an order exists that is neither completed nor cancelled |
| Controller.InstallActive | components/SimulationController.tsx:85-86 | the installation section is active while an installation exists that is neither completed nor cancelled |
| Controller.ReconActive | components/SimulationController.tsx:88-89 | the finance section is active while a reconciliation exists that is neither completed nor cancelled |
| Controller.LeadOffers | components/SimulationController.tsx:95-135 | the lead buttons by lead status; their meaning is stated by LeadGating and TagGating |
| Controller.QuoteOffers | components/SimulationController.tsx:139-186 | the quote buttons by quote status; their meaning is stated by QuoteGating |
| Controller.MeasureOffers | components/SimulationController.tsx:194-212 | the measurement buttons by status; their meaning is stated by MeasureGating |
| Controller.SalesOffers | components/SimulationController.tsx:221-251 | the sales-order buttons by status; their meaning is stated by SalesGating |
| Controller.InstallOffers | components/SimulationController.tsx:260-277 | the installation buttons by status; their meaning is stated by InstallGating |
| Controller.ReconOffers | components/SimulationController.tsx:282-300 | the finance buttons by status; their meaning is stated by ReconGating |
| Controller.Offered | components/SimulationController.tsx:95-312 | the panel offers an action when one of the six sections offers it, and reset always; OfferedNotRejected and the gating lemmas state what that means |
| Controller.OfferedNotRejected | components/SimulationController.tsx:95-312 | the panel offers no action whose target document is absent |
| Controller.LeadGating | components/SimulationController.tsx:95-135 | create is offered iff there is no lead; assign is offered iff the lead is new, start following iff it is assigned, convert and close iff it is following; no lead action is offered for a converted or invalid lead |
| Controller.TagGating | components/SimulationController.tsx:115-121 | a tag is offered iff it is the one fixed tag and the lead is following |
| Controller.QuoteGating | components/SimulationController.tsx:139-186 | with a quote and no sales order: publish iff draft; request a measurement iff preliminary and no measurement; confirm and new version iff revised; never otherwise |
| Controller.MeasureGating | components/SimulationController.tsx:194-212 | the measurement payload offered is fixed by the status: pending ASSIGN, assigning ACCEPT, waiting COMPLETE_SITE, confirming REJECT or CONFIRM, none when completed or cancelled |
| Controller.InstallGating | components/SimulationController.tsx:260-277 | as for the measurement, except that confirming offers UPLOAD_PHOTOS instead of REJECT |
| Controller.SalesGating | components/SimulationController.tsx:221-251 | draft offers CONFIRM, confirmed PROCURE, purchasing SHIP; creating an installation iff shipping and no installation exists; creating a reconciliation iff reconciliation and none exists |
| Controller.ReconGating | components/SimulationController.tsx:282-300 | pending or adjusted offers START, reconciling DISCREPANCY or COMPLETE, discrepancy ADJUST, nothing when completed or cancelled |
| Controller.NoDuplicateCreation | components/SimulationController.tsx:96-250 | no action that would create a lead, measurement, sales order, installation or reconciliation is offered while that document exists; converting, which creates the quote, is guarded only by the lead status (see Workflow.InvNoDuplicateCreation) |
| PipelineMap.NodeStatusOf | components/PipelineMap.tsx:10-42 | a node is inactive iff its document is absent; an unknown node name is inactive; only the lead, quote, measure and sales nodes can show an error |
| PipelineMap.LeadToQuote | components/PipelineMap.tsx:126 | lit exactly for a converted lead |
| PipelineMap.QuoteToMeasure | components/PipelineMap.tsx:127 | lit exactly for a preliminary or measuring quote |
| PipelineMap.MeasureToQuote | components/PipelineMap.tsx:128 | lit exactly for a completed measurement |
| PipelineMap.QuoteToSales | components/PipelineMap.tsx:129 | lit exactly for a confirmed quote |
| PipelineMap.SalesToInstall | components/PipelineMap.tsx:130 | lit exactly for an order that is shipping or installing |
| PipelineMap.InstallToSales | components/PipelineMap.tsx:131 | lit exactly for a completed installation |
| PipelineMap.SalesToFinance | components/PipelineMap.tsx:132 | lit exactly for an order in reconciliation or completed |
| PipelineMap.NodeCompleted | components/PipelineMap.tsx:10-42 | a node is completed exactly for a converted lead, a confirmed quote, or a completed measurement, order, installation or reconciliation |
| PipelineMap.NodeError | components/PipelineMap.tsx:10-42 | a node shows an error exactly for an invalid lead, a cancelled quote, measurement or order; installation and finance never do |
| PipelineMap.ConnectorsMatchNodes | components/PipelineMap.tsx:126-132 | lead-to-quote, quote-to-sales, measure-to-quote and install-to-sales are lit exactly when the source node is completed; quote-to-measure and sales-to-install imply an active node; sales-to-finance implies an active or completed sales node |
| Workflow.Run | App.tsx:33-206 | a run dispatches its steps to the engine one after another, starting from a given state, with the same start-up time throughout; RunPrefix and RunAppend state how runs compose |
| Workflow.RunPrefix | App.tsx:33-206 | the state after the first i + 1 steps of a run is the engine applied to the state after the first i steps and step i |
| Workflow.RunAppend | App.tsx:33-206 | running two step sequences one after the other gives the same state as running their concatenation |
| Workflow.InitialInv | App.tsx:19-27 | the initial state and the result of reset (App.tsx:200-201) satisfy the reachability invariant |
| Workflow.LeadSectionInv | components/SimulationController.tsx:95-135 | an offered lead action keeps the invariant |
| Workflow.LeadSectionTables | components/SimulationController.tsx:95-135 | an offered lead action moves each document along its status table |
| Workflow.QuoteSectionInv | components/SimulationController.tsx:139-186 | an offered quote action, with its cascades, keeps the invariant |
| Workflow.QuoteSectionTables | components/SimulationController.tsx:139-186 | an offered quote action moves each document along its status table |
| Workflow.MeasureSectionInv | components/SimulationController.tsx:194-212 | an offered measurement action, with the quote cascade, keeps the invariant |
| Workflow.MeasureSectionTables | components/SimulationController.tsx:194-212 | an offered measurement action moves each document along its status table |
| Workflow.SalesSectionInv | components/SimulationController.tsx:221-251 | an offered sales-order action keeps the invariant |
| Workflow.SalesSectionTables | components/SimulationController.tsx:221-251 | an offered sales-order action moves each document along its status table |
| Workflow.InstallSectionInv | components/SimulationController.tsx:260-277 | an offered installation action, with the order cascade, keeps the invariant |
| Workflow.InstallSectionTables | components/SimulationController.tsx:260-277 | an offered installation action moves each document along its status table |
| Workflow.ReconSectionInv | components/SimulationController.tsx:282-300 | an offered reconciliation action, with the order cascade, keeps the invariant |
| Workflow.ReconSectionTables | components/SimulationController.tsx:282-300 | an offered reconciliation action moves each document along its status table |
| Workflow.OfferedStep | components/SimulationController.tsx:95-312 | any offered action keeps the invariant; any offered action except reset moves every document along its table and leaves documents in end states untouched |
| Workflow.ReachableInv | App.tsx:33-206 | every state reached from the initial state through offered actions satisfies the invariant |
| Workflow.RunFollowsTables | App.tsx:33-206 | on an offered run, every non-reset step creates documents only in their initial status, never removes one, moves each along its table and leaves end states untouched |
| Workflow.EndStatesAreFinal | App.tsx:33-206 | on an offered run, a document in an end state stays exactly as it is until the next reset |
| Workflow.InvNoDuplicateCreation | components/SimulationController.tsx:96-250 | on every state satisfying the invariant, and so on every reachable state, no action that creates a document is offered while it exists; this includes converting while a quote exists (App.tsx:50-57) |
| Workflow.RunResetRestarts | App.tsx:200-201 | a reset at the end of any run empties every document and leaves the reset entry on top of the start-up log of the same program load (constants.ts:9-16) |
| Workflow.ReachableDiagram | components/PipelineMap.tsx:10-42 | on a reachable state only the lead node can show an error; install-to-sales and sales-to-finance (components/PipelineMap.tsx:126-132) are lit together; each section's active flag (components/SimulationController.tsx:73-89) agrees with its node being active |
| Workflow.AssignPhase | components/SimulationController.tsx:96-106 | from the initial state, create and assign are offered and leave an assigned lead |
| Workflow.FollowPhase | components/SimulationController.tsx:109-121 | start following, then tagging, are offered and leave a following lead |
| Workflow.ConvertPhase | components/SimulationController.tsx:115-148 | convert, then publish, are offered and leave a preliminary quote with one version |
| Workflow.RequestPhase | components/SimulationController.tsx:153-198 | requesting a measurement, then assigning it, are offered and leave the quote measuring |
| Workflow.SurveyPhase | components/SimulationController.tsx:200-204 | accept, then complete the site visit, leave the measurement confirming |
| Workflow.RejectPhase | components/SimulationController.tsx:206-208 | REJECT then ACCEPT are offered and send the measurement back to waiting |
| Workflow.MeasuredPhase | components/SimulationController.tsx:203-209 | completing the visit and confirming finish the measurement and revise the quote |
| Workflow.ConfirmPhase | components/SimulationController.tsx:173-183 | a new version, then confirmation, leave a confirmed quote with two versions and a draft order |
| Workflow.ProcurePhase | components/SimulationController.tsx:226-231 | order CONFIRM then PROCURE leave the order purchasing |
| Workflow.ShipPhase | components/SimulationController.tsx:234-239 | SHIP then creating the installation leave the order installing and the installation pending |
| Workflow.InstallPhase | components/SimulationController.tsx:263-267 | installation ASSIGN then ACCEPT leave it waiting |
| Workflow.SitePhase | components/SimulationController.tsx:269-274 | COMPLETE_SITE then UPLOAD_PHOTOS leave the installation confirming |
| Workflow.HandOverPhase | components/SimulationController.tsx:249-275 | confirming the installation and creating the reconciliation leave the order in reconciliation and a pending reconciliation |
| Workflow.DiscrepancyPhase | components/SimulationController.tsx:285-290 | START then DISCREPANCY leave the reconciliation in discrepancy |
| Workflow.AdjustPhase | components/SimulationController.tsx:294-298 | ADJUST then START bring the reconciliation back to reconciling |
| Workflow.ClosePhase | components/SimulationController.tsx:288-291 | COMPLETE finishes the reconciliation and closes the order |
| Workflow.HappyPathCompletes | App.tsx:33-206 | the full 31-step path is an offered run from the initial state; it ends with every document in its success end state, two quote versions, and one log entry per step on top of the start-up entry |

## Left out

- The React rendering is not modelled: JSX, CSS class strings, icons and SVG coordinates (App.tsx:210-397, components/PipelineMap.tsx:44-163, components/SimulationController.tsx:19-70).
- The `useReducer`/`useState` plumbing is not modelled. A run is the reducer applied step by step (`Workflow.Run`).
- Wall-clock readings (`new Date()`) are not computed. The load time, read once when the start-up log is built (constants.ts:9-16), is the parameter `startup`; each step's readings enter as the opaque strings of a `Clock` parameter.
- Log texts, customer names and ids are opaque strings copied from the source. The model does not interpret them.
- The style values of the status table are kept, but the model only proves facts about its key set.
- views/DashboardView.tsx and its mock metrics are not part of this model: they are static data, chart calls and floating-point widths.
- Untyped actions: the reducer's `action: any` becomes the `Action` datatype. Every type string other than the sixteen handled ones (and `RESET`) is `Unknown`. A payload is modelled only as the string it is compared against.
- `Controller.Offered`: the buttons are modelled as a predicate `Offered(s, a)`, not as a set-valued function. The two are equivalent for the finite set of offered actions.
- The reducer has no status guards, and the model has none either:
  - assigning a converted lead sends it back to assigned;
  - creating a lead overwrites an existing one;
  - confirming works from any quote status;
  - a new version keeps `isCurrent` on every earlier version and is always named `V1.1`;
  - reset leaves two log entries, not one;
  - confirming a quote creates an order that always records quote version `V1.1` (App.tsx:117), even when no new version was ever made.
