# Verified model of the data migrations and seeds

This project models the parts of the shared database package that change data rather than schema: the plant graph
triggers, the deferred port-link checks, the workflow step cleanup, the variable renaming, the billing migrations, the
service-history repair, the role and category seeds and the transport fold. Tables are maps from primary key to row. A
migration, trigger or seed pass that updates rows in place is a class whose methods change those maps; each method is
proved against a function or relation on table values, and the properties are lemmas about these.

Where SQL leaves something open the model leaves it open too: `LIMIT` takes any rows, `ORDER BY` breaks ties any way, a
generated UUID is any unused key, and a single-row fetch returns any of the matching rows. Amounts of type `numeric` are
`real`, cents are `int`; a nullable column is an `Option`; an exception is an error result or an error out-parameter.

| file | models |
|---|---|
| Common.dfy | keys, nullable columns, results, fresh keys |
| PlantGraph.dfy | the inventory tree and its two trigger functions |
| PortTopology.dfy | ports, links, transactions and the two deferred checks |
| StepRerouting.dfy | contracting deleted workflow steps out of the edge table |
| TokenRewrite.dfy, JsonText.dfy, JsonRewrite.dfy | renaming variables in text and in JSON |
| Batching.dfy, BillingBackfill.dfy, PaymentLedger.dfy | the batched money backfill and the ledger synthesis |
| SubscriptionBridge.dfy | recurring orders into services, and back |
| ServiceHistory.dfy | splitting a service's orders into price runs |
| RbacSeed.dfy, CatalogSeed.dfy | permissions, roles, tier modules and device categories |
| TransportFold.dfy | network_access into provisioning settings, and back |

Five places where the code does not do all that its documentation says; the model follows the code, gives an input that
shows it, and proves the exact condition instead:

- `_rewrite_json` is described as preserving shape. Two dictionary keys that spell the same token differently become one
  key, and an entry is lost (`CollidingKeysLoseAnEntry`); shape is preserved exactly when no two keys of one dictionary
  collide (`ShapePreservedIff`).
- The reversal of the transport fold is described as re-binding the credential pair. Going down and up again keeps a
  company's pair exactly when it is the two newest of the company's credentials that any pair holds (`DownThenUp`), so
  a pair whose current credential is older than the pending one is swapped (`OlderCurrentIsSwapped`). The documented name
  collision cannot happen, because the table is recreated empty.
- The rerouting only loads edges filed under the workflows of the doomed steps. An edge at a doomed step that is filed
  under another workflow is deleted by the cascade without a replacement (`EdgeOfAnotherWorkflowIsLost`); edges and
  reachability survive exactly under the conditions of `SurvivingEdgesExactly` and `ReachabilityPreservedIff`.
- The seeds are described as idempotent. With two global roles of one built-in name the second run may fetch the other row
  (`SecondRunCanDiffer`); it is idle for certain exactly when each of the three names is unambiguous or all its rows are
  equipped already (`RunTwiceIff`).
- Adopting services is described as reserved for ADMIN. A row of that permission stored with the action of a read
  permission reaches every VIEWER (`PosingReadIsGranted`); `RunsHoldBackIff` says exactly when no run gives it away.

## Model

| member | source | states |
|---|---|---|
| PlantGraph.AncestorWalk | alembic/versions/ng1_network_graph.py:90-102 | the recursive query, as a loop: whether the bounded climb meets the row itself, and how many nodes it saw |
| PlantGraph.GraphGuard | alembic/versions/ng1_network_graph.py:52-116 | the trigger's verdict, error by error in its order |
| PlantGraph.ShortWalkIsComplete | alembic/versions/ng1_network_graph.py:87-111 | a walk that stays below its depth bound has seen the whole ancestry up to a root, so what it did not meet is not an ancestor |
| PlantGraph.GuardAcceptsIff | alembic/versions/ng1_network_graph.py:60-113 | in a well-formed plant the guard accepts a parent exactly when it exists, is of the same company, is attached, is not below the item, and its chain to the root has at most 31 nodes |
| PlantGraph.CycleTakesNoChildren | alembic/versions/ng1_network_graph.py:87-111 | over a cycle already present inside the item's company the walk ends, and the guard rejects |
| PlantGraph.CycleAcrossCompaniesTakesChildren | alembic/versions/ng1_network_graph.py:90-99 | a cycle that runs through another company ends the walk at the boundary, and the guard accepts a child |
| PlantGraph.AcyclicIffNoSelfAncestor | alembic/versions/ng1_network_graph.py:104-107 | every chain ends in a root exactly when no item is its own ancestor |
| PlantGraph.ChainIsOneCompanyAndAttached | alembic/versions/ng1_network_graph.py:69-85 | every ancestor of an item is of its company, and every proper ancestor is attached |
| PlantGraph.InsertKeepsPlant | alembic/versions/ng1_network_graph.py:155-162 | an accepted insert keeps the plant acyclic, single-company and attached |
| PlantGraph.UpdateKeepsPlant | alembic/versions/ng1_network_graph.py:118-133 | an accepted re-parent, attach or detach keeps it, with both guards and both CHECKs |
| PlantGraph.DeleteKeepsPlant | alembic/versions/ng1_network_graph.py:146-149 | a delete that the RESTRICT key allows keeps it |
| PlantGraph.MoveDepth | alembic/versions/ng1_network_graph.py:108-111 | moving a subtree of height h leaves every chain within the larger of the old bound and 31 + h nodes |
| PlantGraph.LeafMovesStayWithin32 | alembic/versions/ng1_network_graph.py:50 | inserts and moves of leaves keep every chain within 32 nodes |
| PlantGraph.MoveKeepsBoundIff | alembic/versions/ng1_network_graph.py:87-111 | an accepted move keeps a bound on all chains exactly when, for each item k steps below the moved one, the new parent's chain leaves room for k + 1 more |
| PlantGraph.GuardAloneAllows33 | alembic/versions/ng1_network_graph.py:87-111 | an accepted move of a two-node subtree makes a chain of 33 nodes |
| PlantGraph.LineGrows | alembic/versions/ng1_network_graph.py:108-111 | appending to a line of items is accepted exactly while the line has fewer than 32 |
| PortTopology.PerformKeepsPlant | alembic/versions/pt1_port_topology.py:112-138 | every statement on items, ports and links keeps the plant |
| PortTopology.PerformKeepsLinks | alembic/versions/pt1_port_topology.py:153-177 | every statement keeps the composite keys, the unique constraints and the CHECKs of links and ports |
| PortTopology.PerformQueuesMismatches | alembic/versions/pt1_port_topology.py:190-203 | every link that disagrees with its device's parent is on the queue of deferred checks, after every statement |
| PortTopology.PerformAcceptsIff | alembic/versions/pt1_port_topology.py:112-178 | every statement, by kind, goes through exactly when its row fits the rows around it, said without the guards and the order of their errors |
| PortTopology.PerformWrites | alembic/versions/pt1_port_topology.py:112-178 | what each accepted statement leaves under every key of items, ports and links: the row it names, what its cascade takes away, and every other row as it was |
| PortTopology.EveryRunReadsBack | alembic/versions/pt1_port_topology.py:102-203 | after any actions each key of the three tables holds what replaying the accepted statements of the open transaction and the committed ones, key by key, leaves there |
| PortTopology.LinkIsLastWrite | alembic/versions/pt1_port_topology.py:153-177 | a link key holds exactly the row of the last accepted INSERT or UPDATE of it, and is empty exactly when a later DELETE or cascade took it |
| PortTopology.CommitSucceedsIff | alembic/versions/pt1_port_topology.py:64-85 | running only the queued checks lets a transaction commit exactly when no statement failed and every link agrees with parent_id |
| PortTopology.StepKeepsSession | alembic/versions/pt1_port_topology.py:186-203 | statements, commits and rollbacks keep the session invariant |
| PortTopology.EveryRunIsSafe | alembic/versions/pt1_port_topology.py:102-203 | in every committed state of every run the plant is well formed and each link's device hangs from its upstream item |
| PortTopology.FreshSchemaIsSafe | alembic/versions/ng1_network_graph.py:138-162 | runs may start from the state the migrations leave, all items detached from any parent |
| PortTopology.LinksFollowParents | alembic/versions/pt1_port_topology.py:64-73 | in a committed state, climbing links climbs parents |
| PortTopology.CommittedLinksAreAForest | alembic/versions/pt1_port_topology.py:166-175 | no device is its own upstream through links, and the chain is of one company |
| PortTopology.PortFeedsOneDevice | alembic/versions/pt1_port_topology.py:172-174 | after any run, a committed upstream port feeds at most one device, a device has at most one link, and it hangs from the item that has the port |
| PortTopology.PortsStayAtHome | alembic/versions/pt1_port_topology.py:130-138 | after any run every committed port belongs to an item of its own company |
| PortTopology.DeleteItemSucceedsIff | alembic/versions/pt1_port_topology.py:130-171 | deleting an item goes through exactly when it has no child and no link comes up to it, its own ports and link cascading |
| PortTopology.ChildlessItemIsDeletable | alembic/versions/pt1_port_topology.py:130-171 | in a committed state an item without children can always be deleted |
| PortTopology.MoveLinkedDevice | alembic/versions/pt1_port_topology.py:186-203 | re-parenting a linked device and re-pointing its link are each rolled back alone, and commit together in either order |
| PortTopology.PlantDatabase.Execute | alembic/versions/pt1_port_topology.py:102-203 | one statement of a transaction: it is accepted exactly when its row fits, writes that row and no other, queues its checks, and changes nothing on an error |
| PortTopology.PlantDatabase.ItemUpdate | alembic/versions/ng1_network_graph.py:291-300 | an UPDATE with the triggers of the columns it names, leaving everything unchanged when one raises |
| PortTopology.PlantDatabase.CommitWork | alembic/versions/pt1_port_topology.py:190-203 | COMMIT succeeds exactly when the current state agrees, and the committed state always agrees |
| PortTopology.PlantDatabase.RollbackWork | alembic/versions/pt1_port_topology.py:190-203 | ROLLBACK returns to the committed state and empties the queue |
| StepRerouting.WorkflowTables.CleanupWorkflowSteps | alembic/versions/cf1_drop_client_install_fields.py:71-134 | the doomed steps are gone, and the edges are the surviving ones with the rerouted ones |
| StepRerouting.LiveSuccessors | alembic/versions/cf1_drop_client_install_fields.py:98-109 | the search ends on every graph, cyclic or not; it returns each newly seen live step once, all of them lying behind doomed steps only |
| StepRerouting.SearchIsComplete | alembic/versions/cf1_drop_client_install_fields.py:98-109 | the shared visited set hides no live step that a path through doomed steps leads to |
| StepRerouting.WorkflowTables.ReroutedEdges | alembic/versions/cf1_drop_client_install_fields.py:111-126 | no pair is inserted twice or beside an existing one, every bypass between live steps has its edge, and each inserted edge has the source and the workflow of a loaded edge that enters the doomed region it bypasses |
| StepRerouting.ReroutedIsFiledRight | alembic/versions/cf1_drop_client_install_fields.py:84-126 | when every edge is filed under the workflow of both its steps, so is every edge afterwards |
| StepRerouting.RoutesStayUnique | alembic/versions/cf1_drop_client_install_fields.py:84-126 | when no workflow has a route twice before, none has afterwards, whatever was loaded |
| StepRerouting.WorkflowKeepsReachability | alembic/versions/cf1_drop_client_install_fields.py:84-134 | then, in each workflow by itself, the edges afterwards lead from and to the same live steps as before |
| StepRerouting.DoomedIff | alembic/versions/cf1_drop_client_install_fields.py:64-68 | the doomed steps are the UPDATE_FIELD steps whose updates name one of the two dropped columns |
| StepRerouting.SurvivingEdgesExactly | alembic/versions/cf1_drop_client_install_fields.py:84-134 | for every state: the edges between live steps are the paths through doomed steps only, exactly when each such path is a kept edge or has a path along loaded edges |
| StepRerouting.ReroutedIsSound | alembic/versions/cf1_drop_client_install_fields.py:84-134 | whatever is reachable afterwards was reachable before |
| StepRerouting.LoadedEdgesSuffice | alembic/versions/cf1_drop_client_install_fields.py:84-90 | both conditions hold when every edge at a doomed step is filed under a loaded workflow |
| StepRerouting.ReachabilityPreservedIff | alembic/versions/cf1_drop_client_install_fields.py:84-134 | for every state: reachability is unchanged exactly when each way through doomed steps is also a chain of kept edges and loaded ways |
| StepRerouting.DagPreserved | alembic/versions/cf1_drop_client_install_fields.py:84-134 | a workflow without cycles stays without cycles |
| StepRerouting.EdgeOfAnotherWorkflowIsLost | alembic/versions/cf1_drop_client_install_fields.py:84-90 | without that condition a route can be lost |
| TokenRewrite.MatchIffToken | alembic/versions/pv1_namespaced_variables.py:71 | the deterministic scanner matches at a position exactly the texts of the expression |
| TokenRewrite.MapNameIsNamespaced | alembic/versions/pv1_namespaced_variables.py:74-88 | a mapped name contains '.' or '[', stays in the token alphabet, and is not mapped again |
| TokenRewrite.FlatNamesMergeIff | alembic/versions/pv1_namespaced_variables.py:80-88 | two flat names get one new name exactly when they are equal or spell one device, with the same attribute and the same number |
| TokenRewrite.NamesMergeIff | alembic/versions/pv1_namespaced_variables.py:74-88 | any two names become one exactly when they are equal, spell one device, or the one is the new name of the other |
| TokenRewrite.ScalarNames | alembic/versions/pv1_namespaced_variables.py:50-55 | the four scalar names and what each becomes |
| TokenRewrite.DeviceName | alembic/versions/pv1_namespaced_variables.py:61 | a number and an attribute behind "device" are read as these |
| TokenRewrite.NoNewMatch | alembic/versions/pv1_namespaced_variables.py:91-92 | rewriting what follows a position without token creates none there |
| TokenRewrite.RewriteIdempotent | alembic/versions/pv1_namespaced_variables.py:91-92 | a second rewriting changes no string |
| TokenRewrite.NoFlatTokenLeft | alembic/versions/pv1_namespaced_variables.py:91-92 | at every position of the output a token is namespaced and free of white space |
| TokenRewrite.RewriteIsIdentityIff | alembic/versions/pv1_namespaced_variables.py:91-92 | a string is unchanged exactly when all its tokens are already so |
| JsonText.TextDeterminesValue | alembic/versions/pv1_namespaced_variables.py:99 | two values with the same printed text are the same value (sections 4 and 7 of RFC 8259, ASCII output) |
| JsonText.EscapedMeans | alembic/versions/pv1_namespaced_variables.py:99 | a printed string is ASCII and each of its escapes stands for its character (section 7 of RFC 8259) |
| JsonText.DumpsIsJson | alembic/versions/pv1_namespaced_variables.py:99 | a printed value is a text of that value under the grammar of RFC 8259, sections 2 to 7 |
| JsonRewrite.EscapeCommutes | alembic/versions/pv1_namespaced_variables.py:99 | rewriting an escaped string is escaping the rewritten string |
| JsonRewrite.RewriteText | alembic/versions/pv1_namespaced_variables.py:95-99 | rewriting printed JSON is printing the value with each string and key rewritten; no match crosses a quote or touches structure |
| JsonRewrite.RewrittenTextIs | alembic/versions/pv1_namespaced_variables.py:95-99 | the rewritten text prints that value and no other |
| JsonRewrite.ShapePreservedIff | alembic/versions/pv1_namespaced_variables.py:95-99 | the loaded result has the shape of the original exactly when no two keys of a dictionary collide after renaming |
| JsonRewrite.CollidingKeysLoseAnEntry | alembic/versions/pv1_namespaced_variables.py:95-99 | for every name, two spellings of its token as keys lose an entry |
| JsonRewrite.RewriteJsonIdempotent | alembic/versions/pv1_namespaced_variables.py:95-99 | rewriting a value again changes nothing |
| JsonRewrite.PlaybookTable.RewritePlaybooks | alembic/versions/pv1_namespaced_variables.py:105-122 | every definition is rewritten, and rows with nothing to rewrite are not written |
| JsonRewrite.MigratedTwice | alembic/versions/pv1_namespaced_variables.py:113-122 | a second pass leaves every row, with its dry-run stamp, as it is |
| JsonRewrite.NamespaceIdempotent | alembic/versions/pv1_namespaced_variables.py:171-187 | prefixing variable keys again changes nothing |
| JsonRewrite.NamespacedAt | alembic/versions/pv1_namespaced_variables.py:171-187 | which mappings are reached: along every path that passes no variables dictionary, such a dictionary at its end has its keys prefixed and every other part keeps its keys |
| JsonRewrite.FromPairsHolds | alembic/versions/pv1_namespaced_variables.py:178-181 | a dictionary built from pairs holds the last pair of each key |
| JsonRewrite.VariablesKeptIff | alembic/versions/pv1_namespaced_variables.py:177-181 | no variable is lost exactly when no key is another key with the prefix |
| JsonRewrite.ConfigTable.NamespaceConfigs | alembic/versions/pv1_namespaced_variables.py:157-168 | every configuration has its variable keys prefixed, and only changed rows are written |
| Batching.Batched | alembic/versions/c1b_backfill_billing_rework_backfill.py:45-53 | for every batch size and every choice of rows a self-limiting update ends in the effect of the one-shot statement, and counts its rows |
| Batching.BatchShrinksEligible | alembic/versions/c1b_backfill_billing_rework_backfill.py:45-53 | a batch takes its own rows out of the selection and nothing else |
| BillingBackfill.CentsIsClose | alembic/versions/c1b_backfill_billing_rework_backfill.py:69-75 | rounded cents are within half a cent of the amount |
| BillingBackfill.DuplicatesShrink | alembic/versions/c1b_backfill_billing_rework_backfill.py:208-221 | ranks recomputed after some duplicates are invalidated select exactly the remaining ones |
| BillingBackfill.DedupBatched | alembic/versions/c1b_backfill_billing_rework_backfill.py:208-221 | the batched dedup has the effect of one sweep |
| BillingBackfill.OneInvoiceSurvives | alembic/versions/c1b_backfill_billing_rework_backfill.py:208-221 | an order with valid invoices keeps exactly one of them valid, and it is newer than all the others |
| BillingBackfill.BillingTables.Backfill | alembic/versions/c1b_backfill_billing_rework_backfill.py:63-222 | all blocks in their order, each batched, make one pass |
| BillingBackfill.LatestInvoiceIsMaximum | alembic/versions/c1b_backfill_billing_rework_backfill.py:197-201 | the row of rank 1 carries the latest date among the valid invoices of its order |
| BillingBackfill.BackfilledOrder | alembic/versions/c1b_backfill_billing_rework_backfill.py:64-206 | what one pass makes of an order in any database: cents kept or from its own total, payment status and type from the legacy columns, the date of the last valid invoice or its own for a paid order without one, a kept or unambiguous service |
| BillingBackfill.BackfilledInvoice | alembic/versions/c1b_backfill_billing_rework_backfill.py:80-94 | what one pass makes of an invoice in any database: total and tax each rounded from its own amount, the subtotal their difference, cents that are there kept, and validity kept by the newest alone |
| BillingBackfill.BackfilledPrices | alembic/versions/c1b_backfill_billing_rework_backfill.py:97-117 | products, plans and stock get the rounded cents of their own price or cost, or keep those they have |
| BillingBackfill.BackfilledItem | alembic/versions/c1b_backfill_billing_rework_backfill.py:121-132 | an item without snapshot takes price and name of its own product as they are now; any other stays |
| BillingBackfill.BridgeIff | alembic/versions/c1b_backfill_billing_rework_backfill.py:175-188 | the bridge maps a recurring order to a service exactly when that is the only one pointing at it |
| BillingBackfill.HistoryKeepsSane | alembic/versions/c1b_backfill_billing_rework_backfill.py:141-145 | batches interleaved with writes of the old backend keep filled cents equal to the rounded totals |
| BillingBackfill.BackendWrites | alembic/versions/c1b_backfill_billing_rework_backfill.py:141-145 | what the interleaved writes of the old backend leave in each row |
| BillingBackfill.PassIsHistory | alembic/versions/c1b_backfill_billing_rework_backfill.py:63-222 | a pass is itself such a history, one batch for each block |
| BillingBackfill.ToleranceHolds | alembic/versions/c1b_backfill_billing_rework_backfill.py:314-320 | sums of cents stay within a cent for each order of the sums of totals |
| BillingBackfill.PassAfterAnyHistory | alembic/versions/c1b_backfill_billing_rework_backfill.py:263-331 | after any such history one uninterrupted pass makes every post-condition check hold |
| BillingBackfill.BackfillIdempotent | alembic/versions/c1b_backfill_billing_rework_backfill.py:63-222 | a second pass changes nothing, in any database |
| PaymentLedger.SynthesizeLegacyRows | alembic/versions/c1c_payment_ledger_billing_rework_payment_ledger.py:48-80 | the loop adds exactly one legacy row, for the order's cents, to each paid order without a payment, and to no other |
| PaymentLedger.LegacyRowsSettle | alembic/versions/c1c_payment_ledger_billing_rework_payment_ledger.py:54-76 | every added row pays its own order in full on its payment date, or on its creation date when it has none, and each selected order has one such row |
| PaymentLedger.MissingIff | alembic/versions/c1c_payment_ledger_billing_rework_payment_ledger.py:63-74 | selected are the paid orders of a cent or more without a PAYMENT row |
| PaymentLedger.MissingShrinks | alembic/versions/c1c_payment_ledger_billing_rework_payment_ledger.py:65-75 | the guard takes served orders out of the selection |
| PaymentLedger.HistoryKeepsSane | alembic/versions/c1c_payment_ledger_billing_rework_payment_ledger.py:65-75 | no interleaving of batches and live payments puts a legacy row behind another payment of its order |
| PaymentLedger.OneLegacyRowPerOrder | alembic/versions/c1c_payment_ledger_billing_rework_payment_ledger.py:65-75 | so no order has two legacy rows |
| PaymentLedger.LedgerTables.Upgrade | alembic/versions/c1c_payment_ledger_billing_rework_payment_ledger.py:104-158 | synthesis, dedup and second synthesis make the unique index buildable and both assertions hold |
| PaymentLedger.NothingMissing | alembic/versions/c1c_payment_ledger_billing_rework_payment_ledger.py:137-152 | with nothing left to synthesize both assertions hold |
| PaymentLedger.BuildsAfterDedup | alembic/versions/c1c_payment_ledger_billing_rework_payment_ledger.py:114-130 | after the dedup no two valid invoices share an order |
| SubscriptionBridge.UpgradeBillsOnce | alembic/versions/c2b_service_billing_client_service_absorbs_recurring_order.py:151-219 | after the passes each recurring order has at most one billing service, and exactly one when it is bridged or bridgeable |
| SubscriptionBridge.Pass1Writes | alembic/versions/c2b_service_billing_client_service_absorbs_recurring_order.py:151-177 | a bridged service changes exactly when it is the oldest of an order that nothing bills; it then has the recurring order's recurrence, end, both dates and status, and the largest item quantity |
| SubscriptionBridge.UpgradedRowMirrors | alembic/versions/c2b_service_billing_client_service_absorbs_recurring_order.py:195-219 | every row the second pass inserts carries the client, company, dates and status of its recurring order and the plan and quantity of its item, and is active, with activation or cancellation date, by its status |
| SubscriptionBridge.InsertedRowMirrors | alembic/versions/c2b_service_billing_client_service_absorbs_recurring_order.py:195-219 | the row of the downgrade, applied to an inserted service, returns its recurring order |
| SubscriptionBridge.Pass3Writes | alembic/versions/c2b_service_billing_client_service_absorbs_recurring_order.py:225-235 | an order without service is linked exactly when its recurring order has one service, and to that one |
| SubscriptionBridge.BridgeableIff | alembic/versions/c2b_service_billing_client_service_absorbs_recurring_order.py:212-218 | a recurring order can be bridged exactly when it has a client, one item and a plan for that item's product |
| SubscriptionBridge.TwoPlansBillTwice | alembic/versions/c2a_catalog_merge_kind_enum_product_absorption.py:87-90 | the unique plan index is needed: two plans for the item's product bill its order twice |
| SubscriptionBridge.UpgradeSettles | alembic/versions/c2b_service_billing_client_service_absorbs_recurring_order.py:151-235 | after the passes, in any database, every bridged or bridgeable recurring order is billed and no order is left to link |
| SubscriptionBridge.UpgradeTwice | alembic/versions/c2b_service_billing_client_service_absorbs_recurring_order.py:151-235 | repeating the passes is a no-op, in any database |
| SubscriptionBridge.SubscriptionTables.Upgrade | alembic/versions/c2b_service_billing_client_service_absorbs_recurring_order.py:151-235 | the three passes in their order |
| SubscriptionBridge.MigrateBillsEveryActiveOnce | alembic/versions/ld1_legacy_drop.py:118-197 | in any database the step aborts exactly on orders that cannot be migrated and the second abort cannot fire; every ACTIVE recurring order is billed, and exactly once if plans are unique and none was billed twice |
| SubscriptionBridge.SubscriptionTables.MigrateUnbridged | alembic/versions/ld1_legacy_drop.py:128-197 | the step as it runs, with nothing written before the first abort |
| SubscriptionBridge.MigratedRowMirrors | alembic/versions/ld1_legacy_drop.py:158-180 | the rows the step inserts mirror their recurring orders in the same way, and all are active |
| SubscriptionBridge.StuckIff | alembic/versions/ld1_legacy_drop.py:118-147 | the step selects the ACTIVE recurring orders without a billing service and aborts on those that cannot be bridged |
| SubscriptionBridge.RelinkKeepsDueUnique | alembic/versions/c2b_service_billing_client_service_absorbs_recurring_order.py:427-433 | relinking orders to the new recurring orders breaks neither unique index |
| SubscriptionBridge.SubscriptionTables.Downgrade | alembic/versions/c2b_service_billing_client_service_absorbs_recurring_order.py:389-434 | a recurring order for each unbacked service and an item where its plan has a product; it fails exactly on a missing recurrence |
| SubscriptionBridge.DowngradedRecurring | alembic/versions/c2b_service_billing_client_service_absorbs_recurring_order.py:389-405 | the recurring orders added are one for each unbacked service, with its columns; no existing one changes |
| SubscriptionBridge.DowngradedItems | alembic/versions/c2b_service_billing_client_service_absorbs_recurring_order.py:407-415 | the items added are one for each unbacked service whose plan has a product, with that product and the service's quantity; no existing one changes |
| SubscriptionBridge.DowngradedOrder | alembic/versions/c2b_service_billing_client_service_absorbs_recurring_order.py:427-433 | what the downgrade makes of every order: relinked exactly when it is a RECURRING one of an unbacked service and has no recurring order, all else kept |
| SubscriptionBridge.DowngradedService | alembic/versions/c2b_service_billing_client_service_absorbs_recurring_order.py:423-426 | what the downgrade makes of every service: which rows go, which get a recurring order, and that all added columns are cleared |
| SubscriptionBridge.DowngradeThenUpgrade | alembic/versions/c2b_service_billing_client_service_absorbs_recurring_order.py:389-434 | going down and up restores recurrence, end, both dates and status of a service without recurring order, and its quantity exactly when its plan has a product or it was one |
| ServiceHistory.PlanForPriceIff | alembic/versions/sh1_service_history_repair.py:65-70 | the plan found is the only candidate at the price, or the only active one |
| ServiceHistory.SwitchesIff | alembic/versions/sh1_service_history_repair.py:149-153 | the test for a clean switch says: single lines, other prices first, then the current price and never back |
| ServiceHistory.CleanIff | alembic/versions/sh1_service_history_repair.py:145-163 | a service is split exactly when its orders are single-line, their price became the current one once, and each older price has one plan or one still sold |
| ServiceHistory.BuildRuns | alembic/versions/sh1_service_history_repair.py:154-160 | the runs join to the history, each has one price, and neighbours differ |
| ServiceHistory.RunsAreUnique | alembic/versions/sh1_service_history_repair.py:154-160 | there is only one such decomposition |
| ServiceHistory.PlannedByRun | alembic/versions/sh1_service_history_repair.py:161-163 | every run has a plan exactly when every older order's price has one |
| ServiceHistory.SplitTilesTime | alembic/versions/sh1_service_history_repair.py:176-220 | each service ends when the next starts, and every order falls inside its own service |
| ServiceHistory.FirstRunStarts | alembic/versions/sh1_service_history_repair.py:177-180 | the first historical service starts at the activation date, or at its first order if that is earlier or there is none |
| ServiceHistory.SplitKeepsHistory | alembic/versions/sh1_service_history_repair.py:207-215 | runs and tail are the original sequence, no total or date changes, and the tail is untouched |
| ServiceHistory.SplitMatchesPlans | alembic/versions/sh1_service_history_repair.py:161-215 | each order ends on a service of the same client whose plan costs what was charged |
| ServiceHistory.HistoricalRow | alembic/versions/sh1_service_history_repair.py:176-206 | a historical row in terms of the tables alone: recurrence end and last generation are the last order that now points at it, no next one, CANCELLED, and client, company, recurrence, quantity and installation those of the split service |
| ServiceHistory.ShiftedRow | alembic/versions/sh1_service_history_repair.py:216-220 | the service itself keeps every column but activation and creation, which become its first remaining order |
| ServiceHistory.RepricedMatchesIff | alembic/versions/sh1_service_history_repair.py:166-173 | a repriced line adds up exactly when the quantity divides the total, or there is no quantity and no total |
| ServiceHistory.RepricedLine | alembic/versions/sh1_service_history_repair.py:166-173 | repricing changes the price of the line only, to that of one unit rounded down, or to the total when there is no unit |
| ServiceHistory.MovedLine | alembic/versions/sh1_service_history_repair.py:207-215 | a moved order keeps date, total and quantity, points at its historical service, and its line has that service's plan and the unit price |
| ServiceHistory.FinalCheckPassesIff | alembic/versions/sh1_service_history_repair.py:223-235 | the final check passes exactly when every repriced total divides and every other single line was right |
| ServiceHistory.StillAffectedIff | alembic/versions/sh1_service_history_repair.py:124-129 | after a repair the services still affected are those with a mismatched order that is not single-line |
| ServiceHistory.RepairTwice | alembic/versions/sh1_service_history_repair.py:124-235 | running the repair again neither raises nor changes a row |
| ServiceHistory.HistoryTables.SplitService | alembic/versions/sh1_service_history_repair.py:176-221 | inserting, moving and shifting row by row gives the split, and raises exactly on a NULL total |
| ServiceHistory.HistoryTables.Repair | alembic/versions/sh1_service_history_repair.py:124-235 | the whole repair: it finishes exactly when no amount it reads is NULL and every single line will match, and leaves everything unchanged otherwise |
| RbacSeed.ReconcileExtends | alembic/seeds/rbac_seed.py:258-329 | reconciliation removes nothing and creates no role |
| RbacSeed.ReconcileCloses | alembic/seeds/rbac_seed.py:270-329 | afterwards ADMIN holds everything, VIEWER what its filter admits, and payment grants follow order grants |
| RbacSeed.ReconcileIsLeast | alembic/seeds/rbac_seed.py:270-329 | no smaller set of grants is closed |
| RbacSeed.ReconcileIdempotent | alembic/seeds/rbac_seed.py:258-329 | a second reconciliation adds nothing |
| RbacSeed.ReconcileMonotoneIff | alembic/seeds/rbac_seed.py:270-329 | more rows before give more rows after, exactly unless a permission only the larger database has was stored with another action |
| RbacSeed.SecondRunCanDiffer | alembic/seeds/isp_seed.py:320-344 | with two global rows of one built-in name two runs can differ |
| RbacSeed.RunTwiceIff | alembic/env.py:96-133 | the second run is idle, whichever rows both fetch, exactly when each built-in name has one global row at most or every row of it holds or derives all its grants |
| RbacSeed.FixedIffSettled | alembic/env.py:96-133 | a run changes nothing, whichever role row it fetches, exactly on a settled database |
| RbacSeed.RunHoldsBackIff | alembic/seeds/rbac_seed.py:128-130 | one run gives device_credentials.read or client_services.adopt to global ADMIN roles only, exactly unless the row is stored as a read permission and some VIEWER lacks it or is yet to be created |
| RbacSeed.RunsHoldBackIff | alembic/seeds/rbac_seed.py:128-130 | the same over any sequence of runs |
| RbacSeed.PosingReadIsGranted | alembic/seeds/rbac_seed.py:289-299 | in that case a run grants it anew to a VIEWER, on an empty role table to the one it creates |
| RbacSeed.RbacTables.EnsureConvergent | alembic/seeds/rbac_seed.py:258-329 | the statements in their order compute the closure |
| RbacSeed.RbacTables.RunSeeds | alembic/env.py:96-133 | all passes on a fresh or seeded database, leaving it settled under the condition of RunTwiceIff |
| RbacSeed.PermissionsOfRun | alembic/seeds/rbac_seed.py:258-268 | the permissions after a run are those of before, with their actions, and each missing seeded name with its own action |
| RbacSeed.RolesOfRun | alembic/seeds/isp_seed.py:320-331 | a role row that a run adds is ADMIN or VIEWER on an empty table, or a built-in name that no global row carried |
| RbacSeed.RunGrantsOnly | alembic/seeds/rbac_seed.py:270-329 | a run grants nothing but what ADMIN, VIEWER and the chosen built-in rows are entitled to and what the ledger rules derive |
| CatalogSeed.SeedIsInsertOnly | alembic/seeds/isp_seed.py:364-372 | an existing category keeps everything but its tier and passive flag |
| CatalogSeed.NewRowIs | alembic/seeds/isp_seed.py:402-420 | an inserted category has the baseline values, its tier as far as the migration position knows it |
| CatalogSeed.BackfilledTiers | alembic/seeds/isp_seed.py:440-453 | on a table without tiers each baseline row gets the tier a new row would have |
| CatalogSeed.BackfilledPassives | alembic/seeds/isp_seed.py:465-476 | on a table without passive rows exactly the passive ones of the baseline become so |
| CatalogSeed.SeedTwice | alembic/seeds/isp_seed.py:364-483 | re-seeding at the same migration position changes nothing |
| CatalogSeed.TiersKeptIff | alembic/seeds/isp_seed.py:440-453 | tier edits survive exactly when the column is missing, some tier is set, or a missing row will be inserted with one |
| CatalogSeed.PassivesKeptIff | alembic/seeds/isp_seed.py:465-476 | passive edits survive exactly when the column is missing, some row is passive, or no existing row is passive by default |
| CatalogSeed.OldVocabularyKept | alembic/seeds/isp_seed.py:402-407 | before the general inventory only the old tiers are written |
| CatalogSeed.OtherPositionsKeepTiers | alembic/seeds/isp_seed.py:429-453 | runs at any other migration position leave the tiers of an earlier run alone |
| CatalogSeed.CatalogTables.SeedCategories | alembic/seeds/isp_seed.py:364-483 | the insert loop and both backfills compute that result for the shipped baseline; seeding it again is idle, and tier edits were kept exactly under the condition of TiersKeptIff |
| CatalogSeed.MergedIsSameIff | alembic/seeds/isp_seed.py:348-361 | a tier's module list is left alone exactly when it has every ISP module and no repetition |
| CatalogSeed.MergedKeepsModules | alembic/seeds/isp_seed.py:355 | the merge keeps the modules in their order, adds the ISP modules and nothing else, and drops repetitions |
| CatalogSeed.MergedTwice | alembic/seeds/isp_seed.py:348-361 | merging again changes nothing |
| CatalogSeed.CatalogTables.SeedModules | alembic/seeds/isp_seed.py:348-361 | every tier gets its merged list |
| TransportFold.AxesAreModes | alembic/versions/tr1_transport_axis.py:255-261 | the CASE expressions of both directions are inverse, except on the mode that aborts |
| TransportFold.UpgradeMeetsChecks | alembic/versions/tr1_transport_axis.py:125-151 | rows that met the old CHECKs fold into settings that meet the new ones; the fold aborts exactly on a tunnel row |
| TransportFold.FoldKeepsGates | alembic/versions/tr1_transport_axis.py:240-289 | a company without settings starts disabled, and one with settings keeps its gate and interval |
| TransportFold.NothingToFold | alembic/versions/tr1_transport_axis.py:240-289 | a company with settings and no network_access row gets the column defaults |
| TransportFold.DowngradeMeetsChecks | alembic/versions/tr1_transport_axis.py:362-474 | settings that met the new CHECKs unfold into rows that meet the old ones and both unique indexes |
| TransportFold.UpThenDown | alembic/versions/tr1_transport_axis.py:240-289 | going up and down returns mode, gateway host, live proxy address, ACS address and ACS authentication of the default rows |
| TransportFold.OutboundRowRestoredIff | alembic/versions/tr1_transport_axis.py:255-261 | an outbound row comes back with all its addresses exactly when it held none that its mode does not use |
| TransportFold.TwoNewestRebound | alembic/versions/tr1_transport_axis.py:291-322 | the credentials bound afterwards are the two newest that were |
| TransportFold.DownThenUpRow | alembic/versions/tr1_transport_axis.py:438-509 | the whole settings row after going down and up, on any database that meets the CHECKs |
| TransportFold.DownThenUp | alembic/versions/tr1_transport_axis.py:438-509 | that is the identity but for an unused proxy address, exactly when the pair is the two newest HTTP_BASIC credentials of the company that any pair holds |
| TransportFold.OlderCurrentIsSwapped | alembic/versions/tr1_transport_axis.py:438-509 | a pair whose current credential is the older one comes back swapped |
| TransportFold.OwnedPairIsNewestIff | alembic/versions/tr1_transport_axis.py:301-317 | when pairs are the company's own, that means nothing is pending or the current credential is the newer one |
| TransportFold.TransportTables.Up | alembic/versions/tr1_transport_axis.py:154-330 | the upgrade as it runs; a tunnel row leaves everything unchanged |
| TransportFold.TransportTables.Down | alembic/versions/tr1_transport_axis.py:362-509 | the downgrade as it runs, from settings that meet the CHECKs to rows that meet theirs |

## Left out

- Repair: the histories it reads are a parameter, one ordering by creation for each affected service, since the query breaks ties any way; every claim holds for all of them.
- MigrateUnbridged: the rollback after the second abort is not stated, because that abort is proved not to happen.
- Tidying of replaced services in the history repair: it picks replacements from a snapshot, and its result depends on chains of services.
- Conservation and money-continuity checks, the due-date precheck and the workflow rewriting of the subscription migration.
- Notes and product names that the history repair writes into its rows.
- Grant copies inside the backfill migration; the same rule is modelled in the reconciliation.
- Savepoints, SET CONSTRAINTS, locks, isolation and concurrent writers inside a statement; multi-row statements of the plant are sequences of single-row ones.
- Changing an item's id or company, and the cascade of deleting a company.
- Port names, slots, numbers, media and directions with their unique indexes; link sources and timestamps.
- Integer overflow of 64-bit cents, the float to numeric cast, and the rounding of floats before it.
- Python's recursion limit, and its limit on the length of a number to convert.
- Turning provisioning parameters from a dictionary into a list of rows.
- The tier seed, permission descriptions, icons, prices and template payloads.
- Custom role editing, token rotation, provisioning jobs and the workflow engine, of which only the tables are here.
- Pure schema changes, index builds, existence asserts and printed reports.
