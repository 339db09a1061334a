# Verification of KubeFin's cost accounting

KubeFin watches the nodes and pods of a Kubernetes cluster, keeps per-node counters of requested
resources, prices nodes and pods, and merges the resulting time series into cost reports. This
Dafny project models that accounting and proves that it adds up.

`resource.Quantity` and `float64` are modelled by the real numbers they denote; rounding to whole
milli-cores, bytes and cards (`MilliValue`, `Value`) is modelled explicitly. Go maps are maps
visited in any order; structs that are shared by pointer are classes. Listers, cloud answers, text
to number conversion and query results are parameters.

| File | Contents |
|---|---|
| `Sums.dfy`, `Kube.dfy`, `Text.dfy` | sums over maps and lists, the Kubernetes objects, splitting and joining text |
| `NodeMetrics.dfy`, `NodeRuns.dfy`, `NodeLifetimes.dfy`, `NodeScrapes.dfy` | the node collector, whole runs of informer events, its nodes against the existing ones, scrapes interleaved with events |
| `PodRequests.dfy`, `PodCosts.dfy`, `WorkloadMetrics.dfy` | requests and costs of pods and of lists of pods |
| `Pricing.dfy`, `AckProvider.dfy`, `EksProvider.dfy`, `GpuPriceList.dfy` | the price split, the caching provider, the uncached provider, the GPU price list |
| `UsageCache.dfy` | the usage snapshot and its queries |
| `CostMerge.dfy`, `WorkloadCost.dfy`, `WorkloadKeys.dfy`, `TimedLists.dfy`, `CostLists.dfy` | the pod and workload merges: on values, in place, their keys, lists in the order of time, and the converted tables |
| `ResourceMerge.dfy`, `ResourceCost.dfy` | the cluster resource cost passes, on values and in place, and their list |
| `ClusterMetrics.dfy` | the current summaries of all clusters and of one cluster |
| `QueryStep.dfy`, `Averages.dfy` | the step of long range queries and the meaning of the scaled sums |

## What is assumed about histories

A run of informer events is well formed when a pod is added before it is updated or deleted and not
added again before it is deleted, bindings and requests do not change once set, a finished pod stays
finished, requests are not negative, and an update carries the last known state as its old object.
Anything else is allowed: any interleaving, also of a pod before its node, node deletions and
updates at any time, deletions that carry no pod, deletions that are the first to report that a pod
finished, and deletions that are the first to report that it was bound. The results about crashes
and about which nodes are in the table assume nothing at all.

## Where the code falls short of the promise

- Crashes: the collector crashes on a run if and only if some event starts to account a pod with
  requests on a node not added before (`CrashesExactly`, `PodBeforeNodeCrashes`); nothing orders the
  two informers.
- Counters and live pods: a deletion that a handler ignores leaves its requests in the counter for
  ever (`LostDeleteLeaks`), and a deletion that reveals a binding subtracts what was never added, even
  below zero (`RevealedDeletionUnderflows`, `CounterNegativeIff`); the counter is exact if and only if
  the two cancel out, which without the second kind means that no ignored deletion was that of a pod
  taking any of the resource (`CounterExactIffNothingLost`).
- The two accounting paths: `ParsePodResourceRequest` rounds up, so it agrees with the counters if
  and only if all requests are whole milli-cores, bytes or cards (`CountersMatchParsedRequests`,
  `SubMilliRequestDiffers`).
- `handleNodeDeletion` tests for the absence of the entry it is to delete, so it never deletes
  anything, and updates of nodes have no handler (`StaleNodes`). The table is that of the existing
  nodes with their current allocatable resources if and only if the last event about every node
  reports what its first addition reported (`TableIsCurrentIff`).
- The GPU section divides cards as if they were bytes and emits no figure for the system
  (`CardsAreDividedAsBytes`): the emitted figures are right if and only if no node has cards,
  allocatable or requested, at the moment of its GPU section (`FiguresAreRightIff`).
- Point limit: the comment promises at most 11000 points; the step keeps a query within that limit
  if and only if the raw step is not itself a positive multiple of 15 (`StepBoundsPoints`,
  `LimitExceeded`).
- Workload keys: a key gives back its workload, and is shared with no other workload, if and only if
  no label contains a slash (`KeyRoundTrip`, `KeyIsUniqueIff`, `SlashesCollide`), and the list gives
  back the table if and only if all keys have exactly three parts (`ConversionLosesNothing`).
- `parseWorkloadNamespaceNameType` names its results namespace, name and type but returns them in
  the order type, namespace, name; its only caller reads them in that order, which is modelled.
- The total-cost pass replaces records, so behind another pass it gives the same table if and only
  if that pass has only zeros at its timestamps (`TotalCostsMustComeFirst`).

## Model

| member | source | states |
|---|---|---|
| NodeMetrics.NodeMetricsCollector.HandleNodeAddition | pkg/agent/metrics/core/node_metrics.go:136-149 | the first addition of a node creates its entry with all allocatable resources and no requests; later ones change nothing |
| NodeMetrics.NodeMetricsCollector.HandleNodeDeletion | pkg/agent/metrics/core/node_metrics.go:151-157 | deleting a node leaves every entry as it is |
| NodeMetrics.NodeMetricsCollector.AddPodResourceRequested | pkg/agent/metrics/core/node_metrics.go:159-170 | adds all requests of all containers to the counters of the pod's node, in any map order; crashes exactly when the node has no entry and something is requested |
| NodeMetrics.NodeMetricsCollector.DeletePodResourceRequested | pkg/agent/metrics/core/node_metrics.go:213-224 | subtracts all requests from the existing counters and skips resources and nodes without one |
| NodeMetrics.NodeMetricsCollector.HandlePodAddition | pkg/agent/metrics/core/node_metrics.go:172-185 | only a bound, unfinished pod is added |
| NodeMetrics.NodeMetricsCollector.HandlePodUpdate | pkg/agent/metrics/core/node_metrics.go:187-211 | a pod is added when it becomes bound and subtracted when it finishes, and nothing else happens |
| NodeMetrics.NodeMetricsCollector.HandlePodDeletion | pkg/agent/metrics/core/node_metrics.go:226-236 | only a bound, unfinished pod is subtracted |
| NodeMetrics.NodeMetricsCollector.Dispatch | pkg/agent/metrics/core/node_metrics.go:418-467 | every informer notification has the effect of its handler; those without the object have none |
| NodeMetrics.NodeMetricsCollector.CollectSection | pkg/agent/metrics/core/node_metrics.go:332-386 | one locked section emits figures for a node with an entry and nothing otherwise; the GPU section as the code has it |
| NodeMetrics.AddContainersMeaning | pkg/agent/metrics/core/node_metrics.go:159-170 | adding containers raises each counter by exactly the total requested and creates exactly the requested counters |
| NodeMetrics.SubContainersMeaning | pkg/agent/metrics/core/node_metrics.go:213-224 | subtracting containers lowers each existing counter by exactly the total requested and creates none |
| NodeRuns.StepKeeps | pkg/agent/metrics/core/node_metrics.go:136-236 | a handler crashes exactly when the event starts to account a pod with requests on an unknown node; otherwise every well-formed event keeps the agreement of counters and pods |
| NodeRuns.SubIsExact | pkg/agent/metrics/core/node_metrics.go:213-224 | the skip for missing counters is never taken for an accounted pod: the whole of its requests is subtracted |
| NodeRuns.CrashesExactly | pkg/agent/metrics/core/node_metrics.go:159-211 | every list of events whatever: the collector crashes if and only if some event starts to account a pod with requests on a node neither there at first nor added before |
| NodeRuns.PodBeforeNodeCrashes | pkg/agent/metrics/core/node_metrics.go:172-185 | a pod event before that of its node crashes the collector, the other order does not |
| NodeRuns.CountersTrackPods | pkg/agent/metrics/core/node_metrics.go:136-236 | on every run: a crash exactly as above; until then one entry per node ever added with its first allocatable resources, and every counter is the live requests plus those of pods with dropped deletions minus those of pods subtracted without having been added |
| NodeRuns.CounterExactIffNothingLost | pkg/agent/metrics/core/node_metrics.go:213-236 | a counter equals the live requests if and only if lost and wrongly subtracted requests cancel out; with no binding revealed by a deletion, if and only if no dropped deletion took any of the resource on the node |
| NodeRuns.CounterNegativeIff | pkg/agent/metrics/core/node_metrics.go:226-236 | a counter is negative if and only if more was wrongly subtracted than is live or lost; never when no deletion reveals a binding |
| NodeRuns.NothingMissedNothingLost | pkg/agent/metrics/core/node_metrics.go:457-465 | pods are lost or wrongly subtracted exactly when some deletion fails a guard of the handlers or reveals a binding |
| NodeRuns.CountersForgetHistory | pkg/agent/metrics/core/node_metrics.go:136-236 | runs that miss nothing and end with the same pods end with the same counters |
| NodeRuns.LostDeleteLeaks | pkg/agent/metrics/core/node_metrics.go:457-465 | a run with one tombstone whose counter stays up although no pod is left |
| NodeRuns.RevealedDeletionUnderflows | pkg/agent/metrics/core/node_metrics.go:226-236 | a run whose only counter ends at minus one core |
| NodeLifetimes.TableIsCurrentIff | pkg/agent/metrics/core/node_metrics.go:136-157 | on every run that does not crash, the table has exactly the existing nodes with their current allocatable resources if and only if the last event about every node reports what its first addition reported |
| NodeLifetimes.StaleNodes | pkg/agent/metrics/core/node_metrics.go:136-157 | a deleted node stays, and a node that comes back with another size keeps the old one |
| NodeScrapes.EmissionsMeetExpectation | pkg/agent/metrics/core/node_metrics.go:308-388 | for events interleaved between the sections, each emitted figure is first-seen allocatable, due requests, and their difference at that moment, in the units of the code |
| NodeScrapes.CapacityIsConserved | pkg/agent/metrics/core/node_metrics.go:308-388 | over the cluster, requested plus available equals allocatable as emitted, for each resource; for CPU and memory, system-taken plus requested plus available equals the total |
| NodeScrapes.FiguresAreRightIff | pkg/agent/metrics/core/node_metrics.go:370-386 | all emitted figures are in cores, GiB and cards if and only if no GPU section finds cards to report |
| NodeScrapes.CardsAreDividedAsBytes | pkg/agent/metrics/core/node_metrics.go:381-384 | two free cards are emitted as two divided by a GiB |
| PodRequests.RoundUpIsCeiling | pkg/agent/utils/utils.go:103-105 | the rounding of quantities is the smallest whole number not below, and the identity exactly on whole numbers |
| PodRequests.AmountsInUnits | pkg/agent/utils/utils.go:103-105 | the amounts are the requests rounded up to milli-cores, bytes and cards, in cores, GiB and cards |
| PodRequests.ParsePodResourceRequest | pkg/agent/utils/utils.go:81-108 | an entry per container name with its total; zeros and no GPU entries for finished or unscheduled pods |
| PodRequests.PodTotalIsContainerSum | pkg/agent/utils/utils.go:81-108 | the totals per name add up to the sum over all containers, equal names included; finished and unscheduled pods total zero |
| PodRequests.CountersMatchParsedRequests | pkg/agent/utils/utils.go:81-108 | after every run that misses nothing the parsed total of a node is at least its counter, and equal if and only if every request is whole in its smallest unit |
| PodRequests.SubMilliRequestDiffers | pkg/agent/utils/utils.go:103 | a request of half a milli-core is parsed as a whole one |
| PodCosts.SumValues | pkg/agent/utils/utils.go:49-62 | a range loop over a map computes its sum whatever the order |
| PodCosts.ParsePodResourceCost | pkg/agent/utils/utils.go:46-79 | a pod costs its totals times the unit prices of its node, and nothing when the node or its price is unknown |
| PodCosts.PodsShareNodePrice | pkg/agent/utils/utils.go:46-79 | costs of any list of pods on a node plus the unrequested rest equal the node price; pods that fit cost at most the node |
| PodCosts.CostsAreNodeBills | pkg/agent/utils/utils.go:46-79 | for any list of pods and any known prices, the costs are the totals of the listed pods on each priced node at the prices of that node; other pods add nothing |
| PodCosts.BillFollowsCounters | pkg/agent/utils/utils.go:46-79 | after a run that misses nothing the pods of a node are charged its counters at the split prices, and the rest of the node price is that of the unrequested resources |
| WorkloadMetrics.CollectResourceRequestMetrics | pkg/agent/metrics/core/workload_metrics.go:389-411 | the totals per container name over a list of pods |
| WorkloadMetrics.CollectCostMetrics | pkg/agent/metrics/core/workload_metrics.go:298-307 | the total cost of a list of pods: the sum over the priced nodes of what the listed pods on them request, at the prices of the node |
| WorkloadMetrics.AggregationInterchangesSums | pkg/agent/metrics/core/workload_metrics.go:389-411 | each name's figure is the sum over its containers in all pods, and all names add up to all pods |
| WorkloadMetrics.SplitListAdds | pkg/agent/metrics/core/workload_metrics.go:298-411 | a list split in two gives the pointwise sum of requests and the sum of costs |
| WorkloadMetrics.OrderOfPodsIsIrrelevant | pkg/agent/metrics/core/workload_metrics.go:298-411 | permuting the pods changes neither requests nor cost |
| Pricing.SplitConservesPrice | pkg/agent/cloudprice/ack/provider.go:180-200 | the split succeeds exactly for nodes of non-zero size, and its prices are the only ones that meet the ratios and add up to the node price |
| Pricing.PhysicalSplit | pkg/agent/cloudprice/ack/provider.go:180-200 | for positive ratios and non-negative counts it fails only on an empty node, and prices are not negative |
| Pricing.NoGpuIsGeneral | pkg/agent/cloudprice/ack/provider.go:180-200 | the branch for nodes without GPU gives what the general formulas give at zero cards |
| AckProvider.QueryNodeSpecFromCloud | pkg/agent/cloudprice/ack/provider.go:238-286 | the answer exactly when the first instance of every type is readable, with the cores, GiB and cards stated there and no prices |
| AckProvider.SpecMapMeaning | pkg/agent/cloudprice/ack/provider.go:259-285 | the query succeeds exactly when the first instance of every type is readable, and then has, for exactly the listed types, the stated cores, GiB and cards, and price zero |
| AckProvider.ACKCloudProvider.GetNodeHourlyPrice | pkg/agent/cloudprice/ack/provider.go:131-201 | answer and new cache of one call, including refreshes, failed refreshes and all error returns |
| AckProvider.ServeRefinesUncached | pkg/agent/cloudprice/ack/provider.go:141-166 | one call keeps every entry in agreement with the cloud, and a success is the uncached answer |
| AckProvider.ServeSucceedsExactly | pkg/agent/cloudprice/ack/provider.go:141-166 | the exact condition of a success and of each kind of failure; whenever an empty cache would succeed the cached provider does, with the same answer |
| AckProvider.CachedProviderRefinesCloud | pkg/agent/cloudprice/ack/provider.go:131-201 | for every sequence of calls and failing queries each success equals the uncached answer and the cache agrees with the cloud |
| AckProvider.AnswersAreTheClouds | pkg/agent/cloudprice/ack/provider.go:131-201 | over every sequence of calls, a successful answer is about the type in the labels, has the cores, GiB and cards the cloud states for it and the price of the cloud, and shares that price out over that size |
| AckProvider.PositivePriceIsRemembered | pkg/agent/cloudprice/ack/provider.go:145-166 | a positive price once answered is answered again whatever the cloud does |
| EksProvider.AnswersExactly | pkg/agent/cloudprice/eks/provider.go:108-134 | there is an answer if and only if the labels hold a type that the query knows and the text in USD, or in CNY without one in USD, is a number; each failure has its exact condition |
| EksProvider.AnswerSharesOutPrice | pkg/agent/cloudprice/eks/provider.go:108-170 | the answer has the queried cores, GiB and cards and the parsed price as total, shares it out, and equals the other provider's answer for a type of that size and price |
| EksProvider.SplitsAreEqual | pkg/agent/cloudprice/eks/provider.go:148-169 | the arithmetic of this provider gives the same split as that of the caching provider for every size, price and ratios, including where both divide by zero |
| GpuPriceList.ParseGPUDevicePriceList | pkg/agent/cloudprice/defaultcloud/provider.go:170-187 | the parsed list, or a failure |
| GpuPriceList.ParseInvertsPrint | pkg/agent/cloudprice/defaultcloud/provider.go:169-187 | a printed list parses to the map in which the last price of a name wins |
| GpuPriceList.PrintInvertsParse | pkg/agent/cloudprice/defaultcloud/provider.go:169-187 | every list that parses is the print of some items |
| GpuPriceList.ParsesExactly | pkg/agent/cloudprice/defaultcloud/provider.go:173-182 | parsing succeeds exactly when every segment has one colon and a readable price |
| UsageCache.ClusterResourceUsageMetricsCache.CollectPodMetrics | pkg/agent/metrics/cache/usage_cache.go:90-118 | a success replaces the snapshot by one in new memory that reports the answer, cores as they are and bytes in GiB; a failure keeps the last one |
| UsageCache.ClusterResourceUsageMetricsCache.Start | pkg/agent/metrics/cache/usage_cache.go:75-88 | after any ticks the snapshot reports the last successful answer, and entries handed out earlier still say what they said |
| UsageCache.ClusterResourceUsageMetricsCache.QueryWorkloadsUsageByPods | pkg/agent/metrics/cache/usage_cache.go:141-157 | the first entry of each pod that the last answer has, in pod order, sharing its figures with the snapshot |
| UsageCache.QueriesUseLastSnapshot | pkg/agent/metrics/cache/usage_cache.go:90-157 | after any collections a query answers from the index of the last successful snapshot |
| UsageCache.CollectResourceUsageMetrics | pkg/agent/metrics/core/workload_metrics.go:267-281 | per container name, the cores and the bytes divided by a GiB that the last answer has for the containers of that name in the found pods |
| UsageCache.FiguresAreCollected | pkg/agent/metrics/core/workload_metrics.go:267-281 | the figures of a reported usage are the sums of what was collected, name by name, and there is one for exactly the names of the found containers |
| UsageCache.UsageInterchangesSums | pkg/agent/metrics/core/workload_metrics.go:267-281 | the figures of all container names add up to the usage of all containers of all pods, and those of two pod lists to those of the joined list |
| CostMerge.PodPassesJoin | pkg/analyzer/server/implementation/workload_cost.go:127-225 | the pod passes build the full outer join of their five inputs, scaled, zero where absent |
| CostMerge.PodJoinHoldsInputs | pkg/analyzer/server/implementation/workload_cost.go:135-225 | told from the series alone: a row per key, a record per sample, each request and usage divided by the step and times 3600 or zero, the cost as it is, and one pod |
| CostMerge.WorkloadPassesJoin | pkg/analyzer/server/implementation/workload_cost.go:348-459 | the workload passes build the full outer join of their six inputs |
| CostMerge.WorkloadJoinHoldsInputs | pkg/analyzer/server/implementation/workload_cost.go:357-459 | the same for other workloads, with the summed pod counts divided by the number of sample slots |
| CostMerge.PassesCommute | pkg/analyzer/server/implementation/workload_cost.go:149-225 | passes that write different fields commute |
| WorkloadCost.CostTable.WriteCell | pkg/analyzer/server/implementation/workload_cost.go:157-166 | find or create one record and write one field; all other cells keep record and value |
| WorkloadCost.CostTable.MergeSeries | pkg/analyzer/server/implementation/workload_cost.go:149-225 | a pass in place, in any iteration order, has the effect of the pass on values, and no existing cell changes its record |
| WorkloadCost.CostTable.MergeTotalCosts | pkg/analyzer/server/implementation/workload_cost.go:135-147 | the cost pass replaces whole rows by new records |
| WorkloadCost.MergePodCosts | pkg/analyzer/server/implementation/workload_cost.go:127-132 | the pod merge leaves the full outer join in its records, which hold the samples of the series as above |
| WorkloadCost.MergeHighLevelWorkloadCosts | pkg/analyzer/server/implementation/workload_cost.go:348-354 | the workload merge leaves the full outer join in its records, which hold the samples of the series as above |
| WorkloadKeys.KeyRoundTrip | pkg/analyzer/server/implementation/workload_cost.go:41-56 | parsing a generated key never crashes and recovers the workload if and only if no part has a slash |
| WorkloadKeys.KeyLayout | pkg/analyzer/server/implementation/workload_cost.go:41-56 | three slash-free texts with slashes between them are read as kind, namespace and name |
| WorkloadKeys.KeysAreDistinct | pkg/analyzer/server/implementation/workload_cost.go:34-47 | slash-free workloads have the same key only if they are the same |
| WorkloadKeys.KeyIsUniqueIff | pkg/analyzer/server/implementation/workload_cost.go:34-47 | no other workload has the key of a workload if and only if none of its parts has a slash |
| WorkloadKeys.SlashesCollide | pkg/analyzer/server/implementation/workload_cost.go:41-47 | with slashes two workloads can share a key |
| TimedLists.CollectDetails | pkg/analyzer/server/implementation/workload_cost.go:565-572 | all details of a row in strictly increasing order of time |
| TimedLists.ListIsUnique | pkg/analyzer/server/implementation/workload_cost.go:567-572 | there is only one such list, whatever the map order |
| CostLists.ConvertClusterWorkloadCostToList | pkg/analyzer/server/implementation/workload_cost.go:557-577 | one item per key with its workload and the table's own records in strictly increasing order of time; crashes exactly when a key has fewer than three parts |
| CostLists.ListedRecordsHoldValues | pkg/analyzer/server/implementation/workload_cost.go:565-572 | what the listed records hold are the values of the list |
| CostLists.ConversionLosesNothing | pkg/analyzer/server/implementation/workload_cost.go:557-577 | flattening the list recovers the table if and only if all keys have exactly three parts |
| CostLists.QueryPodCosts | pkg/analyzer/server/implementation/workload_cost.go:127-132 | from the series to the list: no crash for keys generated from slash-free labels, and the list flattens to the full outer join if and only if all keys are such keys |
| CostLists.QueryHighLevelWorkloadCosts | pkg/analyzer/server/implementation/workload_cost.go:348-354 | the same for all other workloads |
| ResourceMerge.OrderOfPassesIsIrrelevant | pkg/analyzer/server/implementation/resource_cost.go:103-215 | the later passes in any order, over maps in any order, give one function of the seven inputs |
| ResourceMerge.TotalCostsMustComeFirst | pkg/analyzer/server/implementation/resource_cost.go:103-110 | behind another pass the total-cost pass gives the same table if and only if that pass has only zeros at its timestamps |
| ResourceCosts.JoinedHoldsInputs | pkg/analyzer/server/implementation/resource_cost.go:103-215 | told from the series alone: a record per timestamp of any series, the costs of each mode and resource as they are, counts and usages divided by the step and times 3600, zero where there is no sample |
| ResourceCosts.RecordsHoldMeans | pkg/analyzer/server/implementation/resource_cost.go:165-215 | when the samples are answers to the hour query, the counts and usages in the records are means over the sample slots of the sums over the series |
| ResourceCosts.ResourceCostTable.ParseResourceTotalCost | pkg/analyzer/server/implementation/resource_cost.go:103-110 | replaces the record of every timestamp with a total cost |
| ResourceCosts.ResourceCostTable.ParseResourceBillingModeCost | pkg/analyzer/server/implementation/resource_cost.go:112-134 | feeds each billing mode to its slot; unsupported modes only create records |
| ResourceCosts.ResourceCostTable.ParseNodeResourceTotalCost | pkg/analyzer/server/implementation/resource_cost.go:136-163 | feeds CPU and memory costs and ignores other series |
| ResourceCosts.ResourceCostTable.MergeSeries | pkg/analyzer/server/implementation/resource_cost.go:165-215 | one in-place pass over a series has the effect of the pass on values |
| ResourceCosts.MergeClusterResourceCost | pkg/analyzer/server/implementation/resource_cost.go:91-98 | the seven passes leave the joined table in the records, and it holds the samples of the seven series as above |
| ResourceCosts.ResourceCostTable.ConvertToList | pkg/analyzer/server/implementation/resource_cost.go:350-363 | the table's own records in strictly increasing order of time, whatever the map order |
| ResourceCosts.QueryClusterResourceCosts | pkg/analyzer/server/implementation/resource_cost.go:91-101 | the answer lists records that hold the ordered list of the joined table of the seven series |
| ResourceCosts.ResourceListLosesNothing | pkg/analyzer/server/implementation/resource_cost.go:350-363 | that list is the only one and gives the joined table back |
| ClusterMetrics.CountLabels | pkg/analyzer/server/implementation/cluster_metrics.go:417-429 | the total and the counts of two labels, in any map order |
| ClusterMetrics.PickResources | pkg/analyzer/server/implementation/cluster_metrics.go:464-474 | the CPU and memory values, zero where absent |
| ClusterMetrics.QueryAllClustersCurrentResources | pkg/analyzer/server/implementation/cluster_metrics.go:403-410 | the seven passes over all clusters |
| ClusterMetrics.QueryClusterCurrentResources | pkg/analyzer/server/implementation/cluster_metrics.go:768-857 | the seven passes over one cluster compute its summary |
| ClusterMetrics.AllClustersAgreeWithEach | pkg/analyzer/server/implementation/cluster_metrics.go:415-857 | there is a summary for each cluster in the inputs, and it is what the single-cluster passes compute from its slices |
| ClusterMetrics.BillingModesBound | pkg/analyzer/server/implementation/cluster_metrics.go:780-790 | on-demand plus spot nodes are at most all nodes, and all exactly when no other mode has nodes |
| QueryStep.StepBoundsPoints | pkg/analyzer/utils/utils.go:124-142 | the step is a positive multiple of 15, and a query has at most 11000 points if and only if the raw step is not a positive multiple of 15, otherwise at most 11734 |
| QueryStep.LimitExceeded | pkg/analyzer/utils/utils.go:124-130 | 164999 seconds give 11000 points, 165000 give 11001, and 175999 reach 11734 |
| QueryStep.RoundsUpToPeriod | pkg/analyzer/utils/utils.go:136-142 | rounding gives the smallest multiple of 15 that is not below |
| QueryStep.StepIsLeast | pkg/analyzer/utils/utils.go:124-142 | the step is the least multiple of 15 that is at least 15 and at least an eleven-thousandth of the range |
| Averages.QueriesAverage | pkg/analyzer/query/promql.go:60-66 | for any number of series in a group, the scaled hour queries of both forms and the scaled pod count are the mean over the sample slots of the sum over the series, missing samples counting as zero |
| Averages.DetailsHoldMeans | pkg/analyzer/server/implementation/workload_cost.go:163-166 | when the samples are answers to the hour and count queries, the requests, usages and pod counts of the merged records are means over the sample slots of the sums over the series |
| Averages.CoarseWindowIsMeanOfFine | pkg/analyzer/query/promql.go:73-76 | the scaled hour query of a coarse window is the mean of the scaled hour queries of its equal sub-windows |

## Left out

- Clients, handlers of HTTP requests, informer and leader election plumbing, dashboard and scripts: input and output.
- Locking: handlers and scrape sections are atomic steps, so the reads and the call outside the lock are not captured.
- Floating point: rounding, infinities and NaN; a division by zero in the price split is a separate outcome, and a step of zero is excluded in the merges.
- NodeScrapes.CapacityIsConserved: takes a scrape as any sequence of node sections with events between them; the loop over the lister's nodes, which skips nodes without a price, chooses the sequence and is not a method. The total emitted before a section for a node without an entry is not counted.
- The other branches of the default provider, whose unit prices come from the configuration and not from a split of the node price.
- In-place changes of requests, and pods recreated under the same name in one update: outside the assumed histories.
- The namespace cost merge and the pod-count query that replaces its map per sample: weaker repetitions of the modelled merges.
- Reading query results into nested maps: the maps are the inputs of the model.
- The node half of the usage cache, and handing out the whole snapshot: a snapshot is replaced like that of the pods, and copying it has no lookup.
