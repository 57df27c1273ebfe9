# A model of the Grafana operator's decisions

The operator compares what Kubernetes resources ask for with what it has recorded and what Grafana holds, and
repeats until the two agree. This project models that decision logic and proves what every run keeps, when the
repetition settles, and exactly when it does not.

Kubernetes, Grafana and the network are abstract state plus parameters: a call to Grafana is a step on a small map,
and a parameter says whether it is carried out, fails, or is carried out although the caller sees an error. The order
in which a Go map is visited is arbitrary in every theorem.

| module | what it models |
|---|---|
| `Semver`, `PluginList` | precedence of versions (section 11 of Semantic Versioning 2.0.0) and the searches over plugin lists |
| `PluginsHelper`, `PluginRounds` | picking and filtering plugin requests; repeated rounds over the status lists |
| `ControllerConfig` | the registry of known dashboards and plugin requests: a slice with swap-removal, and the map it stands for |
| `GrafanaClient`, `DashboardSync` | Grafana's dashboards and folders; one round of the dashboard controller |
| `DashboardSafety`, `DashboardConvergence`, `DashboardRuns` | what rounds keep under any faults; when fault-free rounds settle; all states of fault-free runs |
| `DashboardAside`, `DashboardLag`, `DashboardRest` | any registry that faults and edits leave behind: what one submission does and leaves alone, exactly which dashboards a round makes current, and exactly when rounds come to rest |
| `DashboardSubmission`, `DashboardRemoval`, `DashboardFolders` | exactly when a resource is posted, a removed dashboard deleted, and a folder deleted |
| `DatasourceInputs`, `DatasourceChains`, `DashboardPipeline` | datasource placeholders and when rules chain into one another; the hash decision of the rendering pipeline |
| `IniText`, `GrafanaIni` | the printed text of a section map, its parser, and five configuration sections |
| `NotificationConfig`, `NotificationSync`, `NotificationRounds`, `NotificationNamespaces` | the notification channel registry as shared objects, one round over it, and what rounds achieve in one namespace and in several |
| `DataSources` | the data source controller |
| `ServiceRename` | renaming the service of a Grafana resource |
| `GrafanaReconciler` | the methods that write the plugin and service status of the Grafana resource |
| `Operator` | dashboard rounds and plugin rounds in any interleaving |
| `Seqs`, `Ordering`, `Wrappers` | sequences, orders, results |

Code that updates fields or loops is modelled by classes and methods; each is proved equal to a function on values,
and the theorems are about those functions. A round is the function `Round` of its module, a run a sequence of them.

The central result is `Operator.OperatorSettles`. Plugin rounds read the requests that dashboard rounds record, and
their updates clear the hashes that dashboard rounds compare, so the two controllers disturb each other. The lemma
says that the whole comes to rest all the same, under every interleaving of fault-free turns, from every state that a
fault-free run over a sound pool of resources reaches. Sound means: every version of every resource has a hash, a UID
and a namespace; no two resources ever share a UID; no resource ever changes its UID; and versions of one resource with
equal hashes name the same folder. The resources that are live have distinct names, and the registry accepts every
plugin they request.

Where these premises fail, other theorems say exactly what happens. `DashboardLag.ReachableCurrentIff` and
`DashboardRest.ReachableRestsIff` need only that no two resources share a UID, and hold in every state that any run
reaches, with faults, edited UIDs and hashes that do not tell folders apart.

## What the proofs say about the code

Several promises hold only under a condition. Where the text below says "exactly", the condition is proved in both
directions.

* Plugin rounds with one version per name go on reporting updates for ever exactly when the first round reports one
  and its status stands against some, but not all, of the requested plugins that the registry rejects: the rejected
  ones outside `FailedPlugins` then trade places with those inside it, since failures are forgotten on each update
  (`NeverSettlesIffSplit`, `RejectedPairTradesPlaces`). With several versions of one name there is a second source of
  endless updates: two versions of a name of which the registry knows none (`RivalsNeverSettle`).
* Plugin requests belong to known dashboards in every run exactly when no two resources share a UID
  (`RequestsAreKnownIffUidsIdentify`). Generated UIDs hash the bare concatenation of namespace and name, and
  a UID can also be written into the JSON, so this is a premise and not a fact.
* After a fault-free dashboard round from any state that any run reaches, faults and edited UIDs included, a dashboard
  is current exactly when it did not lag: that is, unless its first known reference carries its hash and has its UID in
  Grafana, while no reference of it records its UID, hash and folder as Grafana holds them (`ReachableCurrentIff`). An
  update that Grafana answers with status 503 is recorded as submitted and leaves such a dashboard, which later rounds
  skip (`UnavailableUpdateLags`, `LaggingIsSkipped`). So does a move to another folder under an equal hash
  (`EqualHashHidesMove`): the hash joins its parts without a separator.
* A dashboard that is removed from the cluster leaves Grafana as long as the operator keeps track of it: once the rounds
  have settled, of the dashboards that it knew, or that were not in Grafana, exactly the live ones are there
  (`DashboardsSettle`, `RemovedDashboardsLeave`, `SettlesAfterFaults`). It loses track when a deletion is not carried
  out, since it forgets the dashboard all the same (`ForgottenIffSent`), and on a restart, since the registry is not
  stored: what is in Grafana without a resource by then stays there (`RestartOrphans`).
* Once no reference is stale, fault-free dashboard rounds come to rest exactly when the first known reference of every
  live dashboard is absent, or carries the UID of the dashboard, or carries its hash while Grafana has the UID of the
  reference (`RestsIff`, `ReachableRestsIff`). When a user edits the UID in the JSON of a live dashboard this fails, and
  the dashboard is posted again in every round (`EditedUidNeverRests`). With stable UIDs it always holds, so the rounds
  settle from whatever faults have left, after more rounds than there were stale references (`SettlesAfterFaults`).
* Two namespaces whose data sources have different URLs undo each other for ever: rounds that take turns come to rest
  exactly when both want the same URLs (`TurnsRestIff`).
* Stale notification channels are forgotten exactly when the resources are listed and no changed channel has JSON that
  is not a channel or has no UID; such a resource ends the function early in every round (`ForgetsIffUnblocked`,
  `BlockedForever`). With several namespaces and names that are distinct across them, a missing channel is forgotten
  exactly when moreover no resource in any namespace has its name (`MissingForgottenIff`). After a fault-free round a
  channel is in Grafana exactly when no forgotten reference carried its UID: a channel renamed with its UID kept is
  updated, then deleted, and then counts as up to date (`HeldIffUidNotStale`).
* A service rename leaves exactly the new service exactly when the service section is set, its name passes validation,
  and no third service was there before (`RenameCompletesIff`). Two quick renames leak a service (`QuickRenamesLeak`).
  Removing the section reads a name from an absent struct in each later round (`RemovedSectionPanics`).
* The list of plugins for the init container says what is installed exactly when no name holds a comma or a colon and no
  version a comma (`BuildEnv`, `EnvIsInjective`).
* The sequential replacement of placeholders equals one simultaneous substitution on all well-formed text exactly when
  the rules after it leave each datasource as it is (`AgreesIffLeftAlone`), provided that the datasources are fenced:
  as each later rule finds them, they neither end in the middle of that rule's placeholder nor start as it goes on after
  its dollar sign. With one rule per input and closed datasources (no open `${`, no `{` at the start, no `$` at the end;
  these are always fenced) it holds exactly when no datasource contains the placeholder of a later rule that changes it
  (`AgreesIffChainFree`); with repeated inputs that is not exact (`RepeatedInputCancels`). Datasources without markup
  meet all of this (`PlainRulesAreSafe`). For datasources that are not fenced, being left as it is, alone and between
  whatever a text can put around it, is proved necessary (`DisagreesAt`); whether that suffices is open. Examples
  outside the premises are `MarkupInRuleChains` and `NestedPlaceholderChains`.
* Parsing the INI text gives back the sections exactly when names and lines fit on lines and no line is empty
  (`IniText.RoundTrip`), which for a configuration means exactly that no printed value contains a line break
  (`ConfigRoundTrip`); a reader then finds every setting as it is (`TextShowsSettings`). An organisation name with a line break prints like another configuration
  (`SmuggledPrintsAlike`).

Where documentation and code disagree the model follows the code.

* `documentation/dashboards.md:185-186` says that a managed folder is deleted once it has no dashboards. The code
  looks at folders only when a resource is deleted. `RoundDeletesFolderIff` says exactly when it asks for a deletion;
  dashboards that move to other folders leave an empty managed folder behind for good
  (`MovedDashboardsLeaveTheirFolder`).
* `documentation/datasources.md:17` describes a list of data sources per resource. The controller uses the first entry
  and ignores the others (`OtherEntriesIgnored`).
* `api/integreatly/v1alpha1/pluginsList.go:63` speaks of versions. `VersionsOf` counts entries.

## Model

| member | source | states |
|---|---|---|
| Semver.PrecedenceIsTotal | api/integreatly/v1alpha1/pluginsList.go:46-58 | precedence is antisymmetric and total, and ties are exactly differences in build metadata |
| Semver.PrecedenceIsTransitive | api/integreatly/v1alpha1/pluginsList.go:46-58 | precedence is transitive |
| Semver.NewerIsTransitive | api/integreatly/v1alpha1/pluginsList.go:46-58 | being newer composes with itself and with ties |
| Semver.PrecedenceExample | api/integreatly/v1alpha1/pluginsList.go:46-58 | the chain of eight versions in section 11.4 of Semantic Versioning 2.0.0 is in ascending order |
| Semver.CoreDecides | api/integreatly/v1alpha1/pluginsList.go:46-58 | a greater major version is newer, then a greater minor, then a greater patch version, and a release is newer than its pre-releases |
| Semver.CoreExample | api/integreatly/v1alpha1/pluginsList.go:46-58 | the chain 1.0.0, 2.0.0, 2.1.0, 2.1.1 in section 11.2 of Semantic Versioning 2.0.0 is in ascending order |
| Semver.IdentifiersDecide | api/integreatly/v1alpha1/pluginsList.go:46-58 | for all pre-releases: the first different identifier decides, numbers as numbers and below words, and otherwise the longer one is newer |
| Ordering.StringOrder | controllers/config/grafanaIni.go:66-70 | a string comes first exactly when it has the smaller character at the first difference, or ends there |
| PluginList.HasSomeVersionOf | api/integreatly/v1alpha1/pluginsList.go:10-17 | true exactly when some entry has the name |
| PluginList.GetInstalledVersionOf | api/integreatly/v1alpha1/pluginsList.go:20-27 | the first entry with the name, and none exactly when the name does not occur |
| PluginList.HasExactVersionOf | api/integreatly/v1alpha1/pluginsList.go:30-37 | true exactly when an entry agrees in name and version |
| PluginList.HasNewerVersionOf | api/integreatly/v1alpha1/pluginsList.go:40-61 | true exactly when an entry of the name is strictly newer; an error exactly when an entry that cannot be compared comes before every newer one. What newer means is `Semver.CoreDecides` and `Semver.IdentifiersDecide` |
| PluginList.StumblesWithoutParse | api/integreatly/v1alpha1/pluginsList.go:40-61 | comparison breaks on some plugin of the list exactly when the list holds a version that does not parse |
| PluginList.VersionsOf | api/integreatly/v1alpha1/pluginsList.go:64-72 | the number of entries with the name, duplicates included |
| PluginList.EntriesPermute | api/integreatly/v1alpha1/pluginsList.go:64-72 | the count does not depend on the order of the list |
| PluginList.SoleEntry | controllers/grafana/pluginsHelper.go:118-131 | a name counted once identifies its entry |
| PluginsHelper.PickLatestVersions | controllers/grafana/pluginsHelper.go:59-77 | fails exactly when some requested version does not parse, and then returns the request unchanged |
| PluginsHelper.PickedExactly | controllers/grafana/pluginsHelper.go:59-77 | picking keeps, in order, exactly the entries at least as new as every other entry of their name; those of one name tie in precedence |
| PluginsHelper.PickedKeepsNames | controllers/grafana/pluginsHelper.go:59-77 | every requested name keeps at least one entry and no name is invented |
| PluginsHelper.PickedIsIdempotent | controllers/grafana/pluginsHelper.go:59-77 | picking twice is picking once |
| PluginsHelper.PickedPermutes | controllers/grafana/pluginsHelper.go:59-77 | a reordered request gives a reordered pick |
| PluginsHelper.FilterPlugins | controllers/grafana/pluginsHelper.go:82-148 | the update flag is false exactly when every installed name is still picked, every picked plugin has failed or is installed in some version, and one that is the only entry of its name in its own version |
| PluginsHelper.FilteredExactly | controllers/grafana/pluginsHelper.go:97-138 | the filtered list is a name-unique subsequence of the pick that avoids failed plugins, and it keeps a name exactly when a wanted entry carries it |
| PluginsHelper.FilterDecides | controllers/grafana/pluginsHelper.go:97-138 | with no name installed twice: failed plugins never pass, installed ones and sole entries of a name always do, of several entries for a new name the first that has not failed passes, and no other one |
| PluginsHelper.ListOrderIrrelevant | controllers/grafana/pluginsHelper.go:82-148 | flag, wanted entries and kept names do not depend on the order of the picked list |
| PluginsHelper.UpdatedIgnoresOrder | controllers/grafana/pluginsHelper.go:82-148 | flag and kept names are invariant under permutation of the requests |
| PluginsHelper.BuildEnv | controllers/grafana/pluginsHelper.go:49-56 | the string, read back at commas and first colons, gives the installed plugins in order if and only if no name holds a comma or colon and no version a comma |
| PluginsHelper.EnvIsInjective | controllers/grafana/pluginsHelper.go:49-56 | two such lists have the same string exactly when they are equal |
| PluginRounds.SettlesWhenQuiet | controllers/grafana/grafana_reconciler.go:317-345 | the first quiet round is followed by quiet rounds only, whatever the order of the requests |
| PluginRounds.SettledIsUpToDate | controllers/grafana/grafana_reconciler.go:317-364 | whatever the registry answers, a settled status is up to date: nothing is installed that is not requested, and every picked plugin has failed or is installed, in its own version if it is the only entry of its name |
| PluginRounds.AcceptedRequestsSettle | controllers/grafana/grafana_reconciler.go:317-364 | when the registry accepts every request, at most the first two rounds report an update and status and environment string stay fixed afterwards, for every start and every order; then nothing is installed that is not requested, and after an update every requested plugin is installed, one requested once in exactly that version, and no version that a requested one beats |
| PluginRounds.NeverSettlesIffSplit | controllers/grafana/grafana_reconciler.go:317-364 | for one version per name and any registry: updates go on for ever if and only if the first round updates and its status stands against some, but not all, of the rejected requests; otherwise three updates suffice |
| PluginRounds.RivalsNeverSettle | controllers/grafana/grafana_reconciler.go:317-364 | for any lists in any orders: with two versions of a name the registry knows none of, all rounds after an update report one |
| PluginRounds.FreshRequestsSettleAtOnce | controllers/grafana/grafana_reconciler.go:317-364 | with one entry per name and none failed before, one update suffices whatever the registry answers |
| PluginRounds.RejectedPairTradesPlaces | controllers/grafana/grafana_reconciler.go:362-363 | two different rejected plugins, of one name or of two, swap places in the failed list in every round |
| PluginRounds.OrderDecides | controllers/grafana/pluginsHelper.go:97-138 | with three versions of one name, two of them rejected, one order of the same requests updates for ever and another settles at once |
| PluginRounds.UpdatePlacesFiltered | controllers/grafana/grafana_reconciler.go:347-364 | with one version per name, after an update the requested plugins in the status are exactly the filtered ones, each in the list the registry says |
| PluginRounds.UpdateSwapsRejected | controllers/grafana/grafana_reconciler.go:347-364 | with one version per name, a further update places the accepted plugins and just those rejected ones that were not placed before |
| PluginRounds.RoundPartitions | controllers/grafana/pluginsHelper.go:97-138 | an updating round splits the filtered list into two subsequences without overlap or loss; another round changes nothing |
| PluginRounds.StatusNamesUnique | controllers/grafana/grafana_reconciler.go:317-364 | in every run from the empty status no name occurs twice across both status lists |
| ControllerConfig.DashboardIdIsInjective | controllers/config/controller_config.go:62-64 | joined identifiers agree exactly when namespace and name do, as namespaces hold no slash |
| ControllerConfig.Config.HasDashboard | controllers/config/controller_config.go:122-129 | the index of the first reference with the UID, or -1 |
| ControllerConfig.Config.AddDashboard | controllers/config/controller_config.go:95-120 | appends a reference with the custom folder name, or replaces the one with the UID, recording the actual folder name |
| ControllerConfig.Config.RemoveDashboard | controllers/config/controller_config.go:145-154 | the last reference takes the place of the removed one; an unknown UID changes nothing |
| ControllerConfig.FirstReference | controllers/config/controller_config.go:95-154 | position by position: the first reference with the UID is overwritten under the actual folder name, or replaced by the last one, and all others stay in place |
| ControllerConfig.NoReference | controllers/config/controller_config.go:95-154 | without a reference of the UID a new one goes to the end under the custom folder name, and removal does nothing |
| ControllerConfig.Config.InvalidateDashboards | controllers/config/controller_config.go:131-137 | clears every hash and nothing else |
| ControllerConfig.Config.SetPluginsFor | controllers/config/controller_config.go:83-88 | the request of one dashboard is replaced |
| ControllerConfig.Config.RemovePluginsFor | controllers/config/controller_config.go:90-93 | the request of one dashboard is dropped |
| ControllerConfig.Config.GetAllPlugins | controllers/config/controller_config.go:66-75 | the requests of all dashboards one after the other, in some order of the keys |
| ControllerConfig.SliceRefinesMap | controllers/config/controller_config.go:95-154 | after any sequence of calls the slice holds no UID twice and stands for the map on which adding is update, removing is deletion and invalidating clears hashes |
| ControllerConfig.LookupRefines | controllers/config/controller_config.go:122-129 | after any sequence of calls lookup in the slice is membership in the map and finds its entry |
| ControllerConfig.GatheredInAnyOrder | controllers/config/controller_config.go:66-75 | two iterations over the requests give permutations of each other |
| GrafanaClient.Client.CreateOrUpdateFolder | controllers/grafanadashboard/grafana_client.go:266-332 | folders, identifier, request and answer in every case: a listed title is found, any other is created, as `Non-Namespaced` when empty; an unavailable listing reads as empty, an unavailable creation yields folder 0 |
| GrafanaClient.Client.HasDashboard | controllers/grafanadashboard/grafana_client.go:178-219 | a dashboard counts as present only when the request succeeds and Grafana has the UID |
| GrafanaClient.Client.CreateOrUpdateDashboard | controllers/grafanadashboard/grafana_client.go:335-389 | stores content and folder under the UID; status 503 counts as success without storing anything |
| GrafanaClient.Client.DeleteDashboardByUID | controllers/grafanadashboard/grafana_client.go:392-430 | the dashboard goes when the request is carried out; every other dashboard and every folder stays as it is |
| GrafanaClient.Client.DeleteFolder | controllers/grafanadashboard/grafana_client.go:523-567 | when carried out and the folder exists, it goes with exactly the dashboards in it; everything else stays as it is |
| GrafanaClient.Client.SafeToDelete | controllers/grafanadashboard/grafana_client.go:569-576 | true exactly when no reference is in the folder |
| DashboardSync.InNamespace | controllers/grafanadashboard/grafanadashboard_controller.go:223-232 | true exactly when a resource has the reference's namespace and name |
| DashboardSync.FindHash | controllers/grafanadashboard/grafanadashboard_controller.go:235-242 | the hash of the first reference to the resource, empty when there is none |
| DashboardSync.FindUid | controllers/grafanadashboard/grafanadashboard_controller.go:245-252 | the UID of the first reference to the resource, empty when there is none |
| DashboardSync.Reconciler.SubmitDashboard | controllers/grafanadashboard/grafanadashboard_controller.go:282-373 | registry and Grafana after one resource, for every combination of faults; `DashboardSubmission.SubmissionDecides` says what that is |
| DashboardSync.Reconciler.DashboardsToDelete | controllers/grafanadashboard/grafanadashboard_controller.go:274-279 | the stale references in order |
| DashboardSync.Reconciler.ForgetDashboards | controllers/grafanadashboard/grafanadashboard_controller.go:375-407 | the deletion loop with its stop at a managed folder still in use; `DashboardRemoval.ForgottenIffSent` and `ForgottenAreGone` say what becomes of the dashboards |
| DashboardSync.Reconciler.ReconcileDashboards | controllers/grafanadashboard/grafanadashboard_controller.go:254-410 | the state after a whole round, for every combination of faults |
| DashboardSubmission.SubmissionDecides | controllers/grafanadashboard/grafanadashboard_controller.go:282-373 | under any answers a resource is posted, in the folder obtained for it, if and only if a folder is obtained, the pipeline succeeds (both runs for a missing dashboard), the resource is new, changed or missing, and its namespace labels match; when it is stored, recorded and its plugins requested is likewise exact |
| DashboardSubmission.OnlyMatchingIsPosted | controllers/grafanadashboard/grafanadashboard_controller.go:351-361 | without matching namespace labels references and dashboards in Grafana stay as they were and no post is logged |
| DashboardSubmission.RoundPostsIff | controllers/grafanadashboard/grafanadashboard_controller.go:254-373 | under any answers the posts that a round logs are exactly those of the resources that are due when their turn comes, and so only of resources whose labels match |
| DashboardRemoval.ForgottenIffSent | controllers/grafanadashboard/grafanadashboard_controller.go:375-407 | under any answers the deletion loop forgets a known UID if and only if it logs a request to delete its dashboard |
| DashboardRemoval.ForgottenAreGone | controllers/grafanadashboard/grafanadashboard_controller.go:375-407 | when deletions are carried out, every UID known before the loop and not known after it is absent from Grafana |
| DashboardRemoval.RoundForgetsIff | controllers/grafanadashboard/grafanadashboard_controller.go:254-410 | under any answers a whole round forgets a known UID if and only if it logs a request to delete its dashboard |
| DashboardRemoval.RoundTracks | controllers/grafanadashboard/grafanadashboard_controller.go:254-410 | as long as deletions are carried out and no confirmation of a post is lost, a round keeps a dashboard that is in Grafana known |
| DashboardSafety.SubmitItemCases | controllers/grafanadashboard/grafanadashboard_controller.go:282-373 | under any faults a submission does nothing to the registry, refreshes the request of a known dashboard, or records the dashboard with its request |
| DashboardSafety.RoundMakesProgress | controllers/grafanadashboard/grafanadashboard_controller.go:375-402 | every round that lists the resources and starts with a stale reference ends with strictly fewer and adds none, even when all deletions in Grafana fail |
| DashboardSafety.FolderDeletionIsSafe | controllers/grafanadashboard/grafanadashboard_controller.go:375-407 | over the whole loop only stale dashboards are deleted, and only managed folders that no reference known at the end is in |
| DashboardSafety.CleanLosesNothing | controllers/grafanadashboard/grafanadashboard_controller.go:375-407 | with accurate folder identifiers no dashboard still in the registry is lost or changed by the loop, under any faults |
| DashboardSafety.RequestsFollowDashboards | controllers/config/controller_config.go:66-93 | in every reachable state, faults and outside changes included, UIDs are unique and each plugin request has a known reference |
| DashboardConvergence.CalmRound | controllers/grafanadashboard/grafanadashboard_controller.go:254-410 | with stable UIDs, hashes that tell folders apart, and a registry that agrees with Grafana, one fault-free round makes every live dashboard current in Grafana and in the registry, in the folder of its title |
| DashboardConvergence.SettledIsFixed | controllers/grafanadashboard/grafanadashboard_controller.go:254-410 | a settled state creates, updates and deletes nothing |
| DashboardConvergence.StaleRunOut | controllers/grafanadashboard/grafanadashboard_controller.go:375-402 | under any faults but failing listings, in any orders: after k rounds no stale reference is left or at least k are gone |
| DashboardConvergence.DashboardsSettle | controllers/grafanadashboard/grafanadashboard_controller.go:254-410 | under the same premises, after as many rounds as stale references, and at least one, every reference is live, every live dashboard is current, of the dashboards that were known or not in Grafana before exactly the live ones are in Grafana, and further rounds change nothing |
| DashboardConvergence.CalmRunsAreCoherent | controllers/grafanadashboard/grafanadashboard_controller.go:254-410 | in every fault-free run, console deletions, invalidations and restarts included, references agree with what Grafana holds |
| DashboardRuns.ReachableDashboardsSettle | controllers/grafanadashboard/grafanadashboard_controller.go:254-410 | the settling theorem from every state that a fault-free run over resources with stable, unshared UIDs and hashes that tell their folders apart reaches, with resources in any order; removed dashboards that were known are gone from Grafana, and the gathered plugin requests then are those of the live dashboards up to order |
| DashboardRuns.RemovedDashboardsLeave | controllers/grafanadashboard/grafanadashboard_controller.go:375-376 | after any fault-free run without a restart and the settling rounds, a UID that was not in Grafana before the run is there if and only if a live resource has it |
| DashboardRuns.RestartOrphans | controllers/config/controller_config.go:50-60 | after a restart no round over the live resources, with or without faults, removes a dashboard that is then in Grafana: one whose resource was removed in between stays for good |
| DashboardRuns.ForgottenHashesArePosted | controllers/grafanadashboard/grafanadashboard_controller.go:312-373 | when no hash is remembered, a fault-free round posts every live dashboard |
| DashboardRuns.SettledGathers | controllers/config/controller_config.go:66-75 | in a settled state gathering yields a permutation of the live dashboards' plugin lists |
| DashboardRuns.RequestsAreKnownIffUidsIdentify | api/integreatly/v1alpha1/grafanadashboard_types.go:134-147 | requests belong to known dashboards in all runs over a set of resources if and only if no two of them share a UID |
| DashboardRuns.SharedUidOrphansRequest | api/integreatly/v1alpha1/grafanadashboard_types.go:134-147 | two resources with one UID leave a request without a reference after one fault-free round |
| DashboardLag.CurrentIffNotLagging | controllers/grafanadashboard/grafanadashboard_controller.go:282-373 | without assuming that registry and Grafana agree, that UIDs are stable or that hashes tell folders apart, a resource is current after its fault-free submission if and only if it did not lag |
| DashboardLag.RoundMakesCurrentIff | controllers/grafanadashboard/grafanadashboard_controller.go:254-410 | the same for a whole round, clean-up included, as long as no resource finds its UID under the name of another |
| DashboardLag.AnyRunKeeps | controllers/grafanadashboard/grafanadashboard_controller.go:254-410 | in every run, with any faults and any changes to Grafana that keep its numbering, UIDs stay unique, references come from resources, and folder identifiers stay distinct |
| DashboardLag.ReachableCurrentIff | controllers/grafanadashboard/grafanadashboard_controller.go:254-410 | from every state any run reaches, with faults and edited UIDs, as long as no two resources share a UID: after a fault-free round a live resource is current if and only if it did not lag |
| DashboardLag.UnavailableUpdateLags | controllers/grafanadashboard/grafana_client.go:335-389 | an update answered with status 503 makes a resource lag |
| DashboardLag.LaggingIsSkipped | controllers/grafanadashboard/grafanadashboard_controller.go:312-345 | a lagging resource whose folder exists is skipped by a fault-free submission, and lags on |
| DashboardLag.EqualHashHidesMove | api/integreatly/v1alpha1/grafanadashboard_types.go:94-121 | a resource that moves to another folder under an equal hash lags and is not moved |
| DashboardAside.CalmSubmission | controllers/grafanadashboard/grafanadashboard_controller.go:282-373 | a fault-free submission refreshes the request exactly when the first known reference of the resource carries its hash and Grafana has the UID of that reference, and posts the resource otherwise |
| DashboardAside.AroundItem | controllers/grafanadashboard/grafanadashboard_controller.go:282-373 | the submissions of the other resources leave everything that concerns a resource as it is |
| DashboardRest.RoundDecides | controllers/grafanadashboard/grafanadashboard_controller.go:254-410 | in a fault-free round without stale references, a resource whose first known reference is absent, has its UID, or is skipped becomes quiet; any other is posted and remains so |
| DashboardRest.RestsIff | controllers/grafanadashboard/grafanadashboard_controller.go:254-410 | once as many fault-free rounds have run as there were stale references, the rounds rest after one more if and only if every live resource then is of the first kind |
| DashboardRest.NeverRests | controllers/grafanadashboard/grafanadashboard_controller.go:254-410 | a resource of the other kind is posted in every further round |
| DashboardRest.ReachableRestsIff | controllers/grafanadashboard/grafanadashboard_controller.go:254-410 | the equivalence from every state any run reaches, with faults and edited UIDs, as long as no two resources share a UID |
| DashboardRest.SettlesAfterFaults | controllers/grafanadashboard/grafanadashboard_controller.go:254-410 | with stable UIDs, from whatever faults have left: after more fault-free rounds than stale references, every reference is live, every live resource is recorded with its hash and present in Grafana, of the dashboards that were known or not in Grafana before no other one is there, and further rounds change nothing |
| DashboardRest.EditedUidNeverRests | api/integreatly/v1alpha1/grafanadashboard_types.go:134-147 | after a fault-free round, a live resource whose UID and hash are edited is posted again in every fault-free round |
| DashboardFolders.RoundDeletesFolderIff | controllers/grafanadashboard/grafanadashboard_controller.go:254-410 | under any faults, a round asks for a folder if and only if resources are listed and, after the submissions, some stale managed reference in it is the last of the folder and no earlier stale managed one shares its folder with a reference that is kept |
| DashboardFolders.OnlyNamespaceFoldersGo | controllers/grafanadashboard/grafanadashboard_controller.go:399-407 | a folder is deleted only for a removed dashboard recorded without a folder name or under that of its namespace |
| DashboardFolders.SoleRemovalDeletesFolderIff | controllers/grafanadashboard/grafanadashboard_controller.go:399-407 | with one removed dashboard, its folder is deleted if and only if it is so recorded and no other reference is in the folder |
| DashboardFolders.FolderStays | controllers/grafanadashboard/grafanadashboard_controller.go:375-407 | a folder in which no managed reference is stale survives the round, under any faults |
| DashboardFolders.MovedDashboardsLeaveTheirFolder | documentation/dashboards.md:185-186 | when all dashboards of a folder move elsewhere, the folder is empty after one fault-free round and still there after any number of them |
| DatasourceInputs.SequentialIsSimultaneous | controllers/grafanadashboard/dashboard_pipeline.go:407-427 | on well-formed text the loop equals one simultaneous substitution in which the first rule of a name wins, for datasources that are fenced and left as they are by the later rules |
| DatasourceInputs.AgreesIffLeftAlone | controllers/grafanadashboard/dashboard_pipeline.go:407-427 | with fenced datasources, the two agree on every well-formed text if and only if later rules leave each first datasource of a name as it is |
| DatasourceInputs.DisagreesAt | controllers/grafanadashboard/dashboard_pipeline.go:407-427 | for any datasources: one that later rules change, alone or in a context a well-formed text can give it, yields a well-formed text on which the two differ |
| DatasourceInputs.SequentialFails | controllers/grafanadashboard/dashboard_pipeline.go:407-427 | the loop fails exactly when some rule has an empty input or datasource |
| DatasourceInputs.RuleOrderIrrelevant | controllers/grafanadashboard/dashboard_pipeline.go:407-427 | with distinct inputs, two orders that fence their datasources and leave them as they are give the same text |
| DatasourceChains.AgreesIffChainFree | controllers/grafanadashboard/dashboard_pipeline.go:407-427 | with one rule per input and closed datasources: agreement on every well-formed text if and only if no datasource contains the placeholder of a later rule, other than one that replaces it by itself |
| DatasourceChains.AllClosedIsFenced | controllers/grafanadashboard/dashboard_pipeline.go:407-427 | closed datasources are fenced off from all rules, whatever happens to them in between |
| DatasourceChains.NoPlaceholderLeft | controllers/grafanadashboard/dashboard_pipeline.go:407-427 | no placeholder of a rule is left in any well-formed text if and only if no first datasource of a name contains one |
| DatasourceChains.PlainRulesAreSafe | controllers/grafanadashboard/dashboard_pipeline.go:407-427 | datasources without markup are closed and fenced, are left as they are, and contain no placeholder |
| DatasourceChains.RepeatedInputCancels | controllers/grafanadashboard/dashboard_pipeline.go:407-427 | with repeated inputs a chain can cancel out: a datasource contains the placeholder of a later rule that changes it, and the two still agree on every well-formed text |
| DatasourceChains.MarkupInRuleChains | controllers/grafanadashboard/dashboard_pipeline.go:407-427 | a datasource that looks like the placeholder of a later rule is replaced in its turn |
| DatasourceChains.NestedPlaceholderChains | controllers/grafanadashboard/dashboard_pipeline.go:407-427 | a placeholder inside an unfinished one separates sequential from simultaneous substitution |
| DashboardPipeline.Pipeline.ResolveDatasources | controllers/grafanadashboard/dashboard_pipeline.go:407-427 | succeeds exactly when all rules are valid, leaves the text alone otherwise, and is the simultaneous substitution on well-formed text whose datasources are fenced and left as they are |
| DashboardPipeline.Pipeline.ProcessDashboard | controllers/grafanadashboard/dashboard_pipeline.go:63-106 | unchanged exactly for an equal hash without force; the hash is recorded before rendering can fail; rendered text resolves and is JSON, the JSON of the resource standing in for an empty text; with valid rules, text that was obtained breaks only when it is not JSON |
| IniText.Write | controllers/config/grafanaIni.go:56-90 | the text is a function of the section map alone, and the second result is its hash |
| IniText.WriteSection | controllers/config/grafanaIni.go:69-83 | a header, the sorted lines and an empty line |
| IniText.KeysInOrder | controllers/config/grafanaIni.go:62-66 | every key once, in ascending order, whatever the order in which the map is visited |
| IniText.SortIsCanonical | controllers/config/grafanaIni.go:62-89 | two lists sort alike exactly when they are permutations |
| IniText.LeastSectionFirst | controllers/config/grafanaIni.go:62-89 | the text starts with the section of the least name, its lines in ascending order, and goes on with the text of the other sections |
| IniText.RoundTrip | controllers/config/grafanaIni.go:56-90 | parsing the text gives back exactly the sections with their sorted lines, empty ones included, if and only if names and lines fit on lines and no line is empty |
| IniText.PrintedIsCanonical | controllers/config/grafanaIni.go:62-89 | two printable maps print alike if and only if they have the same sections with the same lines up to order |
| IniText.LineBreakIsAmbiguous | controllers/config/grafanaIni.go:56-90 | a line with a line break prints like two lines |
| GrafanaIni.CfgPaths | controllers/config/grafanaIni.go:94-105 | the lines of the paths section, printed even when nothing is set |
| GrafanaIni.CfgRemoteCache | controllers/config/grafanaIni.go:115-120 | the lines are those of the fields that are set, in their order |
| GrafanaIni.CfgAuthAnonymous | controllers/config/grafanaIni.go:136-142 | the lines are those of the fields that are set, in their order |
| GrafanaIni.CfgLogFrontend | controllers/config/grafanaIni.go:156-165 | the lines are those of the fields that are set, with the sample rate normalised or dropped |
| GrafanaIni.CfgDashboards | controllers/config/grafanaIni.go:221-226 | the lines are those of the fields that are set, in their order |
| GrafanaIni.ParseConfig | controllers/config/grafanaIni.go:93-296 | the map holds exactly the sections that are set, each with the lines of its set fields |
| GrafanaIni.ConfigRoundTrip | controllers/config/grafanaIni.go:56-296 | parsing the printed configuration gives back its sections with their sorted lines if and only if no printed value contains a line break |
| GrafanaIni.ParsedSections | controllers/config/grafanaIni.go:56-296 | what parsing then gives back is every section that is set and no other |
| GrafanaIni.TextShowsSettings | controllers/config/grafanaIni.go:56-296 | the parsed text holds, under literal section names and keys, the fixed paths, `true` or `false` as each switch is set, numbers that read back as they are, non-empty texts verbatim, and nothing else |
| GrafanaIni.DecimalReadsBack | controllers/config/grafanaIni.go:31-36 | the printed digits of a number read back to it |
| GrafanaIni.TextDeterminesFields | controllers/config/grafanaIni.go:56-296 | texts agree if and only if the same sections are set and every field has the same text |
| GrafanaIni.TextDeterminesSettings | controllers/config/grafanaIni.go:56-296 | texts, and so the hash that restarts Grafana, agree if and only if every setting agrees, with the sample rate compared in its normalised form |
| GrafanaIni.SmuggledPrintsAlike | controllers/config/grafanaIni.go:136-142 | an organisation name that contains a line break and the line of a role prints like that name with that role, although the settings differ |
| NotificationConfig.Config.HasNotificationChannel | controllers/config/notification_controller_config.go:165-174 | the index of the first reference of the name in the list of the namespace, or -1 |
| NotificationConfig.Config.AddNotificationChannel | controllers/config/notification_controller_config.go:51-69 | a known reference object is updated in place and keeps its name, an unknown one is appended as a new object; no other object changes |
| NotificationConfig.Config.RemoveNotificationChannel | controllers/config/notification_controller_config.go:87-96 | swap-removal in the list of the namespace; no object is written |
| NotificationConfig.RemovalSwaps | controllers/config/notification_controller_config.go:87-96 | position by position: the last reference takes the place of the removed one, the others stay |
| NotificationConfig.Config.InvalidateNotificationChannels | controllers/config/notification_controller_config.go:71-79 | clears the hash of every listed object once and nothing else |
| NotificationConfig.Config.GetNotificationChannels | controllers/config/notification_controller_config.go:98-114 | the shared objects of one namespace, or of all in some order of the namespaces |
| NotificationConfig.CallRefines | controllers/config/notification_controller_config.go:51-96 | each call on the lists is the corresponding update of a map keyed by namespace and name |
| NotificationConfig.ListsRefineMap | controllers/config/notification_controller_config.go:51-174 | after any sequence of calls the lists stand for that map, with no name twice in a namespace |
| NotificationConfig.OneNamespaceLists | controllers/config/notification_controller_config.go:98-114 | with one watched namespace both ways of listing agree |
| NotificationSync.FindName | controllers/grafananotificationchannel/grafananotificationchannel_controller.go:222-229 | true exactly when a resource has the name, in whatever namespace |
| NotificationSync.Reconciler.FindHash | controllers/grafananotificationchannel/grafananotificationchannel_controller.go:232-239 | the present hash of the first known reference of the name, seen through the shared object |
| NotificationSync.Reconciler.WriteChannel | controllers/grafananotificationchannel/grafananotificationchannel_controller.go:280-284 | creates when the lookup fails, for whatever reason, and updates otherwise |
| NotificationSync.Reconciler.ManageSuccess | controllers/grafananotificationchannel/grafananotificationchannel_controller.go:317-334 | the channel is recorded with its UID and hash in place of what was recorded for it; objects of other names keep their values |
| NotificationSync.Reconciler.SendChannel | controllers/grafananotificationchannel/grafananotificationchannel_controller.go:280-295 | a channel is recorded exactly when Grafana confirms the write; objects of other names keep their values |
| NotificationSync.Reconciler.SubmitChannel | controllers/grafananotificationchannel/grafananotificationchannel_controller.go:250-295 | registry, Grafana and outcome after one resource, for every fault; objects of other names keep their values |
| NotificationSync.SubmissionDecides | controllers/grafananotificationchannel/grafananotificationchannel_controller.go:250-295 | under any answers a channel is sent if and only if it matches, is new or changed and its JSON holds a UID; requests, content and entry follow from lookup and answer; other JSON is skipped, ends the function with an error, or panics |
| NotificationSync.Reconciler.ChannelsToDelete | controllers/grafananotificationchannel/grafananotificationchannel_controller.go:243-247 | the known references whose name no resource has, in order |
| NotificationSync.Reconciler.SubmitChannels | controllers/grafananotificationchannel/grafananotificationchannel_controller.go:250-295 | the loop over the resources with its early ends |
| NotificationSync.Reconciler.DeleteChannel | controllers/grafananotificationchannel/grafananotificationchannel_controller.go:297-307 | a stale channel is forgotten whether or not Grafana deletes it |
| NotificationSync.Reconciler.DeleteChannels | controllers/grafananotificationchannel/grafananotificationchannel_controller.go:297-307 | the loop over the stale channels |
| NotificationSync.DeletionsRequested | controllers/grafananotificationchannel/grafananotificationchannel_controller.go:297-307 | each stale channel is requested to be deleted, in order, whatever becomes of the earlier requests |
| NotificationSync.Reconciler.ReconcileNotificationChannels | controllers/grafananotificationchannel/grafananotificationchannel_controller.go:208-313 | the state and outcome of a whole round over shared reference objects, for every combination of faults |
| NotificationRounds.SubmitOutcome | controllers/grafananotificationchannel/grafananotificationchannel_controller.go:250-295 | the loop gets through exactly when no resource blocks |
| NotificationRounds.RoundEntries | controllers/grafananotificationchannel/grafananotificationchannel_controller.go:208-313 | an unblocked round keeps an entry exactly for names in the cluster, whatever Grafana answers |
| NotificationRounds.OneRoundSettles | controllers/grafananotificationchannel/grafananotificationchannel_controller.go:208-313 | one fault-free unblocked round records every sendable channel with its current hash and forgets every missing one |
| NotificationRounds.SettledIsFixed | controllers/grafananotificationchannel/grafananotificationchannel_controller.go:208-313 | a settled round makes no call to Grafana and changes nothing, under any faults |
| NotificationRounds.ForgetsIffUnblocked | controllers/grafananotificationchannel/grafananotificationchannel_controller.go:208-313 | with one watched namespace, all missing channels are forgotten in a round if and only if the listing succeeds and no resource blocks |
| NotificationRounds.BlockedForever | controllers/grafananotificationchannel/grafananotificationchannel_controller.go:275-280 | a blocking resource keeps every missing channel known in every later round, under any faults |
| NotificationRounds.HeldIffUidNotStale | controllers/grafananotificationchannel/grafananotificationchannel_controller.go:208-313 | after a fault-free round a live channel is in Grafana with its content if and only if no missing channel has its UID |
| NotificationRounds.FaithfulIffUidsNotStale | controllers/grafananotificationchannel/grafananotificationchannel_controller.go:208-313 | a fault-free round keeps what is recorded true of Grafana if and only if no missing channel has the UID of a live one |
| NotificationNamespaces.ListedIsKnown | controllers/config/notification_controller_config.go:98-114 | a cluster-wide listing holds exactly the entries that lookup finds |
| NotificationNamespaces.MissingForgottenIff | controllers/grafananotificationchannel/grafananotificationchannel_controller.go:208-313 | with any number of namespaces, names distinct across them and any faults, a missing channel is forgotten by a cluster-wide round if and only if the listing succeeds, no resource stops the function when compared with the hash recorded before the round, and none, in whatever namespace, has its name |
| NotificationNamespaces.GoingIff | controllers/grafananotificationchannel/grafananotificationchannel_controller.go:250-295 | for any names, the function gets through if and only if no resource stops it when compared with the hash that earlier resources leave for the first listed reference of its name |
| NotificationNamespaces.GoingIffNoneStops | controllers/grafananotificationchannel/grafananotificationchannel_controller.go:250-295 | with distinct names, the comparison is with the hash recorded before the round |
| NotificationNamespaces.MissingForgottenByOutcome | controllers/grafananotificationchannel/grafananotificationchannel_controller.go:208-313 | for any names, a missing channel is forgotten if and only if the function gets through and no resource has its name |
| DataSources.CheckDup | controllers/grafanadatasource/datasource_controller.go:207-214 | true exactly for members |
| DataSources.Reconciler.CreateMissing | controllers/grafanadatasource/datasource_controller.go:151-181 | collects the first URLs and creates those not listed before the loop, up to a resource without entries |
| DataSources.Reconciler.SourcesToDelete | controllers/grafanadatasource/datasource_controller.go:182-186 | the listed data sources whose URL no resource wants, in order |
| DataSources.Reconciler.DeleteUnwanted | controllers/grafanadatasource/datasource_controller.go:187-202 | a deletion is requested for each of them, failures ignored |
| DataSources.Reconciler.ReconcileDataSources | controllers/grafanadatasource/datasource_controller.go:125-205 | the state and outcome of a whole round, for every combination of faults |
| DataSources.RoundAsks | controllers/grafanadatasource/datasource_controller.go:125-205 | under any answers: a creation is requested exactly for the wanted URLs that were not listed, then, if every resource has an entry, a deletion exactly of the listed sources nobody wants |
| DataSources.OutcomeIs | controllers/grafanadatasource/datasource_controller.go:125-169 | the round ends with an error exactly when the resources cannot be listed, which changes nothing, and panics exactly when one has no entry |
| DataSources.RoundHolds | controllers/grafanadatasource/datasource_controller.go:125-205 | after a fault-free round the number of data sources for a URL is zero when unwanted, the old number when there were some, and the number of resources asking otherwise |
| DataSources.OneRoundSuffices | controllers/grafanadatasource/datasource_controller.go:125-205 | one fault-free round from any state makes the set of URLs in Grafana that of the first URLs of the resources |
| DataSources.TurnsRestIff | controllers/grafanadatasource/datasource_controller.go:130-134 | fault-free rounds for two namespaces that take turns come to rest if and only if both want the same URLs |
| DataSources.QuietIffInStep | controllers/grafanadatasource/datasource_controller.go:125-205 | a round that sees everything leaves Grafana alone if and only if the two sets agree |
| DataSources.GoneIff | controllers/grafanadatasource/datasource_controller.go:125-205 | under any faults, a data source goes if and only if everything was listed, each resource has an entry, none wants its URL, and its deletion succeeds |
| DataSources.UnreadListDuplicates | controllers/grafanadatasource/datasource_controller.go:127-127 | when Grafana's list cannot be read and creations succeed, every resource gets one more data source |
| DataSources.OtherEntriesIgnored | controllers/grafanadatasource/datasource_controller.go:154-169 | lists of resources that agree in their first entries give the same round |
| DataSources.RoundWellFormed | controllers/grafanadatasource/datasource_controller.go:125-205 | identifiers in Grafana stay unique under any faults |
| ServiceRename.WantedName | controllers/model/grafanaService.go:14-19 | an absent or empty name means the default one |
| ServiceRename.DecidesIff | controllers/grafana/grafana_reconciler.go:87-119 | exactly when a round creates, deletes, updates or panics, and which name the status keeps |
| ServiceRename.OnlyThePreviousGoes | controllers/grafana/grafana_reconciler.go:87-119 | a service goes only in a round that saw the wanted one, and it is the recorded previous one |
| ServiceRename.SomeServiceRemains | controllers/grafana/grafana_reconciler.go:87-119 | in every run with arbitrary renames and faults, once a service exists one always does |
| ServiceRename.RoundsReachFinal | controllers/grafana/grafana_reconciler.go:87-119 | from any state three fault-free rounds reach a closed-form final state that further rounds keep |
| ServiceRename.RenameCompletesIff | controllers/grafana/grafana_reconciler.go:87-119 | exactly the new service is left, recorded as previous, if and only if the section is set, the name is accepted and no third service was there |
| ServiceRename.SettledRename | controllers/grafana/grafana_reconciler.go:87-119 | a rename that stays put leaves exactly the new service, recorded as previous, after three rounds from a settled state |
| ServiceRename.QuickRenamesLeak | controllers/grafana/grafana_reconciler.go:94-111 | a second rename one round after the first leaves the service of the first for ever |
| ServiceRename.RemovedSectionPanics | controllers/grafana/grafana_reconciler.go:97-97 | without a service section a rename back to the default name stops in every later round and leaves both services |
| GrafanaReconciler.GrafanaReconciler.ReconcilePlugins | controllers/grafana/grafana_reconciler.go:347-364 | both status lists are overwritten with the accepted and the rejected part of the list, each in order |
| GrafanaReconciler.GrafanaReconciler.GetGrafanaPluginsDesiredState | controllers/grafana/grafana_reconciler.go:317-345 | one plugin round on the status, for some order of the requests; the environment string lists the new installed plugins, and dashboard hashes are cleared exactly on an update |
| GrafanaReconciler.GrafanaReconciler.GetGrafanaServiceDesiredState | controllers/grafana/grafana_reconciler.go:87-119 | action and recorded name are those of the rename protocol |
| Operator.UpdateLowersRank | controllers/grafana/grafana_reconciler.go:317-345 | with all requests accepted, each order of them updates the same statuses, and each update brings the status strictly closer to rest |
| Operator.UpdateReimports | controllers/grafana/grafana_reconciler.go:317-345 | after a plugin update the next dashboard round posts every live dashboard |
| Operator.DashboardsCatchUp | controllers/grafanadashboard/grafanadashboard_controller.go:254-410 | under the same premises, dashboard rounds remove stale references and complete the requests however plugin rounds are interleaved |
| Operator.UpdatesAreBounded | controllers/grafana/grafana_reconciler.go:317-345 | once the requests are complete, at most two turns of any interleaving update plugins |
| Operator.RestLasts | controllers/grafana/grafana_reconciler.go:317-345 | at rest no turn of either kind changes anything |
| Operator.OperatorSettles | controllers/grafana/grafana_reconciler.go:317-364 | for resources with stable, unshared UIDs and hashes that tell their folders apart, and requests the registry accepts: from every state that fault-free runs over them reach, any status and any interleaving, once there were enough dashboard rounds, at most two plugin rounds report an update, and after two plugin rounds and one more dashboard round the operator is in a settled state that no further turn changes, in which of the dashboards it kept track of Grafana has exactly the live ones, no installed plugin is unrequested, and every requested plugin is installed, in exactly its version if requested once, provided there was an update or no failure was recorded |

## Left out

- HTTP, URL building and JSON encoding, and the creation of users, permissions and keys: input and output.
- Kubernetes clients, watches, tickers, leader election, events and resource status messages: framework plumbing.
- Hashes are opaque strings, and SHA functions are parameters. `Hash()` is not assumed to be injective. Only the settling theorems that speak of folders assume that it tells the folders of one resource apart.
- Jsonnet, fetching from URLs and from grafana.com: the text of a dashboard is an input.
- Version parsing (the blang/semver library is not part of this repository) is a partial function; precedence is concrete.
- `strings.ReplaceAll`, `sort.Strings` and `strconv` are modelled by functions with the behaviour their documentation gives.
- The object builders in `controllers/model`, the ingress, route and volume claim choosers, generated code: field copying.
- The regular expression for service names is unanchored and accepts any string with a lower-case letter; it is an opaque predicate.
- Interleavings inside one registry call: search and update are not one critical section in the code. The registries are proved for one caller at a time.
- Dashboard references are values. The registry hands out a slice of shared references, so an invalidation during a dashboard round would also be seen by that round; the model lets rounds and invalidations follow each other. Notification references are objects, and sharing is modelled there.
- The label selector of dashboards (`isMatch`) is not called by the code in a round; namespace labels are a parameter.
- The snapshot of known dashboards that a round works on is a copy, as it is for a cluster-wide request. For a request with a namespace it shares the slice with the registry; the two differ only when two resources share a UID.
- Grafana is taken to refuse a folder title or notification channel UID that exists. That it also refuses a second data source of the same name is covered by the faults of `DataSources`, not by its state.
- Responses of Grafana with missing fields, which the code would dereference, do not occur in the model.
- GrafanaIni.ParseConfig: five of about forty sections are modelled, chosen to use every helper; the others are printed by the same helpers.
- GrafanaIni.ConfigRoundTrip: speaks of the five modelled sections.
- GrafanaIni.ParsedSections: speaks of the five modelled sections.
- GrafanaIni.TextDeterminesFields: speaks of the five modelled sections.
- GrafanaIni.TextDeterminesSettings: speaks of the five modelled sections.
- PluginRounds.NeverSettlesIffSplit: assumes one version per name in the picked list. With tied or non-semantic versions of one name the order of the requests decides whether updates end, so no condition on the requests alone is exact (`OrderDecides`); `RivalsNeverSettle` covers names the registry does not know at all.
- PluginRounds.UpdatePlacesFiltered: assumes one version per name, for the same reason.
- PluginRounds.UpdateSwapsRejected: assumes one version per name, for the same reason.
- DatasourceInputs.AgreesIffLeftAlone: for datasources that touch the placeholder of a later rule with one end, only necessity is proved (`DisagreesAt`).
- DashboardConvergence.CalmRound: assumes stable UIDs and hashes that tell folders apart; without them `RoundMakesCurrentIff` is exact.
- DashboardConvergence.DashboardsSettle: assumes stable UIDs and hashes that tell folders apart; without them `RestsIff` is exact.
- DashboardRuns.ReachableDashboardsSettle: assumes stable UIDs and hashes that tell folders apart; without them `ReachableRestsIff` is exact.
- NotificationNamespaces.MissingForgottenIff: assumes names that are distinct across namespaces; otherwise `GoingIff` and `MissingForgottenByOutcome` apply.
- Operator.OperatorSettles: assumes stable UIDs and hashes that tell folders apart. The number of plugin updates before the dashboard rounds have caught up is not bounded; the requests change until then.
- GrafanaClient.Client.DeleteFolder: the lookup of the folder's UID by identifier and its deletion are one step.
- DataSources.Reconciler.CreateMissing: the status written to the resource is not modelled.
- NotificationSync.Reconciler.SubmitChannel: the status of the resource is modelled only as far as the registry copies it.
