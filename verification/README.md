# ngrok-operator: a verified model of its core

The ngrok operator turns Ingresses and Gateway routes into public endpoints. This project models the parts of it
that carry the difficult logic, and proves what they are for:

* **The routing compiler** (`TrafficPolicy`, `IR`, `Routing`, `Matching`, `UserPolicies`, `Compiler`, `Collapse`,
  `WeightedSplit`, `Translator`, `MappingStrategies`, `Endpoints`). Virtual hosts are compiled into ordered
  traffic-policy rules. `TrafficPolicy` interprets such rules: they run in order, a rule fires when all its
  expressions hold, setting variables continues, forwarding and responding stop, and what falls off the end of an
  agent endpoint's policy reaches its own service. `Compiler.Routed` says what a host means without mentioning rules
  or variables, and the theorems relate the two, with and without the "collapse" optimisation. `Routing` holds the
  rules as functions; the methods of `Translator` and `Endpoints` are the loops that build them.
* **The order of routes** (`Sorting`, `RouteOrder`), which makes the first match the most specific one, and the
  **service keys** (`ServiceKeys`, `Texts`) under which endpoints are cached.
* **The sync debouncer** (`Debouncer`): the code as a class with its two channel fields, and a state machine over all
  interleavings that takes the same decisions.
* **Applying generated endpoints** (`Apply`), the **finalizer lifecycle** (`Lifecycle`, `Finalizers`) and the **drain**
  (`Drain`), over clusters whose calls fail at will.
* **The bindings poller** (`Poller`), its **port allocator** (`Ports`) and the **aggregator** with its URL parser and
  printer (`Hostports`).

Everything taken from outside is a parameter or a free choice: regular expressions, users' expressions, URL rewriting and
random numbers (`TrafficPolicy.Env`), the derivation of names, and which API calls fail.

Where the code does not do what it or its documentation intends, the model follows the code, and a lemma says exactly when
it does what was intended (for the drain, under which hypothesis):

* policies on a default destination also run behind a local match of a collapsed host (`Collapse.DefaultPoliciesBreakCollapse`,
  `Collapse.PlainHostDiffers`);
* rewriting the URL of a route that matches on query parameters but no path does not call for a capture of the original
  request (`UserPolicies.CaptureIsEnough`, `UserPolicies.UnseenQueryBreaksMatch`);
* a `Regex` path is compiled to a prefix test (`Matching.RegexPathsDiffer`); `Matching.Accepts` reads it as the code does;
* the scan for collapse candidates ends early (`MappingStrategies.StaysVerboseExactly`, `MappingStrategies.EarlyEndSkipsHosts`);
* hosts that differ only in port and protocol share a name, and the later one overwrites the other's cloud endpoint
  (`Endpoints.OneListener`, `Endpoints.SecondListenerWins`);
* an endpoint that is desired again while it is being deleted is taken for the desired one, and lost (`Apply.StaysExactly`,
  `Apply.DyingEndpointIsLost`);
* a reconcile under way when the drain begins still writes the finalizer (`Lifecycle.DrainingGainsNoFinalizer`,
  `Lifecycle.RacingReconcile`);
* a persisted drain completion does not keep others from handing out the finalizer again (`Drain.CompletionHolds`,
  `Drain.FinalizerComesBack`, `Lifecycle.GainsExactly`);
* an object that holds a desired name can defeat the poller's plan (`Poller.PlanConverges`, `Poller.SquatterDefeatsPlan`);
* an action of the plan can succeed without the status being written (`Poller.FilledExactly`,
  `Poller.CreateLeavesUnfilled`, `Poller.UpdateLeavesUnfilled`);
* a port is given out again while a finalizer keeps the object that has it (`Ports.SharedByInput`,
  `Ports.SharedExactly`, `Ports.SharingRun`);
* a reversed port range wraps around (`Ports.OffsetsExactly`), and `Max` is never given out although the range is documented
  as inclusive (`internal/controller/bindings/boundendpoint_poller.go:24`, `Ports.PortsNeverShared`);
* a hostport with a port but no scheme is refused, against the form the documentation gives (`Hostports.DocumentedForms`).

Two lemmas are about inputs that the repository itself never makes: matchers of other than exact and regex type
(`RouteOrder.UnknownTypesAreNotCanonical`; `pkg/managerdriver/translate_gatewayapi.go:748-763` makes those two only) and
application protocols with a dot (`ServiceKeys.UnknownProtocolCollides`; `pkg/managerdriver/utils.go:202-206` maps to http1 and
http2 only). They show that the premises of the results beside them are needed.

`dafny verify dfyconfig.toml` checks the whole project.

## Model

| member | source | states |
|---|---|---|
| `Compiler.CompilerCorrect` | pkg/managerdriver/translator.go:394-557 | for every host, request and sequence of draws: running the emitted rules does what the host means. Routes are tried in list order; the first that accepts the request (the original one where it was captured) runs its policies, draws if it has several destinations, runs the selected destination's policies and hands over to its service; policies may stop the request on the way, and a route without a service passes it on; else the default destination, else the 404. The reference (`Routed`) knows neither rules nor variables |
| `Compiler.FirstMatchDecides` | pkg/managerdriver/translator.go:394-555 | where all destinations have services and no policy stops, exactly the first accepting route and the destination its draw selects serve the request; without one it is passed on untouched |
| `Collapse.CollapsePreservesMeaning` | pkg/managerdriver/translator.go:404-411 | for every host and request the collapsed policy on the agent endpoint delivers to the same service, or answers the same, with the same rewritten request, the same user actions in the same order and the same number of draws as the verbose policy on the cloud endpoint; if and only if it is not the case that a route matched the local service and the default destination's policies act on the request |
| `Collapse.CollapseExactly` | pkg/managerdriver/translator.go:704-755 | without assuming anything of the default backend's policies: what the collapsed and the verbose policy do, side by side. They differ only after a route matched the local service, and then by one run of the default destination's policies |
| `Collapse.DefaultPoliciesBreakCollapse` | pkg/managerdriver/translator.go:711-720 | the loops that should guard the default destination's policies assign to copies. When, by the reference, a route leads to the local service, the collapsed and the verbose host agree if and only if those policies, whether they change, answer or forward requests, leave this one alone |
| `Collapse.LocalMatchMeaning` | pkg/managerdriver/translator.go:531-546 | the emitted rules mark a local match exactly when the reference says that the local service serves the request by way of a route |
| `Collapse.LeavesAloneExactly` | pkg/managerdriver/translator.go:711-720 | policies in front of a service leave a request as it is exactly when no rule with an action is enabled before one that begins by forwarding to that service |
| `Collapse.PlainHostDiffers` | pkg/managerdriver/translator.go:711-720 | a concrete one-route host on which the request for the local service is answered by the default destination's policy instead |
| `Collapse.VerboseStops` | pkg/managerdriver/translator.go:889-906 | a verbose policy never falls off its end: the last rule answers 404 unconditionally |
| `Collapse.RoutingLockstep` | pkg/managerdriver/translator.go:311-325 | the collapsed and the verbose routing rules run in lockstep: same state but for the local-match variable, until the verbose one forwards to the local service |
| `Collapse.CollapsedIgnoresLocalUrl` | pkg/managerdriver/translator.go:531-546 | the rules of a collapsed host do not mention the URL of the service it collapsed into, so making that URL public changes nothing |
| `Collapse.CollapsedCorrect` | pkg/managerdriver/translator.go:394-557 | compiler correctness of the optimised policy: the collapsed rules, built with the public URL, deliver as the reference does with internal URLs, with the same exact exception |
| `Compiler.DestinationsRun` | pkg/managerdriver/translator.go:468-554 | the emitted range expressions send a draw to the destination it selects, and run that destination's policies only, whether or not it has a service |
| `Compiler.ChoiceRuns` | pkg/managerdriver/translator.go:432-466 | no destination passes the request on, one takes it, several are drawn from once, below the total weight |
| `Compiler.RouteRuns` | pkg/managerdriver/translator.go:394-554 | a route that accepts the request runs its own policies, then what its destinations choose |
| `Compiler.RouteNothing` | pkg/managerdriver/translator.go:413-425 | a route that does not accept the request leaves no mark on the run: no action, no draw, no variable |
| `Compiler.RoutesRun` | pkg/managerdriver/translator.go:394-555 | by induction over the routes: an accepting one decides, unless it passes the request on |
| `Compiler.DefaultRuns` | pkg/managerdriver/translator.go:704-755 | when no route accepts: the default destination's policies, then its service, then the 404 |
| `Compiler.GuardedRuns` | pkg/managerdriver/translator.go:413-419 | where the route matches and the draw selects, guarded user rules run as if they carried no guards, although the guards are re-evaluated after every rewriting |
| `Matching.MatchExprsMeaning` | pkg/managerdriver/translator.go:562-666 | the emitted expressions hold exactly when the criteria accept the request, in both directions, read live or from the captured copy |
| `Matching.HeaderExprsMeaning` | pkg/managerdriver/translator.go:593-625 | all header matchers together: value types outside the known two emit nothing |
| `Matching.QueryExprsMeaning` | pkg/managerdriver/translator.go:627-660 | all query parameter matchers together |
| `Matching.MatchesAsIntended` | pkg/managerdriver/translator.go:562-666 | for every path type but Regex the emitted expressions hold exactly of the requests the criteria mean |
| `Matching.RegexPathsDiffer` | pkg/managerdriver/translator.go:570-591 | the emitted path test agrees with the intended one, whatever regular expressions match, exactly when the path type is not Regex: that one is compiled to a prefix test |
| `UserPolicies.MatchStability` | pkg/managerdriver/translator.go:327-392 | the truth of a route's match expressions is the same before and after its own route-level and destination-level policies ran, for every route but the unprotected ones of the next two rows |
| `UserPolicies.CaptureExactly` | pkg/managerdriver/translator.go:327-380 | the request is captured exactly when some route's own rule adds or removes headers where the route matches on headers, or rewrites the URL where it matches on a path |
| `UserPolicies.CaptureIsEnough` | pkg/managerdriver/translator.go:327-380 | the capture decision keeps a route's own policies off the fields it matches on, unless the route is unprotected, and only then: it matches on query parameters of a known type but no path, rewrites the URL, and nothing else on the host calls for a capture |
| `UserPolicies.UnseenQueryBreaksMatch` | pkg/managerdriver/translator.go:327-380 | every unprotected route whose policies run to their end loses each of its matches to a rewriting that drops the query |
| `UserPolicies.RunIgnoresOwn` | internal/ir/ir.go:221-224 | users' policies commute with any change of the compiler's variables |
| `UserPolicies.RunKeepsSight` | pkg/managerdriver/translator.go:327-392 | wherever a run of users' policies ends, it still shows the fields the criteria read |
| `TrafficPolicy.RunMerged` | internal/trafficpolicy/policy.go:171-179 | a merged policy runs the first and then, unless it stopped, the second |
| `TrafficPolicy.AppendStringUnique` | pkg/managerdriver/utils.go:318-332 | the two loops, including that repetitions inside the appended items survive |
| `TrafficPolicy.AppendUniqueIsConjunction` | pkg/managerdriver/utils.go:318-332 | the merged expression list holds exactly when both lists hold |
| `WeightedSplit.ExactlyOneFires` | pkg/managerdriver/translator.go:468-483 | of the emitted range expressions exactly one holds of each draw, the selected destination's; zero weights anywhere included |
| `WeightedSplit.SharesAreExact` | pkg/managerdriver/translator.go:432-483 | each destination is selected by exactly as many of the draws below the sum of the given weights as its own given weight says, or by one if it has none |
| `WeightedSplit.DrawsBelowSum` | pkg/managerdriver/translator.go:432-456 | the emitted draw is from 0 to one below the sum of the given weights, a missing one counting 1 |
| `WeightedSplit.SelectedContains` | pkg/managerdriver/translator.go:468-483 | the selected destination is the one whose interval, laid after the weights before it, contains the draw, and only that one |
| `Translator.BuildRoutingPolicy` | pkg/managerdriver/translator.go:311-557 | the nested loops yield exactly the specified rule list and cache, though rules are emitted while the cache is still growing |
| `Translator.DestinationsLoop` | pkg/managerdriver/translator.go:467-554 | the running lower bound is the total of the weights before; each destination's rules are guarded and its service is cached |
| `Translator.CaptureNeeded` | pkg/managerdriver/translator.go:327-380 | the scan with its early exits decides whether some route's own action touches a field that route matches on |
| `Translator.MatchExpressions` | pkg/managerdriver/translator.go:562-666 | the loops build the specified expressions in order and without repetitions |
| `Translator.GuardPolicies` | pkg/managerdriver/translator.go:413-419 | every rule of the policies gets the guards, in order |
| `Translator.BuildDefaultDestinationPolicy` | pkg/managerdriver/translator.go:704-755 | the default destination's policies unguarded, its service guarded when the host collapses; fails exactly when no endpoint can be built |
| `Translator.EndpointCache.Ensure` | pkg/managerdriver/translator.go:505-527 | an endpoint is built once per service; later hosts get the one in the cache |
| `Translator.RoutesStable` | pkg/managerdriver/translator.go:505-527 | rules built against a smaller cache are those built against any larger one |
| `MappingStrategies.ValidateMappingStrategies` | pkg/managerdriver/translator.go:93-167 | the whole effect of the two passes: which hosts the scan reaches and what each is given |
| `MappingStrategies.CollapsableServices` | pkg/managerdriver/translator.go:93-128 | exactly the services used by one host only, that host wanting to collapse |
| `MappingStrategies.ChooseFor` | pkg/managerdriver/translator.go:131-166 | the last collapsable service wins, the default service over all, and that ends the scan |
| `MappingStrategies.ChoicesAreSafe` | pkg/managerdriver/translator.go:93-167 | a service chosen by a host is routed to by that host and by no other |
| `MappingStrategies.ChosenExactly` | pkg/managerdriver/translator.go:142-165 | a host collapses into its default service if that may collapse, and otherwise into the last service on its routes that may |
| `MappingStrategies.StaysVerboseExactly` | pkg/managerdriver/translator.go:131-166 | a host that wants to collapse stays verbose if and only if none of its services may collapse or an earlier host's default service collapses |
| `MappingStrategies.EarlyEndSkipsHosts` | pkg/managerdriver/translator.go:159-164 | two hosts, each with a service of its own: the first collapses into its default service, and the second stays verbose although its service may collapse |
| `Endpoints.IRToEndpoints` | pkg/managerdriver/translator.go:170-309 | every host with a policy or routes and a known protocol ends with its listener carrying exactly its policy, whatever the hosts after it add, unless a later host writes its cloud endpoint under the same name; no other host has endpoints. Each agent endpoint has the service it is cached for as its upstream, and internal URLs differ for different services |
| `Endpoints.EntriesTellServices` | pkg/managerdriver/translator.go:843-848 | two agent endpoints with one internal URL are for services that agree in all but application protocol and scheme |
| `Endpoints.ForwardsAreInternal` | pkg/managerdriver/translator.go:826-848 | across all hosts, every forward-internal action of a compiled policy names the URL of a cached agent endpoint, an internal one |
| `Endpoints.OneListener` | pkg/managerdriver/translator.go:260-297 | with distinct public URLs, a host has its listener if and only if it collapsed or no later verbose host has its name; and then exactly one: no other endpoint, agent or cloud, has its URL |
| `Endpoints.SecondListenerWins` | pkg/managerdriver/translator.go:789-794 | the HTTP and the HTTPS listener of one Gateway hostname, leading to one service: neither collapses, both are named alike, and the first ends without a listener |
| `Endpoints.PrefixesTellNames` | pkg/managerdriver/translator.go:789-794 | the names of hosts with the same hostname coincide exactly if namespace and prefix do, as far as sanitising is one-to-one |
| `Endpoints.ListenerDelivers` | pkg/managerdriver/translator.go:170-297 | end to end: what the host's own policy stops ends there; the rest the generated listener, cloud or collapsed, delivers as the reference says, the collapsed one with the exact exception of `Collapse.CollapsedCorrect` |
| `Endpoints.ListenerServes` | pkg/managerdriver/translator.go:170-297 | when all routes lead to services, a request the host's own policy lets through reaches a service of the first route that accepts it: every agent endpoint at the delivered URL, or the collapsed one, has that very service as its upstream; at a collapsed listener as long as the default destination's policies leave the request alone |
| `Endpoints.ServiceIsReached` | pkg/managerdriver/translator.go:826-886 | of every service a host uses: what stands behind its URL is that service, up to the scheme |
| `Endpoints.TranslateHost` | pkg/managerdriver/translator.go:177-297 | one host: its listener, and the endpoints of earlier hosts unchanged |
| `RouteOrder.FirstMatchIsMostSpecific` | internal/ir/ir.go:309-412 | after sorting, the first matching route has an exact path if any matching one has; otherwise its prefix extends every matching prefix; then come regular expressions, other paths, criteria without a path, no criteria |
| `RouteOrder.TiesGoByMatchers` | internal/ir/ir.go:350-397 | at equal paths the first match has headers if any matching route has, then query parameters, then a method, and the least text of each |
| `RouteOrder.FirstMatchIsLeast` | internal/ir/ir.go:309-397 | no matching route would be sorted before the first match |
| `RouteOrder.RoutesOrder` | internal/ir/ir.go:309-397 | the comparator is antisymmetric and transitive, and ties are transitive: a strict weak order |
| `RouteOrder.ComesBeforeIsLess` | internal/ir/ir.go:309-397 | the comparison function, branch by branch, is the lexicographic order on (path present, path type, length, text, headers, query, method) |
| `RouteOrder.RouteList.SortRoutes` | internal/ir/ir.go:309-397 | sorts in place, driven by the comparison function alone |
| `Sorting.SortSorts` | internal/ir/ir.go:309-397 | the result is sorted |
| `Sorting.SortPermutes` | internal/ir/ir.go:309-397 | the result is a permutation |
| `Sorting.SortStable` | internal/ir/ir.go:309-397 | routes that compare equal keep their order |
| `Sorting.SortedUnique` | internal/ir/ir.go:428-450 | two sorted permutations of items without distinct ties are the same list |
| `RouteOrder.MatchersToString` | internal/ir/ir.go:428-472 | the canonical text: sort a copy, then print |
| `RouteOrder.CanonicalText` | internal/ir/ir.go:428-472 | permutations of the same matchers of known types print the same |
| `RouteOrder.TwoMatchersText` | internal/ir/ir.go:428-472 | the text of two matchers of one name, spelled out: exact before regex, with the separators |
| `RouteOrder.UnknownTypesAreNotCanonical` | internal/ir/ir.go:415-425 | with unknown value types the text does depend on the writing order |
| `ServiceKeys.KeyText` | internal/ir/ir.go:282-292 | the printed key is its fields joined by slashes |
| `ServiceKeys.KeysInjective` | internal/ir/ir.go:282-292 | for valid names, and protocols without a dot or a slash, two services print the same key exactly when all but their schemes agree |
| `ServiceKeys.UnknownProtocolCollides` | internal/ir/ir.go:282-292 | a protocol with a dot can print like a client certificate |
| `Debouncer.NoLostSync` | pkg/managerdriver/driver.go:508-600 | over every interleaving of starts, ends, overtakes and cancellations: whoever was told success without running is answered for by the waiter in the slot, an open obligation to call again, or a sync begun later; a full request by a full one |
| `Debouncer.QuietMeansSynced` | pkg/managerdriver/driver.go:508-600 | once nothing runs, waits or owes a retry, each call was followed by a completed sync at least as wide, begun no earlier than the call |
| `Debouncer.RanWasDone` | pkg/managerdriver/driver.go:584-600 | only a sync that ended with success counts as run |
| `Debouncer.OneRunnerOneWaiter` | pkg/managerdriver/driver.go:508-558 | in every reachable state at most one caller runs and at most one open waiter waits, and only during a sync |
| `Debouncer.ResolvedOnce` | pkg/managerdriver/driver.go:533-558 | a waiter that was resolved is never resolved again or differently |
| `Debouncer.StepKeepsInv` | pkg/managerdriver/driver.go:508-600 | every event keeps the invariant behind the previous rows |
| `Debouncer.QueuedKeepsInv` | pkg/managerdriver/driver.go:518-541 | overtaking hands all that the old waiter answered for to the new one |
| `Debouncer.AbsorbedKeepsInv` | pkg/managerdriver/driver.go:519-526 | a partial request may be absorbed by a waiting full one |
| `Debouncer.DoneKeepsInv` | pkg/managerdriver/driver.go:584-600 | the end of a sync, successful or not, leaves everybody answered for |
| `Debouncer.Driver.SyncStart` | pkg/managerdriver/driver.go:508-558 | takes the decision of the state machine; an overtaken channel is closed without a send, no channel is closed twice |
| `Debouncer.Driver.SyncDone` | pkg/managerdriver/driver.go:584-600 | the waiter's channel is sent to and closed once, without blocking; the slots are free |
| `Apply.ApplyEndpoints` | pkg/managerdriver/endpoints.go:60-134 | fails exactly if the API failed a call or an object it must not touch holds a desired name; otherwise every desired endpoint is there with its spec, labels and annotations, and every endpoint with the controller's labels and without an owner of kind Service is a desired one or being deleted. Even a failing run leaves endpoints without the labels or with such an owner as they are and deletes no desired one; a settled cluster gets no write |
| `Apply.ConvergedIsSettled` | pkg/managerdriver/endpoints.go:137-197 | a run without errors leaves the next run with the same desired endpoints nothing to write, even before the finalizers are gone |
| `Apply.StaysExactly` | pkg/managerdriver/endpoints.go:76-97 | after a run without errors every desired endpoint stays once the finalizers are gone, if and only if no desired name was held by an object being deleted |
| `Apply.FinalizedIsDesired` | pkg/managerdriver/endpoints.go:60-116 | and then the managed endpoints are exactly the desired ones |
| `Apply.DyingEndpointIsLost` | pkg/managerdriver/endpoints.go:76-97 | an endpoint that is desired again while it is being deleted: the run succeeds without a write, and then the endpoint goes |
| `Apply.Sweep` | pkg/managerdriver/endpoints.go:76-104 | the first loop: updates what is desired, deletes or marks what is not, takes what it handled off the desired map |
| `Apply.CreateRest` | pkg/managerdriver/endpoints.go:106-116 | the second loop: creates the rest |
| `Apply.ListForController` | pkg/managerdriver/controller_label_list.go:27-46 | the union of the listings, each object once, in order of first appearance |
| `Apply.ListingIsDuplicateFree` | pkg/managerdriver/controller_label_list.go:27-65 | however the selectors overlap, the listing has every managed object once, which is what apply needs |
| `Apply.DedupeMeaning` | pkg/managerdriver/controller_label_list.go:48-65 | every UID listed is kept exactly once |
| `Drain.Drainer.DrainAll` | internal/drain/drain.go:90-125 | under arbitrary failures, and whatever others do meanwhile: no errors means that every kind was listed and each of its objects was absent or without the finalizer then or later in the pass. The errors are exactly the handlers and listings that failed and the missing kinds that are not of the Gateway API; Total = Completed + Failed counts the handlers called; only CloudEndpoints, AgentEndpoints, Domains, IPPolicies and BoundEndpoints are ever deleted, and none unless the policy is Delete; the drainer itself gives nothing the finalizer |
| `Drain.Drainer.DrainList` | internal/drain/drain.go:193-230 | the same for one kind, an optional kind that is not installed included |
| `Drain.Drainer.DrainOperatorResource` | internal/drain/drain.go:135-168 | Delete deletes and waits, Retain only strips the finalizer; a policy outside the schema does nothing and reports success |
| `Drain.Drainer.WaitForDeletion` | internal/drain/drain.go:171-191 | success means the object is gone |
| `Drain.EveryKindDrained` | internal/drain/drain.go:90-125 | the handlers cover every kind of resource |
| `Drain.HandlersFit` | internal/drain/drain.go:93-107 | the handlers that may delete are those of the five operator kinds, and the optional kinds are the four of the Gateway API |
| `Drain.Orchestrator.HandleDrain` | internal/drain/orchestrator.go:111-177 | Complete is returned exactly when completion is persisted, and behind it there is such a pass; Retry exactly when the pass had errors, Failed when only the status could not be written; a completed drain is not run again |
| `Drain.Orchestrator.Delete` | internal/controller/ngrok/kubernetesoperator_controller.go:248-299 | the operator is deregistered only behind a completed drain, which is not run again, and always then unless a call fails |
| `Drain.CompletionHolds` | internal/drain/orchestrator.go:111-177 | once completion is persisted nothing carries the finalizer, provided that nobody handed it out since the pass began |
| `Drain.CalmPassClears` | internal/drain/drain.go:90-125 | the same of any history with a pass without errors |
| `Drain.FinalizerComesBack` | internal/drain/orchestrator.go:166-175 | a history in which somebody else does hand it out: the pass is complete and an object carries the finalizer |
| `Lifecycle.Controller.Reconcile` | internal/controller/base_controller.go:72-134 | with others acting between the look-up and the rest, a reconcile takes the steps of a run (`IsRun`) and no others. It fails exactly if one of its calls does; otherwise it calls exactly one of Create and Update for a live object unless the drain was seen, Delete for a deleted one with the finalizer and a recorded resource, and nothing else |
| `Lifecycle.Controller.LookUp` | internal/controller/base_controller.go:74-92 | a reconcile goes on, with the object as read, exactly if the object could be read and is deleted or the drain was not seen |
| `Lifecycle.Controller.Act` | internal/controller/base_controller.go:94-131 | fails exactly if one of its calls does. A live object ends with the finalizer registered, by a patch that disregards what happened since, and Create or Update is called after that; of a deleted object read with the finalizer Delete is called exactly if a resource is recorded, and it ends without the finalizer |
| `Lifecycle.RunsStayGuarded` | internal/controller/base_controller.go:72-134 | in every run of interleaved reconciles, users' actions and drain steps, an object whose recorded resource still exists carries the finalizer, unless the drainer took it off |
| `Lifecycle.LostOnlyAfterDelete` | internal/controller/base_controller.go:112-131 | a reconcile takes the finalizer only off a deleted object, once its recorded resource is gone |
| `Lifecycle.RecordedOnlyGuarded` | internal/controller/base_controller.go:94-111 | a reconcile records a resource only on an object whose finalizer is persisted, or was until the drainer took it off |
| `Lifecycle.NextKeepsInv` | internal/controller/base_controller.go:72-134 | one step of such a run keeps the invariant, which also ties what a reconcile has read to the object as it is |
| `Lifecycle.DrainingGainsNoFinalizer` | internal/drain/state.go:92-132 | once the drain flag is set it stays set, and no object gains the finalizer, however long the run, but those for which a reconcile was under way that had looked before |
| `Lifecycle.GainsExactly` | internal/drain/state.go:92-126 | a live object gets the finalizer in some run if and only if this process has not seen the drain or such a reconcile is under way; what the status says is not enough |
| `Lifecycle.RacingReconcile` | internal/drain/orchestrator.go:114-125 | the race, as a run: a reconcile looks, the drain begins, the finalizer is written |
| `Lifecycle.Controller.IsDraining` | internal/drain/state.go:92-126 | unless the look-up failed, the flag ends set exactly if it was or the persisted condition says so; it is never unset, and a failed look-up answers no |
| `Lifecycle.Controller.SetDraining` | internal/drain/state.go:128-132 | sets the flag |
| `Finalizers.AddFinalizer` | internal/util/k8s.go:42-46 | writes the legacy key if it is missing and touches no foreign key |
| `Finalizers.RemoveFinalizer` | internal/util/k8s.go:48-55 | both keys are gone, foreign ones stay, and it tells whether anything changed |
| `Poller.FilterActions` | internal/controller/bindings/boundendpoint_poller.go:338-381 | each desired URL is planned once, as an update or a create; each existing object is updated or deleted, never both; no assumption on the listed objects |
| `Poller.PlanConverges` | internal/controller/bindings/boundendpoint_poller.go:288-333 | running the three lists call by call in any interleaving, with failures before and after their effect and finalizers that delay deletions, until all succeeded: of the objects not being deleted there is exactly one per desired URL, with its name, URL and spec, provided no listed object holds a desired name without being the one to update, or while being deleted |
| `Poller.SquatterDefeatsPlan` | internal/controller/bindings/boundendpoint_poller.go:383-466 | and only then: whenever there is such an object, some run of the whole plan succeeds throughout and leaves the URL without its object |
| `Poller.FilledExactly` | internal/controller/bindings/boundendpoint_poller.go:383-535 | a desired URL is sure to end with its status filled, however its plan runs, if and only if it has an object to be updated whose status is as wanted already or differs in the number of endpoints or by a missing ID; so never when the object is to be created |
| `Poller.CreateLeavesUnfilled` | internal/controller/bindings/boundendpoint_poller.go:418-438 | of any plan with a create, a run in which every action succeeds and the status of the created object stays empty |
| `Poller.UpdateLeavesUnfilled` | internal/controller/bindings/boundendpoint_poller.go:488-491 | of any plan with an update whose status looks as wanted and is not, a run in which every action succeeds and the status stays |
| `Poller.StepKeepsTrack` | internal/controller/bindings/boundendpoint_poller.go:383-552 | every call of every attempt keeps each desired URL either done or covered by a pending action |
| `Poller.PlanIsOnTrack` | internal/controller/bindings/boundendpoint_poller.go:338-381 | the plan starts that way |
| `Ports.PortsNeverShared` | internal/controller/bindings/boundendpoint_poller.go:247-261 | over every run of creates and deletes between two refreshes, no two objects that are not being deleted share a port, their ports are held, and every port held lies in [Min, Max): Max itself is never given out |
| `Ports.SharedExactly` | internal/controller/bindings/boundendpoint_poller.go:537-552 | all objects, those that wait for their finalizers included, keep ports of their own throughout a run if and only if no port of a terminating object is taken |
| `Ports.SharedByInput` | internal/controller/bindings/boundendpoint_poller.go:247-261 | by the state a refresh leaves: every run keeps all ports distinct if and only if nothing is to be deleted |
| `Ports.SharingRun` | internal/controller/bindings/boundendpoint_poller.go:537-552 | a run in which one is: the delete frees the port while a finalizer keeps the object, and the listing of both makes the next refresh fail |
| `Ports.StepKeepsInv` | internal/controller/bindings/boundendpoint_poller.go:537-552 | a delete retried after it took effect never frees a port that a live object holds |
| `Ports.OffsetsExactly` | internal/controller/bindings/port_allocator.go:18-25 | the 16-bit offset arithmetic never wraps exactly when Min <= Max or Max is 0 |
| `Ports.FreeIsTheRest` | internal/controller/bindings/port_allocator.go:74-78 | the free count is the size less the ports held |
| `Ports.HeldUpdate` | internal/controller/bindings/port_allocator.go:29-45 | setting or clearing one bit changes exactly one port |
| `Ports.PortBitmap.Set` | internal/controller/bindings/port_allocator.go:29-36 | fails exactly when the port is out of range or held, and changes nothing then |
| `Ports.PortBitmap.SetAny` | internal/controller/bindings/port_allocator.go:39-48 | fails exactly when all ports are held; otherwise takes one that was free |
| `Ports.PortBitmap.IsSet` | internal/controller/bindings/port_allocator.go:52-59 | below the range an error, beyond it not set |
| `Ports.PortBitmap.Unset` | internal/controller/bindings/port_allocator.go:62-72 | frees that port and no other |
| `Ports.PortBitmap.NumFree` | internal/controller/bindings/port_allocator.go:74-78 | the size less the ports held |
| `Ports.PortBitmap.Replace` | internal/controller/bindings/port_allocator.go:82-86 | takes over the other bitmap, and with equal starts the same ports |
| `Ports.PortBitmap.Refresh` | internal/controller/bindings/boundendpoint_poller.go:247-257 | succeeds exactly when the listed ports are distinct and in range, and then holds exactly those; otherwise the allocation is as before |
| `Hostports.HostportRoundTrip` | internal/ngrokapi/bindingendpoint_aggregator.go:98-175 | parsing the printed form of any parse result gives it back, exactly when its port did not wrap to a negative number |
| `Hostports.ParsesAreParsed` | internal/ngrokapi/bindingendpoint_aggregator.go:103-175 | whatever the inputs, a parse yields a lower-case scheme, two labels without dots and a 32-bit port |
| `Hostports.PrintInjective` | internal/ngrokapi/bindingendpoint_aggregator.go:98-100 | different parse results print differently, so the map groups by the tuple |
| `Hostports.PortNeedsScheme` | internal/ngrokapi/bindingendpoint_aggregator.go:103-143 | the documented form with a port but without a scheme is refused for every protocol |
| `Hostports.DocumentedForms` | internal/ngrokapi/bindingendpoint_aggregator.go:103-175 | the documented form in its four shapes is accepted if and only if a port comes with a scheme, the scheme agrees with the protocol, tcp has a port and the port fits in 64 bits; and then it is read as meant |
| `Hostports.TailIsIgnored` | internal/ngrokapi/bindingendpoint_aggregator.go:103-175 | a path, a query or a fragment behind the authority does not matter |
| `Hostports.AggregateBindingEndpoints` | internal/ngrokapi/bindingendpoint_aggregator.go:36-87 | one group per tuple that occurs, holding all its endpoints and no others in input order; the rest are reported, in order |

## Left out

- TCP and TLS listeners: their connection-phase rules, which are emitted only for one route with several destinations; such hosts take part in the cache, the collapse choice and the listener bookkeeping only.
- Translator.BuildRoutingPolicy: HTTP and HTTPS listeners only, because the connection phase is left out.
- Translator.DestinationsLoop: HTTP and HTTPS listeners only, because the connection phase is left out.
- The response phase of policies, and TLS termination rules put before a listener's policy.
- Regular-expression matching of paths: `Matching.RegexPathsDiffer` says where that matters.
- Expressions are terms instead of strings: equal texts are equal terms, and an expression over an unset variable is false.
- Compiler.CompilerCorrect: several destinations have non-negative weights with a positive total, policies do not use the compiler's own variables, and no route is unprotected in the sense of `UserPolicies.Unprotected`, for which the result is false.
- UserPolicies.MatchStability: excludes unprotected routes (a query parameter and no path in the criteria, a URL rewriting among the policies, no capture on the host), because the property is false for them (`UserPolicies.UnseenQueryBreaksMatch`).
- Default weights are read as 1 and not written back into the destination.
- The cache is keyed by the service key's fields instead of its text; `ServiceKeys.KeysInjective` is the reason this is the same for valid names.
- Endpoints.IRToEndpoints: how names are made fit for Kubernetes is a parameter (`Endpoints.CloudName`); agent endpoints stay keyed by service, so collisions of their sanitised names are not modelled. Every host has a base policy object of its own, although Gateway listeners can share one.
- URLs are kept as the fields they are printed from; that the printed form shortens the hashes of UIDs and certificates, and leaves out default ports, is not modelled. The upstream of an agent endpoint stands for the URL and the protocol printed from that service.
- Labels, annotations, metadata, descriptions, owner references and client configuration of generated endpoints.
- The translation of Ingresses and Gateway API objects into virtual hosts, including host globs and reference grants.
- The library's stable sort is an insertion sort; it is determined by the comparator up to what `Sorting` proves.
- RouteOrder.RouteList.SortRoutes: a route with a path has a path type, which the code dereferences.
- Debouncer: the option to allow concurrent syncs, and that a sync is skipped while draining. An error or a requeue returned to a caller is taken as an obligation to call again.
- Apply: specs and nil as against empty maps are compared as values; agent and cloud endpoints take the same steps and are modelled once; what others do to endpoints while a run is under way is not modelled.
- Lifecycle.Controller.Reconcile: reconciles of one object do not overlap, as the manager guarantees; after the look-up the rest of a reconcile is one step; a status write fails on an object other than the one read.
- Status writes and their conflict retry, events, conditions, and the translation of errors into requeues.
- Drain: that nobody hands out the finalizer while draining is a hypothesis (`Drain.Calm`). `Lifecycle.DrainingGainsNoFinalizer` gives it for one process that has seen the drain flag and has no earlier reconcile under way; a failed look-up, another process, or one started after completion, when the Draining condition is False again, need not have seen it. The pause of two seconds before a pass is for reconciles under way, and is not modelled. The bound on reported error texts is not modelled.
- Drain.Drainer.DrainAll: a policy other than Delete or Retain reports success without clearing operator resources, so completion is stated for the two policies of the schema.
- Poller: a spec's scheme, target and metadata are one value and its port is in `Ports`; the status fields of the controller, and objects deleted by others while a plan runs, are not modelled. Name derivation is an injective function. Listed objects have distinct names: the listing goes over all namespaces while creates and updates use one, and objects elsewhere are not modelled.
- Ports.PortBitmap.SetAny: which free port is taken; the library goes through the range serially.
- Ports: goroutines of an earlier poll that outlive a refresh.
- Hostports.ParseUrl: user information, bracketed or percent-encoded hosts, several colons in a host and characters no host name has are refused, and what follows the authority is not checked.
- ngrok API calls, certificates, health checks, forwarder connections, the agent, and the command-line programs.
