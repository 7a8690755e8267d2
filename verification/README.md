# A verified model of the JprqTunnel operator

The operator keeps one agent pod per `JprqTunnel`; a running agent is what holds a subdomain at the
jprq server. This project models the reconciler as a state machine over a cluster and proves what
every run of it keeps. Four smaller parts of the repository have one theorem each: the subdomain
grammar, the debugger's request ids and request/response pairing, the event framing, and the domain
resolver behind `status.url`.

Verify it with `dafny verify dfyconfig.toml`.

## How it is built

- `PassSpec` says what one reconcile pass does, as a pure function `Pass` of what the pass sees (a
  `View`) and of which calls fail (an `Oracle`): early returns, `Observe` (the reads and the status
  fields they write), `Decide` (a table of eight decisions), `Carry` (its effect), `Persist` (the
  stamped generation and the write-back).
- `Controller` holds the imperative program: an `ApiServer` with mutable maps, a `TunnelObject` whose
  status the pass mutates, and a `Reconciler` with a method for each of the controller's functions.
  `Reconciler.Reconcile` is proved equal to `Pass`, request log included. The body of the reconcile
  function is cut into `ReadInputs`, `Converge`, `EnsurePod`, `Report` and `ReportAgent`.
- `Runs` interleaves passes for any tunnel with users editing, deleting and re-applying, Secrets,
  Services and slices changing, pods being scheduled, evicted and removed, kubelet starting, stopping
  and forgetting containers, and manager restarts with another image. Its state also records the
  inputs each pod was built from and each agent's exits; these two records are read by no pass.
- `GateMeaning` and `PodMeaning` say on bytes, ports, endpoint flags and pod fields when the gates are open and
  what a pod does for its tunnel; `PassTable` states one pass from the objects and failing calls to phase,
  conditions, requests and errors, each as an if-and-only-if.
- `PassFacts` holds what one pass guarantees; `RunTheorems`, `ActiveStatus`, `OneAgent`,
  `ClaimPreservation`, `Convergence`, `Quiescence`, `Isolation` and `Watches` what runs do. `Reachability`
  and `Witnesses` construct runs from an empty cluster into the states the other theorems speak of.
- Writes can be done, refused, or lost, that is, applied although the caller is told they failed.
  Deleting a pod no node has taken removes it at once; otherwise it stays, marked, until it is removed.
- SHA-256 is uninterpreted. No theorem assumes it injective; where a collision could matter the
  conclusion names the two values that would have to collide.

## Where the code does less than its comments or design say

- Every pass stamps `observedGeneration`, error passes too (jprqtunnel_controller.go:145, 540). So an
  edit of a Failed tunnel is swallowed when its first pass ends early with an error. `EditIsSwallowed`
  gives the exact condition, `EditLostForGood` every continuation, `EditLossIsReachable` a run from an
  empty cluster, `EditRearms` the case without failures.
- Failed is set before the pod is deleted (lines 312-321). A refused delete leaves the pod alive behind
  the sticky gate: `TerminalVerdictOutcome`, reached by `FailureIsReachable`.
- While a gate is closed the spec hash is not compared, so an outdated pod is still judged
  (`VerdictSource`, and the run in `OutdatedVerdictIsReachable`). With both gates open this cannot happen
  (`TerminalVerdictIsOwn`).
- `status.lastExitCode` is documented as the most recent exit code (jprqtunnel_types.go:199), but the
  previous termination wins over a present one (classify.go:166-169): `BoundedVerdictLag`,
  `VerdictLagWitness`.
- A pass that ends early with an error keeps phase Active beside TokenReady=False
  (`ActiveWithoutToken` says exactly when), but never beside BackendReady=False
  (`ActiveMeansBackendReady`). For passes that complete, `CompletedPass` excludes both.
- The same passes keep Active beside an `assignedSubdomain` or `backendAddress` that the live agent does
  not hold or dial, although the types document them as what is claimed and what the agent was given
  (jprqtunnel_types.go:183-193): `ActiveBesideOtherClaim` and `ActiveBesideOtherAddress` say exactly when.
- After a manager restart with an unreachable configuration host an Active pass keeps the old URL
  (`UrlAfterActive`, reached by `OldUrlIsReachable`), so `UrlAgreesWithClaim` is about one process.
- The types say that the bounds and the pattern are the server's rules transcribed
  (jprqtunnel_types.go:87-90). They are stricter by exactly the names of form x-y: `GrammarGap`.
- The request ids of client ports 1 to 6 collide with those of other ports (`SameId`).
- A payload of 65536 bytes or more breaks the event stream (`FramingRoundTrip`), and so does a short read
  (`ReadsBackIfFull`).
- specHash is said to cover every input that affects the pod. It omits the operator namespace, which
  is constant in one process; `SpecHashCoversPod` says so.

## Model

| member | source | states |
|---|---|---|
| `RunTheorems.HonestActive` | internal/controller/jprqtunnel_controller.go:184-279 | Honest Active: over every run from an empty cluster, whenever a pass that returns no error leaves phase Active, the live pod's agent status is Running and ready, the pod is not terminating, its recorded inputs are exactly the present ones, a slice of the Service has an endpoint with ready nil or true, and the pod's own fields say that it runs the manager's image, mounts the Secret item that holds the present token under the file it reads, claims the present subdomain and dials `status.backendAddress`; the only exception is a hash collision between the two input records concerned |
| `RunTheorems.ActivePod` | internal/controller/jprqtunnel_controller.go:184-279 | the same for any state satisfying the invariant |
| `RunTheorems.HashDecidesInputs` | internal/controller/pod.go:88-123 | equal spec hashes mean equal inputs, token bytes included, or an explicit collision of the one or the other hash between these two inputs |
| `OneAgent.DeleteBeforeCreate` | internal/controller/jprqtunnel_controller.go:187-229 | along every run, whatever fails, two different pods at one pod key are separated by a state with no pod there: the old claim is gone before a new agent exists |
| `OneAgent.OneAgentPerTunnel` | internal/controller/jprqtunnel_controller.go:187-229 | in every reachable state a tunnel owns at most one pod |
| `OneAgent.CreatesFromGates` | internal/controller/jprqtunnel_controller.go:197-213 | what a pass creates comes from open gates and exactly the inputs they resolved |
| `OneAgent.CreatesCurrent` | internal/controller/jprqtunnel_controller.go:197-213 | a pod is created only where there is none, for a tunnel neither deleted nor finally failed, from the inputs that the cluster, the spec and the manager state at that moment; and the fields of the new pod (name, namespace, labels, owner, image, environment, mounted Secret item) serve this tunnel in this cluster |
| `ClaimPreservation.ClaimIsKept` | internal/controller/jprqtunnel_controller.go:188-253 | claim preservation: along every run in which the hashed inputs keep their value whenever both gates are open and no exit on record is final, the pod keeps its identity, is never asked to terminate, and no pass creates or deletes a pod, whatever flaps or fails |
| `ClaimPreservation.SteadyPass` | internal/controller/jprqtunnel_controller.go:238-253 | one pass of the above: a closed gate never costs a running pod |
| `RunTheorems.TerminalIsSticky` | internal/controller/jprqtunnel_controller.go:131-138 | once Failed with the present generation observed, along every continuation without a real edit or deletion the tunnel object never changes, passes for it send no write at all, and no pass for any tunnel touches its pod |
| `RunTheorems.StickyPass` | internal/controller/jprqtunnel_controller.go:131-138 | one sticky pass is a no-op on the whole state |
| `RunTheorems.ObservedGenerationGrows` | internal/controller/jprqtunnel_controller.go:539-545 | the observed generation never decreases and never exceeds the generation |
| `RunTheorems.FailedIsJustified` | internal/controller/jprqtunnel_controller.go:232-236 | on runs where no API call of the tunnel's passes fails, Failed at observed generation g implies that a pass at generation g saw an agent not running and ready whose recorded exit is terminal under the spec it then had |
| `RunTheorems.FailedProvenance` | internal/controller/jprqtunnel_controller.go:184-236 | with the origin of the verdict: that pass judged the live pod of this tunnel by an exit of this very agent, and if both gates were open then, the pod had been built from the inputs of that moment, up to a hash collision |
| `RunTheorems.TerminalVerdictIsOwn` | internal/controller/jprqtunnel_controller.go:187-236 | in every state with the invariant, hence every reachable one, a terminal verdict comes from the present inputs' pod, unless a gate is closed or hashes collide |
| `RunTheorems.FailedHasCause` | internal/controller/jprqtunnel_controller.go:232-236 | on every run, failing API calls included, Failed at observed generation g implies that a pass at a generation of at most g saw a terminal exit |
| `RunTheorems.HashedPodIsCurrent` | internal/controller/jprqtunnel_controller.go:215-228 | in every state with the invariant, hence every reachable one, a pod that carries the hash of some inputs was built from them, up to a hash collision |
| `RunTheorems.EditRearms` | internal/controller/jprqtunnel_controller.go:131-138 | after a real edit the first pass without API failures leaves Failed if and only if it does not see a terminal exit |
| `RunTheorems.EditLostForGood` | internal/controller/jprqtunnel_controller.go:140-151 | where the promise fails: one Secret read error on the first pass after an edit makes the tunnel sticky for the new spec, and no continuation without another edit ever acts on it |
| `PassFacts.EditIsSwallowed` | internal/controller/jprqtunnel_controller.go:140-182 | exact condition: an edit of a Failed tunnel is swallowed by the next persisted pass if and only if that pass stops with a read, owner-reference, create or replace error, or reads a terminal exit |
| `PassFacts.SecretReadErrorSwallowsEdit` | internal/controller/jprqtunnel_controller.go:174-177 | the smallest instance of it, for every view |
| `PassFacts.FailedAfterPass` | internal/controller/jprqtunnel_controller.go:140-151 | after any persisted pass the generation is stamped, and the phase is Failed exactly when the pass read a terminal exit or stopped early on a tunnel already Failed |
| `PassFacts.TerminalVerdictOutcome` | internal/controller/jprqtunnel_controller.go:311-326 | Failed is recorded before the pod is deleted: the pod outlives the verdict behind the sticky gate if and only if the delete is refused and the status write is not |
| `PassFacts.VerdictSource` | internal/controller/jprqtunnel_controller.go:197-236 | with both gates open a judged pod carries the current spec hash; with a gate closed the annotation is not consulted at all, so an outdated pod can give the verdict |
| `ActiveStatus.ActiveWithoutToken` | internal/controller/jprqtunnel_controller.go:159-182 | exact condition, for every view and every failing call: after a persisted pass Active stands beside a TokenReady that is not True if and only if the tunnel was Active and either the pass failed before the token check on a TokenReady not True before, or it found the token gate closed and then failed to read the Service or its slices |
| `ActiveStatus.ActiveLosesToken` | internal/controller/jprqtunnel_controller.go:159-182 | the same for a tunnel that was Active with TokenReady True: exactly a closed token gate and a failing Service or slice read |
| `PassFacts.ActiveBesideClosedGate` | internal/controller/jprqtunnel_controller.go:174-182 | an instance: a failing Service read keeps Active beside TokenReady=False |
| `ActiveStatus.ActiveMeansBackendReady` | internal/controller/jprqtunnel_controller.go:154-279 | in every reachable state, error passes included, Active implies BackendReady True |
| `ActiveStatus.ActiveAfterPass` | internal/controller/jprqtunnel_controller.go:140-151 | after a persisted pass the phase is Active exactly when the pass read everything and decided so, or stopped early on a tunnel already Active |
| `ActiveStatus.ActiveBesideOtherClaim` | internal/controller/jprqtunnel_controller.go:159-165 | up to a hash collision, in every state with the invariant, hence every reachable one: after a persisted pass Active stands beside an assigned subdomain that the live agent does not claim if and only if the tunnel was Active, the pass stopped early, the pod outlived it, and its agent claims another subdomain than the spec |
| `ActiveStatus.ActiveBesideOtherAddress` | internal/controller/jprqtunnel_controller.go:184-221 | the same for `status.backendAddress` and the address the live agent forwards to |
| `RunTheorems.BoundedVerdictLag` | internal/controller/classify.go:157-176 | in every reachable state the classified code is the last exit of the pod's agent, or the second last exactly when the container is Terminated and still shows an older record; a running and ready agent is never classified |
| `Classify.VerdictFromHistory` | internal/controller/classify.go:157-176 | the same for any status that reflects a history of exits |
| `Classify.KubeletKeepsFaithful` | internal/controller/classify.go:150-156 | starts, exits, back-offs, readiness changes and forgotten records keep the status a true excerpt of the exit history |
| `Classify.VerdictLagWitness` | internal/controller/classify.go:166-169 | the lag is real: a dropped stream followed by a rejected token is judged as the retryable drop |
| `Classify.VerdictTable` | internal/controller/classify.go:57-119 | terminal codes are exactly 10 to 15 less 10 under `retry`; terminal and delete-pod coincide; the token is blamed by 13 and 15 only; the collision setting matters for code 10 only |
| `Convergence.ReachesActive` | internal/controller/jprqtunnel_controller.go:184-279 | convergence: along every calm run the rank (outdated, terminating, absent, unscheduled, not started, not ready, ready, Active) falls by at least the number of productive steps, so at most seven are needed to reach Active on a current, running, ready pod |
| `Convergence.CalmStep` | internal/controller/jprqtunnel_controller.go:184-279 | no calm step of anybody raises the rank or leaves the course, and the productive one lowers it |
| `Convergence.ProductiveStepExists` | internal/controller/jprqtunnel_controller.go:184-279 | short of Active there is always a calm productive step |
| `Reachability.RouteToActive` | internal/controller/jprqtunnel_controller.go:184-279 | from every state on course there is a calm run of at most rank, hence at most seven, steps, with a new identity for every pod it creates, that ends Active on a current, running, ready pod |
| `Reachability.ActiveIsReachable` | internal/controller/jprqtunnel_controller.go:184-279 | for a new tunnel whose inputs are there, a run of at most eight steps leads from an empty cluster to a pass that completes and reports Active, so the premises of HonestActive can be met |
| `Reachability.Arrival` | internal/controller/jprqtunnel_controller.go:184-279 | the run behind it, whose pod is recorded as built from exactly the inputs wanted |
| `Witnesses.FailureIsReachable` | internal/controller/jprqtunnel_controller.go:298-326 | for every terminal exit code and every outcome of the delete: a run from an empty cluster to a sticky Failed tunnel, whose pod stands unasked behind the gate exactly when the delete was refused |
| `Witnesses.EditLossIsReachable` | internal/controller/jprqtunnel_controller.go:140-182 | a run on which a sticky tunnel is edited, one Secret read fails, and the tunnel is sticky for generation 2 with the new spec |
| `Witnesses.OutdatedVerdictIsReachable` | internal/controller/jprqtunnel_controller.go:187-236 | a run on which the tunnel is Failed at generation 2, for a new subdomain, by an exit of the agent that was built for the old one, while the token Secret is gone |
| `Witnesses.OtherClaimIsReachable` | internal/controller/jprqtunnel_controller.go:159-182 | a run on which Active stands beside an assigned subdomain that the live agent does not claim |
| `Witnesses.OldUrlIsReachable` | internal/controller/jprqtunnel_controller.go:255-273 | a run on which, after a restart and a subdomain edit with the configuration host silent, a completed pass reports Active for the new subdomain under the URL of the old one |
| `Witnesses.ColdRun` | internal/controller/jprqtunnel_controller.go:255-273 | a process without override that has no domain and gets none changes no URL, over whole runs |
| `Reachability.FaultlessPass` | internal/controller/jprqtunnel_controller.go:117-152 | a pass without API failures returns no error |
| `Convergence.PassOnCourse` | internal/controller/jprqtunnel_controller.go:188-279 | what a pass without API failures does to pod and phase at each rank |
| `Quiescence.Quiesces` | internal/controller/jprqtunnel_controller.go:140-145 | from any state, after three passes without API failures in a still environment every further pass creates, deletes and patches nothing and leaves the whole state as it is |
| `Quiescence.PassProgress` | internal/controller/jprqtunnel_controller.go:204-228 | after one pass the next is idle, or it creates a pod or waits for one to terminate, and after creating it waits for readiness |
| `Quiescence.RestingRepeats` | internal/controller/jprqtunnel_controller.go:539-545 | a pass that leaves the pod alone is a fixed point: the status it writes makes the next pass write nothing |
| `Isolation.PassesCommute` | internal/controller/jprqtunnel_controller.go:117-326 | passes for two different tunnels give the same state in either order, under any API failures, once the domain is known, and neither changes what the other does |
| `Isolation.ViewUndisturbed` | internal/controller/jprqtunnel_controller.go:117-326 | a pass for one tunnel leaves everything a pass for another reads |
| `RunTheorems.PassIsLocal` | internal/controller/jprqtunnel_controller.go:490-504 | a pass touches no other tunnel, no other tunnel's pod and no shared object |
| `RunTheorems.StatusAlwaysCoherent` | internal/controller/jprqtunnel_controller.go:527-545 | in every reachable state, error passes included, Ready is True exactly when the phase is Active and each condition type occurs at most once |
| `PassFacts.CompletedPass` | internal/controller/jprqtunnel_controller.go:154-279 | after a pass without error: generation observed, a phase set, Active implies TokenReady and BackendReady True, no requeue exactly when Failed, five minutes exactly when Active |
| `PassFacts.ActivePass` | internal/controller/jprqtunnel_controller.go:255-273 | what must hold in the cluster for a completed pass to report Active |
| `RunTheorems.UrlAgreesWithClaim` | internal/controller/jprqtunnel_controller.go:255-273 | in one process, for a tunnel whose URL started empty, after each completed Active pass the URL is empty exactly if no domain is known, and otherwise is the URL of the present subdomain under the one domain the process ever answers with |
| `RunTheorems.UrlRun` | internal/jprqconfig/resolver.go:72-116 | within one process a shown URL means a known domain, and a known domain never changes |
| `PassFacts.UrlAfterActive` | internal/controller/jprqtunnel_controller.go:255-273 | the exact URL after a completed Active pass in any process: rebuilt when a domain is answered, otherwise left as it was, possibly out of date after a restart |
| `DomainResolver.OneDomainPerProcess` | internal/jprqconfig/resolver.go:68-116 | over any sequence of fetch outcomes the answers are None until the first success and that one domain ever after; failures are never cached |
| `DomainResolver.Resolver.Domain` | internal/jprqconfig/resolver.go:72-116 | answer and cache after one call, for every fetch outcome |
| `Runs.RunKeepsInv` | internal/controller/jprqtunnel_controller.go:117-326 | every reachable state keeps the invariant: statuses coherent and not ahead of their generation; every pod sits at its owner's key, is exactly the pod built from its recorded inputs, and its status reflects its exit history |
| `Runs.PassPod` | internal/controller/jprqtunnel_controller.go:197-229 | a pass leaves its pod, creates one where there was none, or asks for deletion of the one it saw; nothing else |
| `Runs.PassKeepsCoherent` | internal/controller/jprqtunnel_controller.go:527-545 | one pass keeps the status coherent under every pattern of failing calls |
| `Runs.ObserveEffect` | internal/controller/jprqtunnel_controller.go:159-186 | the reads change neither phase, URL, Ready nor observed generation, and leave TokenReady and BackendReady saying what the gates found |
| `Runs.CarryEffect` | internal/controller/jprqtunnel_controller.go:188-326 | per decision: which phase and Ready value result, and that an early error keeps the status |
| `PassTable.ErrorTable` | internal/controller/jprqtunnel_controller.go:117-152 | exact condition, over every view and every failing call: a pass returns an error if and only if the tunnel read fails, or it is not skipped and fails early, or it cannot delete the pod of a final failure, or it has a status to write and that write fails; all stated on calls and objects |
| `PassTable.PassErrs` | internal/controller/jprqtunnel_controller.go:117-152 | the same on the decision |
| `PassTable.EarlyMeaning` | internal/controller/jprqtunnel_controller.go:154-236 | failing early and seeing a final exit, from the objects of the cluster and the calls that fail |
| `PassTable.SkippedPass` | internal/controller/jprqtunnel_controller.go:121-138 | a pass on an unreadable, absent, deleted or finally failed tunnel sends nothing and changes nothing, and fails exactly when the tunnel could not be read |
| `PassTable.DecisionTable` | internal/controller/jprqtunnel_controller.go:187-279 | each decision if and only if its condition on pod fields, hash text, token bytes, Service ports and endpoints holds |
| `PassTable.RequestTable` | internal/controller/jprqtunnel_controller.go:187-326 | create is sent exactly for an absent pod behind open gates, delete exactly for an outdated pod or a final exit, patch exactly when the status differs; each at most once, the patch last |
| `PassTable.PhaseTable` | internal/controller/jprqtunnel_controller.go:187-279 | after a pass that does not fail early: Pending, Active, Failed and Degraded each if and only if its condition on the cluster holds |
| `PassTable.ReadyTable` | internal/controller/jprqtunnel_controller.go:187-279 | what Ready says then, with reason and message; for a closed gate exactly what the condition of that gate shows, the token before the backend |
| `PassTable.VerdictRecorded` | internal/controller/jprqtunnel_controller.go:282-326 | a verdict on code c: TokenReady False with AuthFailed or NotAllowlisted exactly for 13 and 15, otherwise as the check found it; last exit code c, its message, and Ready with the reason of c |
| `PassTable.GateConditionTable` | internal/controller/jprqtunnel_controller.go:329-439 | after a pass that read everything: TokenReady and BackendReady True exactly when the cluster gives token and backend, otherwise with the reason for what is missing; a verdict on 13 or 15 overrules TokenReady |
| `PassTable.FieldTable` | internal/controller/jprqtunnel_controller.go:154-326 | pod name, restart count, last exit code, last failure message and URL after every persisted pass, failing ones included |
| `PassTable.UrlTable` | internal/controller/jprqtunnel_controller.go:255-273 | the URL after a completed Active pass as text, from override, cache or a 200 reply that names a domain |
| `GateMeaning.TokenGateMeaning` | internal/controller/jprqtunnel_controller.go:343-377 | the token gate is open if and only if Secret and key are there and the bytes are not a concatenation of UTF-8 white space characters, given as an explicit set; each reason and message if and only if its cause holds |
| `GateMeaning.BlankMeaning` | internal/controller/jprqtunnel_controller.go:366 | trimming leaves nothing exactly of such a concatenation |
| `GateMeaning.TokenExamples` | internal/controller/jprqtunnel_controller.go:366-377 | one byte from 0x21 to 0x7E opens the gate; no bytes at all shut it with EmptyToken |
| `GateMeaning.BackendGateMeaning` | internal/controller/jprqtunnel_controller.go:399-438 | the backend gate is open with a host and a port if and only if the Service is there, that port is its first matching one, and a slice in its namespace with its label has an endpoint with ready nil or true; each reason if and only if its cause holds |
| `GateMeaning.EndpointMeaning` | internal/controller/jprqtunnel_controller.go:467-487 | ready endpoints on the fields of slices and endpoints |
| `GateMeaning.BackendReadMeaning` | internal/controller/jprqtunnel_controller.go:402-418 | slices are listed, and their failure noticed, only for a Service that is there and declares the port |
| `PodMeaning.DesiredServes` | internal/controller/pod.go:131-234 | the pod built from what the cluster gives runs the image, belongs to the tunnel, forwards its subdomain to the first matching port, and reads the token from a mounted item that holds exactly its bytes |
| `PassFacts.DecisionMeaning` | internal/controller/jprqtunnel_controller.go:188-279 | what the cluster must look like for Active to be decided or a verdict to be passed |
| `Controller.Reconciler.Reconcile` | internal/controller/jprqtunnel_controller.go:117-152 | the class method changes cluster, resolver cache and request log exactly as the pass specification says, and returns its result and error; a failing read of the tunnel is an error |
| `Controller.Reconciler.ReconcileBody` | internal/controller/jprqtunnel_controller.go:154-279 | the body leaves status, pods, cache, log and result of the specification for every oracle |
| `Controller.Reconciler.ReadInputs` | internal/controller/jprqtunnel_controller.go:154-186 | the reads at the top, with the status writes already made when one of them fails |
| `Controller.Reconciler.Converge` | internal/controller/jprqtunnel_controller.go:188-279 | the branch order below the reads takes exactly the specified decision |
| `Controller.Reconciler.EnsurePod` | internal/controller/jprqtunnel_controller.go:204-228 | create when absent, delete when the hash annotation differs, nothing otherwise |
| `Controller.Reconciler.Report` | internal/controller/jprqtunnel_controller.go:230-279 | verdict first, then the closed gate, then the state of the agent |
| `Controller.Reconciler.ReportAgent` | internal/controller/jprqtunnel_controller.go:255-278 | Active with URL when running and ready, Degraded otherwise |
| `Controller.Reconciler.ApplyVerdict` | internal/controller/jprqtunnel_controller.go:282-326 | what a verdict leaves in status and cluster, for every outcome of the delete: phase, exit code, message, Ready with the reason, and TokenReady False exactly when the token is to blame |
| `Controller.Reconciler.CheckTokenSecret` | internal/controller/jprqtunnel_controller.go:329-378 | the token gate and its condition; open exactly when the Secret gives a token of more than white space, and then with its bytes; status untouched on a read error |
| `Controller.Reconciler.CheckBackendService` | internal/controller/jprqtunnel_controller.go:385-439 | the backend gate and its condition; open exactly when Service, port and a serving endpoint are there; slices are listed only when Service and port exist |
| `Controller.Reconciler.FindReadyEndpoint` | internal/controller/jprqtunnel_controller.go:467-487 | the nested loops return true if and only if a slice in the namespace with the Service label has an endpoint whose ready is nil or true |
| `Controller.Reconciler.PatchTunnelStatus` | internal/controller/jprqtunnel_controller.go:539-545 | stamps the generation, and writes exactly when the status differs from the original |
| `Controller.ResolveServicePort` | internal/controller/jprqtunnel_controller.go:446-463 | the loop returns the port of the first matching declaration |
| `PassSpec.ResolvePort` | internal/controller/jprqtunnel_controller.go:446-463 | None exactly when nothing matches, otherwise the first match |
| `Classify.JudgePod` | internal/controller/classify.go:157-176 | the guarded steps on a local compute the specified verdict |
| `Classify.FindAgentStatus` | internal/controller/classify.go:141-148 | the search loop finds the first status named for the agent |
| `Classify.AgentStatus` | internal/controller/classify.go:141-148 | absent exactly when no status carries the name, otherwise the first that does |
| `AgentPod.PayloadInjective` | internal/controller/pod.go:88-115 | equal hash payloads mean equal configurations but for the namespace, for all strings, by decoding the JSON text |
| `AgentPod.SpecHashCoversPod` | internal/controller/pod.go:86-228 | in one namespace equal payloads give equal pods for the same tunnel; and equal pods with equal token digests give equal payloads |
| `Classify.StatusMeaning` | internal/controller/classify.go:141-176 | up, and judged by which code, on the fields of the first status named agent |
| `Classify.ReasonTable` | internal/controller/classify.go:57-119 | reason and message if and only if the code |
| `Json.FieldsRoundTrip` | internal/controller/pod.go:88-115 | a decoder recovers the fields of a flat struct from its encoding, with encoding/json's escaping |
| `Json.StructInjective` | internal/controller/pod.go:88-115 | the encoding of a flat struct of scalars is injective |
| `AgentPod.PayloadText` | internal/controller/pod.go:88-115 | the hashed text itself: one JSON object with these nine names in this order |
| `Json.EscapeTable` | internal/controller/pod.go:111-112 | the escape of every special character as encoding/json writes it |
| `Json.PlainText` | internal/controller/pod.go:111-112 | text without special characters stands as it is |
| `AgentPod.PodNameInjective` | internal/controller/pod.go:80-84 | different tunnels have different pod names |
| `TunnelApi.SetThenFind` | internal/controller/jprqtunnel_controller.go:527-535 | an upsert stores the condition under its own type and leaves every other type alone |
| `TunnelApi.SetKeepsTransition` | internal/controller/jprqtunnel_controller.go:527-535 | the time of a condition moves exactly when its truth value does |
| `TunnelApi.SetKeepsUnique` | api/v1alpha1/jprqtunnel_types.go:219-226 | upserts keep the condition list keyed by type |
| `TunnelApi.SetConditionIdempotent` | internal/controller/jprqtunnel_controller.go:539-545 | writing a condition that already reads the same changes nothing, timestamps included |
| `Watches.SecretWatchIsComplete` | internal/controller/jprqtunnel_controller.go:604-609 | if a change of one Secret changes what a pass for a tunnel does, its event enqueues the tunnel |
| `Watches.ServiceWatchIsComplete` | internal/controller/jprqtunnel_controller.go:611-613 | the same for one Service |
| `Watches.SliceWatchIsComplete` | internal/controller/jprqtunnel_controller.go:615-622 | the same for one EndpointSlice, by its old or its new form |
| `Watches.PodWatchIsComplete` | internal/controller/jprqtunnel_controller.go:592-596 | the same for one pod, by the owner of its old or new form, given that pods sit at their owner's key |
| `Watches.PassReadsGates` | internal/controller/jprqtunnel_controller.go:154-279 | a pass depends on Secrets, Services and slices only through the two gates and whether their reads fail |
| `Watches.ServiceLookupIsExact` | internal/controller/jprqtunnel_controller.go:566-574 | for a real object the index lookup returns exactly the tunnels a full scan of backend references would |
| `Watches.SecretLookupIsExact` | internal/controller/jprqtunnel_controller.go:578-609 | a Secret enqueues exactly the tunnels that name it, in the operator namespace only |
| `Watches.SliceLookupIsExact` | internal/controller/jprqtunnel_controller.go:615-622 | a slice enqueues exactly the tunnels of the Service its label names |
| `Watches.ServiceRefKeyInjective` | internal/controller/jprqtunnel_controller.go:547-549 | a reference key made of slash-free names comes from no other pair, slash-free or not |
| `Watches.SlashBreaksExactness` | internal/controller/jprqtunnel_controller.go:547-549 | with a slash in a name the lookup returns a tunnel of another Service |
| `Watches.RequestsByIndex` | internal/controller/jprqtunnel_controller.go:626-641 | one request per indexed tunnel, no duplicates; nothing when the list fails |
| `Watches.MapSecret` | internal/controller/jprqtunnel_controller.go:604-609 | Secrets of other namespaces enqueue nothing; otherwise the tunnels that name it |
| `Watches.MapService` | internal/controller/jprqtunnel_controller.go:611-613 | the tunnels whose backend key is the Service's |
| `Watches.MapSlice` | internal/controller/jprqtunnel_controller.go:615-622 | the tunnels of the Service named by the label; nothing without a label |
| `SubdomainGrammar.PatternMeaning` | api/v1alpha1/jprqtunnel_types.go:93 | for all bounds and strings the counted pattern accepts exactly the well-spelled names whose letters and digits after the first number between the bounds |
| `SubdomainGrammar.ApiGrammar` | api/v1alpha1/jprqtunnel_types.go:80-95 | what the API admits, character by character |
| `SubdomainGrammar.DashCount` | api/v1alpha1/jprqtunnel_types.go:93 | the number of dashes is the number of places with one |
| `SubdomainGrammar.GrammarGap` | docs/DESIGN.md:51 | every name the API admits the server accepts; the server accepts in addition exactly the three-character names x-y |
| `RequestIds.SameId` | cli/debugger/parser.go:37 | for 16-bit ports and any counters two ids are equal if and only if port and counter are, or the two stand in an explicit clash relation |
| `RequestIds.IdsAreUnique` | cli/debugger/server.go:71-77 | from port 7 up equal ids mean equal port and counter |
| `RequestIds.SmallPortsCollide` | cli/debugger/parser.go:61 | each port from 1 to 6 has a collision |
| `Debugger.PairsArrivals` | cli/debugger/static/script.js:218-247 | after any events with unique ids, in any order, each request is shown once, a card shows a response if and only if that response has arrived, and responses without a request are kept |
| `Debugger.PairingIsOrderIndependent` | cli/debugger/static/script.js:218-247 | every permutation of the same events ends with the same pairing |
| `Debugger.DuplicateIdsMakeOrderMatter` | cli/debugger/static/script.js:214-216 | with two responses to one id the order decides which is shown |
| `Debugger.TrafficHasUniqueIds` | cli/debugger/server.go:71-77 | traffic on ports from 7 up, no exchange seen twice, has the unique ids that pairing needs |
| `Debugger.Inspector.HandleEvent` | cli/debugger/static/script.js:218-247 | the recursive handler on mutable lists has the specified effect |
| `Debugger.Inspector.LookForRequest` | cli/debugger/static/script.js:210-212 | the first request with the id |
| `Debugger.Inspector.LookForResponse` | cli/debugger/static/script.js:214-216 | the first waiting response with the id |
| `Debugger.ParseRequests` | cli/debugger/parser.go:29-51 | for any sequence of parser outcomes: exactly the messages before the first error are dispatched, the i-th under connection, 000 and i, with its body only for declared lengths 1 to 65535 |
| `Debugger.ParseResponses` | cli/debugger/parser.go:53-74 | the same for responses |
| `EventFraming.FramingRoundTrip` | cli/jprq/events.go:93-119 | writing a list of payloads and reading as many gives them back in order and consumes the stream exactly if and only if each is shorter than 65536 bytes |
| `EventFraming.UnframeFrame` | cli/jprq/events.go:107-119 | reading back one payload of any length: it is cut to its length modulo 65536 and the rest stays on the stream |
| `EventFraming.FrameBytes` | cli/jprq/events.go:112-118 | the bytes on the wire: length modulo 65536, lower byte first, then the payload |
| `EventFraming.ReadsBackIfFull` | cli/jprq/events.go:93-119 | an event written is read back, with the stream left at its end, if and only if both reads fill their buffers |
| `EventFraming.FullReads` | cli/jprq/events.go:93-105 | with full reads an event is taken as the round trip has it |
| `EventFraming.Connection.WriteEvent` | cli/jprq/events.go:107-119 | appends one frame |
| `EventFraming.Connection.ReadEvent` | cli/jprq/events.go:93-105 | for any numbers of bytes arrived at the two reads: the payload or failure, and what is left on the stream |

## Left out

- Stale informer reads and passes that interleave inside one another: a pass is one atomic step on consistent reads, with one worker. Stickiness and delete-before-create are not claimed under stale reads.
- Pods that anyone but the controller creates or edits in the operator namespace; kubelet, scheduling, eviction and removal are modelled.
- The internals of SHA-256, and its truncation to sixteen digits: the two hashes are arbitrary functions.
- JSON of invalid UTF-8 text, which encoding/json replaces: strings are sequences of characters, escaped as encoding/json does with HTML escaping on.
- The wording of messages (each is kept as its format and arguments, and a pair of texts that render alike from different arguments counts as different), events, log lines, and the API server's one-second rounding of timestamps (a time is a number that the conditions carry).
- Error texts: a failing call is a flag, and results say only that there was an error.
- Parts of the agent pod that are the same for every tunnel (probes, resources, security contexts, mounts).
- Integer widths of ports, exit codes, restart counts and generations, which are unbounded here; the 16-bit length prefix and the 16-bit client port are modelled.
- The client, caches, work queue, leader election and requeue timers beyond the interval returned; `SetupWithManager` beyond its index and map functions; a failed list in a watch mapping drops the event, as in the source, and completeness is about the mapping when the list succeeds.
- Watches.SliceWatchIsComplete: assumes that the tunnel's backend service name is not empty, which the API schema enforces (jprqtunnel_types.go:133).
- Watches.PodWatchIsComplete: assumes that the old and the new pod sit at the key of their owner, which `Runs.RunKeepsInv` proves of every reachable state.
- Isolation.PassesCommute: with a cold cache two passes can answer with two different fetch outcomes, so the domain must be known or overridden; both passes must get different pod identities from the API server.
- Convergence.ReachesActive: does not bound the number of steps that are not productive; that the awaited step is eventually taken is up to the cluster.
- The HTTP exchange and the lock in the resolver: a fetch outcome is a parameter, and calls come one after another.
- gob encoding of events, and decoding into an event that is reused: a payload is a sequence of bytes.
- EventFraming.FramingRoundTrip: is about full reads; `EventFraming.ReadsBackIfFull` says that nothing less will do. Errors of the transport other than having nothing to read are not modelled.
- Debugger.ParseRequests: starts from the outcomes of the net/http parser calls on the connection, with the declared length as a number; read-ahead lost between messages is not modelled, so the i-th message parsed need not be the i-th sent.
- Debugger.ParseResponses: starts from the same outcomes.
- Debugger.TrafficHasUniqueIds: a client port that is used again starts its counter again and repeats ids; the hypothesis that no exchange is seen twice excludes this.
- The page itself: selection, styling and rendering in script.js.
- The agent's connection handling, its health server, configuration loading, command line and exit paths; manifests and wiring.
