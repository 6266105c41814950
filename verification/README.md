# Verification of the private LLM operator's protocols

This project models the hard parts of a Kubernetes operator that serves language models, either hosted on
the service cluster or on a cluster the tenant brings (BYOC), and proves what they guarantee:

- **BYOC target lifecycle** (`Lifecycle`, `Interference`, `CleanupProgress`, `Provisioning`, `LifecycleController`,
  `LifecycleTheorems`, `Scenario`): provisioning, moving, cleaning up and finalizing a tenant target across two clusters.
- **TLS renewal** (`Renewal`): delivery of the serving certificate with a last-valid cache.
- **API keys** (`Tokens`, `TokenController`, `Auth`, `KeyFile`): minting, binding, rotation and withdrawal by
  the token controller, the independent verifier, and the BYOC key file.
- **Slugs and routes** (`SlugPolicy`, `JsonFields`, `SlugRoute`): policy parsing, slug selection and the route
  check.
- **Budgets and convergence** (`Ceilings`, `Workload`).

`Calls`, `Runs` and `Names` hold what they share: failing calls, finite histories of a state machine, and name
syntax.

## How to read it

Where the operator works on shared stores, a *machine* says what one atomic step may be: a guard for every
action of the surroundings (tenants, other instances, certificate and DNS controllers), a guard for every API
call of the operator, and an effect for each. A *class* holds the reconcile code, one method per function of the
program. Before every API call the surroundings act any number of times, and every call may be lost, succeed, or
take effect while its answer is lost; a crash is the same as losing every remaining call. Each method is proved to
extend the history by permitted steps only, so the theorems about all histories hold of everything the code does.
Optimistic locking, UID preconditions and retries after conflicts are part of the model.

`calm` runs, without interference or failing calls, are used only for results about progress: what a pass
achieves, and that provisioning and cleanup end. What a reconcile is told by code and systems outside the model (checks of
settings and of the hosted route, the revision of usable issued material, rollout, the probe of the public host, the hosted
objects) is its parameter, an `Oracle`; results about all runs hold whatever it says.

What is taken for granted:

- Reads return the current state. Informer caches that lag behind are not part of the model.
- SHA-256 identities are modelled by what is hashed (a `Target` is an API trust identity with a cluster UID, a
  `Host` a target with a domain), hence without collisions. For derived slugs the digest is a parameter, and only
  the theorems that need it ask that it tell two UIDs apart.
- `generateToken` returns a value that was never used before, UIDs are not empty and not reused.
- X.509 parsing, chain verification, the leaf fingerprint, address and URL syntax and RFC 3339 parsing are parameters.
- Only the operator and the certificate controller it has asked write the operator's marks; a tenant can remove
  them on the tenant's own cluster. Nobody else writes an owned credential cache, a bound last-valid cache or the key file
  in a remote Secret that carries our mark; the owned credential cache is not garbage-collected before its instance.
- No finalizer but the operator's holds the instance.
- A cluster does not change its identity, and the operator is not reconfigured, in the middle of one reconcile;
  between reconciles both happen freely.
- Revocations show: a source Secret that holds a revoked pair shows it by its own mark or by its Certificate's, and a
  revoked pair does not come back there unmarked. A revocation of the Certificate concerns the pairs in its source
  Secret and in the cache at that time.
- Lifecycle runs start with an unprovisioned instance and no object that carries its mark.

## Findings

Four things the code does not guarantee, each with a concrete run and the exact condition:

- *Deletion can get stuck.* cleanupBYOC removes the cached credentials before the finalizer is removed
  (`internal/controller/llminstance_byoc.go:825`). `Scenario.StuckDeletion` is a run in which the finalizer write is
  lost. `FinalizeInstance` shows that whenever cleanup came to its end, whatever the call returns, the instance is gone
  or stuck; `RetryStuck` that stuck is forever; and `DrainExactly` that, all else being in order, a deletion completes
  exactly when it is not stuck. (The cache is a dependent of the instance. Under foreground deletion the garbage collector
  may remove it first, which is another way into the same state; the model has background deletion only.)
- *Cleanup can lose the race against the first issuance.* When the source Secret is not there yet, cleanupBYOCManagedTLS
  deletes a Certificate even if that never came to ask for its UID (`internal/controller/llminstance_byoc_tls.go:586-600`).
  If its controller issues while the finalizer is pending, the Secret carries no UID, and cleanup refuses it from then on
  (`internal/controller/llminstance_byoc_tls.go:616-623`). `Scenario.RacedSecret` is such a run, with ordinary controllers
  only; `Scenario.AbandonedSecret` is one in which somebody else removes the Certificate. `AbandonedCause` says that there is
  no other way: the Certificate goes beside an unlabelled Secret, removed by others, or deleted by the operator without ever
  having asked. `LabelledForever` says that once it has asked, no history abandons its Secret; `AbandonedForever` that an
  abandoned one stays, with the finalizer in place, until somebody else removes it; and a calm pass of `CleanupManagedTls` or
  `FinalizeInstance` after issuance has stopped fails without effect exactly when the Secret is abandoned. The condition a
  caller can read beforehand is `IssueSafe`: the Certificate is gone, or has asked for its UID, or its Secret is already
  there. `DrainUnlessRaced` shows that, all else being in order, cleanup completes whatever is issued between its passes
  exactly when that holds; without it, `LoseRace` abandons the Secret from every such state.
- *Cleanup can request a Certificate again.* If Certificate and source Secret vanish between two reads of one pass, the
  handshake code creates the Certificate anew; `Scenario.RecreatedCertificate` is such a run. `ObtainCertificate` says when:
  only if Certificate, source Secret and last-valid Secret were each absent when that call looked them up, and in calm
  runs exactly then. Nothing but it and its output ever becomes ours during cleanup, and without interference nothing at
  all (`CleanupManagedTls`, `CleanupByoc`, `EmptyTarget`).
- *Revocation does not reach the last-valid cache.* A visible revocation stops delivery, but material that was delivered
  and then revoked, through its source Secret or through its Certificate, is delivered again from the cache once the next
  issuance has replaced the source Secret and is not Ready or not valid (`RevokedMaterialReturns`). `RevokedExactly` gives
  the exact condition for one decision, and `Deliver` and `Run` carry it for every attempt of every run.

`Ceilings` needs one precondition on model arguments, `Settable`: each of the two flags is followed by an argument of its
own. Every model of the table meets it (`TableSettable`); `DanglingFlag` shows what happens without it.

## Model

| member | source | states |
|---|---|---|
| `Lifecycle.Reachable` | internal/controller/llminstance_byoc.go:211-378 | the lifecycle invariant holds after every history: what carries our mark belongs to the recorded target, a recorded target has the finalizer and, unless deleting, an owned cache, any owned cache of a recorded target serves exactly that target, endpoint and slugs agree with it |
| `Lifecycle.StepInv` | internal/controller/llminstance_byoc.go:211-378 | every permitted step, of the operator or its surroundings, keeps that invariant |
| `Lifecycle.SelectSlug` | internal/controller/slug_policy.go:31-45 | a selection is the policy's own and never renames a persisted or active slug; there is none only if the policy has none, the slug would change, or a derived one would name what is already provisioned without a slug |
| `LifecycleTheorems.NoOrphans` | internal/controller/llminstance_byoc.go:211-300 | after any history, whatever failed, every marked object lies in the recorded target; none is left once the target is cleared or the instance is gone |
| `LifecycleTheorems.OneTarget` | internal/controller/llminstance_byoc.go:337-357 | at no time do we own objects of two targets, or in two namespaces of one cluster |
| `LifecycleTheorems.CredentialsAvailable` | internal/controller/llminstance_byoc.go:292-353 | an instance not being deleted with a recorded target has an owned cache whose kubeconfig was used, at an earlier step, to identify exactly that target |
| `LifecycleTheorems.DnsBeforeLoadBalancer` | internal/controller/llminstance_byoc.go:777-826 | the Service is deleted only when no DNSEntry of ours points at its target; a DNSEntry is created or changed only to an address its Service was seen to have in the same reconcile |
| `LifecycleTheorems.ForeignFrame` | internal/controller/llminstance_byoc_transport.go:79-84 | the operator creates only under free names, and updates or deletes only the very object it read with our mark in the same reconcile; of the credential caches it writes or deletes only one that is free or ours at that moment; nothing else changes |
| `LifecycleTheorems.ReadyFollowsProbe` | internal/controller/llminstance_byoc.go:357-374 | every write of an endpoint or Ready for a target follows, in the same reconcile, a delivery of a certificate and then a probe that saw that certificate on the recorded host, and no other delivery |
| `LifecycleTheorems.EndpointAgrees` | internal/controller/llminstance_byoc_tls.go:68-88 | a persisted endpoint or Ready next to a recorded target is the HTTPS host of that target and its recorded domain |
| `LifecycleTheorems.SlugWriteOnce` | internal/controller/slug_policy.go:47-72 | a persisted slug or active slug never changes for one UID, both agree, and an instance with another UID began blank |
| `LifecycleTheorems.AbandonedForever` | internal/controller/llminstance_byoc_tls.go:608-639 | a source Secret of ours without Certificate UID and without Certificate stays so, with target recorded and finalizer in place, over every history in which nobody else removes it |
| `LifecycleTheorems.AbandonedCause` | internal/controller/llminstance_byoc_tls.go:582-604 | in every history a source Secret comes to be abandoned only as its Certificate goes while it carries no UID: removed by others, or deleted by the operator without ever having asked for its UID |
| `LifecycleTheorems.LabelledForever` | internal/controller/llminstance_byoc_tls.go:582-604 | once the Certificate has asked for its UID, no history abandons its Secret, whatever is issued, deleted or removed by anybody, unless a new Certificate is requested |
| `LifecycleTheorems.Learned` | internal/controller/llminstance_byoc.go:878-917 | whatever a reconcile acts upon it learned from one event of the same reconcile and knew ever since |
| `Interference.EnvRely` | internal/controller/llminstance_byoc.go:211-378 | what a running reconcile may rely on survives every action of the surroundings |
| `Interference.NoneLeft` | internal/controller/llminstance_byoc.go:777-826 | when no reserved name of the recorded target is ours, nothing is |
| `LifecycleController.Operator.UpdateStatus` | internal/controller/llminstance_controller.go:1213-1242 | a stale copy conflicts; success persists exactly the new status; afterwards the copy can always still withdraw the endpoint |
| `LifecycleController.Operator.CachedKubeconfig` | internal/controller/llminstance_byoc.go:150-171 | returns the content of an owned cache, nothing when there is none or no name for it, and fails on a foreign or empty one |
| `LifecycleController.Operator.ClusterIdentity` | internal/controller/llminstance_byoc_transport.go:176-186 | success names the cluster behind the API at that moment and puts the identification on record |
| `LifecycleController.Operator.EnsureCachedCredentials` | internal/controller/llminstance_byoc.go:176-209 | success leaves an owned cache with exactly these credentials; a foreign cache is refused, and without failures nothing else is; a cache serving a recorded target only takes credentials identified as that target |
| `LifecycleController.Operator.DeleteCachedCredentials` | internal/controller/llminstance_byoc.go:766-775 | success leaves no owned cache; never called for a recorded target of an instance that stays |
| `LifecycleController.Operator.CleanupDns` | internal/controller/llminstance_byoc_tls.go:514-535 | succeeds exactly, in calm runs, when the DNSEntry is absent; ours is struck, or left alone while it waits for its finalizer, and the call is not ready; nothing else changes; without a target or under an unknown configuration it fails at once |
| `LifecycleController.Operator.CleanupRemoteTls` | internal/controller/llminstance_byoc_tls.go:537-562 | succeeds only when the remote TLS Secret is gone; a calm pass strikes it alone, once, and is then not ready |
| `LifecycleController.Operator.CleanupObject` | internal/controller/llminstance_byoc.go:744-758 | one remote object: an error when it is foreign, done when it is absent, and otherwise struck by its UID and still pending |
| `LifecycleController.Operator.CleanupObjects` | internal/controller/llminstance_byoc.go:735-764 | success means none of the four remote workload objects is ours; a calm pass loses no ground, and strikes at least one live object if nothing foreign is in the way |
| `LifecycleController.Operator.CleanupTlsSecret` | internal/controller/llminstance_byoc_tls.go:609-639 | a local TLS Secret is refused, untouched, when foreign or, for the source Secret, without Certificate UID; otherwise it is struck, once |
| `LifecycleController.Operator.ReconcileManagedCertificate` | internal/controller/llminstance_byoc_tls.go:140-208 | keeps what the reconcile relies on; at most the Certificate and its output become ours, in calm runs only if it was absent; a calm success leaves a live Certificate of ours that asks for its own UID, and touches nothing else; it succeeds when the Certificate is live with an admissible Secret, or all three names are free; an unlabelled source Secret gets that request and nothing else changes |
| `LifecycleController.Operator.ObtainCertificate` | internal/controller/llminstance_byoc_tls.go:148-168 | yields the stored Certificate; something becomes ours only if Certificate, source Secret and last-valid Secret were each absent when looked up in this call, in calm runs exactly then |
| `LifecycleController.Operator.LookUpCertificate` | internal/controller/llminstance_byoc_tls.go:148-163 | tells apart a stored Certificate, three free names, and everything else; without failures exactly |
| `LifecycleController.Operator.BindCertificate` | internal/controller/llminstance_byoc_tls.go:178-207 | a source Secret that, when read, is neither bound to the Certificate nor its first issuance is refused without any write; otherwise, without failures, the Certificate comes to ask for its own UID |
| `LifecycleController.Operator.CleanupManagedTls` | internal/controller/llminstance_byoc_tls.go:564-644 | success means DNSEntry, Certificate and both local Secrets are gone for good; at most the Certificate and its output ever become ours, in calm runs nothing; a calm pass loses no ground, does the next thing in order once everything is settled, and after issuance has stopped fails without effect exactly when the source Secret is abandoned |
| `LifecycleController.Operator.CleanupIssuance` | internal/controller/llminstance_byoc_tls.go:568-644 | the same for what issuance left behind, in the order Certificate, then Secrets |
| `LifecycleController.Operator.CleanupTlsSecrets` | internal/controller/llminstance_byoc_tls.go:608-643 | once issuance has stopped, success means neither local Secret is ours; a calm pass loses no ground, stops at an abandoned source Secret, and otherwise strikes a live one |
| `LifecycleController.Operator.CleanupCertificate` | internal/controller/llminstance_byoc_tls.go:576-607 | succeeds only when the Certificate is gone; a calm pass, settled or not, strikes it only if its Secret is absent or carries its UID, labels an unlabelled one first, and recreates nothing |
| `LifecycleController.Operator.ReleaseCertificate` | internal/controller/llminstance_byoc_tls.go:582-604 | never succeeds at once: handshake for an unlabelled Secret, deletion for a bound one |
| `LifecycleController.Operator.CleanupRemote` | internal/controller/llminstance_byoc.go:795-824 | success means nothing on the tenant cluster is ours; credentials that do not lead to the recorded cluster fail without any write; a calm pass loses no ground, and strikes something live or succeeds |
| `LifecycleController.Operator.CleanupByoc` | internal/controller/llminstance_byoc.go:777-826 | success means nothing anywhere is ours, and that the credentials are gone with the target still recorded; without credentials it never succeeds; at most the Certificate and its output ever become ours, in calm runs nothing; a calm pass succeeds, or loses no ground and does the next thing in order once settled |
| `LifecycleController.Operator.FinalizeInstance` | internal/controller/llminstance_controller.go:1291-1325 | the instance goes only with nothing left behind; whenever cleanup came to its end it is gone or stuck, whatever the call returns; a calm pass removes it, or loses no ground and comes closer once settled, and once issuance has stopped has no effect exactly when the source Secret is abandoned |
| `LifecycleController.Operator.DropFinalizer` | internal/controller/llminstance_controller.go:1306-1322 | three attempts on fresh copies, each only while nothing is ours |
| `LifecycleController.Operator.TargetKept` | internal/controller/llminstance_byoc.go:224-258 | a target is left exactly when the reference was dropped or changed, or leads to another API or cluster; missing credentials alone never cause a move; without failures it answers exactly when that can be decided |
| `LifecycleController.Operator.CleanupChangedTarget` | internal/controller/llminstance_byoc.go:211-300 | success leaves either the requested target or none, then without its cached credentials, slugs untouched; without failures a target that is still requested is kept and nothing changes, and it is forgotten only when the reference leads elsewhere; after a failure the endpoint can still be withdrawn; a calm pass of a wanted move forgets the target or withdraws the endpoint and comes closer to an empty one |
| `LifecycleController.Operator.ReleaseTarget` | internal/controller/llminstance_byoc.go:259-300 | success means the target is forgotten in store and copy and its credentials are gone, every step of which was permitted: endpoint withdrawn, objects gone, status cleared, credentials dropped last; a calm pass succeeds or comes closer |
| `LifecycleController.Operator.EmptyTarget` | internal/controller/llminstance_byoc.go:263-290 | success means nothing anywhere is ours, with the recorded status unchanged; at most the Certificate and its output ever become ours, in calm runs nothing; a calm pass succeeds without effect, or loses no ground and does the next thing in order once settled |
| `LifecycleController.Operator.ForgetTarget` | internal/controller/llminstance_byoc.go:292-300 | the status is cleared first and the credentials dropped second, only when nothing is ours; success means both |
| `LifecycleController.Operator.EnsureRemote` | internal/controller/llminstance_byoc.go:599-658 | success leaves an owned object in the desired revision; a foreign one is refused; without failures it succeeds unless foreign and touches nothing else |
| `LifecycleController.Operator.RequestExposure` | internal/controller/llminstance_byoc.go:879-886 | Service first, then Certificate: success in calm runs means both are ours and the Certificate asks for its UID; it succeeds when nothing foreign or deleted is in the way |
| `LifecycleController.Operator.PointDns` | internal/controller/llminstance_byoc.go:887-897 | success in calm runs means our live DNSEntry holds the Service's public address; it succeeds when there is one and no foreign or deleted entry |
| `LifecycleController.Operator.ReconcileDns` | internal/controller/llminstance_byoc_tls.go:277-315 | success leaves our DNSEntry, live, with the public address it was given; without failures, foreign or deleted entries it succeeds; it touches nothing else |
| `LifecycleController.Operator.WriteTlsSecret` | internal/controller/llminstance_byoc_tls.go:399-421 | success leaves an owned Secret with this revision; without failures it succeeds unless foreign or deleting, and touches nothing else |
| `LifecycleController.Operator.DeliverTls` | internal/controller/llminstance_byoc_tls.go:427-509 | success puts on record that this revision, the issued one if that is usable, is in the target's own Secret; in calm runs last-valid cache and tenant hold it, and it succeeds if there is usable material and nothing foreign or deleted where it goes |
| `LifecycleController.Operator.ReadAddress` | internal/controller/llminstance_byoc.go:887-894 | success puts on record the nonempty address of the target's Service; without failures exactly when it has one |
| `LifecycleController.Operator.ReconcileExposure` | internal/controller/llminstance_byoc.go:879-897 | Service, Certificate and DNSEntry end ours, the DNSEntry with the Service's public address; a calm pass with nothing in the way prepares them even while that address is missing, and touches nothing else |
| `LifecycleController.Operator.ChooseMaterial` | internal/controller/llminstance_byoc_tls.go:465-503 | usable issued material goes to the last-valid cache, which otherwise supplies it; the cache ends with the chosen revision |
| `LifecycleController.Operator.EquipTarget` | internal/controller/llminstance_byoc.go:898-916 | behind an exposed target, success in calm runs puts everything in place that it needs to serve; it succeeds when there is usable material and nothing foreign is in the way |
| `LifecycleController.Operator.ReconcileWorkload` | internal/controller/llminstance_byoc.go:878-917 | success means the returned revision was delivered to this target in this reconcile; in calm runs it also means that Service, Certificate, DNSEntry, both certificate copies and the three workload objects are ours and as desired; it succeeds when the target is servable, when only the Service's address is missing it has prepared the rest of the exposure, and where all is in place it writes nothing |
| `LifecycleController.Operator.ReconcilePods` | internal/controller/llminstance_byoc.go:902-915 | proxy configuration, key Secret and Deployment are ours and in the desired revision; without failures and foreign objects it succeeds |
| `LifecycleController.Operator.EvaluateReadiness` | internal/controller/llminstance_byoc.go:688-721 | ready means a probe of the public host has seen the delivered revision; without failures it is ready exactly when Deployment and addressed Service are there, the rollout is complete and the probe succeeds |
| `LifecycleController.Operator.EstablishTarget` | internal/controller/llminstance_byoc.go:302-353 | success means store and copy record the identified target under the configured domain and namespace; without failures that happens exactly when the reference leads to the recorded or a new target under an unchanged configuration and the cache is not foreign, and concerns status and cache alone |
| `LifecycleController.Operator.RecordTarget` | internal/controller/llminstance_byoc.go:337-353 | records a target only after its credentials are cached; success means it is recorded, and without failures only a foreign cache prevents it |
| `LifecycleController.Operator.ReachSource` | internal/controller/llminstance_byoc.go:138-148 | the tenant's kubeconfig with the cluster it leads to, identified; without failures exactly when there is one |
| `LifecycleController.Operator.ServeTarget` | internal/controller/llminstance_byoc.go:354-377 | publishes only what ReadyFollowsProbe permits; a calm pass over a servable target ends Ready with the target's HTTPS endpoint in store and copy, and whenever it publishes all nine objects but the source Secret are in place; otherwise the endpoint is withdrawn or the call failed; after a failure it can still be withdrawn |
| `LifecycleController.Operator.PublishTarget` | internal/controller/llminstance_byoc.go:364-377 | with everything in place, a calm call publishes the HTTPS endpoint as Ready when the rollout is complete and the probe succeeds, and withdraws it otherwise |
| `LifecycleController.Operator.ReconcileByoc` | internal/controller/llminstance_byoc.go:302-378 | a calm call withdraws the endpoint, or publishes that of the target the reference leads to with everything in place; it publishes if the target is reachable and servable; a target that is reachable is recorded with its credentials cached; where all is in place it writes no object |
| `LifecycleController.Operator.ReconcileHosted` | internal/controller/llminstance_controller.go:177-230 | a hosted instance ends with endpoint and readiness as its objects say, is withdrawn when they are refused, and kept when they could not be determined |
| `LifecycleController.Operator.EnsureSlug` | internal/controller/slug_policy.go:47-72 | goes on only with the copy unchanged and its slug persisted; without failures a selection that is persisted changes nothing, and any other gets persisted |
| `LifecycleController.Operator.PersistSlug` | internal/controller/slug_policy.go:56-71 | patches under a lock what the slug rule permits; success means that slug and source were read back from an instance with the same UID; without failures it succeeds and changes nothing else |
| `LifecycleController.Operator.PutFinalizer` | internal/controller/llminstance_controller.go:151-157 | adds the finalizer under a lock; without failures it is there afterwards, and nothing else changes |
| `LifecycleController.Operator.Reconcile` | internal/controller/llminstance_controller.go:115-231 | every run of it is a history of permitted steps; an instance that goes leaves nothing; a stuck deletion stays stuck; a calm pass over a deletion finishes, or loses no ground and comes closer once settled; a calm pass over a live instance does the first thing due: rejection, finalizer, slug, withdrawal of the endpoint of a target that is to be left, then a hosted endpoint as its objects say or what ReconcileByoc makes of the target |
| `LifecycleController.Operator.ReconcileLive` | internal/controller/llminstance_controller.go:129-195 | the checks in the order of the code, for a live instance: each calm pass does the first thing due and changes nothing else |
| `LifecycleController.Operator.ReconcileTarget` | internal/controller/llminstance_controller.go:168-195 | the part after the slug; the endpoint of a target that is left, or cannot be told to be the requested one, does not outlive a calm pass |
| `LifecycleController.Operator.ProvisionTarget` | internal/controller/llminstance_controller.go:115-195 | provisioning terminates: if the policy selects a slug, the reference leads to the recorded or a new target and nothing foreign or deleted is in the way there, at most four reconciles end with that target recorded, its HTTPS endpoint published as Ready and everything in place, provided that between the last two the Service gets a public address and the certificate controller catches up |
| `LifecycleController.Operator.Register` | internal/controller/llminstance_controller.go:129-165 | the first two of them add the finalizer and persist the slug |
| `LifecycleController.Operator.RecordingPass` | internal/controller/llminstance_byoc.go:302-378 | the third one publishes, or leaves a target that the next one is bound to publish |
| `LifecycleController.Operator.ServePass` | internal/controller/llminstance_byoc.go:302-378 | a pass of a registered instance records the target and publishes it, or has prepared all but the Service's address; a servable one is published; where all is in place no object is written |
| `Provisioning.FreshPromising` | internal/controller/llminstance_byoc.go:302-378 | a new instance on a target without objects meets the conditions of ProvisionTarget; what it ends with, field by field |
| `Provisioning.ServingMeans` | internal/controller/llminstance_byoc.go:878-917 | serving, spelled out: eight objects are ours, four of them in the requested revision, both certificate copies agree, the DNSEntry holds the Service's public address, rollout and probe succeeded |
| `LifecycleController.Operator.DrainDeletion` | internal/controller/llminstance_controller.go:1291-1325 | deletion terminates: with credentials at hand, the same cluster, no foreign object in the way and issuance that cannot outrun it, rounds of any number of calm reconciles, between which the certificate controller issues as it likes and finalizers complete, shrink DNSEntry, Certificate stage and remaining live objects lexicographically until instance and objects are gone |
| `LifecycleController.Operator.DeletionRound` | internal/controller/llminstance_controller.go:1291-1325 | any number of calm reconciles without settling in between keep everything in order and lose nothing of what the first one achieved |
| `LifecycleController.Operator.Settle` | internal/controller/llminstance_byoc_tls.go:602-604 | the other controllers catching up, first issuance included, leave everything in order and undo nothing |
| `LifecycleController.Operator.DrainExactly` | internal/controller/llminstance_controller.go:1291-1325 | all else being in order, a deletion completes exactly when it is not stuck |
| `LifecycleController.Operator.DrainMove` | internal/controller/llminstance_byoc.go:211-300 | a target move terminates under the same conditions, whatever is issued meanwhile, with the target empty and forgotten |
| `LifecycleController.Operator.LoseRace` | internal/controller/llminstance_byoc_tls.go:586-600 | from every state that is in order but for a Certificate that never asked for its UID and has issued nothing, a run in the order of the code abandons the source Secret |
| `LifecycleController.Operator.DrainUnlessRaced` | internal/controller/llminstance_byoc_tls.go:564-644 | all else being in order, cleanup is bound to complete exactly when the Certificate is gone, has asked for its UID, or has its Secret |
| `LifecycleController.Operator.RetryStuck` | internal/controller/llminstance_controller.go:1304-1322 | once the credentials are dropped and the finalizer write did not land, no number of reconciles and no action of others completes the deletion |
| `Scenario.StuckDeletion` | internal/controller/llminstance_controller.go:1291-1325 | a concrete run of permitted steps into a stuck deletion: target recorded, instance deleted, credentials dropped, finalizer write lost |
| `Scenario.RacedSecret` | internal/controller/llminstance_byoc_tls.go:586-600 | a concrete run in the order of the code, with ordinary controllers only, in which cleanup itself abandons the source Secret of a first issuance |
| `Scenario.AbandonedSecret` | internal/controller/llminstance_byoc_tls.go:608-639 | a concrete run in the order of the code into a deletion whose source Secret is abandoned, because somebody else removed the Certificate |
| `Scenario.RecreatedCertificate` | internal/controller/llminstance_byoc_tls.go:586-593 | a concrete run in the order of the code in which cleanup of a deleted instance requests a Certificate again |
| `Scenario.PublishedEndpoint` | internal/controller/llminstance_byoc.go:302-378 | a concrete run in the order of the code from an unprovisioned instance to a published endpoint, so the theorems are not about empty sets of runs |
| `LifecycleController.StuckEnv` | internal/controller/llminstance_byoc.go:795-801 | nothing the surroundings do unsticks it |
| `CleanupProgress.RoundShrinks` | internal/controller/llminstance_byoc_tls.go:564-644 | passes that did the next thing in order and lost no ground, followed by the other controllers catching up, shrink the lexicographic measure even if more was issued |
| `CleanupProgress.IssuedInOrder` | internal/controller/llminstance_byoc_tls.go:583-585 | as long as issuance cannot outrun cleanup, whatever is issued is attributable and undoes no progress |
| `CleanupProgress.YieldedSafe` | internal/controller/llminstance_byoc_tls.go:582-604 | no calm pass, settled or not, brings issuance into a position to outrun cleanup |
| `CleanupProgress.DrainableExactly` | internal/controller/llminstance_byoc.go:795-801 | given the recorded cluster and names not taken by others, credentials that serve the target are at hand exactly when the deletion is not stuck |
| `Renewal.PreserveRenewal` | internal/controller/llminstance_byoc_tls.go:229-254 | succeeds exactly when the set renewal controls are well-formed, and carries exactly those over |
| `Renewal.ConvergedExactly` | internal/controller/llminstance_byoc_tls.go:449-457 | a specification counts as converged exactly when every field but the two renewal controls is as desired and these, if there, are a boolean and a timestamp; one write reaches that |
| `Renewal.RevokedExactly` | internal/controller/llminstance_byoc_tls.go:458-503 | what is chosen for delivery was revoked, through source Secret or Certificate, exactly when nothing fresh is usable and the cache holds a revoked pair |
| `Renewal.RevokedMaterialReturns` | internal/controller/llminstance_byoc_tls.go:484-503 | a run, for either way of revocation, in which delivered material is revoked and then delivered again from the cache |
| `Renewal.FreshUnrevoked` | internal/controller/llminstance_byoc_tls.go:458-480 | a source Secret that shows no revocation under a Certificate that showed none when read does not hold a pair revoked by then, whatever happened in between |
| `Renewal.AliveOnArrival` | internal/controller/llminstance_byoc_tls.go:346-348 | a pair delivered within the renewal margin of reading the clock is within its validity on arrival |
| `Renewal.DeliveredServes` | internal/controller/llminstance_byoc_tls.go:334-383 | every attempt in the log handed over a key with a certificate that was, when the clock was read, for exactly this host and nothing else, no CA, for servers, with a strong key, verified up to the roots and valid for more than the renewal margin |
| `Renewal.CachedServes` | internal/controller/llminstance_byoc_tls.go:334-383 | whatever the cache holds passed the same checks at some time before |
| `Renewal.BadPairWithheld` | internal/controller/llminstance_byoc_tls.go:334-383 | a source pair that fails any one of the checks is not handed over, from wherever it may come |
| `Renewal.ChooseExactly` | internal/controller/llminstance_byoc_tls.go:439-503 | each outcome of the decision exactly: issued, cached, refused |
| `Renewal.Courier.WriteSecret` | internal/controller/llminstance_byoc_tls.go:399-421 | success leaves a bound Secret with exactly the copied pair; the cache only takes validated material; foreign and deleted Secrets stay as they are |
| `Renewal.Courier.ChooseMaterial` | internal/controller/llminstance_byoc_tls.go:439-503 | chooses what the declarative choice says, and leaves it in the cache |
| `Renewal.Courier.Deliver` | internal/controller/llminstance_byoc_tls.go:427-509 | success leaves tenant Secret and cache with the same pair, usable for the host when the clock was read (as DeliveredServes spells out), and returns its fingerprint; the decision counts everything revoked before the call; without failures it succeeds exactly when material can be chosen and both places are writable |
| `Renewal.Courier.Run` | internal/controller/llminstance_byoc_tls.go:427-509 | over any run the cache holds nothing but material validated for the host (CachedServes), and every attempt was decided on usable material (DeliveredServes) and was of revoked material exactly when the decision was not safe |
| `Tokens.SingleBinding` | internal/controller/tokenrequest_controller.go:334-388 | over a whole run a key is bound to at most one pair of instance UID and target |
| `Tokens.KeyFollowsBinding` | internal/controller/tokenrequest_controller.go:334-388 | a Secret's key changes only at steps that change its binding |
| `Tokens.RewriteSettles` | internal/controller/tokenrequest_controller.go:228-329 | repeating a write with any new token changes nothing, so retries never rotate again |
| `Tokens.LegacyAdoption` | internal/controller/tokenrequest_controller.go:354-395 | an unbound key is kept only by a hosted instance with the name and selected slug it was labelled with from the start |
| `Tokens.LegacyKept` | internal/controller/tokenrequest_controller.go:294-304 | as long as a key is unbound, its Secret keeps its original labels and key |
| `Tokens.ForeignSecretsKept` | internal/controller/tokenrequest_controller.go:177-189 | the controller writes and deletes only Secrets of the acting request, in the version it read, and requests only as it read them |
| `Tokens.Reachable` | internal/controller/tokenrequest_controller.go:228-461 | every controlled key is on record and no two controlled Secrets share one, after any history |
| `Tokens.OnlyAtForever` | internal/controller/tokenrequest_controller.go:334-388 | a key on record never comes to a Secret that did not hold it, over every history |
| `TokenController.RotateTokenForTarget` | internal/controller/tokenrequest_controller.go:334-388 | binds to the authorized pair, keeping a key that is bound there or rightfully adopted and replacing any other; reports a change exactly when there is one |
| `TokenController.ApplySecretMutations` | internal/controller/tokenrequest_controller.go:463-492 | sets labels, endpoint and availability, leaves key and binding, and reports a change exactly when there is one |
| `TokenController.WithdrawEndpoint` | internal/controller/tokenrequest_controller.go:290-318 | the withdrawn form, with labels of an unbound Secret untouched |
| `TokenController.ServeEndpoint` | internal/controller/tokenrequest_controller.go:242-247 | the serving form for a Ready instance, which Reconcile spells out |
| `TokenController.Controller.InvalidateTokenEndpoint` | internal/controller/tokenrequest_controller.go:282-329 | refuses foreign Secrets; otherwise the endpoint is withdrawn and the request keeps pointing at the Secret |
| `TokenController.Controller.CreateSecret` | internal/controller/tokenrequest_controller.go:411-461 | mints a fresh key bound to the instance, and to the target when it is BYOC |
| `TokenController.Controller.EnsureSecret` | internal/controller/tokenrequest_controller.go:228-253 | refuses foreign Secrets; otherwise a new or existing Secret serves the instance, as Reconcile spells out, and no other Secret changes |
| `TokenController.Controller.Touch` | internal/controller/tokenrequest_controller.go:399-409 | records exactly the given Secret version on the request and nothing else; an equal version writes nothing |
| `TokenController.Controller.FinalizeTokenRequest` | internal/controller/tokenrequest_controller.go:167-214 | exactly the labelled Secrets of this very request go, and then the request |
| `TokenController.Controller.Reconcile` | internal/controller/tokenrequest_controller.go:86-165 | every run is a history of permitted steps; a calm pass over a live request first adds its finalizer; then, for a hosted or BYOC instance that can be served, its Secret, new or existing, has the instance's endpoint, labels and binding, with the key it had if that was bound here or rightfully unbound, and otherwise a new one; for any other it is withdrawn; a Secret that was so before is not written; the request points at it, is observed and names the version of an existing one; foreign Secrets stay; a deleted request goes with exactly its own labelled Secrets |
| `TokenController.Controller.ReconcileActive` | internal/controller/tokenrequest_controller.go:101-165 | the part of it that concerns a live request with its finalizer |
| `TokenController.EligibleExactly` | internal/controller/tokenrequest_controller.go:117-134 | who is served: a slug selected and persisted, an endpoint, current Ready, not going away, and in BYOC mode a recorded target and a well-formed endpoint |
| `TokenController.ServedAccepted` | internal/controller/tokenrequest_controller.go:155-163 | after a pass the verifier accepts the key of a Ready hosted instance, newly minted or in its labelled Secret |
| `Auth.ParseBinding` | internal/auth/server.go:89-99 | accepts exactly queries that give each parameter once, not blank, with well-formed names |
| `Auth.CheckOwner` | internal/auth/server.go:173-197 | decides the ownership relation, or reports a failed lookup exactly when the Secret's own part holds and its request cannot be looked up |
| `Auth.Authorize` | internal/auth/server.go:134-171 | accepts exactly when some Secret under the slug holds the token and passes the ownership relation; an error is reported only for a Secret with this very token, and never accepts |
| `Auth.AcceptsExactly` | internal/auth/server.go:134-197 | acceptance, condition by condition: a live hosted instance under this slug and UID, and a live opaque Secret with the key, bound to that UID, whose live controlling request names the instance, points at the Secret and is observed |
| `Auth.Revoked` | internal/auth/server.go:134-197 | the key of a Secret is refused as soon as one of these fails: Secret or request marked for deletion, request gone, replaced, retargeted, pointing elsewhere or outdated, instance gone, replaced, marked or BYOC |
| `Auth.RevokedForever` | internal/auth/server.go:134-197 | once the Secret that held a key is gone, given up or has another key, no route accepts that key ever again, over every history |
| `Auth.AcceptedForOne` | internal/auth/server.go:134-197 | over a whole run of the token controller a key is accepted for one instance UID at most |
| `Auth.BoundElsewhereRefused` | internal/auth/server.go:174-181 | a key ever bound to another UID or to a BYOC target is never accepted, before or after |
| `Auth.MintedAccepted` | internal/controller/tokenrequest_controller.go:411-461 | a key minted for a hosted instance is accepted on its route and on no other instance's |
| `Auth.MintedForOne` | internal/controller/tokenrequest_controller.go:411-461 | over a whole run, before and after, a key minted for a hosted instance is accepted for its UID alone |
| `KeyFile.FileRoundTrip` | internal/controller/llminstance_byoc.go:431-434 | splitting a generated file on newlines gives back its keys |
| `KeyFile.UserFileExact` | internal/controller/llminstance_byoc.go:403-434 | the lines are the qualifying keys, sorted, each as often as Secrets hold it, whatever the listing order |
| `KeyFile.CollectKeys` | internal/controller/llminstance_byoc.go:408-430 | collects exactly the keys of live Secrets, current for their request and bound to this instance and target; fails exactly when the request of a live controlled Secret cannot be looked up |
| `KeyFile.QualifiesExactly` | internal/controller/llminstance_byoc.go:408-430 | which keys qualify, condition by condition on Secret, binding and request |
| `KeyFile.FileKeysRefused` | internal/controller/llminstance_byoc.go:424-426 | a key that is ever in a key file is never accepted by the verifier of hosted instances |
| `KeyFile.Writer.DesiredKeyFile` | internal/controller/llminstance_byoc.go:403-454 | never empty; a bootstrap file exactly when no key qualifies, the one in place if there is one; otherwise exactly the qualifying keys; without failures only a foreign remote Secret in the bootstrap case prevents it |
| `KeyFile.Writer.ReconcileKeySecret` | internal/controller/llminstance_byoc.go:460-522 | success leaves an owned Secret with this file and mark; a foreign one is refused |
| `KeyFile.Writer.Store` | internal/controller/llminstance_byoc.go:470-522 | replaces only what was read and is ours, or nothing |
| `KeyFile.Writer.Pass` | internal/controller/llminstance_byoc.go:403-522 | after all tokens are revoked the file holds one key that was never issued to anybody, stable over passes; without failures a pass succeeds exactly when the remote Secret is absent or ours |
| `SlugPolicy.Parse` | internal/slugpolicy/policy.go:81-105 | accepts exactly entries that are valid, distinct in UID and in namespace with name, and whose legacy slugs are prefix-free |
| `SlugPolicy.EntriesExactly` | internal/slugpolicy/policy.go:81-105 | which entries are accepted, condition by condition |
| `SlugPolicy.SelectExactly` | internal/slugpolicy/policy.go:177-195 | over the entries: a slug is given exactly to an object listed under its UID, namespace and name, and to an unlisted one created after the cutover, each with its source; unmapped exactly the unlisted ones from before; an identity error for all others |
| `SlugPolicy.IdentityInjective` | internal/slugpolicy/policy.go:88-91 | the joined identity string tells entries apart exactly by namespace and name |
| `SlugPolicy.Grounded` | internal/slugpolicy/policy.go:177-195 | a legacy slug rests on a valid entry for exactly this UID, namespace and name, a derived one on the UID |
| `SlugPolicy.PrefixFree` | internal/slugpolicy/policy.go:154-195 | under any accepted policy slugs of different UIDs are no prefixes of each other, and a slug alone tells its source |
| `JsonFields.Decoder.RejectDuplicateKeys` | internal/slugpolicy/policy.go:110-152 | on the token stream of any JSON value, of any nesting, consumes exactly that value and succeeds exactly when every object has distinct, known field names |
| `JsonFields.CleanExactly` | internal/slugpolicy/policy.go:110-152 | a document is clean exactly when every object in it, at any depth, has distinct names out of the seven known ones |
| `JsonFields.NextField` | internal/slugpolicy/policy.go:120-138 | a field that lies ahead begins with its name and value, and what follows is the rest of the object |
| `SlugRoute.HostClaimsExactly` | internal/controller/slug_policy.go:108-114 | counting dots decides exactly whether a rule covers the host: any host, the same, or a wildcard for one label |
| `SlugRoute.CheckSlugRoute` | internal/controller/slug_policy.go:116-154 | free exactly when the own name is ours and no foreign Ingress conflicts; not owned exactly when somebody else holds the name |
| `SlugRoute.RouteFreeExactly` | internal/controller/slug_policy.go:116-137 | which Ingress must be controlled by the instance, and which must not conflict |
| `SlugRoute.ConflictsExactly` | internal/controller/slug_policy.go:138-152 | a foreign Ingress conflicts exactly if it has a default backend, or a rule for a covering host one of whose paths, up to trailing slashes, starts some path that starts with the selected one |
| `SlugRoute.RouteExclusive` | internal/controller/slug_policy.go:116-154 | after a successful check no foreign rule or default backend catches any request of the instance, with exact, element or raw-prefix matching |
| `SlugRoute.RulesExact` | internal/controller/slug_policy.go:156-164 | the rules built for a slug match exactly its path and everything below |
| `SlugRoute.SelectedCoexist` | internal/controller/slug_policy.go:116-164 | Ingresses built for two instances with selected slugs never fail each other's check |
| `SlugRoute.SelectedRoutesFree` | internal/controller/slug_policy.go:116-164 | however many instances one accepted policy selects slugs for, with all their Ingresses built each passes its route check, ownership included |
| `Ceilings.ServerIntFlag` | internal/controller/model_server_ceilings.go:111-121 | the number after the first occurrence that has one, or the fallback |
| `Ceilings.SetServerIntFlag` | internal/controller/llminstance_controller.go:301-310 | changes the argument of the first occurrence, or adds flag and value, and nothing else |
| `Ceilings.ReadBack` | internal/controller/model_server_ceilings.go:111-121 | what was set is what is read, whatever the other arguments |
| `Ceilings.ReadOther` | internal/controller/llminstance_controller.go:292-297 | setting one flag leaves what is read for another |
| `Ceilings.ModelForInstance` | internal/controller/llminstance_controller.go:280-299 | every override replaces its budget, all others stay the model's |
| `Ceilings.BudgetsWritten` | internal/controller/llminstance_controller.go:280-310 | the flags written into the selection read as what the instance asks for |
| `Ceilings.Check` | internal/controller/model_server_ceilings.go:54-93 | accepts exactly valid policies under which all six budgets of the resolved selection are within the ceilings, and these are the budgets the instance asks for |
| `Ceilings.WithinExactly` | internal/controller/model_server_ceilings.go:36-93 | the bounds of the policy and the six comparisons, each against its ceiling or, where that is zero, the model's own budget |
| `Ceilings.TableBudgets` | internal/controller/llminstance_controller.go:316-386 | the budgets of the model table in millicores, MiB, tokens and slots |
| `Ceilings.ZeroCeilings` | internal/controller/model_server_ceilings.go:61-79 | under zero ceilings every model passes as it is and nothing may exceed its own budgets |
| `Ceilings.DanglingFlag` | internal/controller/llminstance_controller.go:301-310 | why each flag needs an argument of its own: otherwise the second setting overwrites the first |
| `Ceilings.TableSettable` | internal/controller/llminstance_controller.go:316-386 | both flags can be set in every model of the table |
| `Workload.EnsureDeploymentModel` | internal/controller/llminstance_controller.go:584-646 | both container lists reach their converged form in place, and a change is reported exactly when there is one |
| `Workload.EnsureEnv` | internal/controller/llminstance_controller.go:616-631 | every MODEL_PATH has the value, one is added when there is none, all other variables stay |
| `Workload.EnsureProbes` | internal/controller/llminstance_controller.go:677-694 | probes that already address the health endpoint stay as they are |
| `Workload.ModelSettles` | internal/controller/llminstance_controller.go:584-646 | converged lists stay as they are and containers of other names are never touched |
| `Workload.ServerMeans` | internal/controller/llminstance_controller.go:607-643 | field by field what a model selection leaves in the server container, and that all else is kept |
| `Workload.InitMeans` | internal/controller/llminstance_controller.go:589-602 | the same for the download container |
| `Workload.EnsureTwice` | internal/controller/llminstance_controller.go:584-646 | a second pass with the same model reports no change |
| `Workload.PodTemplate.FillDefaults` | internal/controller/llminstance_byoc_transport.go:190-235 | the template in place becomes its defaulted form |
| `Workload.DefaultsSettle` | internal/controller/llminstance_byoc_transport.go:190-235 | filling in defaults twice is the same as once |
| `Workload.ContainerMeans` | internal/controller/llminstance_byoc_transport.go:190-235 | field by field what is filled in for a container, its ports and probes, and that all else is kept |
| `Workload.TemplateMeans` | internal/controller/llminstance_byoc_transport.go:190-235 | the same for the pod settings and volumes |
| `Workload.ConvergeSettles` | internal/controller/llminstance_byoc.go:568-597 | after a write the next pass with the same workload writes nothing; the selector is kept and nothing of the old template |
| `Workload.ConvergeExactly` | internal/controller/llminstance_byoc.go:568-597 | a foreign Deployment is refused, ours kept exactly when template, replicas and strategy are the desired ones, and otherwise these three are replaced and no more |

## Left out

- Kubeconfig parsing, REST and HTTP clients, health probes and server plumbing: I/O; a probe is an arbitrary answer.
- Parsing of X.509 and PEM, chain verification, SHA-256, random generation, URL, IP and quantity parsing: library code,
  parameters here.
- Informer caches that lag behind the API server: reads are current in the model.
- LifecycleController.Operator.ReconcileHosted: models the hosted branch only as far as the instance's status; hosted
  objects are covered by Workload, SlugRoute and Ceilings.
- LifecycleController.Operator.DeliverTls: is told which material is usable; Renewal models that choice.
- LifecycleController.Operator.ProvisionTarget: assumes one oracle for its passes, with usable issued material or cache, a
  complete rollout and a probe that succeeds; that the tenant's cluster and the certificate controller get there is theirs.
- LifecycleController.Operator.DrainDeletion and DrainMove: assume that from some point on calls succeed and nobody acts
  within a pass; what other controllers do between passes is left to them. For a move, the checks before it in a reconcile
  are assumed to pass.
- LifecycleController.Operator.ReconcileLive: route, settings and middleware checks are answers of the oracle; Ceilings and
  SlugRoute model the first two.
- LifecycleController.Operator.EnsureRemote: an object's content is one revision number; how Services, proxies and
  Deployments are put together field by field is not modelled.
- rejectSlug's deletion of the owned Ingress: one guarded delete, of the kind ForeignFrame covers.
- Several instances at once: the machine follows one instance, and the others are part of its surroundings.
- Legacy BYOC objects from before ownership marks: no property here is about them.
- Auth.Authorize, KeyFile.CollectKeys and SlugRoute.CheckSlugRoute: their list and lookups read one snapshot.
- Auth.Authorize: models the decision after the bearer token was taken from its header.
- JsonFields.Decoder.RejectDuplicateKeys: says nothing of token sequences that are not the stream of a JSON value, which
  the JSON decoder rejects itself.
- SlugPolicy.Parse: starts from decoded entries; size limit, JSON decoding and timestamp parsing are library calls.
- Ceilings.Check: quantities are numbers with a unit, and the table's values are constants.
- Token-request timestamps and conditions, log messages, telemetry, flags, charts, CRDs and the portal: no property
  depends on them.
