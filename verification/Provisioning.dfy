/** What a calm reconcile of a live instance makes of its target, given what it is told from outside. */
module Provisioning {
  import opened Calls
  import opened Lifecycle
  import opened Interference
  import opened CleanupProgress

  /** What a check of settings or of the hosted route ends with. */
  datatype Verdict = Accepted | Rejected | Unreadable

  /** What the hosted objects come to: a rejection, an error that says nothing about them, or their readiness. */
  datatype Hosting = Refused | Unknown | Waiting | Running

  /** The answers a reconcile gets from code and systems outside the model: the checks of settings and of the hosted
      route, the revision of usable issued material, whether the last-valid cache is usable, whether the Deployment is
      rolled out and the probe of the public host succeeds, and for a hosted instance what its objects come to and
      whether a public host is configured. */
  datatype Oracle = Oracle(
    settings: Verdict, route: Verdict, issued: Option<nat>, cacheUsable: bool, rolledOut: bool, healthy: bool,
    hosting: Hosting, publicHost: bool)

  const PODS := [ProxyConfig, KeySecret, Deployment]

  /** Nothing but the objects under `keys`, observations and identifications changed. */
  ghost predicate Touched(s: World, t: World, keys: set<Key>) {
    OnlyObjects(s, t) && forall k :: k !in keys ==> Same(s, t, k)
  }

  lemma TouchedTrans(a: World, b: World, c: World, x: set<Key>, y: set<Key>)
    requires Touched(a, b, x) && Touched(b, c, y)
    ensures Touched(a, c, x + y)
  {
    forall k | k !in x + y
      ensures Same(a, c, k)
    {
      assert Same(a, b, k) && Same(b, c, k);
    }
  }

  lemma TouchedGrow(a: World, b: World, c: World, x: set<Key>, y: set<Key>)
    requires Touched(a, b, y) && Touched(b, c, x) && x <= y
    ensures Touched(a, c, y)
  {
    TouchedTrans(a, b, c, y, x);
    assert y + x == y;
  }

  lemma UntouchedKey(s: World, t: World, keys: set<Key>, k: Key)
    requires Touched(s, t, keys) && k !in keys
    ensures Same(s, t, k)
  {
  }

  lemma UnchangedTouches(s: World, t: World, keys: set<Key>)
    requires Unchanged(s, t)
    ensures Touched(s, t, keys)
  {
  }

  /** One key was written, or none. */
  lemma OneTouched(s: World, t: World, k: Key)
    requires OnlyObjects(s, t) && (t.objs == s.objs || (k in t.objs && t.objs == s.objs[k := t.objs[k]]))
    ensures Touched(s, t, {k})
  {
  }

  /** A live object of ours is under `k`. */
  predicate Presented(s: World, k: Key) {
    Owned(s, k) && !s.objs[k].deleting
  }

  predicate Provisioned(s: World, k: Key, revision: nat) {
    Owned(s, k) && s.objs[k].body.revision == revision
  }

  /** Nothing, or an object of ours, is under `k`. */
  predicate NotForeign(s: World, k: Key) {
    k in s.objs ==> s.objs[k].owned
  }

  /** The source Secret is absent, bound to the Certificate, or its first issuance before the UID was asked for. */
  predicate SourceAdmitted(s: World, certKey: Key, cert: Obj) {
    var src := certKey.(kind := SourceSecret);
    src in s.objs ==>
      && s.objs[src].owned
      && (s.objs[src].body.certId == cert.id || (cert.body.certId == 0 && s.objs[src].body.certId == 0))
  }

  /** The Certificate is live and its source Secret admitted, or all three names are free. */
  predicate CertObtainable(s: World, k: Key) {
    if k in s.objs then Presented(s, k) && s.objs[k].id != 0 && SourceAdmitted(s, k, s.objs[k])
    else k.(kind := SourceSecret) !in s.objs && k.(kind := LastValid) !in s.objs
  }

  /** Service, Certificate and DNSEntry can be had. */
  ghost predicate ExposureFree(s: World, ns: string, t: Target) {
    && s.cfg.issuer != 0 && s.cfg.dnsClass != ""
    && Strikable(s, RemoteKey(Service, t)) && CertObtainable(s, Key(Certificate, ns, t)) && Strikable(s, Key(DnsEntry, ns, t))
  }

  /** The Service is there, with a public address. */
  predicate Addressed(s: World, t: Target, isPublic: string -> bool) {
    var svc := RemoteKey(Service, t);
    Presented(s, svc) && s.objs[svc].body.address != "" && isPublic(s.objs[svc].body.address)
  }

  /** There is usable material, and nothing foreign or deleted where it goes. */
  ghost predicate Deliverable(s: World, ns: string, t: Target, oracle: Oracle) {
    && Strikable(s, Key(LastValid, ns, t)) && Strikable(s, RemoteKey(RemoteTls, t))
    && (oracle.issued.Some? || (oracle.cacheUsable && Key(LastValid, ns, t) in s.objs))
  }

  ghost predicate PodsFree(s: World, t: Target) {
    forall kind :: kind in PODS ==> NotForeign(s, RemoteKey(kind, t))
  }

  /** A delivery of what is there already: of the issued material, if there is any. */
  predicate Delivers(oracle: Oracle, tls: nat) {
    oracle.issued.Some? ==> oracle.issued.value == tls
  }

  /** The target can be brought to serve, once its Service has an address. */
  ghost predicate Approachable(s: World, ns: string, t: Target, oracle: Oracle) {
    ExposureFree(s, ns, t) && Deliverable(s, ns, t, oracle) && PodsFree(s, t) && oracle.rolledOut && oracle.healthy
  }

  /** The target can be brought to serve in one reconcile. */
  ghost predicate Servable(s: World, ns: string, t: Target, oracle: Oracle, isPublic: string -> bool) {
    Approachable(s, ns, t, oracle) && Addressed(s, t, isPublic)
  }

  /** Service and Certificate have been requested, and nothing else was written but the DNSEntry at most. */
  ghost predicate Prepared(s: World, t: World, ns: string, target: Target) {
    var cert := Key(Certificate, ns, target);
    && Presented(t, RemoteKey(Service, target)) && Strikable(t, Key(DnsEntry, ns, target))
    && CertAsked(t, cert)
    && forall k :: k !in ExposureKeys(ns, target) ==> Same(s, t, k)
  }

  /** Our live Certificate asks the configured issuer to put its UID on the output. */
  predicate CertAsked(s: World, cert: Key) {
    Presented(s, cert) && s.objs[cert].id != 0 && s.objs[cert].body == Body("", s.objs[cert].id, s.cfg.issuer)
  }

  /** Service, Certificate and DNSEntry are ours and live, the Certificate asks for its UID, and DNS points at the public
      address of the Service. */
  ghost predicate Exposed(s: World, ns: string, t: Target, revision: nat, isPublic: string -> bool) {
    var svc, cert, dns := RemoteKey(Service, t), Key(Certificate, ns, t), Key(DnsEntry, ns, t);
    && Owned(s, svc) && s.objs[svc].body.revision == revision && CertAsked(s, cert)
    && Presented(s, dns) && s.objs[dns].body.address == s.objs[svc].body.address
    && s.objs[svc].body.address != "" && isPublic(s.objs[svc].body.address)
  }

  /** The serving certificate in the revision `tls` is with the tenant and in the last-valid cache. */
  ghost predicate Sent(s: World, ns: string, t: Target, tls: nat) {
    var last, remote := Key(LastValid, ns, t), RemoteKey(RemoteTls, t);
    Presented(s, remote) && s.objs[remote].body.revision == tls && Provisioned(s, last, tls)
  }

  /** All that a target needs to serve. */
  ghost predicate InPlace(s: World, ns: string, t: Target, revision: nat, tls: nat, isPublic: string -> bool) {
    && Exposed(s, ns, t, revision, isPublic) && Sent(s, ns, t, tls)
    && forall kind :: kind in PODS ==> Provisioned(s, RemoteKey(kind, t), revision)
  }

  /** All is in place, and what there is to deliver is there already. */
  ghost predicate Steady(s: World, ns: string, t: Target, revision: nat, oracle: Oracle, isPublic: string -> bool) {
    var last := Key(LastValid, ns, t);
    last in s.objs && InPlace(s, ns, t, revision, s.objs[last].body.revision, isPublic) && Delivers(oracle, s.objs[last].body.revision)
  }

  ghost predicate SteadyTls(s: World, ns: string, t: Target, oracle: Oracle) {
    var last := Key(LastValid, ns, t);
    last in s.objs && Sent(s, ns, t, s.objs[last].body.revision) && Delivers(oracle, s.objs[last].body.revision)
  }

  ghost predicate PodsDone(s: World, t: Target, revision: nat) {
    forall kind :: kind in PODS ==> Provisioned(s, RemoteKey(kind, t), revision)
  }

  lemma SteadyParts(s: World, ns: string, t: Target, revision: nat, oracle: Oracle, isPublic: string -> bool)
    requires Steady(s, ns, t, revision, oracle, isPublic)
    ensures Exposed(s, ns, t, revision, isPublic) && SteadyTls(s, ns, t, oracle) && PodsDone(s, t, revision)
  {
  }

  lemma ExposedParts(s: World, ns: string, t: Target, revision: nat, isPublic: string -> bool)
    requires Exposed(s, ns, t, revision, isPublic)
    ensures Requested(s, ns, t, revision) && Pointed(s, ns, t, isPublic)
  {
  }

  lemma PointedSame(s: World, b: World, ns: string, t: Target, isPublic: string -> bool)
    requires b.objs == s.objs
    ensures Pointed(b, ns, t, isPublic) <==> Pointed(s, ns, t, isPublic)
  {
  }

  lemma SteadySame(s: World, b: World, ns: string, t: Target, revision: nat, oracle: Oracle, isPublic: string -> bool)
    requires b.objs == s.objs && b.cfg == s.cfg
    ensures Steady(s, ns, t, revision, oracle, isPublic) ==> Steady(b, ns, t, revision, oracle, isPublic)
    ensures SteadyTls(s, ns, t, oracle) ==> SteadyTls(b, ns, t, oracle)
    ensures PodsDone(s, t, revision) ==> PodsDone(b, t, revision)
  {
    assert forall k, r :: Provisioned(s, k, r) ==> Provisioned(b, k, r);
  }

  function ExposureKeys(ns: string, t: Target): set<Key> {
    {RemoteKey(Service, t), Key(Certificate, ns, t), Key(DnsEntry, ns, t)}
  }

  function DeliveryKeys(ns: string, t: Target): set<Key> {
    {Key(LastValid, ns, t), RemoteKey(RemoteTls, t)}
  }

  function PodKeys(t: Target): set<Key> {
    {RemoteKey(ProxyConfig, t), RemoteKey(KeySecret, t), RemoteKey(Deployment, t)}
  }

  /** Service and Certificate have been requested. */
  predicate Requested(s: World, ns: string, t: Target, revision: nat) {
    var svc, cert := RemoteKey(Service, t), Key(Certificate, ns, t);
    Provisioned(s, svc, revision) && CertAsked(s, cert)
  }

  /** DNS points at the public address of the Service. */
  ghost predicate Pointed(s: World, ns: string, t: Target, isPublic: string -> bool) {
    var svc, dns := RemoteKey(Service, t), Key(DnsEntry, ns, t);
    && svc in s.objs && s.objs[svc].body.address != "" && isPublic(s.objs[svc].body.address)
    && Presented(s, dns) && s.objs[dns].body.address == s.objs[svc].body.address
  }

  function RequestKeys(ns: string, t: Target): set<Key> {
    {RemoteKey(Service, t), Key(Certificate, ns, t)}
  }

  /** The steps of the exposure, one after the other: each keeps what the one before it did. */
  lemma ExposureDone(s: World, b: World, t: World, ns: string, target: Target, revision: nat, isPublic: string -> bool)
    requires Touched(s, b, RequestKeys(ns, target)) && Touched(b, t, {Key(DnsEntry, ns, target)})
    ensures Touched(s, t, ExposureKeys(ns, target))
    ensures Requested(b, ns, target, revision) && Pointed(t, ns, target, isPublic) ==> Exposed(t, ns, target, revision, isPublic)
    ensures (&& Presented(b, RemoteKey(Service, target)) && Requested(b, ns, target, revision)
             && Strikable(t, Key(DnsEntry, ns, target))) ==> Prepared(s, t, ns, target)
  {
    var dns := Key(DnsEntry, ns, target);
    UntouchedKey(b, t, {dns}, RemoteKey(Service, target));
    UntouchedKey(b, t, {dns}, Key(Certificate, ns, target));
    TouchedMore(s, b, RequestKeys(ns, target), ExposureKeys(ns, target));
    TouchedGrow(s, b, t, {dns}, ExposureKeys(ns, target));
  }

  lemma TouchedMore(s: World, t: World, x: set<Key>, y: set<Key>)
    requires Touched(s, t, x) && x <= y
    ensures Touched(s, t, y)
  {
  }

  /** What was exposed and sent stays so while other keys are written. */
  lemma StaysInPlace(s: World, t: World, ns: string, target: Target, revision: nat, tls: nat, isPublic: string -> bool)
    requires Touched(s, t, PodKeys(target)) && Exposed(s, ns, target, revision, isPublic) && Sent(s, ns, target, tls)
    requires forall kind :: kind in PODS ==> Provisioned(t, RemoteKey(kind, target), revision)
    ensures InPlace(t, ns, target, revision, tls, isPublic)
  {
    forall k | k in ExposureKeys(ns, target) + DeliveryKeys(ns, target)
      ensures Same(s, t, k)
    {
      UntouchedKey(s, t, PodKeys(target), k);
    }
    assert Same(s, t, RemoteKey(Service, target)) && Same(s, t, Key(Certificate, ns, target)) && Same(s, t, Key(DnsEntry, ns, target));
    assert Same(s, t, Key(LastValid, ns, target)) && Same(s, t, RemoteKey(RemoteTls, target));
  }

  lemma StaysExposed(s: World, t: World, ns: string, target: Target, revision: nat, isPublic: string -> bool)
    requires Touched(s, t, DeliveryKeys(ns, target)) && Exposed(s, ns, target, revision, isPublic)
    ensures Exposed(t, ns, target, revision, isPublic)
  {
    UntouchedKey(s, t, DeliveryKeys(ns, target), RemoteKey(Service, target));
    UntouchedKey(s, t, DeliveryKeys(ns, target), Key(Certificate, ns, target));
    UntouchedKey(s, t, DeliveryKeys(ns, target), Key(DnsEntry, ns, target));
  }

  /** The exposure does not stand in the way of delivery, nor either of the workload. */
  lemma StaysDeliverable(s: World, t: World, ns: string, target: Target, oracle: Oracle)
    requires Touched(s, t, ExposureKeys(ns, target)) && Deliverable(s, ns, target, oracle)
    ensures Deliverable(t, ns, target, oracle)
  {
    UntouchedKey(s, t, ExposureKeys(ns, target), Key(LastValid, ns, target));
    UntouchedKey(s, t, ExposureKeys(ns, target), RemoteKey(RemoteTls, target));
  }

  lemma PodsStay(s: World, t: World, ns: string, target: Target)
    requires Touched(s, t, DeliveryKeys(ns, target))
    ensures PodsFree(s, target) ==> PodsFree(t, target)
  {
    forall kind | kind in PODS
      ensures Same(s, t, RemoteKey(kind, target))
    {
      assert kind == ProxyConfig || kind == KeySecret || kind == Deployment;
      UntouchedKey(s, t, DeliveryKeys(ns, target), RemoteKey(kind, target));
    }
  }

  lemma PodsStayExposed(s: World, t: World, ns: string, target: Target)
    requires Touched(s, t, ExposureKeys(ns, target))
    ensures PodsFree(s, target) ==> PodsFree(t, target)
  {
    forall kind | kind in PODS
      ensures Same(s, t, RemoteKey(kind, target))
    {
      assert kind == ProxyConfig || kind == KeySecret || kind == Deployment;
      UntouchedKey(s, t, ExposureKeys(ns, target), RemoteKey(kind, target));
    }
  }

  // ---------------------------------------------------------------------------------------------
  // The instance
  // ---------------------------------------------------------------------------------------------

  /** The tenant's kubeconfig under a Secret name, if there is one. */
  function SourceOf(s: World, name: string): Option<Kubeconfig> {
    if name in s.secrets then s.secrets[name] else None
  }

  /** The cluster that the tenant's kubeconfig leads to. */
  function SourceTarget(s: World, name: string): Target {
    match SourceOf(s, name)
    case Some(Kubeconfig(api, _)) => if api in s.clusters && s.clusters[api] != "" then Target(api, s.clusters[api]) else NoTarget
    case _ => NoTarget
  }

  /** The instance's reference leads to a cluster, the recorded one if there is one, under the recorded configuration
      and slug, and the credential cache is free or ours. */
  predicate Connectable(s: World, i: Instance) {
    var st, t := i.status, SourceTarget(s, i.clusterRef);
    && t != NoTarget && (st.target == NoTarget || st.target == t)
    && (st.domain == "" || st.domain == s.cfg.domain) && (st.tlsNs == "" || st.tlsNs == s.cfg.ns)
    && (s.cfg.domain, s.cfg.ns) in s.scopes
    && (st.activeSlug == "" || st.activeSlug == st.slug)
    && (st.slug in s.cache ==> s.cache[st.slug].owned)
  }

  /** The status that has `t` recorded. */
  function Recorded(st: Status, ref: string, t: Target, cfg: Config): Status {
    st.(kcName := ref, activeSlug := st.slug, target := t, domain := cfg.domain, tlsNs := cfg.ns)
  }

  /** The status of a target that serves. */
  function Published(st: Status): Status {
    st.(endpoint := Https(Host(st.target, st.domain)), ready := true)
  }

  /** All is in place, with the issued certificate if there was a usable one. */
  ghost predicate Serving(s: World, ns: string, t: Target, revision: nat, oracle: Oracle, isPublic: string -> bool) {
    oracle.rolledOut && oracle.healthy && Steady(s, ns, t, revision, oracle, isPublic)
  }

  /** Spelled out: who serves has its eight objects, in the requested revision and with one certificate, and DNS leads to
      the Service's public address. */
  lemma ServingMeans(s: World, ns: string, t: Target, revision: nat, oracle: Oracle, isPublic: string -> bool)
    requires Serving(s, ns, t, revision, oracle, isPublic)
    ensures oracle.rolledOut && oracle.healthy
    ensures forall kind :: kind in {DnsEntry, Certificate, LastValid} ==> Key(kind, ns, t) in s.objs && s.objs[Key(kind, ns, t)].owned
    ensures forall kind :: IsRemote(kind) ==> Key(kind, BYOC_NAMESPACE, t) in s.objs && s.objs[Key(kind, BYOC_NAMESPACE, t)].owned
    ensures forall kind :: IsRemote(kind) && kind != RemoteTls ==> s.objs[Key(kind, BYOC_NAMESPACE, t)].body.revision == revision
    ensures s.objs[Key(RemoteTls, BYOC_NAMESPACE, t)].body.revision == s.objs[Key(LastValid, ns, t)].body.revision
    ensures oracle.issued.Some? ==> s.objs[Key(RemoteTls, BYOC_NAMESPACE, t)].body.revision == oracle.issued.value
    ensures var address := s.objs[Key(Service, BYOC_NAMESPACE, t)].body.address;
            address != "" && isPublic(address) && s.objs[Key(DnsEntry, ns, t)].body.address == address
    ensures var cert := s.objs[Key(Certificate, ns, t)]; cert.body.certId == cert.id && cert.body.revision == s.cfg.issuer && !cert.deleting
  {
    forall kind | IsRemote(kind)
      ensures Owned(s, RemoteKey(kind, t)) && (kind != RemoteTls ==> s.objs[RemoteKey(kind, t)].body.revision == revision)
    {
      assert kind in PODS || kind == Service || kind == RemoteTls;
    }
  }

  /** Apart from the instance, the credential cache and objects nothing changed. */
  predicate Framed(s: World, t: World) {
    t.cfg == s.cfg && t.policy == s.policy && t.scopes == s.scopes && t.secrets == s.secrets && t.clusters == s.clusters
  }

  predicate OnlyInstance(s: World, t: World) {
    t == s.(clock := t.clock, inst := t.inst, know := t.know)
  }

  /** What a calm reconcileBYOC makes of the instance: its endpoint is withdrawn, or published with everything in place;
      and published if the target can be reached and served. A target that is reached is recorded and its credentials are
      cached; one that lacks but an address for its Service has been prepared; where everything is in place, nothing is
      written. */
  ghost predicate ByocOutcome(s: World, i: Instance, t: World, revision: nat, oracle: Oracle, isPublic: string -> bool) {
    var target := SourceTarget(s, i.clusterRef);
    t.inst.Some? &&
    var u := t.inst.value;
    && u == i.(rv := u.rv, status := u.status)
    && (|| (u.status.endpoint == NoEndpoint && !u.status.ready)
        || (&& Connectable(s, i) && u.status == Published(Recorded(i.status, i.clusterRef, target, s.cfg))
            && Serving(t, s.cfg.ns, target, revision, oracle, isPublic)))
    && (Connectable(s, i) && Servable(s, s.cfg.ns, target, oracle, isPublic) ==> u.status.endpoint != NoEndpoint)
    && (Connectable(s, i) ==>
          && Published(u.status) == Published(Recorded(i.status, i.clusterRef, target, s.cfg))
          && CacheOwned(t, i.status.slug) && t.cache[i.status.slug].data == SourceOf(s, i.clusterRef)
          && (Approachable(s, s.cfg.ns, target, oracle) ==> u.status.endpoint != NoEndpoint || Prepared(s, t, s.cfg.ns, target)))
    && (Connectable(s, i) && Steady(s, s.cfg.ns, target, revision, oracle, isPublic) ==> t.objs == s.objs)
    && Framed(s, t)
  }

  /** What a calm pass makes of the endpoint of a hosted instance. */
  predicate HostedOutcome(i: Instance, t: World, oracle: Oracle) {
    t.inst.Some? &&
    var u := t.inst.value;
    match oracle.hosting
    case Unknown => u == i
    case Refused => u == i.(rv := u.rv, status := Withdrawn(i.status))
    case _ =>
      u == i.(rv := u.rv, status := i.status.(
        endpoint := if oracle.publicHost then Hosted(i.status.slug) else NoEndpoint, ready := oracle.hosting.Running?))
  }

  /** The instance asks for another target than the recorded one that `oldData` reaches: by dropping or
      changing its reference, or because the same reference now leads to another API or another cluster. */
  predicate MoveWanted(s: World, i: Instance, oldData: Kubeconfig) {
    var data := SourceOf(s, i.clusterRef);
    || i.clusterRef == "" || i.status.kcName != i.clusterRef
    || (&& data.Some? && data.value.Kubeconfig? && oldData.Kubeconfig?
        && (|| data.value.api != oldData.api
            || (&& i.status.target != NoTarget
                && (data.value.api in s.clusters ==> Target(data.value.api, s.clusters[data.value.api]) != i.status.target))))
  }

  /** Whether to move can be decided: the source Secret is missing, or both kubeconfigs can be read and, if they
      name the same API, the cluster answers. */
  predicate Decidable(s: World, i: Instance, oldData: Kubeconfig) {
    var data := SourceOf(s, i.clusterRef);
    i.clusterRef != "" && data.Some? ==>
      && data.value.Kubeconfig? && oldData.Kubeconfig?
      && (i.status.kcName == i.clusterRef && data.value.api == oldData.api ==>
            data.value.api in s.clusters && s.clusters[data.value.api] != "")
  }

  /** The instance is to leave its recorded target, and the cached credentials lead there. */
  predicate Moving(s: World, i: Instance) {
    && i.status.kcName != "" && i.status.activeSlug != "" && i.status.target != NoTarget
    && CacheOwned(s, i.status.activeSlug) && s.cache[i.status.activeSlug].data.Some?
    && var kc := s.cache[i.status.activeSlug].data.value;
       Reaches(s, kc, i.status.target) && MoveWanted(s, i, kc) && Decidable(s, i, kc)
  }

  /** No target is recorded, or it is the requested one and that can be told. */
  predicate Staying(s: World, i: Instance) {
    var active := if i.status.activeSlug != "" then i.status.activeSlug else i.status.slug;
    i.status.kcName == "" ||
    (&& active != "" && CacheOwned(s, active) && s.cache[active].data.Some?
     && Decidable(s, i, s.cache[active].data.value) && !MoveWanted(s, i, s.cache[active].data.value))
  }

  /** The reference leads away from the recorded target. */
  predicate Departing(s: World, i: Instance) {
    i.clusterRef != i.status.kcName || SourceTarget(s, i.clusterRef) != i.status.target
  }

  /** The endpoint of a target that is left, or that cannot be told to be the requested one, is withdrawn. */
  predicate Left(i: Instance, u: Instance) {
    && u == i.(rv := u.rv, status := u.status)
    && (u.status.kcName == i.status.kcName && u.status.target == i.status.target ==> u.status.endpoint == NoEndpoint && !u.status.ready)
  }

  /** A move is only wanted away from the recorded target. */
  lemma MoveDeparts(s: World, i: Instance, slug: string)
    requires Inv(s) && s.inst.Some? && s.inst.value.status == i.status && i.status.kcName != "" && slug == i.status.activeSlug
    requires CacheOwned(s, slug) && s.cache[slug].data.Some?
    requires MoveWanted(s, i, s.cache[slug].data.value) && Decidable(s, i, s.cache[slug].data.value)
    ensures Departing(s, i)
  {
  }

  /** What a calm reconcile makes of a live instance, in the order of the code: a rejection, the finalizer, the slug, and
      only then the endpoint of a hosted or a tenant target, which is withdrawn when it is to be left. */
  ghost predicate LivePass(s: World, i: Instance, t: World, revision: nat, oracle: Oracle, isPublic: string -> bool) {
    var st, sel := i.status, SelectSlug(s.policy, i.status);
    t.inst.Some? &&
    var u := t.inst.value;
    if sel.None? || oracle.settings.Rejected? then OnlyInstance(s, t) && u == i.(rv := u.rv, status := Withdrawn(st))
    else if oracle.settings.Unreadable? then OnlyInstance(s, t) && u == i
    else if !i.finalizer then OnlyInstance(s, t) && u == i.(rv := u.rv, finalizer := true)
    else if sel != Some(Selection(st.slug, st.source)) then
      OnlyInstance(s, t) && u == i.(rv := u.rv, status := st.(slug := sel.value.slug, source := sel.value.source))
    else TargetPassed(s, i, t, revision, oracle, isPublic)
  }

  /** The part of it that comes after the slug. */
  ghost predicate TargetPassed(s: World, i: Instance, t: World, revision: nat, oracle: Oracle, isPublic: string -> bool) {
    t.inst.Some? &&
    var u := t.inst.value;
    if i.clusterRef == "" && oracle.route.Rejected? then OnlyInstance(s, t) && u == i.(rv := u.rv, status := Withdrawn(i.status))
    else if i.clusterRef == "" && oracle.route.Unreadable? then OnlyInstance(s, t) && u == i
    else if !Staying(s, i) then Left(i, u)
    else if i.clusterRef == "" then HostedOutcome(i, t, oracle)
    else ByocOutcome(s, i, t, revision, oracle, isPublic)
  }

  lemma ServableSame(s: World, t: World, ns: string, target: Target, oracle: Oracle, isPublic: string -> bool)
    requires t.objs == s.objs && t.cfg == s.cfg
    ensures Approachable(t, ns, target, oracle) <==> Approachable(s, ns, target, oracle)
    ensures Servable(t, ns, target, oracle, isPublic) <==> Servable(s, ns, target, oracle, isPublic)
    ensures forall revision :: Steady(t, ns, target, revision, oracle, isPublic) <==> Steady(s, ns, target, revision, oracle, isPublic)
  {
    assert PodsFree(t, target) <==> PodsFree(s, target) by {
      assert forall k :: NotForeign(t, k) <==> NotForeign(s, k);
    }
    forall revision
      ensures Steady(t, ns, target, revision, oracle, isPublic) <==> Steady(s, ns, target, revision, oracle, isPublic)
    {
      SteadySame(s, t, ns, target, revision, oracle, isPublic);
      SteadySame(t, s, ns, target, revision, oracle, isPublic);
    }
  }

  lemma ServingSame(s: World, t: World, ns: string, target: Target, revision: nat, oracle: Oracle, isPublic: string -> bool)
    requires t.objs == s.objs && t.cfg == s.cfg && Serving(s, ns, target, revision, oracle, isPublic)
    ensures Serving(t, ns, target, revision, oracle, isPublic)
  {
    SteadySame(s, t, ns, target, revision, oracle, isPublic);
  }

  lemma PreparedSame(s: World, b: World, t: World, u: World, ns: string, target: Target)
    requires s.objs == b.objs && t.objs == u.objs && t.cfg == u.cfg && Prepared(b, t, ns, target)
    ensures Prepared(s, u, ns, target)
  {
    assert forall k :: Same(b, t, k) <==> Same(s, u, k);
  }

  lemma ByocFramed(s: World, b: World, i: Instance, t: World, u: World, revision: nat, oracle: Oracle, isPublic: string -> bool)
    requires s.objs == b.objs && Framed(s, b) && s.cache == b.cache
    requires t.objs == u.objs && Framed(t, u) && t.cache == u.cache && t.inst == u.inst
    requires ByocOutcome(b, i, t, revision, oracle, isPublic)
    ensures ByocOutcome(s, i, u, revision, oracle, isPublic)
  {
    hide Serving, Steady, Servable, Approachable, Prepared;
    var target := SourceTarget(s, i.clusterRef);
    ServableSame(s, b, s.cfg.ns, target, oracle, isPublic);
    if Prepared(b, t, s.cfg.ns, target) {
      PreparedSame(s, b, t, u, s.cfg.ns, target);
    }
    if Serving(t, s.cfg.ns, target, revision, oracle, isPublic) {
      ServingSame(t, u, s.cfg.ns, target, revision, oracle, isPublic);
    }
  }

  /** Observations do not matter. */
  lemma LivePassFramed(s: World, b: World, i: Instance, t: World, u: World, revision: nat, oracle: Oracle, isPublic: string -> bool)
    requires b == s.(know := b.know) && u == t.(know := u.know)
    requires LivePass(b, i, t, revision, oracle, isPublic)
    ensures LivePass(s, i, u, revision, oracle, isPublic)
  {
    hide ByocOutcome, SelectSlug;
    if ByocOutcome(b, i, t, revision, oracle, isPublic) {
      ByocFramed(s, b, i, t, u, revision, oracle, isPublic);
    }
  }

  // ---------------------------------------------------------------------------------------------
  // Provisioning ends
  // ---------------------------------------------------------------------------------------------

  /** The status under the selected slug. */
  function Named(st: Status, sel: Selection): Status {
    st.(slug := sel.slug, source := sel.source)
  }

  /** A live instance whose reference can be followed: the policy selects a slug, the target it leads to is reachable and
      the recorded one if there is one, and nothing foreign or deleted is in the way there. */
  ghost predicate Promising(s: World, oracle: Oracle) {
    s.inst.Some? &&
    var i := s.inst.value;
    var sel := SelectSlug(s.policy, i.status);
    && !i.deleting && i.clusterRef != "" && sel.Some? && oracle.settings.Accepted?
    && Followed(s, i.(status := Named(i.status, sel.value)), oracle)
  }

  ghost predicate Followed(s: World, i: Instance, oracle: Oracle) {
    Connectable(s, i) && Staying(s, i) && Approachable(s, s.cfg.ns, SourceTarget(s, i.clusterRef), oracle)
  }

  /** Finalizer and slug have been persisted. */
  ghost predicate Registered(s: World, oracle: Oracle) {
    s.inst.Some? &&
    var i := s.inst.value;
    && !i.deleting && i.clusterRef != "" && i.finalizer && oracle.settings.Accepted?
    && SelectSlug(s.policy, i.status) == Some(Selection(i.status.slug, i.status.source))
    && Followed(s, i, oracle)
  }

  /** What provisioning is to end with. */
  function Goal(s: World): Status
    requires s.inst.Some? && SelectSlug(s.policy, s.inst.value.status).Some?
  {
    ServedStatus(s, Named(s.inst.value.status, SelectSlug(s.policy, s.inst.value.status).value))
  }

  /** `st` with the target that the reference leads to recorded and published. */
  function ServedStatus(s: World, st: Status): Status
    requires s.inst.Some?
  {
    var ref := s.inst.value.clusterRef;
    Published(Recorded(st, ref, SourceTarget(s, ref), s.cfg))
  }

  /** A new instance on a fresh target: this is all that provisioning needs. */
  lemma FreshPromising(s: World, oracle: Oracle)
    requires s.inst.Some? && s.inst.value.status == BLANK && !s.inst.value.deleting && s.inst.value.clusterRef != ""
    requires s.policy.Some? && s.policy.value.slug !in s.cache && oracle.settings.Accepted?
    requires var name := s.inst.value.clusterRef;
             && name in s.secrets && s.secrets[name].Some? && s.secrets[name].value.Kubeconfig?
             && s.secrets[name].value.api in s.clusters && s.clusters[s.secrets[name].value.api] != ""
             && forall k :: k in s.objs ==> k.target != Target(s.secrets[name].value.api, s.clusters[s.secrets[name].value.api])
    requires (s.cfg.domain, s.cfg.ns) in s.scopes && s.cfg.issuer != 0 && s.cfg.dnsClass != ""
    requires oracle.issued.Some? && oracle.rolledOut && oracle.healthy
    ensures Promising(s, oracle)
    ensures var ref, api := s.inst.value.clusterRef, s.secrets[s.inst.value.clusterRef].value.api;
            var slug, t := s.policy.value.slug, Target(api, s.clusters[api]);
            Goal(s) == Status(slug, s.policy.value.source, Https(Host(t, s.cfg.domain)), true, ref, t, s.cfg.domain, s.cfg.ns, slug)
  {
    var st := s.inst.value.status;
    assert SelectSlug(s.policy, st) == s.policy;
    assert SourceTarget(s, s.inst.value.clusterRef) != NoTarget;
  }

  /** A persisted selection is selected again. */
  lemma SelectAgain(policy: Option<Selection>, st: Status)
    requires SelectSlug(policy, st).Some? && SelectSlug(policy, st).value.slug != ""
    ensures SelectSlug(policy, Named(st, SelectSlug(policy, st).value)) == SelectSlug(policy, st)
  {
  }

  lemma NowRegistered(s: World, oracle: Oracle)
    requires Promising(s, oracle) && s.inst.value.finalizer
    requires SelectSlug(s.policy, s.inst.value.status) == Some(Selection(s.inst.value.status.slug, s.inst.value.status.source))
    ensures Registered(s, oracle)
    ensures Goal(s) == ServedStatus(s, s.inst.value.status)
  {
    var st := s.inst.value.status;
    assert Named(st, SelectSlug(s.policy, st).value) == st;
  }

  /** The first two passes: one adds the finalizer, one persists the slug. */
  lemma RegisterPass(s: World, t: World, revision: nat, oracle: Oracle, isPublic: string -> bool)
    requires Inv(s) && Promising(s, oracle) && LivePass(s, s.inst.value, t, revision, oracle, isPublic)
    requires !s.inst.value.finalizer || SelectSlug(s.policy, s.inst.value.status) != Some(Selection(s.inst.value.status.slug, s.inst.value.status.source))
    ensures Promising(t, oracle) && Goal(t) == Goal(s)
    ensures s.inst.value.finalizer ==>
              && t.inst.value.finalizer
              && SelectSlug(t.policy, t.inst.value.status) == Some(Selection(t.inst.value.status.slug, t.inst.value.status.source))
    ensures t.inst.value.finalizer
  {
    hide Followed, SelectSlug;
    StillPromising(s, t, oracle);
    SelectAgain(s.policy, s.inst.value.status);
  }

  /** Every further pass follows the reference. */
  lemma RegisteredPass(s: World, t: World, revision: nat, oracle: Oracle, isPublic: string -> bool)
    requires Registered(s, oracle) && LivePass(s, s.inst.value, t, revision, oracle, isPublic)
    ensures ByocOutcome(s, s.inst.value, t, revision, oracle, isPublic)
  {
  }

  lemma FollowedSame(s: World, t: World, i: Instance, j: Instance, oracle: Oracle)
    requires OnlyInstance(s, t) && Followed(s, i, oracle) && j.clusterRef == i.clusterRef && j.status == i.status
    ensures Followed(t, j, oracle)
  {
    ServableSame(s, t, s.cfg.ns, SourceTarget(s, i.clusterRef), oracle, (_: string) => true);
  }

  /** Adding the finalizer or persisting the slug keeps the promise and the goal. */
  lemma StillPromising(s: World, t: World, oracle: Oracle)
    requires Inv(s) && Promising(s, oracle) && OnlyInstance(s, t) && t.inst.Some?
    requires var i, j := s.inst.value, t.inst.value;
             var sel := SelectSlug(s.policy, i.status).value;
             j == i.(rv := j.rv, finalizer := j.finalizer, status := j.status) && (j.status == i.status || j.status == Named(i.status, sel))
    ensures Promising(t, oracle) && Goal(t) == Goal(s)
  {
    hide Followed;
    var i, j := s.inst.value, t.inst.value;
    var sel := SelectSlug(s.policy, i.status).value;
    SelectAgain(s.policy, i.status);
    FollowedSame(s, t, i.(status := Named(i.status, sel)), j.(status := Named(i.status, sel)), oracle);
  }

  /** A pass over an approachable target ends with its goal, or has prepared everything but the Service's address. */
  ghost predicate Served(s: World, t: World, revision: nat, oracle: Oracle, isPublic: string -> bool) {
    s.inst.Some? && t.inst.Some? &&
    var u, target := t.inst.value.status, SourceTarget(s, s.inst.value.clusterRef);
    && Published(u) == ServedStatus(s, s.inst.value.status)
    && if u.endpoint == NoEndpoint then !u.ready && Prepared(s, t, s.cfg.ns, target)
       else u == Published(u) && Serving(t, u.tlsNs, u.target, revision, oracle, isPublic)
  }

  lemma PassServed(s: World, t: World, revision: nat, oracle: Oracle, isPublic: string -> bool)
    requires s.inst.Some? && Followed(s, s.inst.value, oracle)
    requires ByocOutcome(s, s.inst.value, t, revision, oracle, isPublic)
    ensures Served(s, t, revision, oracle, isPublic)
  {
    hide Serving, Steady, Servable, Approachable, Prepared;
    var u := t.inst.value.status;
    assert Published(u).tlsNs == u.tlsNs && Published(u).target == u.target;
  }

  /** Then the target stays reachable. */
  lemma StillConnected(s: World, i: Instance, t: World, w: World, revision: nat, oracle: Oracle, isPublic: string -> bool)
    requires Connectable(s, i) && i.status.slug != "" && i.clusterRef != "" && ByocOutcome(s, i, t, revision, oracle, isPublic)
    requires w == t.(clock := w.clock, objs := w.objs)
    ensures Connectable(w, t.inst.value) && Staying(w, t.inst.value)
    ensures SourceTarget(w, i.clusterRef) == SourceTarget(s, i.clusterRef)
  {
    hide Serving, Steady, Servable, Approachable, Prepared;
  }

  /** The Service has got an address, and the source Secret the label of its Certificate; nothing else changed. */
  ghost predicate Equipped(t: World, w: World, ns: string, target: Target, isPublic: string -> bool) {
    var svc, src, cert := RemoteKey(Service, target), Key(SourceSecret, ns, target), Key(Certificate, ns, target);
    && (forall k :: k != svc && k != src ==> Same(t, w, k)) && Addressed(w, target, isPublic)
    && (src in w.objs ==> cert in w.objs && w.objs[src].owned && w.objs[src].body.certId == w.objs[cert].id)
  }

  /** With an address for the Service and its label on the source Secret, a prepared target can be served. */
  lemma PreparedServable(s: World, t: World, w: World, ns: string, target: Target, oracle: Oracle, isPublic: string -> bool)
    requires Approachable(s, ns, target, oracle) && Prepared(s, t, ns, target) && w.cfg == s.cfg
    requires Equipped(t, w, ns, target, isPublic)
    ensures Servable(w, ns, target, oracle, isPublic)
  {
    var cert, last := Key(Certificate, ns, target), Key(LastValid, ns, target);
    assert Same(t, w, cert) && Same(t, w, Key(DnsEntry, ns, target));
    assert cert.(kind := SourceSecret) == Key(SourceSecret, ns, target);
    Untaken(s, t, w, ns, target, last);
    Untaken(s, t, w, ns, target, RemoteKey(RemoteTls, target));
    forall kind | kind in PODS
      ensures NotForeign(w, RemoteKey(kind, target))
    {
      assert kind == ProxyConfig || kind == KeySecret || kind == Deployment;
      Untaken(s, t, w, ns, target, RemoteKey(kind, target));
    }
  }

  /** Nobody's source Secret but ours is in the way. */
  lemma SourceOurs(s: World, t: World, ns: string, target: Target, oracle: Oracle)
    requires Approachable(s, ns, target, oracle) && Prepared(s, t, ns, target)
    ensures Key(SourceSecret, ns, target) in t.objs ==> t.objs[Key(SourceSecret, ns, target)].owned
  {
    var cert := Key(Certificate, ns, target);
    assert cert.(kind := SourceSecret) == Key(SourceSecret, ns, target);
    assert Same(s, t, Key(SourceSecret, ns, target));
  }

  /** So the pass after that can serve it. */
  lemma NowServable(s: World, i: Instance, t: World, w: World, revision: nat, oracle: Oracle, isPublic: string -> bool)
    requires Registered(s, oracle) && s.inst == Some(i) && i.status.slug != ""
    requires ByocOutcome(s, i, t, revision, oracle, isPublic) && t.inst.value.status.endpoint == NoEndpoint
    requires Served(s, t, revision, oracle, isPublic)
    requires w == t.(clock := w.clock, objs := w.objs) && Equipped(t, w, s.cfg.ns, SourceTarget(s, i.clusterRef), isPublic)
    ensures Registered(w, oracle) && Servable(w, w.cfg.ns, SourceTarget(w, i.clusterRef), oracle, isPublic)
    ensures w.inst.Some? && w.inst.value.status.slug != ""
    ensures ServedStatus(w, w.inst.value.status) == ServedStatus(s, s.inst.value.status)
  {
    hide Approachable, Prepared, Serving, Steady, ByocOutcome, Connectable, Staying, Equipped, SelectSlug, SourceTarget;
    ByocKeeps(s, i, t, revision, oracle, isPublic);
    StillConnected(s, i, t, w, revision, oracle, isPublic);
    PreparedServable(s, t, w, s.cfg.ns, SourceTarget(s, i.clusterRef), oracle, isPublic);
  }

  lemma ByocKeeps(s: World, i: Instance, t: World, revision: nat, oracle: Oracle, isPublic: string -> bool)
    requires ByocOutcome(s, i, t, revision, oracle, isPublic) && Connectable(s, i) && i.status.slug != ""
    ensures t.inst.Some? && Framed(s, t)
    ensures var u := t.inst.value; u == i.(rv := u.rv, status := u.status) && u.status.slug == i.status.slug && u.status.source == i.status.source
    ensures SelectSlug(s.policy, i.status) == Some(Selection(i.status.slug, i.status.source)) ==>
              SelectSlug(t.policy, t.inst.value.status) == Some(Selection(i.status.slug, i.status.source))
  {
    hide Serving, Steady, Servable, Approachable, Prepared;
    var u := t.inst.value.status;
    assert Published(u).slug == u.slug && Published(u).source == u.source && Published(u).activeSlug == u.activeSlug;
  }

  lemma Untaken(s: World, t: World, w: World, ns: string, target: Target, k: Key)
    requires Prepared(s, t, ns, target) && k !in ExposureKeys(ns, target) && k != Key(SourceSecret, ns, target)
    requires forall x :: x != RemoteKey(Service, target) && x != Key(SourceSecret, ns, target) ==> Same(t, w, x)
    ensures Same(s, w, k)
  {
    assert Same(s, t, k) && Same(t, w, k);
  }
}
