/**
 The BYOC target lifecycle of one LLMInstance as a state machine over the object stores it
 touches: the service cluster (instance, credential cache, managed TLS objects) and the tenant's
 clusters (workload objects).

 An `Event` is one atomic API call of the operator or one action of its surroundings. `EnvEnabled`
 says what the surroundings may do; `OpEnabled` says what the operator is allowed to do. The
 imperative controller in LifecycleController is proved to issue only allowed events, and the
 theorems here hold of every history of allowed events.
 */
module Lifecycle {
  import opened Calls
  import Runs

  /** Tenant-supplied kubeconfig: unusable, or an API trust identity with credentials. */
  datatype Kubeconfig = Malformed(raw: string) | Kubeconfig(api: string, credentials: string)

  /** The API trust identity pinned to the UID of the cluster's kube-system namespace. */
  datatype Target = NoTarget | Target(api: string, cluster: string)

  datatype Host = Host(target: Target, domain: string)

  datatype Endpoint = NoEndpoint | Hosted(slug: string) | Https(host: Host)

  datatype Source = NoSource | Legacy | Derived

  datatype Selection = Selection(slug: string, source: Source)

  datatype Status = Status(
    slug: string, source: Source, endpoint: Endpoint, ready: bool,
    kcName: string, target: Target, domain: string, tlsNs: string, activeSlug: string)

  datatype Instance = Instance(
    uid: nat, rv: nat, clusterRef: string, deleting: bool, finalizer: bool, status: Status)

  datatype Kind =
    | DnsEntry | Certificate | SourceSecret | LastValid
    | Service | Deployment | KeySecret | ProxyConfig | RemoteTls

  datatype Key = Key(kind: Kind, ns: string, target: Target)

  /** The parts of an object the lifecycle depends on. A Certificate's `certId` is the Certificate UID
      it asks to be put on its output (0 when none), a source Secret's `certId` the UID it carries. */
  datatype Body = Body(address: string, certId: nat, revision: nat)

  /** `owned` abstracts the owner check of the object's kind for this instance's UID. */
  datatype Obj = Obj(id: nat, rv: nat, owned: bool, deleting: bool, body: Body)

  datatype CacheEntry = CacheEntry(id: nat, owned: bool, data: Option<Kubeconfig>)

  datatype Config = Config(domain: string, ns: string, issuer: nat, dnsClass: string)

  /** What the running reconcile has observed. */
  datatype Knowledge = Knowledge(
    busy: bool, seen: set<(Key, nat)>, svc: Option<(Target, string)>,
    delivered: Option<(Target, nat)>, probed: Option<(Host, nat)>)

  /** `scopes` holds the pairs of domain and credential namespace that byocTLSIdentity accepts. */
  datatype World = World(
    clock: nat, scopes: set<(string, string)>, cfg: Config, policy: Option<Selection>,
    inst: Option<Instance>, cache: map<string, CacheEntry>, objs: map<Key, Obj>,
    secrets: map<string, Option<Kubeconfig>>, clusters: map<string, string>,
    identified: set<(Kubeconfig, Target)>, know: Knowledge)

  const BYOC_NAMESPACE := "private-llm"
  const BLANK := Status("", NoSource, NoEndpoint, false, "", NoTarget, "", "", "")
  const IDLE := Knowledge(false, {}, None, None, None)

  predicate IsRemote(kind: Kind) {
    kind.Service? || kind.Deployment? || kind.KeySecret? || kind.ProxyConfig? || kind.RemoteTls?
  }

  function RemoteKey(kind: Kind, t: Target): Key {
    Key(kind, BYOC_NAMESPACE, t)
  }

  /** Key `k` is one of the nine names reserved for the target recorded in `st`. */
  predicate Belongs(k: Key, st: Status) {
    && st.target != NoTarget
    && k.target == st.target
    && k.ns == (if IsRemote(k.kind) then BYOC_NAMESPACE else st.tlsNs)
  }

  predicate Owned(s: World, k: Key) {
    k in s.objs && s.objs[k].owned
  }

  /** A source Secret of ours that carries no Certificate UID. */
  predicate Unattributed(s: World, src: Key) {
    Owned(s, src) && s.objs[src].body.certId == 0
  }

  ghost predicate NoneOwned(s: World) {
    forall k :: !Owned(s, k)
  }

  /** No DNSEntry of this instance points at `t`. */
  ghost predicate NoDns(s: World, t: Target) {
    forall ns :: !Owned(s, Key(DnsEntry, ns, t))
  }

  predicate CacheOwned(s: World, slug: string) {
    slug in s.cache && s.cache[slug].owned
  }

  /** The protected cache holds a kubeconfig that was seen to identify exactly `t`. */
  predicate CacheHolds(s: World, slug: string, t: Target) {
    CacheOwned(s, slug) && s.cache[slug].data.Some? && (s.cache[slug].data.value, t) in s.identified
  }

  predicate Pinned(s: World) {
    s.inst.Some? && s.inst.value.finalizer
  }

  // ---------------------------------------------------------------------------------------------
  // Events
  // ---------------------------------------------------------------------------------------------

  /** The instance object. The first three are the tenant's. */
  datatype InstEvent =
    | EditSpec(clusterRef: string)
    | RequestDeletion
    | Recreate(clusterRef: string)
    | AddFinalizer(rv: nat)
    | RemoveFinalizer(rv: nat)
    | PatchSlug(rv: nat, selection: Selection)
    | WriteStatus(rv: nat, status: Status)

  /** The credential cache. `EditCache` is anybody else's use of the same Secret names. */
  datatype CacheEvent =
    | EditCache(slug: string, entry: Option<CacheEntry>)
    | Identify(kubeconfig: Kubeconfig)
    | PutCache(slug: string, kubeconfig: Kubeconfig)
    | DropCache(slug: string)

  /** Managed objects. `EditObject` is any action of tenants, other instances and other controllers. */
  datatype ObjEvent =
    | EditObject(obj: Option<Obj>)
    | Create(body: Body)
    | Update(rv: nat, body: Body)
    | Delete(id: nat, immediate: bool)

  /** Reconcile boundaries and observations. */
  datatype NoteEvent =
    | Begin
    | End
    | Crash
    | See(key: Key)
    | SeeAddress(target: Target, address: string)
    | Delivered(target: Target, revision: nat)
    | Probe(host: Host, revision: nat)

  /** Tenant Secrets, tenant clusters and the operator's own configuration. */
  datatype ScopeEvent =
    | EditSecret(name: string, content: Option<Option<Kubeconfig>>)
    | MoveCluster(api: string, cluster: Option<string>)
    | Reconfigure(cfg: Config, policy: Option<Selection>)

  datatype Event =
    | Inst(inst: InstEvent)
    | Cache(cache: CacheEvent)
    | Object(key: Key, obj: ObjEvent)
    | Note(note: NoteEvent)
    | Scope(scope: ScopeEvent)

  // ---------------------------------------------------------------------------------------------
  // Guards
  // ---------------------------------------------------------------------------------------------

  /** Surroundings may replace or remove any object that is not ours. They may change or remove ours,
      and a tenant may strip our mark on the tenant's own cluster, but nobody else writes our mark,
      except that an owned Certificate's controller writes its output with the labels it was asked for. */
  predicate EnvObjectOk(s: World, k: Key, o: Obj) {
    && o.rv == s.clock + 1
    && (o.id == s.clock + 1 || (k in s.objs && o.id == s.objs[k].id))
    && (o.owned ==> KeptByEnv(s, k, o) || IssuedByEnv(s, k, o))
    && (!o.owned ==> Owned(s, k) ==> IsRemote(k.kind) && o.id == s.objs[k].id)
  }

  predicate KeptByEnv(s: World, k: Key, o: Obj) {
    && Owned(s, k) && o.id == s.objs[k].id && o.body.certId == s.objs[k].body.certId
    && (s.objs[k].deleting ==> o.deleting)
  }

  predicate IssuedByEnv(s: World, k: Key, o: Obj) {
    var certKey := k.(kind := Certificate);
    k.kind.SourceSecret? && Owned(s, certKey) && o.body.certId == s.objs[certKey].body.certId
  }

  predicate EnvInst(s: World, e: InstEvent) {
    match e
    case EditSpec(_) => s.inst.Some?
    case RequestDeletion => s.inst.Some?
    case Recreate(_) => s.inst.None?
    case _ => false
  }

  predicate EnvCache(s: World, e: CacheEvent) {
    e.EditCache? && !CacheOwned(s, e.slug) && (e.entry.Some? ==> !e.entry.value.owned)
  }

  predicate EnvObj(s: World, k: Key, e: ObjEvent) {
    e.EditObject? && (e.obj.Some? ==> EnvObjectOk(s, k, e.obj.value))
  }

  /** What the surroundings may do. Clusters do not change identity, and the operator is not
      reconfigured, in the middle of a reconcile. */
  predicate EnvEnabled(s: World, e: Event) {
    match e
    case Inst(i) => EnvInst(s, i)
    case Cache(c) => EnvCache(s, c)
    case Object(k, o) => EnvObj(s, k, o)
    case Scope(x) =>
      x.EditSecret? || (!s.know.busy && (x.Reconfigure? && x.policy.Some? ==> x.policy.value.slug != ""))
    case Note(n) => n.Crash?
  }

  /** The slug rule: a persisted slug is never replaced and never differs from the active workload's. */
  predicate SlugOk(st: Status, sel: Selection) {
    && sel.slug != ""
    && (st.slug == "" || st.slug == sel.slug)
    && (st.activeSlug == "" || st.activeSlug == sel.slug)
  }

  /** selectSlug: what the policy selects, unless it would rename something already provisioned. */
  function SelectSlug(policy: Option<Selection>, st: Status): (r: Option<Selection>)
    ensures r.Some? ==> r == policy && (r.value.slug != "" ==> SlugOk(st, r.value))
    ensures r.None? ==>
              || policy.None?
              || st.slug !in {"", policy.value.slug} || st.activeSlug !in {"", policy.value.slug}
              || (policy.value.source.Derived? && st.slug == "" && !(st.endpoint.NoEndpoint? && st.activeSlug == "" && st.kcName == ""))
    ensures policy.Some? && policy.value.source.Derived? && st.slug == "" && (st.endpoint != NoEndpoint || st.kcName != "") ==> r.None?
  {
    if policy.None? then None
    else
      var sel := policy.value;
      if sel.source.Derived? && st.slug == "" && (st.endpoint != NoEndpoint || st.activeSlug != "" || st.kcName != "")
      then None
      else if (st.activeSlug != "" && st.activeSlug != sel.slug) || (st.slug != "" && st.slug != sel.slug)
      then None
      else policy
  }

  predicate SameActive(a: Status, b: Status) {
    a.kcName == b.kcName && a.target == b.target && a.domain == b.domain && a.tlsNs == b.tlsNs
  }

  predicate ClearedActive(st: Status) {
    st.kcName == "" && st.target == NoTarget && st.domain == "" && st.tlsNs == ""
  }

  /** A target may be recorded only when the protected cache already serves it. */
  predicate RecordOk(s: World, was: Status, st: Status) {
    && Pinned(s)
    && was.target == NoTarget && st.target != NoTarget
    && st.kcName != "" && st.activeSlug != ""
    && (st.domain, st.tlsNs) in s.scopes
    && CacheHolds(s, st.activeSlug, st.target)
  }

  /** An HTTPS endpoint may be published only for the recorded target, after a probe of that host saw
      the certificate just delivered. */
  predicate EndpointOk(s: World, st: Status) {
    match st.endpoint
    case NoEndpoint => true
    case Hosted(slug) => st.target == NoTarget && slug == st.slug && slug != ""
    case Https(host) =>
      && st.target != NoTarget && host == Host(st.target, st.domain)
      && s.know.delivered.Some? && s.know.probed.Some?
      && s.know.delivered.value.0 == st.target
      && s.know.probed.value == (host, s.know.delivered.value.1)
  }

  ghost predicate StatusOk(s: World, st: Status) {
    s.inst.Some? &&
    var was := s.inst.value.status;
    && st.slug == was.slug && st.source == was.source
    && (st.activeSlug == was.activeSlug || (was.activeSlug == "" && was.slug != "" && st.activeSlug == was.slug))
    && (SameActive(was, st) || RecordOk(s, was, st) || (ClearedActive(st) && NoneOwned(s)))
    && EndpointOk(s, st)
    && (st.ready && st.target != NoTarget ==> st.endpoint.Https?)
  }

  ghost predicate InstEnabled(s: World, e: InstEvent) {
    match e
    case AddFinalizer(rv) => s.inst.Some? && s.inst.value.rv == rv
    case RemoveFinalizer(rv) => Pinned(s) && s.inst.value.rv == rv && s.inst.value.deleting && NoneOwned(s)
    case PatchSlug(rv, sel) => s.inst.Some? && s.inst.value.rv == rv && SlugOk(s.inst.value.status, sel)
    case WriteStatus(rv, st) => s.inst.Some? && s.inst.value.rv == rv && StatusOk(s, st)
    case _ => false
  }

  predicate CacheEnabled(s: World, e: CacheEvent) {
    match e
    case Identify(kc) => kc.Kubeconfig? && kc.api in s.clusters
    case PutCache(slug, kc) =>
      && s.inst.Some?
      && (slug in s.cache ==> s.cache[slug].owned)
      && (var st := s.inst.value.status;
          st.target == NoTarget || slug != st.activeSlug || (kc, st.target) in s.identified)
    case DropCache(slug) =>
      && CacheOwned(s, slug) && s.inst.Some?
      && (s.inst.value.deleting || s.inst.value.status.target == NoTarget || slug != s.inst.value.status.activeSlug)
    case _ => false
  }

  ghost predicate ObjEnabled(s: World, k: Key, e: ObjEvent) {
    match e
    case Create(body) =>
      && k !in s.objs && Pinned(s) && Belongs(k, s.inst.value.status)
      && !k.kind.SourceSecret?
      && (k.kind.Certificate? ==> !Owned(s, k.(kind := SourceSecret)))
      && (k.kind.DnsEntry? ==> s.know.svc == Some((k.target, body.address)))
    case Update(rv, body) =>
      && Owned(s, k) && s.objs[k].rv == rv && (k, s.objs[k].id) in s.know.seen
      && !k.kind.SourceSecret?
      && (k.kind.Certificate? ==> body.certId == s.objs[k].id != 0)
      && (k.kind.DnsEntry? ==> s.know.svc == Some((k.target, body.address)))
    case Delete(id, _) =>
      && k in s.objs && s.objs[k].id == id && (k, id) in s.know.seen
      && (k.kind.Service? ==> NoDns(s, k.target))
      && (k.kind.SourceSecret? ==> s.objs[k].body.certId != 0)
      && (k.kind.Certificate? && Unattributed(s, k.(kind := SourceSecret)) ==> s.objs[k].body.certId == 0)
    case _ => false
  }

  predicate NoteEnabled(s: World, e: NoteEvent) {
    match e
    case Begin => true
    case End => true
    case Crash => false
    case See(k) => Owned(s, k)
    case SeeAddress(t, address) =>
      var k := RemoteKey(Service, t);
      k in s.objs && s.objs[k].body.address == address && address != ""
    case Delivered(t, revision) =>
      var k := RemoteKey(RemoteTls, t);
      Owned(s, k) && s.objs[k].body.revision == revision
    case Probe(_, _) => true
  }

  /** What the operator may do. */
  ghost predicate OpEnabled(s: World, e: Event) {
    && s.know.busy == (e != Note(Begin))
    && match e
       case Inst(i) => InstEnabled(s, i)
       case Cache(c) => CacheEnabled(s, c)
       case Object(k, o) => ObjEnabled(s, k, o)
       case Note(n) => NoteEnabled(s, n)
       case Scope(_) => false
  }

  ghost predicate Enabled(s: World, e: Event) {
    EnvEnabled(s, e) || OpEnabled(s, e)
  }

  // ---------------------------------------------------------------------------------------------
  // Effects
  // ---------------------------------------------------------------------------------------------

  function Disowned(cache: map<string, CacheEntry>): map<string, CacheEntry> {
    map slug | slug in cache :: cache[slug].(owned := false)
  }

  function SetInst(s: World, i: Instance): World {
    s.(clock := s.clock + 1, inst := Some(i.(rv := s.clock + 1)))
  }

  function ApplyInst(s: World, e: InstEvent): World {
    if e.Recreate? then
      var reborn := Instance(s.clock + 1, s.clock + 1, e.clusterRef, false, false, BLANK);
      s.(clock := s.clock + 1, inst := Some(reborn), cache := Disowned(s.cache))
    else if s.inst.None? then s
    else
      var i := s.inst.value;
      match e
      case EditSpec(ref) => SetInst(s, i.(clusterRef := ref))
      case RequestDeletion =>
        if i.finalizer then SetInst(s, i.(deleting := true)) else s.(clock := s.clock + 1, inst := None)
      case AddFinalizer(_) => SetInst(s, i.(finalizer := true))
      case RemoveFinalizer(_) => s.(clock := s.clock + 1, inst := None)
      case PatchSlug(_, sel) => SetInst(s, i.(status := i.status.(slug := sel.slug, source := sel.source)))
      case WriteStatus(_, st) => SetInst(s, i.(status := st))
      case Recreate(_) => s
  }

  function ApplyCache(s: World, e: CacheEvent): World {
    match e
    case EditCache(slug, entry) =>
      s.(cache := if entry.Some? then s.cache[slug := entry.value] else s.cache - {slug})
    case Identify(kc) =>
      if kc.Kubeconfig? && kc.api in s.clusters
      then s.(identified := s.identified + {(kc, Target(kc.api, s.clusters[kc.api]))}) else s
    case PutCache(slug, kc) =>
      var id := if slug in s.cache then s.cache[slug].id else s.clock + 1;
      s.(clock := s.clock + 1, cache := s.cache[slug := CacheEntry(id, true, Some(kc))])
    case DropCache(slug) => s.(clock := s.clock + 1, cache := s.cache - {slug})
  }

  function SetObj(s: World, k: Key, o: Option<Obj>): World {
    s.(clock := s.clock + 1, objs := if o.Some? then s.objs[k := o.value] else s.objs - {k})
  }

  function ApplyObj(s: World, k: Key, e: ObjEvent): World {
    match e
    case EditObject(obj) => SetObj(s, k, obj)
    case Create(body) => SetObj(s, k, Some(Obj(s.clock + 1, s.clock + 1, true, false, body)))
    case Update(_, body) =>
      if k in s.objs then SetObj(s, k, Some(s.objs[k].(rv := s.clock + 1, body := body))) else s
    case Delete(_, immediate) =>
      if k !in s.objs then s
      else if immediate then SetObj(s, k, None)
      else SetObj(s, k, Some(s.objs[k].(rv := s.clock + 1, deleting := true)))
  }

  /** What the reconcile knows after an observation. */
  function Learn(s: World, e: NoteEvent): Knowledge {
    match e
    case Begin => IDLE.(busy := true)
    case End => IDLE
    case Crash => IDLE
    case See(k) => if k in s.objs then s.know.(seen := s.know.seen + {(k, s.objs[k].id)}) else s.know
    case SeeAddress(t, address) => s.know.(svc := Some((t, address)))
    case Delivered(t, revision) => s.know.(delivered := Some((t, revision)), probed := None)
    case Probe(host, revision) => s.know.(probed := Some((host, revision)))
  }

  function ApplyNote(s: World, e: NoteEvent): World {
    s.(know := Learn(s, e))
  }

  function ApplyScope(s: World, e: ScopeEvent): World {
    match e
    case EditSecret(name, content) =>
      s.(secrets := if content.Some? then s.secrets[name := content.value] else s.secrets - {name})
    case MoveCluster(api, cluster) =>
      s.(clusters := if cluster.Some? then s.clusters[api := cluster.value] else s.clusters - {api})
    case Reconfigure(cfg, policy) => s.(cfg := cfg, policy := policy)
  }

  function Apply(s: World, e: Event): World {
    match e
    case Inst(i) => ApplyInst(s, i)
    case Cache(c) => ApplyCache(s, c)
    case Object(k, o) => ApplyObj(s, k, o)
    case Note(n) => ApplyNote(s, n)
    case Scope(x) => ApplyScope(s, x)
  }

  // ---------------------------------------------------------------------------------------------
  // Histories and the invariant
  // ---------------------------------------------------------------------------------------------

  /** Runs start with a new, unprovisioned instance and no object carrying its mark. */
  ghost predicate Initial(s: World) {
    && s.know == IDLE && s.identified == {}
    && s.inst.Some? && s.inst.value.status == BLANK && !s.inst.value.finalizer
    && s.inst.value.rv <= s.clock && s.inst.value.uid <= s.clock
    && NoneOwned(s)
    && (forall k :: k in s.objs ==> s.objs[k].rv <= s.clock && s.objs[k].id <= s.clock)
    && (forall p :: p in s.scopes ==> p.0 != "" && p.1 != "")
    && (s.policy.Some? ==> s.policy.value.slug != "")
  }

  ghost function Replay(start: World, h: seq<Event>): World {
    Runs.Replay(Apply, start, h)
  }

  ghost predicate Legal(start: World, h: seq<Event>) {
    Runs.Legal(Apply, Enabled, start, h)
  }

  ghost predicate StatusInv(s: World, st: Status) {
    && (st.target == NoTarget <==> st.kcName == "")
    && (st.target == NoTarget ==> ClearedActive(st))
    && (st.target != NoTarget ==> st.activeSlug != "" && (st.domain, st.tlsNs) in s.scopes)
    && (st.activeSlug != "" ==> st.activeSlug == st.slug)
    && (st.endpoint.Https? ==> st.target != NoTarget && st.endpoint.host == Host(st.target, st.domain))
    && (st.endpoint.Hosted? ==> st.target == NoTarget && st.endpoint.slug == st.slug && st.slug != "")
    && (st.ready && st.target != NoTarget ==> st.endpoint.Https?)
  }

  ghost predicate InstInv(s: World, i: Instance) {
    && i.rv <= s.clock && i.uid <= s.clock
    && StatusInv(s, i.status)
    && (i.status.target != NoTarget ==> i.finalizer)
    && (forall k :: Owned(s, k) ==> Belongs(k, i.status))
    && (i.status.target != NoTarget && !i.deleting ==> CacheOwned(s, i.status.activeSlug))
    && (i.status.target != NoTarget && CacheOwned(s, i.status.activeSlug) ==>
          CacheHolds(s, i.status.activeSlug, i.status.target))
  }

  ghost predicate Inv(s: World) {
    && (forall k :: k in s.objs ==> s.objs[k].rv <= s.clock && s.objs[k].id <= s.clock)
    && (forall p :: p in s.scopes ==> p.0 != "" && p.1 != "")
    && (s.policy.Some? ==> s.policy.value.slug != "")
    && (forall p :: p in s.identified ==> p.0.Kubeconfig? && p.1.Target? && p.0.api == p.1.api)
    && (if s.inst.None? then NoneOwned(s) else InstInv(s, s.inst.value))
  }

  lemma RecreateInv(s: World, ref: string)
    requires Inv(s) && s.inst.None?
    ensures Inv(ApplyInst(s, Recreate(ref)))
  {
    var t := ApplyInst(s, Recreate(ref));
    assert t.objs == s.objs && t.identified == s.identified && t.scopes == s.scopes && t.policy == s.policy;
    assert forall k :: Owned(t, k) == Owned(s, k);
  }

  /** A change of spec or a deletion request leaves everything else of a kept instance alone. */
  lemma TouchedInv(s: World, t: World, i: Instance)
    requires Inv(s) && s.inst.Some? && t == s.(clock := s.clock + 1, inst := Some(i))
    requires i == s.inst.value.(rv := s.clock + 1, clusterRef := i.clusterRef, deleting := i.deleting)
    requires s.inst.value.deleting ==> i.deleting
    ensures Inv(t)
  {
    assert forall k :: Owned(t, k) == Owned(s, k);
  }

  /** An unfinalized instance has no target, hence nothing to leave behind. */
  lemma RemovedInv(s: World, t: World)
    requires Inv(s) && s.inst.Some? && !s.inst.value.finalizer && t == s.(clock := s.clock + 1, inst := None)
    ensures Inv(t)
  {
    assert forall k :: Owned(t, k) == Owned(s, k);
  }

  lemma InstEnvInv(s: World, e: InstEvent)
    requires Inv(s) && EnvInst(s, e)
    ensures Inv(ApplyInst(s, e))
  {
    hide Inv;
    var t := ApplyInst(s, e);
    if e.Recreate? {
      RecreateInv(s, e.clusterRef);
    } else if t.inst.Some? {
      TouchedInv(s, t, t.inst.value);
    } else {
      RemovedInv(s, t);
    }
  }

  lemma InstOpInv(s: World, e: InstEvent)
    requires Inv(s) && InstEnabled(s, e)
    ensures Inv(ApplyInst(s, e))
  {
    var t := ApplyInst(s, e);
    assert forall k :: Owned(t, k) == Owned(s, k);
    assert forall slug, target :: CacheHolds(t, slug, target) == CacheHolds(s, slug, target);
  }

  lemma CacheInv(s: World, e: CacheEvent)
    requires Inv(s) && (EnvCache(s, e) || CacheEnabled(s, e))
    ensures Inv(ApplyCache(s, e))
  {
    var t := ApplyCache(s, e);
    assert forall k :: Owned(t, k) == Owned(s, k);
  }

  /** Who can come to own what in one step: nobody but the operator's Create and an owned Certificate's output. */
  lemma OwnedAfter(s: World, k: Key, e: ObjEvent, x: Key)
    requires EnvObj(s, k, e) || ObjEnabled(s, k, e)
    requires Owned(ApplyObj(s, k, e), x)
    ensures Owned(s, x) || (e.Create? && x == k) || (x.kind.SourceSecret? && Owned(s, x.(kind := Certificate)))
  {
  }

  /** A step that leaves instance, cache and identities alone keeps the invariant if it brings no stray object. */
  lemma FrameInv(s: World, t: World)
    requires Inv(s)
    requires t.inst == s.inst && t.cache == s.cache && t.identified == s.identified && t.scopes == s.scopes
    requires t.policy.Some? ==> t.policy.value.slug != ""
    requires s.clock <= t.clock
    requires forall k :: k in t.objs ==> t.objs[k].rv <= t.clock && t.objs[k].id <= t.clock
    requires forall k :: Owned(t, k) ==> Owned(s, k) || (s.inst.Some? && Belongs(k, s.inst.value.status))
    ensures Inv(t)
  {
  }

  lemma ObjBounds(s: World, k: Key, e: ObjEvent, x: Key)
    requires Inv(s) && (EnvObj(s, k, e) || ObjEnabled(s, k, e))
    requires x in ApplyObj(s, k, e).objs
    ensures ApplyObj(s, k, e).objs[x].rv <= s.clock + 1 && ApplyObj(s, k, e).objs[x].id <= s.clock + 1
  {
    assert x != k ==> x in s.objs && ApplyObj(s, k, e).objs[x] == s.objs[x];
  }

  lemma ObjFrame(s: World, k: Key, e: ObjEvent)
    requires EnvObj(s, k, e) || ObjEnabled(s, k, e)
    ensures var t := ApplyObj(s, k, e);
            t == s.(clock := s.clock + 1, objs := t.objs)
  {
  }

  lemma ObjInv(s: World, k: Key, e: ObjEvent)
    requires Inv(s) && (EnvObj(s, k, e) || ObjEnabled(s, k, e))
    ensures Inv(ApplyObj(s, k, e))
  {
    var t := ApplyObj(s, k, e);
    ObjFrame(s, k, e);
    forall x | Owned(t, x)
      ensures Owned(s, x) || (s.inst.Some? && Belongs(x, s.inst.value.status))
    {
      OwnedAfter(s, k, e, x);
    }
    forall x | x in t.objs
      ensures t.objs[x].rv <= t.clock && t.objs[x].id <= t.clock
    {
      ObjBounds(s, k, e, x);
    }
    FrameInv(s, t);
  }

  lemma NoteInv(s: World, e: NoteEvent)
    requires Inv(s)
    ensures Inv(ApplyNote(s, e))
  {
    FrameInv(s, ApplyNote(s, e));
  }

  lemma ScopeInv(s: World, e: ScopeEvent)
    requires Inv(s) && EnvEnabled(s, Scope(e))
    ensures Inv(ApplyScope(s, e))
  {
    FrameInv(s, ApplyScope(s, e));
  }

  lemma StepInv(s: World, e: Event)
    requires Inv(s) && Enabled(s, e)
    ensures Inv(Apply(s, e))
  {
    match e
    case Inst(i) => if EnvInst(s, i) { InstEnvInv(s, i); } else { InstOpInv(s, i); }
    case Cache(c) => CacheInv(s, c);
    case Object(k, o) => ObjInv(s, k, o);
    case Note(n) => NoteInv(s, n);
    case Scope(x) => ScopeInv(s, x);
  }

  /** The invariant holds in every reachable state, whichever calls failed and wherever the operator crashed. */
  lemma Reachable(start: World, h: seq<Event>)
    requires Initial(start) && Legal(start, h)
    ensures Inv(Replay(start, h))
  {
    forall s: World, e: Event | Inv(s) && Enabled(s, e)
      ensures Inv(Apply(s, e))
    {
      StepInv(s, e);
    }
    Runs.Invariant(Apply, Enabled, Inv, start, h);
  }
}
