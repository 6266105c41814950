/**
 Concrete runs of permitted steps, in the order in which the code takes them: to a published endpoint, and to
 states that cleanup is not meant to reach. Where the code stops early, a call was lost.
 */
module Scenario {
  import opened Calls
  import opened Lifecycle
  import opened CleanupProgress
  import opened LifecycleController

  const KUBECONFIG := Kubeconfig("api", "token")
  const TARGET := Target("api", "cluster")
  const SELECTION := Selection("llm-1", Derived)

  const START := World(
    1, {("example.org", "tls")}, Config("example.org", "tls", 1, "dns"), Some(SELECTION),
    Some(Instance(1, 1, "kubeconfig", false, false, BLANK)), map[], map[],
    map["kubeconfig" := Some(KUBECONFIG)], map["api" := "cluster"], {}, IDLE)

  const NAMED := BLANK.(slug := "llm-1", source := Derived)
  const RECORDED := NAMED.(kcName := "kubeconfig", target := TARGET, domain := "example.org", tlsNs := "tls", activeSlug := "llm-1")

  const PINNED := START.(clock := 2, inst := Some(Instance(1, 2, "kubeconfig", false, true, BLANK)))
  const ADMITTED := START.(clock := 3, inst := Some(Instance(1, 3, "kubeconfig", false, true, NAMED)))
  const CACHED := ADMITTED.(
    clock := 4, cache := map["llm-1" := CacheEntry(4, true, Some(KUBECONFIG))], identified := {(KUBECONFIG, TARGET)},
    know := IDLE.(busy := true))
  const RECORD := CACHED.(clock := 5, inst := Some(Instance(1, 5, "kubeconfig", false, true, RECORDED)), know := IDLE)
  const DELETED := RECORD.(clock := 6, inst := Some(Instance(1, 6, "kubeconfig", true, true, RECORDED)))

  /** The first reconcile puts the finalizer in place. */
  method Pin() returns (op: Operator)
    ensures fresh(op) && op.Valid() && op.s == PINNED
  {
    hide Operator.Valid;
    op := new Operator(START, false, a => true);
    op.Do(Note(Begin));
    op.Do(Inst(AddFinalizer(1)));
    op.Do(Note(End));
  }

  /** The second persists the slug. */
  method Admit(op: Operator)
    requires op.Valid() && op.s == PINNED
    modifies op
    ensures op.Valid() && op.s == ADMITTED
  {
    hide Operator.Valid;
    op.Do(Note(Begin));
    op.Do(Inst(PatchSlug(2, SELECTION)));
    op.Do(Note(End));
  }

  /** The third caches the credentials, records the target, and then fails. */
  method CacheCredentials(op: Operator)
    requires op.Valid() && op.s == ADMITTED
    modifies op
    ensures op.Valid() && op.s == CACHED
  {
    hide Operator.Valid;
    op.Do(Note(Begin));
    op.Do(Cache(Identify(KUBECONFIG)));
    op.Do(Cache(PutCache("llm-1", KUBECONFIG)));
  }

  method RecordTarget(op: Operator)
    requires op.Valid() && op.s == CACHED
    modifies op
    ensures op.Valid() && op.s == RECORD
  {
    hide Operator.Valid;
    assert RecordOk(op.s, NAMED, RECORDED);
    op.Do(Inst(WriteStatus(3, RECORDED)));
    op.Do(Note(End));
  }

  /** The third reconcile is complete. */
  method Provisioned() returns (op: Operator)
    ensures fresh(op) && op.Valid() && op.s == RECORD
  {
    hide Operator.Valid;
    op := Pin();
    Admit(op);
    CacheCredentials(op);
    RecordTarget(op);
  }

  /** The instance is deleted. Cleanup finds nothing to remove and drops the credentials, and the write that
      would remove the finalizer is lost. */
  method Delete(op: Operator)
    requires op.Valid() && op.s == RECORD
    modifies op
    ensures op.Valid() && op.s == DELETED
  {
    hide Operator.Valid;
    op.Do(Inst(RequestDeletion));
  }

  method LoseFinalizerWrite(op: Operator)
    requires op.Valid() && op.s == DELETED
    modifies op
    ensures op.Valid() && !op.s.know.busy && Stuck(op.s)
  {
    hide Operator.Valid;
    op.Do(Note(Begin));
    op.Do(Cache(Identify(KUBECONFIG)));
    op.Do(Cache(DropCache("llm-1")));
    op.Do(Note(End));
  }

  /** A run of permitted steps, from an initial state, into a deletion that RetryStuck shows to be stuck. */
  method StuckDeletion() returns (op: Operator)
    ensures fresh(op) && op.Valid() && !op.s.know.busy && Stuck(op.s)
  {
    hide Operator.Valid, Stuck;
    op := Provisioned();
    Delete(op);
    LoseFinalizerWrite(op);
  }

  // ---------------------------------------------------------------------------------------------
  // Steps of later reconciles
  // ---------------------------------------------------------------------------------------------

  const CERT := Key(Certificate, "tls", TARGET)
  const SOURCE := Key(SourceSecret, "tls", TARGET)
  const LAST := Key(LastValid, "tls", TARGET)
  const ENTRY := Key(DnsEntry, "tls", TARGET)
  const SERVICE := RemoteKey(Service, TARGET)
  const SERVING := RemoteKey(RemoteTls, TARGET)
  const PROXY := RemoteKey(ProxyConfig, TARGET)
  const KEYS := RemoteKey(KeySecret, TARGET)
  const PODS := RemoteKey(Deployment, TARGET)
  const ADDRESS := "8.8.4.4"

  /** The names reserved for the target, in the order of their kinds. */
  const NAMES := [ENTRY, CERT, SOURCE, LAST, SERVICE, PODS, KEYS, PROXY, SERVING]

  /** In the middle of a reconcile over `w`, whatever it has seen. */
  ghost predicate During(op: Operator, w: World)
    reads op
  {
    op.Valid() && op.s == w.(know := op.s.know) && op.s.know.busy
  }

  /** The recorded target is compared with the requested one, and identified once more before it is served. */
  method Enter(op: Operator)
    requires op.Valid() && !op.s.know.busy && "api" in op.s.clusters && op.s.clusters["api"] == "cluster"
    requires (KUBECONFIG, TARGET) in op.s.identified
    modifies op
    ensures During(op, old(op.s)) && op.s.know == IDLE.(busy := true)
  {
    hide Operator.Valid;
    assert op.s.identified + {(KUBECONFIG, TARGET)} == op.s.identified;
    op.Do(Note(Begin));
    op.Do(Cache(Identify(KUBECONFIG)));
    op.Do(Cache(Identify(KUBECONFIG)));
  }

  /** An object is created, and known from then on. */
  method Provide(op: Operator, k: Key, body: Body)
    requires op.Valid() && op.s.know.busy && k !in op.s.objs && Pinned(op.s) && Belongs(k, op.s.inst.value.status)
    requires !k.kind.SourceSecret? && (k.kind.Certificate? ==> !Owned(op.s, k.(kind := SourceSecret)))
    requires k.kind.DnsEntry? ==> op.s.know.svc == Some((k.target, body.address))
    modifies op
    ensures op.Valid() && op.history == old(op.history) + [Object(k, Create(body)), Note(See(k))]
    ensures op.s.know == old(op.s.know).(seen := op.s.know.seen) && old(op.s.know.seen) <= op.s.know.seen
    ensures var o := Obj(old(op.s.clock) + 1, old(op.s.clock) + 1, true, false, body);
            && op.s == old(op.s).(clock := old(op.s.clock) + 1, objs := old(op.s.objs)[k := o], know := op.s.know)
            && (k, o.id) in op.s.know.seen
  {
    hide Operator.Valid;
    op.Do(Object(k, Create(body)));
    op.Do(Note(See(k)));
  }

  /** An object of ours is read. */
  method Look(op: Operator, k: Key)
    requires op.Valid() && op.s.know.busy && Owned(op.s, k)
    modifies op
    ensures op.Valid() && op.s == old(op.s).(know := op.s.know)
    ensures op.s.know == old(op.s.know).(seen := old(op.s.know.seen) + {(k, op.s.objs[k].id)})
  {
    hide Operator.Valid;
    op.Do(Note(See(k)));
  }

  /** The instance is deleted. */
  method Condemn(op: Operator)
    requires op.Valid() && !op.s.know.busy && Pinned(op.s)
    modifies op
    ensures op.Valid() && !op.s.know.busy
    ensures op.s == old(op.s).(clock := op.s.clock, inst := Some(old(op.s.inst.value).(rv := op.s.clock, deleting := true)))
  {
    hide Operator.Valid;
    op.Do(Inst(RequestDeletion));
  }

  // ---------------------------------------------------------------------------------------------
  // Source Secrets that cannot be attributed
  // ---------------------------------------------------------------------------------------------

  const REQUESTED := RECORD.(
    clock := 7, objs := map[SERVICE := Obj(6, 6, true, false, Body("", 0, 1)), CERT := Obj(7, 7, true, false, Body("", 0, 1))])
  const ISSUED := REQUESTED.(clock := 8, objs := REQUESTED.objs[SOURCE := Obj(8, 8, true, false, Body("", 0, 9))])

  /** A reconcile creates the Service and requests the Certificate. */
  method Request() returns (op: Operator)
    ensures fresh(op) && During(op, REQUESTED) && (CERT, 7) in op.s.know.seen
  {
    hide Operator.Valid;
    op := Provisioned();
    Enter(op);
    Provide(op, SERVICE, Body("", 0, 1));
    Provide(op, CERT, Body("", 0, 1));
    assert op.s.objs == REQUESTED.objs;
  }

  /** The write that would have it ask for its UID is lost. */
  method RequestCertificate() returns (op: Operator)
    ensures fresh(op) && op.Valid() && op.s == REQUESTED
  {
    hide Operator.Valid;
    op := Request();
    op.Do(Note(End));
  }

  /** The certificate controller issues, with the labels asked for so far. */
  method Issue() returns (op: Operator)
    ensures fresh(op) && op.Valid() && op.s == ISSUED
  {
    hide Operator.Valid;
    op := RequestCertificate();
    op.Do(Object(SOURCE, EditObject(Some(Obj(8, 8, true, false, Body("", 0, 9))))));
  }

  /** The instance is deleted before anything was issued. Cleanup deletes the Certificate, whose controller issues while
      its finalizer is pending: only ordinary controllers act, and the Secret is abandoned all the same. */
  method RacedSecret() returns (op: Operator)
    ensures fresh(op) && op.Valid() && !op.s.know.busy && Abandoned(op.s, CERT)
    ensures Deletable(op.s, RECORDED) && CacheHolds(op.s, RECORDED.activeSlug, TARGET) && IssuanceStopped(op.s, RECORDED)
  {
    hide Operator.Valid, IssuanceStopped, Abandoned;
    op := RequestCertificate();
    Condemn(op);
    BeforeRace(op.s);
    op.LoseRace(NAMES);
  }

  lemma BeforeRace(s: World)
    requires s == REQUESTED.(clock := s.clock, inst := s.inst)
    requires s.inst == Some(Instance(1, s.clock, "kubeconfig", true, true, RECORDED))
    ensures Drainable(s, RECORDED) && Settled(s, RECORDED) && !IssueSafe(s, RECORDED)
    ensures |NAMES| == |KIND_LIST| && forall j :: 0 <= j < |NAMES| ==> NAMES[j] == KeyOf(KIND_LIST[j], RECORDED)
  {
    assert KeyOf(Certificate, RECORDED) == CERT && KeyOf(SourceSecret, RECORDED) == SOURCE;
  }

  /** Somebody else removes the Certificate after it has issued, and the instance is deleted. */
  method AbandonedSecret() returns (op: Operator)
    ensures fresh(op) && op.Valid() && !op.s.know.busy && Abandoned(op.s, CERT)
    ensures Deletable(op.s, RECORDED) && CacheHolds(op.s, RECORDED.activeSlug, TARGET) && IssuanceStopped(op.s, RECORDED)
  {
    hide Operator.Valid;
    op := Issue();
    op.Do(Object(CERT, EditObject(None)));
    Condemn(op);
  }

  // ---------------------------------------------------------------------------------------------
  // A Certificate requested again
  // ---------------------------------------------------------------------------------------------

  /** The instance is deleted; a cleanup pass reads the Certificate and its unlabelled Secret. */
  method StartCleanup() returns (op: Operator)
    ensures fresh(op) && op.Valid() && op.s.know.busy && Pinned(op.s) && op.s.inst.value.deleting
    ensures op.s.inst.value.status == RECORDED && op.s.objs == ISSUED.objs
  {
    hide Operator.Valid;
    op := Issue();
    Condemn(op);
    op.Do(Note(Begin));
    Look(op, CERT);
    Look(op, SOURCE);
  }

  /** Somebody removes both. */
  method Vanish(op: Operator)
    requires op.Valid() && op.s.know.busy && op.s.objs == ISSUED.objs
    modifies op
    ensures op.Valid() && op.s == old(op.s).(clock := op.s.clock, objs := op.s.objs)
    ensures CERT !in op.s.objs && SOURCE !in op.s.objs && LAST !in op.s.objs
  {
    hide Operator.Valid;
    op.Do(Object(SOURCE, EditObject(None)));
    op.Do(Object(CERT, EditObject(None)));
  }

  /** So cleanup of a deleted instance requests a Certificate: the label handshake finds all three names free. */
  method RecreatedCertificate() returns (op: Operator)
    ensures fresh(op) && op.Valid() && Pinned(op.s) && op.s.inst.value.deleting && Owned(op.s, CERT)
    ensures |op.history| >= 2 && op.history[|op.history| - 2] == Object(CERT, Create(Body("", 0, 1)))
  {
    hide Operator.Valid;
    op := StartCleanup();
    Vanish(op);
    Provide(op, CERT, Body("", 0, 1));
  }

  // ---------------------------------------------------------------------------------------------
  // A published endpoint
  // ---------------------------------------------------------------------------------------------

  const ASKED := RECORD.(
    clock := 9, inst := Some(Instance(1, 9, "kubeconfig", false, true, RECORDED)),
    objs := map[SERVICE := Obj(6, 6, true, false, Body("", 0, 1)), CERT := Obj(7, 8, true, false, Body("", 7, 1))])
  const READY := ASKED.(
    clock := 11,
    objs := map[SERVICE := Obj(6, 10, true, false, Body(ADDRESS, 0, 1)), CERT := Obj(7, 8, true, false, Body("", 7, 1)),
                SOURCE := Obj(11, 11, true, false, Body("", 7, 9))])
  const EXPOSED := READY.(clock := 12, objs := READY.objs[ENTRY := Obj(12, 12, true, false, Body(ADDRESS, 0, 0))])
  const KEPT := EXPOSED.(clock := 13, objs := EXPOSED.objs[LAST := Obj(13, 13, true, false, Body("", 0, 7))])
  const SENT := KEPT.(clock := 14, objs := KEPT.objs[SERVING := Obj(14, 14, true, false, Body("", 0, 7))])
  const PUBLISHED := RECORDED.(endpoint := Https(Host(TARGET, "example.org")), ready := true)

  /** This time the Certificate comes to ask for its UID; there is no address yet. */
  method Ask() returns (op: Operator)
    ensures fresh(op) && op.Valid() && op.s == ASKED
  {
    hide Operator.Valid;
    op := Request();
    op.Do(Object(CERT, Update(7, Body("", 7, 1))));
    Look(op, SERVICE);
    KeepStatus(op);
    assert op.s.objs == ASKED.objs;
  }

  /** The reconcile ends with a status write that publishes nothing. */
  method KeepStatus(op: Operator)
    requires op.Valid() && op.s.know.busy && op.s.inst.Some? && op.s.inst.value.status == RECORDED
    modifies op
    ensures op.Valid() && op.s.know == IDLE
    ensures op.s == old(op.s).(clock := old(op.s.clock) + 1, inst := Some(old(op.s.inst.value).(rv := old(op.s.clock) + 1)), know := IDLE)
  {
    hide Operator.Valid;
    op.Do(Inst(WriteStatus(op.s.inst.value.rv, RECORDED)));
    op.Do(Note(End));
  }

  /** The Service gets its address, and the source Secret is issued with the UID. */
  method Catch() returns (op: Operator)
    ensures fresh(op) && op.Valid() && op.s == READY
  {
    hide Operator.Valid;
    op := Ask();
    op.Do(Object(SERVICE, EditObject(Some(Obj(6, 10, true, false, Body(ADDRESS, 0, 1))))));
    op.Do(Object(SOURCE, EditObject(Some(Obj(11, 11, true, false, Body("", 7, 9))))));
    assert op.s.objs == READY.objs;
  }

  /** The next reconcile finds Service, Certificate and Secret in order, and points DNS at the address. */
  method Survey() returns (op: Operator)
    ensures fresh(op) && During(op, READY)
  {
    hide Operator.Valid;
    op := Catch();
    Enter(op);
    Look(op, SERVICE);
    Look(op, CERT);
    Look(op, SOURCE);
  }

  method Expose() returns (op: Operator)
    ensures fresh(op) && During(op, EXPOSED)
  {
    hide Operator.Valid;
    op := Survey();
    Look(op, SERVICE);
    op.Do(Note(SeeAddress(TARGET, ADDRESS)));
    Provide(op, ENTRY, Body(ADDRESS, 0, 0));
  }

  /** It keeps and delivers the issued certificate. */
  method Keep() returns (op: Operator)
    ensures fresh(op) && During(op, KEPT)
  {
    hide Operator.Valid;
    op := Expose();
    Look(op, CERT);
    Look(op, SOURCE);
    Provide(op, LAST, Body("", 0, 7));
  }

  method Deliver() returns (op: Operator)
    ensures fresh(op) && During(op, SENT) && op.s.know.delivered == Some((TARGET, 7))
  {
    hide Operator.Valid;
    op := Keep();
    Provide(op, SERVING, Body("", 0, 7));
    op.Do(Note(Delivered(TARGET, 7)));
  }

  /** Then come the workload objects. */
  method Deploy() returns (op: Operator)
    ensures fresh(op) && op.Valid() && op.s.know.busy && op.s.inst == SENT.inst
    ensures op.s.know.delivered == Some((TARGET, 7)) && Owned(op.s, PODS) && Owned(op.s, SERVICE)
  {
    hide Operator.Valid;
    op := Deliver();
    StillToDo(op.s);
    Pods(op);
  }

  lemma StillToDo(s: World)
    requires s.objs == SENT.objs
    ensures PROXY !in s.objs && KEYS !in s.objs && PODS !in s.objs && Owned(s, SERVICE)
  {
  }

  method Pods(op: Operator)
    requires op.Valid() && op.s.know.busy && Pinned(op.s) && op.s.inst.value.status == RECORDED
    requires PROXY !in op.s.objs && KEYS !in op.s.objs && PODS !in op.s.objs && Owned(op.s, SERVICE)
    modifies op
    ensures op.Valid() && op.s == old(op.s).(clock := op.s.clock, objs := op.s.objs, know := op.s.know)
    ensures op.s.know == old(op.s.know).(seen := op.s.know.seen) && Owned(op.s, PODS) && Owned(op.s, SERVICE)
  {
    hide Operator.Valid;
    Provide(op, PROXY, Body("", 0, 1));
    Provide(op, KEYS, Body("", 0, 1));
    Provide(op, PODS, Body("", 0, 1));
  }

  /** Once they serve, a probe sees the certificate, and the endpoint is published. */
  method PublishedEndpoint() returns (op: Operator)
    ensures fresh(op) && op.Valid() && op.s.inst.Some? && op.s.inst.value.status == PUBLISHED
  {
    hide Operator.Valid;
    op := Deploy();
    Look(op, PODS);
    Look(op, SERVICE);
    op.Do(Note(Probe(Host(TARGET, "example.org"), 7)));
    PublishOk(op.s, PUBLISHED);
    op.Do(Inst(WriteStatus(9, PUBLISHED)));
  }
}
