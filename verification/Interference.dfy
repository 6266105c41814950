/** What a running reconcile can rely on while tenants, other instances and other controllers act. */
module Interference {
  import opened Calls
  import opened Lifecycle

  /** Configuration and observations stay; knowledge only grows. */
  ghost predicate Fixed(s: World, t: World) {
    && t.cfg == s.cfg && t.clusters == s.clusters && t.policy == s.policy && t.scopes == s.scopes
    && s.identified <= t.identified && s.clock <= t.clock
    && t.know == s.know.(seen := t.know.seen) && s.know.seen <= t.know.seen
  }

  /** A finalizer pins the instance; only its spec and deletion request can change under us, and any
      change moves the resource version past everything read before. */
  ghost predicate Anchored(s: World, t: World) {
    && (t.inst == s.inst || (t.inst.Some? ==> t.inst.value.rv > s.clock))
    && (Pinned(s) ==>
          && Pinned(t) && t.inst.value.uid == s.inst.value.uid
          && (s.inst.value.deleting ==> t.inst.value.deleting))
  }

  ghost predicate SameStatus(s: World, t: World) {
    Pinned(s) ==> Pinned(t) && t.inst.value.status == s.inst.value.status
  }

  ghost predicate SameCache(s: World, t: World) {
    Pinned(s) ==>
      forall slug :: CacheOwned(s, slug) || CacheOwned(t, slug) ==>
        slug in s.cache && slug in t.cache && t.cache[slug] == s.cache[slug]
  }

  /** Optimistic locking: an object is what it was, or carries a later resource version. */
  ghost predicate Versions(s: World, t: World) {
    forall k :: k in t.objs ==> (k in s.objs && t.objs[k] == s.objs[k]) || t.objs[k].rv > s.clock
  }

  /** Nothing new carries our mark, except the output of a Certificate of ours. */
  ghost predicate NoNew(s: World, t: World) {
    forall k :: Owned(t, k) ==> Owned(s, k) || (k.kind.SourceSecret? && Owned(s, k.(kind := Certificate)))
  }

  /** Kept by everything a reconcile does between two status writes. */
  ghost predicate Held(s: World, t: World) {
    Fixed(s, t) && Anchored(s, t) && SameStatus(s, t) && SameCache(s, t) && Versions(s, t)
  }

  /** Kept by the surroundings, by reads and by deletions. */
  ghost predicate Rely(s: World, t: World) {
    Held(s, t) && NoNew(s, t)
  }

  /** Kept by a status write. */
  ghost predicate Quiet(s: World, t: World) {
    Fixed(s, t) && Anchored(s, t) && SameCache(s, t) && Versions(s, t) && NoNew(s, t)
  }

  /** Kept by a write to the credential cache. */
  ghost predicate CacheOnly(s: World, t: World) {
    Fixed(s, t) && Anchored(s, t) && SameStatus(s, t) && Versions(s, t) && NoNew(s, t)
  }

  lemma HeldTrans(a: World, b: World, c: World)
    requires Held(a, b) && Held(b, c)
    ensures Held(a, c)
  {
  }

  lemma RelyTrans(a: World, b: World, c: World)
    requires Rely(a, b) && Rely(b, c)
    ensures Rely(a, c)
  {
    HeldTrans(a, b, c);
  }

  lemma GoneStays(s: World, t: World, k: Key)
    requires Rely(s, t) && !Owned(s, k) && !k.kind.SourceSecret?
    ensures !Owned(t, k)
  {
  }

  /** Like NoNew, but the Certificate under `cert` and its output may have become ours. */
  ghost predicate OnlyCertNew(s: World, t: World, cert: Key) {
    forall k :: Owned(t, k) ==>
      || Owned(s, k) || k == cert || k == cert.(kind := SourceSecret)
      || (k.kind.SourceSecret? && Owned(s, k.(kind := Certificate)))
  }

  /** The states in which Certificate, source Secret and last-valid Secret were looked up. */
  datatype Lookups = Lookups(cert: World, source: World, last: World)

  predicate AllAbsent(looked: Lookups, cert: Key) {
    && cert !in looked.cert.objs
    && cert.(kind := SourceSecret) !in looked.source.objs
    && cert.(kind := LastValid) !in looked.last.objs
  }

  lemma NoNewTrans(a: World, b: World, c: World)
    requires NoNew(a, b) && NoNew(b, c)
    ensures NoNew(a, c)
  {
  }

  lemma OnlyCertTrans(a: World, b: World, c: World, cert: Key)
    requires OnlyCertNew(a, b, cert) && OnlyCertNew(b, c, cert) && cert.kind.Certificate?
    ensures OnlyCertNew(a, c, cert)
  {
    assert forall k: Key :: k.kind.SourceSecret? && k.(kind := Certificate) == cert ==> k == cert.(kind := SourceSecret);
  }

  lemma NoNewOnlyCert(s: World, t: World, cert: Key)
    requires NoNew(s, t)
    ensures OnlyCertNew(s, t, cert)
  {
  }

  lemma NothingNew(s: World, cert: Key)
    ensures NoNew(s, s) && OnlyCertNew(s, s, cert)
  {
  }

  /** What was read under a resource version is still under it, or that version is past. */
  lemma StillThere(s: World, t: World, k: Key, o: Obj)
    requires Rely(s, t) && o.rv <= s.clock && (k in s.objs && s.objs[k].rv == o.rv ==> s.objs[k] == o)
    ensures k in t.objs && t.objs[k].rv == o.rv ==> t.objs[k] == o
  {
  }

  /** What is new is a matter of objects alone. */
  lemma NewByObjects(a: World, b: World, c: World, d: World, cert: Key)
    requires a.objs == c.objs && b.objs == d.objs
    ensures NoNew(a, b) <==> NoNew(c, d)
    ensures OnlyCertNew(a, b, cert) <==> OnlyCertNew(c, d, cert)
  {
    assert forall k :: Owned(a, k) == Owned(c, k) && Owned(b, k) == Owned(d, k);
  }

  /** Creating `k` makes it ours and nothing else. */
  lemma CreatedNew(a: World, b: World, k: Key, body: Body)
    requires NoNew(a, b) && ObjEnabled(b, k, Create(body)) && !Owned(a, k)
    ensures var t := ApplyObj(b, k, Create(body));
            && !NoNew(a, t) && (k.kind.Certificate? ==> OnlyCertNew(a, t, k))
            && Owned(t, k) && forall x :: x != k ==> (Owned(t, x) <==> Owned(b, x))
  {
    var t := ApplyObj(b, k, Create(body));
    assert Owned(t, k);
  }

  lemma NoDnsKept(s: World, t: World, target: Target)
    requires Rely(s, t) && NoDns(s, target)
    ensures NoDns(t, target)
  {
  }

  /** Without a Certificate of ours no source Secret comes to be ours. */
  lemma NoIssuance(s: World, t: World, cert: Key)
    requires NoNew(s, t) && !Owned(s, cert) && cert.kind.Certificate?
    ensures !Owned(t, cert)
    ensures !Owned(s, cert.(kind := SourceSecret)) ==> !Owned(t, cert.(kind := SourceSecret))
  {
    assert cert.(kind := SourceSecret).(kind := Certificate) == cert;
  }

  lemma CacheOnlyTrans(a: World, b: World, c: World)
    requires Rely(a, b) && CacheOnly(b, c)
    ensures CacheOnly(a, c)
  {
  }

  lemma CachePut(s: World, slug: string, kc: Kubeconfig)
    ensures CacheOnly(s, ApplyCache(s, PutCache(slug, kc)))
  {
  }

  lemma CacheDropped(s: World, slug: string)
    ensures CacheOnly(s, ApplyCache(s, DropCache(slug)))
  {
  }

  lemma HeldRefl(s: World)
    ensures Held(s, s)
  {
  }

  lemma RelyRefl(s: World)
    ensures Rely(s, s)
  {
  }

  lemma QuietTrans(a: World, b: World, c: World)
    requires Quiet(a, b) && Quiet(b, c)
    ensures Quiet(a, c)
  {
  }

  lemma EnvInstRely(s: World, e: InstEvent)
    requires Inv(s) && EnvInst(s, e)
    ensures Rely(s, ApplyInst(s, e))
  {
    var t := ApplyInst(s, e);
    assert t == s.(clock := t.clock, inst := t.inst, cache := t.cache);
    assert Pinned(s) ==> t.cache == s.cache;
  }

  lemma EnvCacheRely(s: World, e: CacheEvent)
    requires EnvCache(s, e)
    ensures Rely(s, ApplyCache(s, e))
  {
  }

  lemma ObjVersions(s: World, k: Key, e: ObjEvent)
    requires EnvObj(s, k, e) || ObjEnabled(s, k, e)
    ensures Versions(s, ApplyObj(s, k, e))
  {
  }

  lemma ObjHeld(s: World, k: Key, e: ObjEvent)
    requires EnvObj(s, k, e) || ObjEnabled(s, k, e)
    ensures Held(s, ApplyObj(s, k, e))
    ensures !e.Create? ==> NoNew(s, ApplyObj(s, k, e))
  {
    ObjFrame(s, k, e);
    ObjVersions(s, k, e);
    forall x | Owned(ApplyObj(s, k, e), x) {
      OwnedAfter(s, k, e, x);
    }
  }

  /** Every action of the surroundings during a reconcile keeps the rely condition. */
  lemma EnvRely(s: World, e: Event)
    requires Inv(s) && s.know.busy && EnvEnabled(s, e) && e != Note(Crash)
    ensures Rely(s, Apply(s, e))
  {
    match e
    case Inst(i) => EnvInstRely(s, i);
    case Cache(c) => EnvCacheRely(s, c);
    case Object(k, o) => ObjHeld(s, k, o);
    case Scope(_) =>
  }

  /** Nobody else changes which UID a Certificate asks for, and a source Secret keeps its label or gets the one
      its Certificate asks for. */
  ghost predicate LabelsKept(s: World, t: World) {
    forall k :: Owned(t, k) ==>
      && (k.kind.Certificate? ==> Owned(s, k) && t.objs[k].body.certId == s.objs[k].body.certId)
      && (k.kind.SourceSecret? ==>
            var cert := k.(kind := Certificate);
            || (Owned(s, k) && t.objs[k].body.certId == s.objs[k].body.certId)
            || (Owned(s, cert) && t.objs[k].body.certId == s.objs[cert].body.certId))
  }

  lemma ObjLabels(s: World, k: Key, e: ObjEvent)
    requires EnvObj(s, k, e)
    ensures LabelsKept(s, ApplyObj(s, k, e))
  {
    var t := ApplyObj(s, k, e);
    assert forall x :: x != k && x in t.objs ==> x in s.objs && t.objs[x] == s.objs[x];
  }

  lemma EnvLabels(s: World, e: Event)
    requires EnvEnabled(s, e) && e != Note(Crash)
    ensures LabelsKept(s, Apply(s, e))
  {
    match e
    case Inst(i) => assert ApplyInst(s, i).objs == s.objs;
    case Cache(c) => assert ApplyCache(s, c).objs == s.objs;
    case Object(k, o) => ObjLabels(s, k, o);
    case Note(_) =>
    case Scope(x) => assert ApplyScope(s, x).objs == s.objs;
  }

  lemma LabelsTrans(a: World, b: World, c: World)
    requires LabelsKept(a, b) && LabelsKept(b, c)
    ensures LabelsKept(a, c)
  {
  }

  lemma LabelsRefl(s: World)
    ensures LabelsKept(s, s)
  {
  }

  /** A Certificate that is still what was read has asked for no UID if its source Secret has meanwhile come to carry none. */
  lemma LabelRace(s: World, t: World, cert: Key)
    requires LabelsKept(s, t) && cert.kind.Certificate? && Owned(t, cert)
    requires !Unattributed(s, cert.(kind := SourceSecret)) && Unattributed(t, cert.(kind := SourceSecret))
    ensures t.objs[cert].body.certId == 0
  {
    var src := cert.(kind := SourceSecret);
    assert src.(kind := Certificate) == cert;
  }

  // ---------------------------------------------------------------------------------------------
  // The reconcile's own copy of the instance
  // ---------------------------------------------------------------------------------------------

  function Withdrawn(st: Status): Status {
    st.(endpoint := NoEndpoint, ready := false)
  }

  /** The copy agrees with the store, apart from spec edits and a deletion request made since. */
  predicate InSync(s: World, i: Instance) {
    && Pinned(s) && i.finalizer
    && s.inst.value.uid == i.uid && s.inst.value.status == i.status
    && (i.deleting ==> s.inst.value.deleting)
  }

  /** If the store has not moved past the copy, they differ in status at most. */
  predicate Snapshot(s: World, i: Instance) {
    && i.rv <= s.clock
    && (s.inst.Some? && s.inst.value.rv == i.rv ==> i == s.inst.value.(status := i.status))
  }

  /** Writing `st` with the copy's resource version is allowed, unless it conflicts. */
  ghost predicate MayWrite(s: World, i: Instance, st: Status) {
    s.inst.Some? && s.inst.value.rv == i.rv ==> StatusOk(s, st)
  }

  ghost predicate MayWithdraw(s: World, i: Instance) {
    Snapshot(s, i) && MayWrite(s, i, Withdrawn(i.status))
  }

  lemma SnapshotStable(s: World, t: World, i: Instance)
    requires Snapshot(s, i) && Anchored(s, t) && s.clock <= t.clock
    ensures Snapshot(t, i)
  {
  }

  lemma WithdrawOk(s: World, st: Status)
    requires StatusOk(s, st)
    ensures StatusOk(s, Withdrawn(st))
  {
  }

  lemma MayWriteStable(s: World, t: World, i: Instance, st: Status)
    requires i.rv <= s.clock && MayWrite(s, i, st) && Rely(s, t)
    ensures MayWrite(t, i, st)
  {
    if t.inst.Some? && t.inst.value.rv == i.rv {
      assert t.inst == s.inst;
      assert NoneOwned(s) ==> NoneOwned(t);
    }
  }

  /** A status write that goes through. */
  lemma StatusWritten(s: World, i: Instance, st: Status)
    requires Snapshot(s, i) && s.inst.Some? && s.inst.value.rv == i.rv && StatusOk(s, st)
    ensures var t := ApplyInst(s, WriteStatus(i.rv, st));
            && Quiet(s, t) && t == s.(clock := s.clock + 1, inst := Some(i.(rv := s.clock + 1, status := st)))
            && MayWithdraw(t, i.(status := st)) && MayWithdraw(t, t.inst.value)
  {
    var t := ApplyInst(s, WriteStatus(i.rv, st));
    assert t == s.(clock := s.clock + 1, inst := Some(i.(rv := s.clock + 1, status := st)));
    assert forall k :: Owned(t, k) == Owned(s, k);
  }

  lemma RelyQuiet(s: World, t: World)
    requires Rely(s, t)
    ensures Quiet(s, t)
  {
  }

  lemma MayWithdrawStable(s: World, t: World, i: Instance)
    requires MayWithdraw(s, i) && Rely(s, t)
    ensures MayWithdraw(t, i)
  {
    SnapshotStable(s, t, i);
    MayWriteStable(s, t, i, Withdrawn(i.status));
  }

  /** A copy that agrees with the store may always withdraw its endpoint. */
  lemma InSyncWithdraw(s: World, i: Instance)
    requires InSync(s, i) && Snapshot(s, i)
    ensures MayWithdraw(s, i)
  {
  }

  lemma InSyncStable(s: World, t: World, i: Instance)
    requires InSync(s, i) && Anchored(s, t) && SameStatus(s, t)
    ensures InSync(t, i)
  {
  }

  /** Like Held, but the reconcile may also have made observations. */
  ghost predicate Kept(s: World, t: World) {
    Held(s.(know := t.know), t)
  }

  lemma KeptTrans(a: World, b: World, c: World)
    requires Kept(a, b) && Kept(b, c)
    ensures Kept(a, c)
  {
  }

  lemma HeldKept(s: World, t: World)
    requires Held(s, t)
    ensures Kept(s, t)
  {
  }

  lemma InSyncKept(s: World, t: World, i: Instance)
    requires InSync(s, i) && Snapshot(s, i) && Kept(s, t)
    ensures InSync(t, i) && Snapshot(t, i) && MayWithdraw(t, i)
  {
    InSyncWithdraw(t, i);
  }

  /** When no name reserved for the recorded target is ours, nothing is. */
  lemma NoneLeft(s: World)
    requires Inv(s) && s.inst.Some?
    requires var st := s.inst.value.status;
             forall k :: Belongs(k, st) ==> !Owned(s, k)
    ensures NoneOwned(s)
  {
  }
}
