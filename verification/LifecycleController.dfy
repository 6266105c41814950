/**
 The BYOC reconcile code, one method per function of the controller. Every API call lets the
 surroundings act first, and may fail with or without having taken effect. Each method is proved to
 extend the history by allowed events only, so the theorems of Lifecycle apply to all its runs.
 */
module LifecycleController {
  import opened Calls
  import opened Lifecycle
  import opened Interference
  import opened CleanupProgress
  import opened Provisioning
  import Runs

  /** ErrBYOCTLSNotReady is told apart from every other error. */
  datatype Err = Ok | NotReady | Failed

  datatype Read = Found(obj: Obj) | NotFound | ReadError

  datatype InstRead = InstFound(inst: Instance) | InstMissing | InstError

  /** The name under which the recorded target's credentials are cached. */
  function ActiveSlug(i: Instance, slug: string): string {
    if i.status.activeSlug != "" then i.status.activeSlug else slug
  }

  function CacheSlot(s: World, slug: string): Option<CacheEntry> {
    if slug in s.cache then Some(s.cache[slug]) else None
  }

  /** Under this name no other target's credentials may be put than those of the recorded one. */
  predicate MayCache(s: World, slug: string, kc: Kubeconfig) {
    && Pinned(s)
    && (var st := s.inst.value.status;
        st.target == NoTarget || slug != st.activeSlug || (kc, st.target) in s.identified)
  }

  lemma MayCacheStable(s: World, t: World, slug: string, kc: Kubeconfig)
    requires Rely(s, t) && MayCache(s, slug, kc)
    ensures MayCache(t, slug, kc)
  {
  }

  lemma CacheUnwritten(s: World, t: World)
    requires Rely(s, t)
    ensures CacheOnly(s, t)
  {
  }

  /** Such a move can complete: no foreign object in the way, and issuance cannot outrun it. */
  ghost predicate MoveReady(s: World, i: Instance, st: Status) {
    && Pinned(s) && s.inst == Some(i) && Moving(s, i) && SameNames(i.status, st)
    && Sortable(s, st) && IssueSafe(s, st)
  }

  /** The endpoint is withdrawn, and nothing else of the copy changed. */
  predicate OnlyWithdrawn(i: Instance, j: Instance) {
    j == i.(rv := j.rv, status := Withdrawn(i.status))
  }

  /** No target is recorded, and no endpoint published. */
  predicate Gone(st: Status) {
    st.kcName == "" && st.target == NoTarget && st.endpoint == NoEndpoint && !st.ready
  }

  /** Establishing a target concerns the instance's status and the credential cache alone. */
  ghost predicate Established(s: World, t: World, i: Instance, out: Instance) {
    && t == s.(clock := t.clock, inst := t.inst, cache := t.cache, identified := t.identified, know := t.know)
    && t.inst == Some(out) && out == i.(rv := out.rv, status := out.status)
  }

  /** The selection has been persisted. */
  predicate SlugWritten(t: World, i: Instance, sel: Selection) {
    t.inst.Some? && t.inst.value == i.(rv := t.inst.value.rv, status := i.status.(slug := sel.slug, source := sel.source))
  }

  /** The history grew without the operator writing any object. */
  ghost predicate NoObjectWrites(h: seq<Event>, g: seq<Event>) {
    h <= g && forall x :: |h| <= x < |g| && g[x].Object? ==> g[x].obj.EditObject?
  }

  class Operator {
    var s: World
    ghost var history: seq<Event>
    ghost const start: World
    /** In calm runs nobody interferes and no call fails; used for progress results only. */
    const calm: bool
    /** Public unicast address check, from the Go address parser. */
    const isPublic: string -> bool

    ghost predicate Valid()
      reads this
    {
      && Initial(start)
      && Runs.Legal(Apply, Enabled, start, history)
      && s == Runs.Replay(Apply, start, history)
      && Inv(s)
    }

    ghost predicate Running()
      reads this
    {
      Valid() && s.know.busy
    }

    constructor (world: World, calm: bool, isPublic: string -> bool)
      requires Initial(world)
      ensures Valid() && s == world && history == [] && this.calm == calm
    {
      s, history, start := world, [], world;
      this.calm, this.isPublic := calm, isPublic;
    }

    method Do(e: Event)
      requires Valid() && Enabled(s, e)
      modifies this
      ensures Valid() && s == Apply(old(s), e) && history == old(history) + [e]
    {
      Runs.Extend(Apply, Enabled, start, history, e);
      StepInv(s, e);
      s := Apply(s, e);
      history := history + [e];
    }

    // -------------------------------------------------------------------------------------------
    // API calls
    // -------------------------------------------------------------------------------------------

    /** Any finite number of actions of the surroundings. */
    method Disturb()
      requires Running()
      modifies this
      ensures Running() && NoObjectWrites(old(history), history) && Rely(old(s), s) && LabelsKept(old(s), s)
      ensures calm ==> s == old(s)
    {
      hide Operator.Valid, LabelsKept, Versions, SameCache, NoNew;
      LabelsRefl(s);
      RelyRefl(s);
      var n :| 0 <= n;
      for i := 0 to n
        invariant Running() && NoObjectWrites(old(history), history) && Rely(old(s), s) && LabelsKept(old(s), s)
        invariant calm ==> s == old(s)
      {
        var e: Event := *;
        if !calm && e != Note(Crash) && EnvEnabled(s, e) {
          Facts();
          EnvRely(s, e);
          EnvLabels(s, e);
          RelyTrans(old(s), s, Apply(s, e));
          LabelsTrans(old(s), s, Apply(s, e));
          Do(e);
        }
      }
    }

    /** The same, for callers that do not care about labels. */
    method Interfere()
      requires Running()
      modifies this
      ensures Running() && NoObjectWrites(old(history), history) && Rely(old(s), s)
      ensures calm ==> s == old(s)
    {
      Disturb();
    }

    method GetInstance() returns (r: InstRead)
      requires Running()
      modifies this
      ensures Running() && old(history) <= history && Rely(old(s), s)
      ensures r.InstFound? ==> s.inst == Some(r.inst)
      ensures r.InstMissing? ==> s.inst.None?
      ensures calm ==> s == old(s) && !r.InstError?
    {
      Interfere();
      var fails := DrawFailure(calm);
      if fails {
        return InstError;
      }
      r := if s.inst.Some? then InstFound(s.inst.value) else InstMissing;
    }

    method Remember(k: Key)
      requires Running() && Owned(s, k)
      modifies this
      ensures Running() && NoObjectWrites(old(history), history) && Rely(old(s), s)
      ensures s == old(s).(know := s.know) && (k, s.objs[k].id) in s.know.seen
    {
      hide Operator.Valid;
      Do(Note(See(k)));
    }

    /** Get of a managed object; an owned one is remembered as seen. */
    method Get(k: Key) returns (r: Read)
      requires Running()
      modifies this
      ensures Running() && NoObjectWrites(old(history), history) && Rely(old(s), s)
      ensures r.Found? ==> k in s.objs && r.obj == s.objs[k] && r.obj.rv <= s.clock
      ensures r.Found? && r.obj.owned ==> (k, r.obj.id) in s.know.seen
      ensures r.NotFound? ==> k !in s.objs
      ensures calm ==> s == old(s).(know := s.know) && !r.ReadError?
    {
      hide Operator.Valid, Versions, SameCache, NoNew;
      Interfere();
      var fails := DrawFailure(calm);
      if fails {
        return ReadError;
      }
      if k !in s.objs {
        return NotFound;
      }
      Facts();
      if Owned(s, k) {
        ghost var before := s;
        Remember(k);
        RelyTrans(old(s), before, s);
      }
      r := Found(s.objs[k]);
    }

    ghost predicate MayCreate(k: Key, body: Body)
      reads this
    {
      && Pinned(s) && Belongs(k, s.inst.value.status) && !k.kind.SourceSecret?
      && (k.kind.Certificate? ==> !Owned(s, k) && !Owned(s, k.(kind := SourceSecret)))
      && (k.kind.DnsEntry? ==> s.know.svc == Some((k.target, body.address)))
    }

    method CreateObject(k: Key, body: Body) returns (ok: bool, obj: Obj)
      requires Running() && MayCreate(k, body)
      modifies this
      ensures Running() && old(history) <= history && Held(old(s), s)
      ensures ok ==> Owned(s, k) && obj == s.objs[k] && obj.body == body && !obj.deleting
                     && (k, obj.id) in s.know.seen && obj.rv <= s.clock
      ensures ok ==> obj.id != 0
      ensures calm ==> Touched(old(s), s, {k})
      ensures calm && k !in old(s.objs) ==> ok && s.objs == old(s.objs)[k := obj]
      ensures k.kind.Certificate? ==> OnlyCertNew(old(s), s, k) && (ok ==> !NoNew(old(s), s))
    {
      hide Operator.Valid, Versions, SameCache, NoNew, OnlyCertNew, Touched;
      obj := Obj(0, 0, false, false, body);
      Interfere();
      if k.kind.Certificate? {
        NoIssuance(old(s), s, k);
        NoNewOnlyCert(old(s), s, k);
      }
      var fate := DrawFate(calm);
      if fate.Lost? || k in s.objs {
        if calm {
          OneTouched(old(s), s, k);
        }
        return false, obj;
      }
      ghost var before := s;
      ObjHeld(s, k, Create(body));
      if k.kind.Certificate? {
        CreatedNew(old(s), s, k, body);
      }
      Do(Object(k, Create(body)));
      HeldTrans(old(s), before, s);
      if fate.Unacknowledged? {
        return false, obj;
      }
      ghost var created := s;
      Facts();
      Remember(k);
      HeldTrans(old(s), created, s);
      if k.kind.Certificate? {
        NewByObjects(old(s), created, old(s), s, k);
      }
      if calm {
        OneTouched(old(s), s, k);
      }
      return true, s.objs[k];
    }

    /** Update carries the resource version of the object read as `o`. */
    method UpdateObject(k: Key, o: Obj, body: Body) returns (ok: bool)
      requires Running()
      requires o.owned && (k, o.id) in s.know.seen && o.rv <= s.clock
      requires k in s.objs && s.objs[k].rv == o.rv ==> s.objs[k] == o
      requires !k.kind.SourceSecret? && (k.kind.DnsEntry? ==> s.know.svc == Some((k.target, body.address)))
      requires k.kind.Certificate? ==> body.certId == o.id != 0
      modifies this
      ensures Running() && old(history) <= history && Rely(old(s), s)
      ensures ok ==> Owned(s, k) && s.objs[k].body == body
      ensures calm ==> Touched(old(s), s, {k})
      ensures calm && old(s.objs) == old(s.objs)[k := o] ==>
                ok && s == old(s).(clock := s.clock, objs := s.objs)
                && s.objs == old(s.objs)[k := o.(rv := s.clock, body := body)]
    {
      hide Operator.Valid;
      Interfere();
      var fate := DrawFate(calm);
      if fate.Lost? || k !in s.objs || s.objs[k].rv != o.rv {
        return false;
      }
      ghost var before := s;
      ObjHeld(s, k, Update(o.rv, body));
      Do(Object(k, Update(o.rv, body)));
      RelyTrans(old(s), before, s);
      return fate.Acknowledged?;
    }

    /** Delete with the UID of the object read as `o` as a precondition, and its resource version if `exact`.
        Finalizers decide whether the object goes at once. A missing object counts as deleted. */
    method DeleteObject(k: Key, o: Obj, exact: bool) returns (ok: bool)
      requires Running()
      requires (k, o.id) in s.know.seen
      requires k.kind.Service? ==> NoDns(s, k.target)
      requires k.kind.SourceSecret? || k.kind.Certificate? ==>
                 exact && o.owned && o.rv <= s.clock && (k in s.objs && s.objs[k].rv == o.rv ==> s.objs[k] == o)
      requires k.kind.SourceSecret? ==> o.body.certId != 0
      requires k.kind.Certificate? ==> !Unattributed(s, k.(kind := SourceSecret))
      modifies this
      ensures Running() && old(history) <= history && Rely(old(s), s)
      ensures calm && k in old(s.objs) && old(s.objs)[k] == o ==>
                && ok && s == old(s).(clock := s.clock, objs := s.objs)
                && (s.objs == old(s.objs) - {k} || s.objs == old(s.objs)[k := o.(rv := s.clock, deleting := true)])
    {
      hide Operator.Valid, SameCache, NoNew, LabelsKept;
      Disturb();
      var fate := DrawFate(calm);
      if fate.Lost? {
        return false;
      }
      if k !in s.objs {
        return true;
      }
      if s.objs[k].id != o.id || (exact && s.objs[k].rv != o.rv) {
        return false;
      }
      ghost var before := s;
      if k.kind.Service? {
        NoDnsKept(old(s), s, k.target);
      }
      var immediate: bool := *;
      if k.kind.Certificate? && Unattributed(s, k.(kind := SourceSecret)) {
        LabelRace(old(s), s, k);
      }
      ObjHeld(s, k, Delete(o.id, immediate));
      Do(Object(k, Delete(o.id, immediate)));
      RelyTrans(old(s), before, s);
      return fate.Acknowledged?;
    }

    /** Status update with the copy's resource version. On failure the copy keeps the new status. */
    method UpdateStatus(i: Instance, st: Status) returns (ok: bool, out: Instance)
      requires Running() && Snapshot(s, i) && MayWrite(s, i, st)
      modifies this
      ensures Running() && old(history) <= history && Quiet(old(s), s)
      ensures ok ==> s.inst == Some(out) && out == i.(rv := out.rv, status := st)
      ensures !ok ==> out == i.(status := st)
      ensures MayWithdraw(s, out)
      ensures calm && old(s.inst) == Some(i) ==> ok && s == old(s).(clock := s.clock, inst := s.inst)
    {
      hide Operator.Valid, Versions, SameCache, NoNew, StatusOk, Quiet;
      Interfere();
      SnapshotStable(old(s), s, i);
      MayWriteStable(old(s), s, i, st);
      RelyQuiet(old(s), s);
      out := i.(status := st);
      var fate := DrawFate(calm);
      if fate.Lost? || s.inst.None? || s.inst.value.rv != i.rv {
        ok := false;
        if s.inst.Some? && s.inst.value.rv == i.rv {
          WithdrawOk(s, st);
        }
        return;
      }
      ghost var before := s;
      StatusWritten(s, i, st);
      Do(Inst(WriteStatus(i.rv, st)));
      QuietTrans(old(s), before, s);
      if fate.Unacknowledged? {
        ok := false;
        return;
      }
      ok, out := true, s.inst.value;
    }

    // -------------------------------------------------------------------------------------------
    // Credentials
    // -------------------------------------------------------------------------------------------

    /** byocKubeconfig: the tenant's Secret, read once. */
    method SourceKubeconfig(name: string) returns (ok: bool, data: Option<Kubeconfig>)
      requires Running()
      modifies this
      ensures Running() && old(history) <= history && Rely(old(s), s)
      ensures calm ==> s == old(s) && ok && data == SourceOf(s, name)
    {
      hide Operator.Valid;
      Interfere();
      var fails := DrawFailure(calm);
      if fails {
        return false, None;
      }
      return true, SourceOf(s, name);
    }

    method CachedKubeconfig(slug: string) returns (ok: bool, data: Option<Kubeconfig>)
      requires Running()
      modifies this
      ensures Running() && old(history) <= history && Rely(old(s), s)
      ensures ok && data.Some? ==> CacheOwned(s, slug) && s.cache[slug].data == data
      ensures ok && data.None? ==> slug == "" || slug !in s.cache
      ensures slug == "" ==> ok && data.None?
      ensures calm ==> s == old(s)
      ensures calm && slug != "" && CacheOwned(s, slug) && s.cache[slug].data.Some? ==> ok && data.Some?
    {
      hide Operator.Valid;
      if slug == "" {
        return true, None;
      }
      Interfere();
      var fails := DrawFailure(calm);
      if fails {
        return false, None;
      }
      if slug !in s.cache {
        return true, None;
      }
      if !s.cache[slug].owned || s.cache[slug].data.None? {
        return false, None;
      }
      return true, s.cache[slug].data;
    }

    /** byocClusterIdentity through a client built from `kc`. */
    method ClusterIdentity(kc: Kubeconfig) returns (ok: bool, t: Target)
      requires Running() && kc.Kubeconfig?
      modifies this
      ensures Running() && NoObjectWrites(old(history), history) && Rely(old(s), s)
      ensures ok ==> kc.api in s.clusters && s.clusters[kc.api] != "" && t == Target(kc.api, s.clusters[kc.api])
      ensures ok ==> (kc, t) in s.identified
      ensures calm ==> s == old(s).(identified := s.identified)
      ensures calm && kc.api in s.clusters && s.clusters[kc.api] != "" ==> ok
    {
      hide Operator.Valid;
      t := NoTarget;
      Interfere();
      var fails := DrawFailure(calm);
      if fails || kc.api !in s.clusters || s.clusters[kc.api] == "" {
        return false, t;
      }
      Do(Cache(Identify(kc)));
      return true, Target(kc.api, s.clusters[kc.api]);
    }

    method EnsureCachedCredentials(slug: string, kc: Kubeconfig) returns (ok: bool)
      requires Running() && MayCache(s, slug, kc)
      modifies this
      ensures Running() && old(history) <= history && CacheOnly(old(s), s)
      ensures ok ==> CacheOwned(s, slug) && s.cache[slug].data == Some(kc)
      ensures calm ==> s == old(s).(clock := s.clock, cache := s.cache)
      ensures calm && CacheOwned(old(s), slug) && old(s.cache)[slug].data == Some(kc) ==> s == old(s)
      ensures calm ==> (ok <==> slug in old(s.cache) ==> old(s.cache)[slug].owned)
    {
      hide Operator.Valid, Inv, Rely, Held, CacheOnly, MayCache;
      Interfere();
      CacheUnwritten(old(s), s);
      MayCacheStable(old(s), s, slug, kc);
      var fails := DrawFailure(calm);
      if fails || (slug in s.cache && !s.cache[slug].owned) {
        return false;
      }
      if slug in s.cache && s.cache[slug].data == Some(kc) {
        return true;
      }
      var read := CacheSlot(s, slug);
      ghost var s1 := s;
      Interfere();
      RelyTrans(old(s), s1, s);
      CacheUnwritten(old(s), s);
      MayCacheStable(s1, s, slug, kc);
      var fate := DrawFate(calm);
      if fate.Lost? || CacheSlot(s, slug) != read {
        return false;
      }
      ghost var s2 := s;
      PutCredentials(slug, kc);
      CacheOnlyTrans(old(s), s2, s);
      return fate.Acknowledged?;
    }

    method PutCredentials(slug: string, kc: Kubeconfig)
      requires Running() && MayCache(s, slug, kc) && (slug in s.cache ==> s.cache[slug].owned)
      modifies this
      ensures Running() && old(history) <= history && CacheOnly(old(s), s)
      ensures CacheOwned(s, slug) && s.cache[slug].data == Some(kc)
      ensures s == old(s).(clock := s.clock, cache := s.cache)
    {
      hide Operator.Valid, Inv, CacheOnly;
      CachePut(s, slug, kc);
      Do(Cache(PutCache(slug, kc)));
    }

    method DeleteCachedCredentials(slug: string) returns (ok: bool)
      requires Running() && Pinned(s)
      requires s.inst.value.deleting || s.inst.value.status.target == NoTarget || slug != s.inst.value.status.activeSlug
      modifies this
      ensures Running() && old(history) <= history && CacheOnly(old(s), s)
      ensures ok ==> !CacheOwned(s, slug)
      ensures calm ==> s == old(s).(clock := s.clock, cache := s.cache)
      ensures calm && (slug in old(s.cache) ==> old(s.cache)[slug].owned) ==> ok
    {
      hide Operator.Valid, Versions, SameCache, NoNew;
      Interfere();
      var fails := DrawFailure(calm);
      if fails {
        return false;
      }
      if slug !in s.cache {
        return true;
      }
      if !s.cache[slug].owned {
        return false;
      }
      var read := s.cache[slug];
      ghost var s1 := s;
      Interfere();
      RelyTrans(old(s), s1, s);
      var fate := DrawFate(calm);
      if fate.Lost? {
        return false;
      }
      if slug !in s.cache {
        return true;
      }
      if s.cache[slug] != read {
        return false;
      }
      ghost var s2 := s;
      CacheDropped(s, slug);
      Do(Cache(DropCache(slug)));
      CacheOnlyTrans(old(s), s2, s);
      return fate.Acknowledged?;
    }

    // -------------------------------------------------------------------------------------------
    // Cleanup
    // -------------------------------------------------------------------------------------------

    method CleanupDns(domain: string, ns: string, t: Target) returns (err: Err)
      requires Running()
      modifies this
      ensures Running() && old(history) <= history && Rely(old(s), s)
      ensures err == Ok ==> Key(DnsEntry, ns, t) !in s.objs
      ensures t == NoTarget || (domain, ns) !in old(s.scopes) ==> err == Failed && s == old(s)
      ensures var k := Key(DnsEntry, ns, t);
              calm && t != NoTarget && (domain, ns) in old(s.scopes) && Owned(old(s), k) ==>
                err == NotReady && (old(s.objs)[k].deleting ==> Unchanged(old(s), s))
      ensures calm && t != NoTarget && (domain, ns) in old(s.scopes) ==>
                DnsPass(old(s), s, Key(DnsEntry, ns, t), err == Ok)
    {
      hide Operator.Valid;
      if t == NoTarget || (domain, ns) !in s.scopes {
        return Failed;
      }
      var k := Key(DnsEntry, ns, t);
      var r := Get(k);
      if r.NotFound? {
        return Ok;
      }
      if r.ReadError? || !r.obj.owned {
        return Failed;
      }
      if !r.obj.deleting {
        var ok := DeleteObject(k, r.obj, true);
        if !ok {
          return Failed;
        }
      }
      return NotReady;
    }

    method CleanupRemoteTls(t: Target) returns (err: Err)
      requires Running()
      modifies this
      ensures Running() && old(history) <= history && Rely(old(s), s)
      ensures err == Ok ==> RemoteKey(RemoteTls, t) !in s.objs
      ensures var k := RemoteKey(RemoteTls, t);
              && (calm ==> Struck(old(s), s) && (err == Ok <==> k !in old(s.objs)) && (err == Ok ==> Unchanged(old(s), s)))
              && (calm && k in old(s.objs) && Strikable(old(s), k) ==> StruckAt(old(s), s, k))
              && (calm && Owned(old(s), k) ==> err == NotReady && (old(s.objs)[k].deleting ==> Unchanged(old(s), s)))
    {
      hide Operator.Valid, Versions, SameCache, NoNew;
      var k := RemoteKey(RemoteTls, t);
      var r := Get(k);
      if r.NotFound? {
        return Ok;
      }
      if r.ReadError? || !r.obj.owned {
        return Failed;
      }
      if !r.obj.deleting {
        ghost var before := s;
        var ok := DeleteObject(k, r.obj, true);
        RelyTrans(old(s), before, s);
        if !ok {
          return Failed;
        }
      }
      return NotReady;
    }

    /** One object of cleanupBYOCObjects: reports an error, and whether the object was still there. */
    method CleanupObject(k: Key) returns (failed: bool, pending: bool)
      requires Running() && IsRemote(k.kind)
      requires k.kind.Service? ==> NoDns(s, k.target)
      modifies this
      ensures Running() && old(history) <= history && Rely(old(s), s)
      ensures !failed && !pending ==> k !in s.objs
      ensures calm ==> Struck(old(s), s) && (!pending ==> Unchanged(old(s), s))
      ensures calm && Strikable(old(s), k) ==>
                !failed && pending == (k in old(s.objs)) && (pending ==> StruckAt(old(s), s, k))
    {
      hide Operator.Valid, Versions, SameCache, NoNew;
      var r := Get(k);
      if r.NotFound? {
        return false, false;
      }
      if r.ReadError? || !r.obj.owned {
        return true, false;
      }
      ghost var before := s;
      if k.kind.Service? {
        NoDnsKept(old(s), s, k.target);
      }
      var ok := DeleteObject(k, r.obj, false);
      RelyTrans(old(s), before, s);
      return !ok, true;
    }

    method CleanupObjects(t: Target) returns (err: Err)
      requires Running() && NoDns(s, t)
      modifies this
      ensures Running() && old(history) <= history && Rely(old(s), s)
      ensures err == Ok ==> forall kind :: IsRemote(kind) && kind != RemoteTls ==> !Owned(s, RemoteKey(kind, t))
      ensures calm ==> RemotePass(old(s), s, t, true, err == Ok)
    {
      hide Operator.Valid, Versions, SameCache, Anchored, SameStatus, Fixed, NoNew, StruckUpTo, StruckAt, Struck, Unchanged, Strikable;
      var keys := [RemoteKey(Deployment, t), RemoteKey(Service, t), RemoteKey(KeySecret, t), RemoteKey(ProxyConfig, t)];
      var failed, pending := false, false;
      ghost var smooth := calm && forall kind :: IsRemote(kind) ==> Strikable(s, RemoteKey(kind, t));
      RelyRefl(s);
      StruckStart(s, keys);
      StruckRefl(s);
      for i := 0 to |keys|
        invariant Running() && old(history) <= history && Rely(old(s), s) && NoDns(s, t)
        invariant !failed && !pending ==> forall j :: 0 <= j < i ==> !Owned(s, keys[j])
        invariant smooth ==> !failed && StruckUpTo(old(s), s, keys, i, pending)
        invariant calm ==> Struck(old(s), s) && (!pending ==> Unchanged(old(s), s))
      {
        ghost var before := s;
        if smooth {
          StillStrikable(old(s), s, keys, i, pending);
        }
        var f, p := CleanupObject(keys[i]);
        RelyTrans(old(s), before, s);
        NoDnsKept(before, s, t);
        forall j | 0 <= j < i && !Owned(before, keys[j])
          ensures !Owned(s, keys[j])
        {
          GoneStays(before, s, keys[j]);
        }
        if calm {
          StruckAfter(old(s), before, s, pending || p);
        }
        if smooth {
          StruckStep(old(s), before, s, keys, i, pending, p);
        }
        failed, pending := failed || f, pending || p;
      }
      if smooth {
        StruckEnd(old(s), s, keys, pending);
      }
      if !failed && !pending {
        assert forall kind :: IsRemote(kind) && kind != RemoteTls ==> RemoteKey(kind, t) in keys;
        return Ok;
      }
      return if pending then NotReady else Failed;
    }

    /** One Secret of cleanupBYOCManagedTLS, after the Certificate has gone. */
    method CleanupTlsSecret(k: Key) returns (failed: bool, pending: bool)
      requires Running() && (k.kind.SourceSecret? || k.kind.LastValid?)
      modifies this
      ensures Running() && old(history) <= history && Rely(old(s), s)
      ensures !failed && !pending ==> k !in s.objs
      ensures calm ==> Struck(old(s), s) && (!pending ==> Unchanged(old(s), s))
      ensures calm && k.kind.SourceSecret? && Owned(old(s), k) && old(s.objs)[k].body.certId == 0 ==> failed && !pending
      ensures calm && k in old(s.objs) && old(s.objs)[k].deleting ==> Unchanged(old(s), s)
      ensures calm && Strikable(old(s), k) && (k.kind.SourceSecret? && k in old(s.objs) ==> old(s.objs)[k].body.certId != 0) ==>
                !failed && pending == (k in old(s.objs)) && (pending ==> StruckAt(old(s), s, k))
    {
      hide Operator.Valid, SameCache, NoNew;
      var r := Get(k);
      if r.NotFound? {
        return false, false;
      }
      if r.ReadError? || !r.obj.owned || (k.kind.SourceSecret? && r.obj.body.certId == 0) {
        return true, false;
      }
      if !r.obj.deleting {
        ghost var before := s;
        var ok := DeleteObject(k, r.obj, true);
        RelyTrans(old(s), before, s);
        if !ok {
          return true, true;
        }
      }
      return false, true;
    }

    method ReconcileManagedCertificate(domain: string, ns: string, issuer: nat, t: Target) returns (err: Err)
      requires Running() && Pinned(s) && Belongs(Key(Certificate, ns, t), s.inst.value.status)
      modifies this
      ensures Running() && old(history) <= history && Held(old(s), s) && OnlyCertNew(old(s), s, Key(Certificate, ns, t))
      ensures var k := Key(Certificate, ns, t);
              && (calm && k in old(s.objs) ==>
                    NoNew(old(s), s) && (Unchanged(old(s), s) || (Live(old(s), k) && Asked(old(s), s, k))))
              && (calm && err == Ok ==> Presented(s, k) && s.objs[k].id != 0 && s.objs[k].body == Body("", s.objs[k].id, issuer))
              && (calm && k in old(s.objs) && old(s.objs)[k].body == Body("", old(s.objs)[k].id, issuer) ==> Unchanged(old(s), s))
              && (issuer == 0 || t == NoTarget || (domain, ns) !in old(s.scopes) ==> err == Failed && s == old(s))
              && (calm ==> Touched(old(s), s, {k}))
              && (calm && issuer != 0 && t != NoTarget && (domain, ns) in old(s.scopes) && CertObtainable(old(s), k) ==> err == Ok)
              && (calm && issuer != 0 && t != NoTarget && (domain, ns) in old(s.scopes) && Unlabelled(old(s), k) ==>
                    Asked(old(s), s, k))
    {
      hide Operator.Valid, Versions, SameCache, NoNew, OnlyCertNew, Touched;
      if issuer == 0 || t == NoTarget || (domain, ns) !in s.scopes {
        NothingNew(s, Key(Certificate, ns, t));
        HeldRefl(s);
        UnchangedTouches(s, s, {Key(Certificate, ns, t)});
        return Failed;
      }
      var certKey := Key(Certificate, ns, t);
      var ok, cert, _ := ObtainCertificate(certKey, issuer);
      if !ok || !cert.owned {
        return Failed;
      }
      if cert.deleting || cert.id == 0 {
        return NotReady;
      }
      ghost var before := s;
      ghost var at;
      err, at := BindCertificate(certKey, cert, issuer);
      HeldTrans(old(s), before, s);
      NoNewOnlyCert(before, s, certKey);
      OnlyCertTrans(old(s), before, s, certKey);
      if calm {
        TouchedTrans(old(s), before, s, {certKey}, {certKey});
        assert {certKey} + {certKey} == {certKey};
        if certKey in old(s.objs) {
          NewByObjects(old(s), s, before, s, certKey);
        }
      }
    }

    /** Read the Certificate, or request it if neither it nor any Secret under its name exists. `looked` tells
        the states in which the three names were looked up. */
    method ObtainCertificate(certKey: Key, issuer: nat) returns (ok: bool, cert: Obj, ghost looked: Lookups)
      requires Running() && certKey.kind == Certificate && Pinned(s) && Belongs(certKey, s.inst.value.status)
      modifies this
      ensures Running() && old(history) <= history && Held(old(s), s)
      ensures ok ==> certKey in s.objs && cert == s.objs[certKey] && cert.rv <= s.clock
                     && (cert.owned ==> (certKey, cert.id) in s.know.seen)
      ensures OnlyCertNew(old(s), s, certKey) && Rely(old(s), looked.cert)
      ensures NoNew(old(s), s) || (AllAbsent(looked, certKey) && Rely(looked.cert, looked.source) && Rely(looked.source, looked.last))
      ensures calm && certKey in old(s.objs) ==> ok && Unchanged(old(s), s)
      ensures calm ==> (NoNew(old(s), s) <==> !AllAbsent(Lookups(old(s), old(s), old(s)), certKey))
      ensures calm ==> Touched(old(s), s, {certKey})
      ensures calm && AllAbsent(Lookups(old(s), old(s), old(s)), certKey) ==>
                ok && cert.owned && !cert.deleting && cert.id != 0 && s.objs == old(s.objs)[certKey := cert]
    {
      hide Operator.Valid, Inv, NoNew, OnlyCertNew, Held, Rely, Kept, Touched, Unchanged;
      var free;
      ok, free, cert, looked := LookUpCertificate(certKey);
      RelyHeld(old(s), s);
      NoNewOnlyCert(old(s), s, certKey);
      ReadKept(old(s), s);
      if !free {
        return;
      }
      ghost var s1 := s;
      KeptPinned(old(s), s);
      ok, cert := CreateObject(certKey, Body("", 0, issuer));
      HeldTrans(old(s), s1, s);
      OnlyCertTrans(old(s), s1, s, certKey);
      if calm {
        UnchangedObjects(old(s), s1);
        NewByObjects(old(s), s, s1, s, certKey);
        TouchedAgain(old(s), s1, s, certKey);
      }
    }

    /** The Certificate, or, if there is none, whether both Secrets of its name are absent too. */
    method LookUpCertificate(certKey: Key) returns (ok: bool, free: bool, cert: Obj, ghost looked: Lookups)
      requires Running() && certKey.kind == Certificate
      modifies this
      ensures Running() && old(history) <= history && Rely(old(s), s)
      ensures ok ==> !free && certKey in s.objs && cert == s.objs[certKey] && cert.rv <= s.clock
                     && (cert.owned ==> (certKey, cert.id) in s.know.seen)
      ensures free ==> !Owned(s, certKey) && !Owned(s, certKey.(kind := SourceSecret)) && AllAbsent(looked, certKey)
                       && Rely(looked.cert, looked.source) && Rely(looked.source, looked.last)
      ensures Rely(old(s), looked.cert)
      ensures calm ==> Unchanged(old(s), s) && Touched(old(s), s, {certKey}) && (ok <==> certKey in old(s.objs))
                       && (free <==> AllAbsent(Lookups(old(s), old(s), old(s)), certKey))
    {
      hide Operator.Valid, Inv, Versions, NoNew, SameCache, Anchored, Fixed, Touched;
      ok, free, cert := false, false, Obj(0, 0, false, false, Body("", 0, 0));
      var r := Get(certKey);
      looked := Lookups(s, s, s);
      if calm {
        UnchangedTouches(old(s), s, {certKey});
      }
      if r.Found? {
        return true, false, r.obj, looked;
      }
      if r.ReadError? {
        return;
      }
      ghost var s1 := s;
      var src := Get(certKey.(kind := SourceSecret));
      looked := Lookups(s1, s, s);
      RelyTrans(old(s), s1, s);
      NoIssuance(s1, s, certKey);
      if calm {
        UnchangedTouches(old(s), s, {certKey});
      }
      if !src.NotFound? {
        return;
      }
      ghost var s2 := s;
      var last := Get(certKey.(kind := LastValid));
      looked := Lookups(s1, s2, s);
      RelyTrans(old(s), s2, s);
      NoIssuance(s2, s, certKey);
      if calm {
        UnchangedTouches(old(s), s, {certKey});
      }
      free := last.NotFound?;
    }

    /** The second half of reconcileBYOCManagedCertificate: guard the output, then converge the request. `at` is
        the state in which the source Secret was read; one that is neither bound to this Certificate nor its
        first issuance is refused without a write. */
    method BindCertificate(certKey: Key, cert: Obj, issuer: nat) returns (err: Err, ghost at: World)
      requires Running() && cert.owned && cert.id != 0 && (certKey, cert.id) in s.know.seen && cert.rv <= s.clock && certKey.kind.Certificate?
      requires certKey in s.objs && s.objs[certKey].rv == cert.rv ==> s.objs[certKey] == cert
      modifies this
      ensures Running() && old(history) <= history && Rely(old(s), s) && Rely(old(s), at) && Rely(at, s)
      ensures !SourceAdmitted(at, certKey, cert) ==> err == Failed && NoObjectWrites(old(history), history)
      ensures calm ==> at == old(s).(know := at.know)
      ensures calm && certKey in old(s.objs) && cert == old(s.objs)[certKey] ==> Unchanged(old(s), s) || Asked(old(s), s, certKey)
      ensures calm ==> Touched(old(s), s, {certKey})
      ensures calm && certKey in old(s.objs) && cert == old(s.objs)[certKey] && SourceAdmitted(old(s), certKey, cert) ==> err == Ok
      ensures calm && certKey in old(s.objs) && cert == old(s.objs)[certKey] && err == Ok ==>
                certKey in s.objs && s.objs[certKey] == cert.(rv := s.objs[certKey].rv, body := Body("", cert.id, issuer))
      ensures calm && Unlabelled(old(s), certKey) && cert == old(s.objs)[certKey] ==> err != NotReady && Asked(old(s), s, certKey)
      ensures calm && cert.body == Body("", cert.id, issuer) ==> Unchanged(old(s), s)
    {
      hide Operator.Valid, Versions, SameCache, NoNew, Touched;
      var src := Get(certKey.(kind := SourceSecret));
      at := s;
      StillThere(old(s), s, certKey, cert);
      RelyRefl(s);
      if calm {
        UnchangedTouches(old(s), s, {certKey});
      }
      if src.ReadError? {
        return Failed, at;
      }
      if src.Found? && !(src.obj.owned && src.obj.body.certId == cert.id) {
        var firstIssuance := cert.body.certId == 0 && src.obj.body.certId == 0 && src.obj.owned;
        if !firstIssuance {
          return Failed, at;
        }
      }
      var desired := Body("", cert.id, issuer);
      if cert.body == desired {
        return Ok, at;
      }
      var ok := UpdateObject(certKey, cert, desired);
      RelyTrans(old(s), at, s);
      if calm {
        TouchedTrans(old(s), at, s, {certKey}, {certKey});
        assert {certKey} + {certKey} == {certKey};
      }
      return if ok then Ok else Failed, at;
    }

    method CleanupManagedTls(domain: string, ns: string, issuer: nat, t: Target) returns (err: Err)
      requires Running() && Pinned(s) && Belongs(Key(Certificate, ns, t), s.inst.value.status)
      modifies this
      ensures Running() && old(history) <= history && Held(old(s), s)
      ensures OnlyCertNew(old(s), s, Key(Certificate, ns, t)) && (calm || err == Ok ==> NoNew(old(s), s))
      ensures err == Ok ==> forall kind :: !IsRemote(kind) ==> !Owned(s, Key(kind, ns, t))
      ensures calm && (domain, ns) in old(s.scopes) ==> ManagedPass(old(s), s, old(s.inst.value.status), issuer, err == Ok)
    {
      hide Operator.Valid, Versions, SameCache, NoNew, OnlyCertNew, DnsPass, IssuancePass, ManagedPass;
      ghost var st := s.inst.value.status;
      ghost var certKey := Key(Certificate, ns, t);
      ghost var smooth := calm && (domain, ns) in s.scopes;
      err := CleanupDns(domain, ns, t);
      NoNewOnlyCert(old(s), s, certKey);
      if err != Ok {
        if smooth {
          AtDns(old(s), s, st, issuer);
        }
        return;
      }
      ghost var noDns := s;
      err := CleanupIssuance(domain, ns, issuer, t);
      HeldTrans(old(s), noDns, s);
      OnlyCertTrans(old(s), noDns, s, certKey);
      if calm || err == Ok {
        NoNewTrans(old(s), noDns, s);
      }
      if err == Ok {
        GoneStays(noDns, s, Key(DnsEntry, ns, t));
      }
      if smooth {
        AtIssuance(old(s), noDns, s, st, issuer, err == Ok);
      }
      assert forall kind :: !IsRemote(kind) ==> kind == DnsEntry || kind == Certificate || kind == SourceSecret || kind == LastValid;
    }

    /** Stop issuance, then remove what it issued. */
    method CleanupIssuance(domain: string, ns: string, issuer: nat, t: Target) returns (err: Err)
      requires Running() && Pinned(s) && Belongs(Key(Certificate, ns, t), s.inst.value.status)
      modifies this
      ensures Running() && old(history) <= history && Held(old(s), s)
      ensures OnlyCertNew(old(s), s, Key(Certificate, ns, t)) && (calm || err == Ok ==> NoNew(old(s), s))
      ensures err == Ok ==> !Owned(s, Key(Certificate, ns, t))
                            && !Owned(s, Key(SourceSecret, ns, t)) && !Owned(s, Key(LastValid, ns, t))
      ensures calm && (domain, ns) in old(s.scopes) ==> IssuancePass(old(s), s, old(s.inst.value.status), issuer, err == Ok)
    {
      hide Operator.Valid, Versions, SameCache, NoNew, OnlyCertNew, IssuancePass, CertificatePass, SecretsPass;
      ghost var st := s.inst.value.status;
      ghost var certKey := Key(Certificate, ns, t);
      ghost var smooth := calm && (domain, ns) in s.scopes;
      err := CleanupCertificate(domain, ns, issuer, t);
      if err != Ok {
        if smooth {
          AtCertificate(old(s), s, st, issuer);
        }
        return;
      }
      ghost var noCert := s;
      err := CleanupTlsSecrets(ns, t);
      HeldTrans(old(s), noCert, s);
      NoNewTrans(old(s), noCert, s);
      NoNewOnlyCert(old(s), s, certKey);
      GoneStays(noCert, s, certKey);
      if smooth {
        AtSecrets(old(s), noCert, s, st, issuer, err == Ok);
      }
    }

    /** Once issuance has stopped: the source Secret, then the last-valid cache. */
    method CleanupTlsSecrets(ns: string, t: Target) returns (err: Err)
      requires Running() && !Owned(s, Key(Certificate, ns, t))
      modifies this
      ensures Running() && old(history) <= history && Rely(old(s), s)
      ensures err == Ok ==> !Owned(s, Key(SourceSecret, ns, t)) && !Owned(s, Key(LastValid, ns, t))
      ensures calm ==> SecretsPass(old(s), s, Key(Certificate, ns, t), err == Ok)
    {
      hide Operator.Valid, Versions, SameCache, Anchored, SameStatus, Fixed, NoNew, StruckUpTo, StruckAt, Struck, Unchanged, Strikable;
      var keys := [Key(SourceSecret, ns, t), Key(LastValid, ns, t)];
      var pending := false;
      ghost var smooth := calm && Strikable(s, keys[0]) && Strikable(s, keys[1])
                          && (keys[0] in s.objs ==> s.objs[keys[0]].body.certId != 0);
      RelyRefl(s);
      StruckStart(s, keys);
      StruckRefl(s);
      for i := 0 to |keys|
        invariant Running() && old(history) <= history && Rely(old(s), s)
        invariant calm ==> Struck(old(s), s) && (!pending ==> Unchanged(old(s), s))
        invariant !Owned(s, Key(Certificate, ns, t))
        invariant !pending ==> forall j :: 0 <= j < i ==> !Owned(s, keys[j])
        invariant smooth ==> StruckUpTo(old(s), s, keys, i, pending)
        invariant calm && Abandoned(old(s), Key(Certificate, ns, t)) ==> i == 0 && s == old(s)
      {
        ghost var before := s;
        if smooth {
          StillStrikable(old(s), s, keys, i, pending);
        }
        var f, p := CleanupTlsSecret(keys[i]);
        RelyTrans(old(s), before, s);
        NoIssuance(before, s, Key(Certificate, ns, t));
        if calm {
          StruckAfter(old(s), before, s, pending || p);
        }
        if f {
          return Failed;
        }
        if smooth {
          StruckStep(old(s), before, s, keys, i, pending, p);
        }
        pending := pending || p;
      }
      if smooth {
        StruckEnd(old(s), s, keys, pending);
      }
      assert keys[0] == Key(SourceSecret, ns, t) && keys[1] == Key(LastValid, ns, t);
      return if pending then NotReady else Ok;
    }

    /** The Certificate part of cleanupBYOCManagedTLS: succeeds only when the Certificate is gone. */
    method CleanupCertificate(domain: string, ns: string, issuer: nat, t: Target) returns (err: Err)
      requires Running() && Pinned(s) && Belongs(Key(Certificate, ns, t), s.inst.value.status)
      modifies this
      ensures Running() && old(history) <= history && Held(old(s), s)
      ensures OnlyCertNew(old(s), s, Key(Certificate, ns, t)) && (calm || err == Ok ==> NoNew(old(s), s))
      ensures err == Ok ==> Key(Certificate, ns, t) !in s.objs
      ensures calm && t != NoTarget && (domain, ns) in old(s.scopes) ==>
                CertificatePass(old(s), s, Key(Certificate, ns, t), issuer, err == Ok)
    {
      hide Operator.Valid, Versions, SameCache, NoNew, OnlyCertNew;
      var certKey := Key(Certificate, ns, t);
      var r := Get(certKey);
      NoNewOnlyCert(old(s), s, certKey);
      if r.NotFound? {
        return Ok;
      }
      if r.ReadError? || !r.obj.owned {
        return Failed;
      }
      if r.obj.deleting {
        return NotReady;
      }
      ghost var before := s;
      err := ReleaseCertificate(domain, ns, issuer, t, r.obj);
      HeldTrans(old(s), before, s);
      OnlyCertTrans(old(s), before, s, certKey);
      if calm {
        NoNewTrans(old(s), before, s);
      }
    }

    /** Finish the UID-label handshake with the source Secret before stopping issuance. Never succeeds at once. */
    method ReleaseCertificate(domain: string, ns: string, issuer: nat, t: Target, cert: Obj) returns (err: Err)
      requires Running() && Pinned(s) && Belongs(Key(Certificate, ns, t), s.inst.value.status)
      requires var k := Key(Certificate, ns, t);
               && cert.owned && (k, cert.id) in s.know.seen && cert.rv <= s.clock
               && (k in s.objs && s.objs[k].rv == cert.rv ==> s.objs[k] == cert)
      modifies this
      ensures Running() && old(history) <= history && Held(old(s), s) && err != Ok
      ensures OnlyCertNew(old(s), s, Key(Certificate, ns, t))
      ensures calm && Key(Certificate, ns, t) in old(s.objs) ==> NoNew(old(s), s)
      ensures var k := Key(Certificate, ns, t);
              calm && Live(old(s), k) && cert == old(s.objs)[k] ==> Yielded(old(s), s, k)
      ensures var k := Key(Certificate, ns, t);
              (&& calm && t != NoTarget && (domain, ns) in old(s.scopes) && (Unlabelled(old(s), k) ==> issuer != 0)
               && Releasable(old(s), k) && cert == old(s.objs)[k]) ==>
                if Unlabelled(old(s), k) then Asked(old(s), s, k) else StruckAt(old(s), s, k)
    {
      hide Operator.Valid, Versions, SameCache, NoNew, OnlyCertNew, Touched, CertObtainable;
      var certKey := Key(Certificate, ns, t);
      var src := Get(Key(SourceSecret, ns, t));
      NoNewOnlyCert(old(s), s, certKey);
      if src.ReadError? {
        return Failed;
      }
      ghost var before := s;
      StillThere(old(s), s, certKey, cert);
      if src.Found? && !(cert.id != 0 && src.obj.owned && src.obj.body.certId == cert.id) {
        err := ReconcileManagedCertificate(domain, ns, issuer, t);
        HeldTrans(old(s), before, s);
        OnlyCertTrans(old(s), before, s, certKey);
        if calm && certKey in old(s.objs) {
          NoNewTrans(old(s), before, s);
        }
        return if err == Ok then NotReady else err;
      }
      var ok := DeleteObject(certKey, cert, true);
      RelyTrans(old(s), before, s);
      NoNewOnlyCert(old(s), s, certKey);
      return if ok then NotReady else Failed;
    }

    lemma Facts()
      requires Valid()
      ensures Inv(s)
    {
    }

    /** The remote half of cleanup, shared by target moves and deletion. */
    method CleanupRemote(kc: Kubeconfig, t: Target) returns (err: Err)
      requires Running() && t != NoTarget && NoDns(s, t)
      modifies this
      ensures Running() && old(history) <= history && Rely(old(s), s)
      ensures err == Ok ==> forall kind :: IsRemote(kind) ==> !Owned(s, RemoteKey(kind, t))
      ensures kc.Malformed? || kc.api !in old(s.clusters) || t != Target(kc.api, old(s.clusters)[kc.api]) ==>
                err == Failed && NoObjectWrites(old(history), history)
      ensures calm ==> RemotePass(old(s), s, t, Reaches(old(s), kc, t), err == Ok)
    {
      hide Operator.Valid, Versions, SameCache, RemotePass, Struck;
      if kc.Malformed? {
        RelyRefl(s);
        NoRemotePass(s, s, t);
        return Failed;
      }
      var ok, actual := ClusterIdentity(kc);
      if !ok || actual != t {
        if calm {
          NoRemotePass(old(s), s, t);
        }
        return Failed;
      }
      ghost var s1 := s;
      err := CleanupObjects(t);
      RelyTrans(old(s), s1, s);
      if err != Ok {
        if calm {
          RemotePassAfter(old(s), s1, s, t, false);
        }
        return;
      }
      ghost var s2 := s;
      err := CleanupRemoteTls(t);
      RelyTrans(old(s), s2, s);
      if calm {
        AtRemoteTls(old(s), s1, s2, s, t, err == Ok);
      }
    }

    /** cleanupBYOC, for an instance being deleted. Without the protected credentials it never succeeds. */
    method CleanupByoc(i: Instance) returns (err: Err)
      requires Running() && InSync(s, i) && i.deleting
      modifies this
      ensures Running() && old(history) <= history && InSync(s, i) && Anchored(old(s), s) && old(s.clock) <= s.clock
      ensures err == Ok ==> NoneOwned(s) && (i.status.kcName != "" ==> Stuck(s))
      ensures OnlyCertNew(old(s), s, KeyOf(Certificate, i.status)) && (calm ==> NoNew(old(s), s))
      ensures Stuck(old(s)) ==> err != Ok && Stuck(s)
      ensures calm ==> if err == Ok then s.inst == old(s.inst)
                       else TargetPass(old(s), s, i.status, CacheReaches(old(s), i.status), false)
      ensures calm && IssuanceStopped(old(s), i.status) && Abandoned(old(s), KeyOf(Certificate, i.status)) ==>
                err != Ok && Unchanged(old(s), s)
    {
      hide Operator.Valid, Versions, SameCache, NoNew, OnlyCertNew, ManagedPass, TargetPass, RemotePass, Stuck, Abandoned, IssuanceStopped;
      Facts();
      var st := i.status;
      ghost var certKey := KeyOf(Certificate, st);
      ghost var stuck := Stuck(s);
      if stuck {
        StuckFacts(s);
      }
      if st.kcName == "" {
        NoneLeft(s);
        NothingAbandoned(s, certKey);
        NothingNew(s, certKey);
        return Ok;
      }
      err := CleanupManagedTls(st.domain, st.tlsNs, s.cfg.issuer, st.target);
      if stuck {
        StuckHeld(old(s), s);
      }
      if err != Ok {
        if calm {
          AtManaged(old(s), s, st, CacheReaches(old(s), st));
          ManagedStopped(old(s), s, st, false);
        }
        return;
      }
      ghost var s1 := s;
      assert forall kind :: !IsRemote(kind) ==> !Owned(s, KeyOf(kind, st));
      NoDnsLeft();
      err := EmptyRemote(i);
      NoNewTrans(old(s), s1, s);
      NoNewOnlyCert(old(s), s, certKey);
      if err == Ok {
        Facts();
        EmptiedAll(s1, s);
        NowStuck(s);
      }
      if calm {
        ManagedStopped(old(s), s1, st, true);
        if err != Ok {
          AtRemote(old(s), s1, s, st, CacheReaches(old(s), st), false);
        }
      }
    }

    /** The part of cleanupBYOC that needs the cached credentials, and finally drops them. */
    method EmptyRemote(i: Instance) returns (err: Err)
      requires Running() && InSync(s, i) && i.deleting && i.status.target != NoTarget && NoDns(s, i.status.target)
      modifies this
      ensures Running() && old(history) <= history && CacheOnly(old(s), s)
      ensures err == Ok ==> forall kind :: IsRemote(kind) ==> !Owned(s, RemoteKey(kind, i.status.target))
      ensures err == Ok ==> !CacheOwned(s, i.status.activeSlug)
      ensures Stuck(old(s)) ==> err != Ok && Stuck(s)
      ensures calm ==> if err == Ok then s.inst == old(s.inst)
                       else RemotePass(old(s), s, i.status.target, CacheReaches(old(s), i.status), false)
    {
      hide Operator.Valid, Versions, RemotePass, Struck;
      Facts();
      var st := i.status;
      var ok, data := CachedKubeconfig(st.activeSlug);
      if !ok || data.None? {
        if calm {
          NoRemotePass(old(s), s, st.target);
        }
        return Failed;
      }
      ghost var s1 := s;
      err := CleanupRemote(data.value, st.target);
      RelyTrans(old(s), s1, s);
      if err != Ok {
        return;
      }
      ghost var s2 := s;
      if calm {
        RemotePassed(s1, s, st.target);
      }
      ok := DeleteCachedCredentials(st.activeSlug);
      CacheOnlyTrans(old(s), s2, s);
      err := if ok then Ok else Failed;
    }

    /** The recorded target's DNSEntry is the only one that can be ours. */
    lemma NoDnsLeft()
      requires Valid() && s.inst.Some?
      requires var st := s.inst.value.status; !Owned(s, Key(DnsEntry, st.tlsNs, st.target))
      ensures NoDns(s, s.inst.value.status.target)
    {
    }

    /** Update of the instance without its finalizer, the only one that holds it: the object goes. */
    method WriteWithoutFinalizer(i: Instance) returns (fate: Fate, conflict: bool)
      requires Running() && NoneOwned(s) && i.deleting && i.finalizer && Snapshot(s, i)
      modifies this
      ensures Running() && old(history) <= history
      ensures fate.Lost? ==> Rely(old(s), s) && NoneOwned(s)
      ensures fate.Acknowledged? ==> s.inst.None? || Rely(old(s), s)
      ensures conflict ==> fate.Lost?
      ensures Stuck(old(s)) ==> s.inst.None? || Stuck(s)
      ensures calm && old(s.inst) == Some(i) ==> s.inst.None? && fate.Acknowledged?
      ensures calm ==> OnlyObjects(old(s), s.(inst := old(s.inst))) && s.objs == old(s.objs)
    {
      Interfere();
      SnapshotStable(old(s), s, i);
      fate := DrawFate(calm);
      conflict := false;
      if fate.Lost? || s.inst.None? {
        fate := if fate.Lost? then Lost else Acknowledged;
        return;
      }
      if s.inst.value.rv != i.rv {
        return Lost, true;
      }
      Do(Inst(RemoveFinalizer(i.rv)));
    }

    /** finalizeLLMInstance. `cleaned` tells that cleanup came to its end in this call: then the instance is gone, or
        the finalizer write did not land and the deletion is stuck. */
    method FinalizeInstance(i: Instance) returns (err: Err, ghost cleaned: bool)
      requires Running() && i.deleting && s.inst == Some(i)
      modifies this
      ensures Running() && old(history) <= history
      ensures s.inst.None? ==> NoneOwned(s)
      ensures Stuck(old(s)) ==> err != Ok && Stuck(s)
      ensures i.finalizer && i.status.kcName != "" ==>
                && (cleaned ==> s.inst.None? || Stuck(s))
                && (!cleaned ==> err != Ok && Pinned(s) && s.inst.value.status == i.status)
      ensures calm && i.finalizer ==>
                s.inst.None? || TargetPass(old(s), s, i.status, CacheReaches(old(s), i.status), false)
      ensures (&& calm && Deletable(old(s), i.status) && CacheHolds(old(s), i.status.activeSlug, i.status.target)
               && IssuanceStopped(old(s), i.status)) ==>
                (s.inst.Some? && Unchanged(old(s), s) <==> Abandoned(old(s), KeyOf(Certificate, i.status)))
    {
      hide Operator.Valid, Versions, SameCache, NoNew, TargetPass, Abandoned, IssuanceStopped, Unchanged, OnlyCertNew;
      Facts();
      cleaned := false;
      ghost var certKey := KeyOf(Certificate, i.status);
      ghost var stopped := && calm && Deletable(s, i.status) && CacheHolds(s, i.status.activeSlug, i.status.target)
                           && IssuanceStopped(s, i.status);
      if !i.finalizer {
        return Ok, cleaned;
      }
      if i.clusterRef != "" || i.status.kcName != "" {
        err := CleanupByoc(i);
        if err != Ok {
          Facts();
          if stopped && !Abandoned(old(s), certKey) {
            StoppedPass(old(s), s, i.status);
          }
          return;
        }
      } else {
        NoneLeft(s);
      }
      cleaned := true;
      SnapshotStable(old(s), s, i);
      err := DropFinalizer(i);
      Facts();
    }

    /** Up to three attempts, each on a fresh copy after a conflict. */
    method DropFinalizer(inst: Instance) returns (err: Err)
      requires Running() && NoneOwned(s) && InSync(s, inst) && inst.deleting && Snapshot(s, inst)
      modifies this
      ensures Running() && old(history) <= history
      ensures Stuck(old(s)) ==> s.inst.None? || Stuck(s)
      ensures calm && old(s.inst) == Some(inst) ==> s.inst.None? && s.objs == old(s.objs)
    {
      hide Operator.Valid, Versions, SameCache, Stuck;
      var i := inst;
      for n := 0 to 3
        invariant Running() && old(history) <= history && NoneOwned(s) && InSync(s, i) && i.deleting && Snapshot(s, i)
        invariant Stuck(old(s)) ==> Stuck(s)
        invariant calm && old(s.inst) == Some(inst) ==> n == 0 && s == old(s) && i == inst
      {
        ghost var s1 := s;
        var fate, conflict := WriteWithoutFinalizer(i);
        if fate.Acknowledged? {
          return Ok;
        }
        if !conflict {
          return Failed;
        }
        ghost var s2 := s;
        var r := GetInstance();
        if Stuck(s2) {
          StuckHeld(s2, s);
        }
        if !r.InstFound? {
          return Ok;
        }
        i := r.inst;
        Facts();
      }
      return Ok;
    }

    // -------------------------------------------------------------------------------------------
    // Moving away from a target
    // -------------------------------------------------------------------------------------------

    /** Whether the recorded target still is the requested one. Under an unchanged reference, missing source
        credentials never authorize a move. */
    method TargetKept(i: Instance, oldData: Kubeconfig) returns (ok: bool, keep: bool)
      requires Running()
      modifies this
      ensures Running() && old(history) <= history && Rely(old(s), s)
      ensures ok && keep ==> i.clusterRef != "" && i.status.kcName == i.clusterRef
      ensures calm ==> Unchanged(old(s), s) && (ok ==> (keep <==> !MoveWanted(old(s), i, oldData)))
      ensures calm ==> (ok <==> Decidable(old(s), i, oldData))
    {
      hide Operator.Valid, Versions, SameCache, NoNew;
      if i.clusterRef == "" {
        RelyRefl(s);
        return true, false;
      }
      var read, data := SourceKubeconfig(i.clusterRef);
      if !read {
        return false, false;
      }
      if data.None? {
        return true, i.status.kcName == i.clusterRef;
      }
      if oldData.Malformed? || data.value.Malformed? {
        return false, false;
      }
      if i.status.kcName == i.clusterRef && oldData.api == data.value.api {
        ghost var s1 := s;
        var found, current := ClusterIdentity(data.value);
        RelyTrans(old(s), s1, s);
        if !found {
          return false, false;
        }
        return true, i.status.target == NoTarget || current == i.status.target;
      }
      return true, false;
    }

    method CleanupChangedTarget(i: Instance, slug: string) returns (err: Err, out: Instance)
      requires Running() && InSync(s, i) && Snapshot(s, i)
      modifies this
      ensures Running() && old(history) <= history && MayWithdraw(s, out)
      ensures err == Ok ==> InSync(s, out) && (out.status.kcName == "" || out.status.kcName == i.clusterRef)
      ensures err == Ok ==> out.clusterRef == i.clusterRef && out.status.slug == i.status.slug
                            && out.status.activeSlug == i.status.activeSlug && s.cfg == old(s.cfg)
      ensures err == Ok ==> out == i || (out.status.kcName == "" && !CacheOwned(s, ActiveSlug(i, slug)))
      ensures calm && err == Ok && out.status.kcName != "" ==> out == i && Unchanged(old(s), s)
      ensures calm && old(s.inst) == Some(i) ==> s.inst == Some(out)
      ensures calm && slug == i.status.slug && Staying(old(s), i) ==> err == Ok && out == i && Unchanged(old(s), s)
      ensures calm && old(s.inst) == Some(i) ==> Framed(old(s), s) && out == i.(rv := out.rv, status := out.status)
      ensures calm && old(s.inst) == Some(i) && slug == i.status.slug && err == Ok && !Staying(old(s), i) ==>
                Gone(out.status) && Departing(old(s), i)
      ensures calm && old(s.inst) == Some(i) && Moving(old(s), i) ==> LeavePass(old(s), s, i, out, err == Ok)
    {
      hide Operator.Valid, Versions, SameCache, NoNew, StatusOk, LeavePass;
      ghost var ready := calm && s.inst == Some(i) && Moving(s, i);
      Facts();
      out := i;
      InSyncWithdraw(s, i);
      if i.status.kcName == "" {
        return Ok, i;
      }
      var active := ActiveSlug(i, slug);
      var ok, oldData := CachedKubeconfig(active);
      HeldKept(old(s), s);
      InSyncKept(old(s), s, i);
      if !ok || oldData.None? {
        return Failed, i;
      }
      ghost var s1 := s;
      var keep;
      ok, keep := TargetKept(i, oldData.value);
      HeldKept(s1, s);
      InSyncKept(s1, s, i);
      if !ok {
        return Failed, i;
      }
      if keep {
        return Ok, i;
      }
      if calm && old(s.inst) == Some(i) {
        LeavingDeparts(old(s), s1, i, active, oldData.value);
      }
      ghost var s2 := s;
      err, out := ReleaseTarget(i, active, oldData.value);
      if ready {
        LeavePassSame(old(s), s2, s, i, out, err == Ok);
      }
    }

    /** Withdraw the endpoint, empty the recorded target, forget it, and only then drop its credentials. */
    method ReleaseTarget(i: Instance, slug: string, oldData: Kubeconfig) returns (err: Err, out: Instance)
      requires Running() && InSync(s, i) && Snapshot(s, i) && i.status.kcName != ""
      modifies this
      ensures Running() && old(history) <= history && MayWithdraw(s, out) && s.cfg == old(s.cfg)
      ensures err == Ok ==> InSync(s, out) && out.status.kcName == "" && !CacheOwned(s, slug)
      ensures calm && old(s.inst) == Some(i) ==>
                && s.inst == Some(out) && Framed(old(s), s) && out == i.(rv := out.rv, status := out.status)
                && (err == Ok ==> Gone(out.status))
      ensures err == Ok ==> out.clusterRef == i.clusterRef && out.status.slug == i.status.slug
                            && out.status.activeSlug == i.status.activeSlug
      ensures calm && old(s.inst) == Some(i) && CacheOwned(old(s), slug) && Reaches(old(s), oldData, i.status.target) ==>
                LeavePass(old(s), s, i, out, err == Ok)
    {
      hide Operator.Valid, Versions, SameCache, NoNew, StatusOk, TargetPass, LeavePass;
      ghost var ready := calm && s.inst == Some(i) && CacheOwned(s, slug) && Reaches(s, oldData, i.status.target);
      InSyncWithdraw(s, i);
      var ok;
      ok, out := UpdateStatus(i, Withdrawn(i.status));
      if !ok {
        return Failed, out;
      }
      ghost var withdrawn := s;
      err := EmptyTarget(out, oldData);
      InSyncWithdraw(s, out);
      if calm {
        PassSame(withdrawn, s, out.status, Reaches(withdrawn, oldData, out.status.target), err == Ok);
      }
      if err != Ok {
        if ready {
          NotEmptied(old(s), withdrawn, s, i, out);
        }
        return;
      }
      err, out := ForgetTarget(out, slug);
      if ready {
        Forgotten(old(s), s, i, out);
      }
    }

    /** Nothing is left of the target: clear the status, then drop the credentials. */
    method ForgetTarget(i: Instance, slug: string) returns (err: Err, out: Instance)
      requires Running() && InSync(s, i) && Snapshot(s, i) && NoneOwned(s)
      modifies this
      ensures Running() && old(history) <= history && MayWithdraw(s, out) && s.cfg == old(s.cfg)
      ensures err == Ok ==> InSync(s, out) && out.status.kcName == "" && out.status.target == NoTarget && !CacheOwned(s, slug)
      ensures calm && old(s.inst) == Some(i) ==>
                && s.inst == Some(out) && Framed(old(s), s) && out == i.(rv := out.rv, status := out.status)
                && (err == Ok ==> Gone(out.status))
      ensures err == Ok ==> out.clusterRef == i.clusterRef && out.status.slug == i.status.slug
                            && out.status.activeSlug == i.status.activeSlug
      ensures calm && old(s.inst) == Some(i) && CacheOwned(old(s), slug) ==> err == Ok && s.inst == Some(out)
    {
      hide Operator.Valid, Versions, SameCache, NoNew, StatusOk;
      var cleared := Withdrawn(i.status).(kcName := "", target := NoTarget, domain := "", tlsNs := "");
      ClearOk(s, cleared);
      var ok;
      ok, out := UpdateStatus(i, cleared);
      if !ok {
        return Failed, out;
      }
      ghost var s1 := s;
      ok := DeleteCachedCredentials(slug);
      InSyncStable(s1, s, out);
      SnapshotStable(s1, s, out);
      InSyncWithdraw(s, out);
      return if ok then Ok else Failed, out;
    }

    /** Managed TLS first, then the remote objects: DNS is gone before the LoadBalancer is released. */
    method EmptyTarget(i: Instance, oldData: Kubeconfig) returns (err: Err)
      requires Running() && InSync(s, i) && Snapshot(s, i) && i.status.kcName != ""
      modifies this
      ensures Running() && old(history) <= history && Held(old(s), s) && InSync(s, i) && Snapshot(s, i)
      ensures err == Ok ==> NoneOwned(s)
      ensures OnlyCertNew(old(s), s, KeyOf(Certificate, i.status)) && (calm ==> NoNew(old(s), s))
      ensures calm ==> TargetPass(old(s), s, i.status, Reaches(old(s), oldData, i.status.target), err == Ok)
    {
      hide Operator.Valid, Versions, SameCache, NoNew, OnlyCertNew, ManagedPass, TargetPass, RemotePass, NoneOwned;
      Facts();
      var st := i.status;
      ghost var certKey := KeyOf(Certificate, st);
      err := CleanupManagedTls(st.domain, st.tlsNs, s.cfg.issuer, st.target);
      if err != Ok {
        if calm {
          AtManaged(old(s), s, st, Reaches(old(s), oldData, st.target));
        }
        return;
      }
      ghost var s1 := s;
      assert forall kind :: !IsRemote(kind) ==> !Owned(s, KeyOf(kind, st));
      NoDnsLeft();
      err := CleanupRemote(oldData, st.target);
      HeldTrans(old(s), s1, s);
      NoNewTrans(old(s), s1, s);
      NoNewOnlyCert(old(s), s, certKey);
      if err == Ok {
        Facts();
        EmptiedAll(s1, s);
      }
      if calm {
        AtRemote(old(s), s1, s, st, Reaches(old(s), oldData, st.target), err == Ok);
      }
    }

    // -------------------------------------------------------------------------------------------
    // Provisioning
    // -------------------------------------------------------------------------------------------

    /** Create or converge an owned object on the tenant's cluster: Service, proxy ConfigMap, key Secret, Deployment. */
    method EnsureRemote(k: Key, revision: nat) returns (ok: bool)
      requires Running() && IsRemote(k.kind) && MayCreate(k, Body("", 0, revision))
      modifies this
      ensures Running() && old(history) <= history && Held(old(s), s)
      ensures ok ==> Owned(s, k) && s.objs[k].body.revision == revision
      ensures calm ==> Touched(old(s), s, {k})
      ensures calm && NotForeign(old(s), k) ==> ok
      ensures calm && Provisioned(old(s), k, revision) ==> Unchanged(old(s), s)
      ensures calm && ok && k in old(s.objs) ==> s.objs[k].body == old(s.objs)[k].body.(revision := revision)
      ensures calm && ok && Strikable(old(s), k) ==> Presented(s, k)
    {
      hide Operator.Valid, Versions, SameCache, NoNew, Touched;
      var r := Get(k);
      ghost var s1 := s;
      if calm {
        UnchangedTouches(old(s), s, {k});
      }
      if r.ReadError? || (r.Found? && !r.obj.owned) {
        return false;
      }
      if r.NotFound? {
        var created, _ := CreateObject(k, Body("", 0, revision));
        ok := created;
        HeldTrans(old(s), s1, s);
      } else if r.obj.body.revision == revision {
        return true;
      } else {
        ok := UpdateObject(k, r.obj, r.obj.body.(revision := revision));
        HeldTrans(old(s), s1, s);
      }
      if calm {
        TouchedAgain(old(s), s1, s, k);
      }
    }

    method ReconcileDns(ns: string, t: Target, address: string) returns (err: Err)
      requires Running() && MayCreate(Key(DnsEntry, ns, t), Body(address, 0, 0))
      modifies this
      ensures Running() && old(history) <= history && Held(old(s), s)
      ensures var k := Key(DnsEntry, ns, t);
              && (err == Ok ==> isPublic(address) && Owned(s, k) && s.objs[k].body.address == address)
              && (calm ==> Touched(old(s), s, {k}) && (err == Ok ==> Presented(s, k)))
              && (calm && (err != Ok || (Owned(old(s), k) && old(s.objs)[k].body.address == address)) ==> Unchanged(old(s), s))
              && (calm && old(s.cfg.dnsClass) != "" && isPublic(address) && Strikable(old(s), k) ==> err == Ok)
    {
      hide Operator.Valid, Versions, SameCache, NoNew, Touched;
      HeldRefl(s);
      var k := Key(DnsEntry, ns, t);
      UnchangedTouches(s, s, {k});
      if s.cfg.dnsClass == "" || !isPublic(address) {
        return Failed;
      }
      var r := Get(k);
      ghost var s1 := s;
      if calm {
        UnchangedTouches(old(s), s, {k});
      }
      if r.ReadError? || (r.Found? && !r.obj.owned) {
        return Failed;
      }
      var ok;
      if r.NotFound? {
        var created, _ := CreateObject(k, Body(address, 0, 0));
        ok := created;
        HeldTrans(old(s), s1, s);
      } else if r.obj.deleting {
        return NotReady;
      } else if r.obj.body.address == address {
        return Ok;
      } else {
        ok := UpdateObject(k, r.obj, r.obj.body.(address := address));
        HeldTrans(old(s), s1, s);
      }
      if calm {
        TouchedAgain(old(s), s1, s, k);
      }
      return if ok then Ok else Failed;
    }

    /** writeBYOCTLSSecret. */
    method WriteTlsSecret(k: Key, revision: nat) returns (err: Err)
      requires Running() && !k.kind.DnsEntry? && !k.kind.Certificate? && MayCreate(k, Body("", 0, revision))
      modifies this
      ensures Running() && old(history) <= history && Held(old(s), s)
      ensures err == Ok ==> Owned(s, k) && s.objs[k].body.revision == revision
      ensures calm ==> Touched(old(s), s, {k}) && (err == Ok ==> Presented(s, k))
      ensures calm && Strikable(old(s), k) ==> err == Ok
      ensures calm && Provisioned(old(s), k, revision) ==> Unchanged(old(s), s)
    {
      hide Operator.Valid, Versions, SameCache, NoNew, Touched;
      var r := Get(k);
      ghost var s1 := s;
      if calm {
        UnchangedTouches(old(s), s, {k});
      }
      if r.ReadError? || (r.Found? && !r.obj.owned) {
        return Failed;
      }
      var ok;
      if r.NotFound? {
        var created, _ := CreateObject(k, Body("", 0, revision));
        ok := created;
        HeldTrans(old(s), s1, s);
      } else if r.obj.deleting {
        return NotReady;
      } else if r.obj.body.revision == revision {
        return Ok;
      } else {
        ok := UpdateObject(k, r.obj, r.obj.body.(revision := revision));
        HeldTrans(old(s), s1, s);
      }
      if calm {
        TouchedAgain(old(s), s1, s, k);
      }
      return if ok then Ok else Failed;
    }

    /** reconcileBYOCTLSSecret, with the choice of valid material left to the oracle (Renewal models it). */
    method DeliverTls(ns: string, t: Target, oracle: Oracle) returns (err: Err, revision: nat)
      requires Running() && Pinned(s) && Belongs(Key(LastValid, ns, t), s.inst.value.status)
      modifies this
      ensures Running() && old(history) <= history && Kept(old(s), s)
      ensures err == Ok ==> s.know.delivered == Some((t, revision))
      ensures err == Ok && oracle.issued.Some? ==> revision == oracle.issued.value
      ensures calm ==> Touched(old(s), s, DeliveryKeys(ns, t)) && (err == Ok ==> Sent(s, ns, t, revision))
      ensures calm && err == Ok ==> Presented(old(s), Key(Certificate, ns, t))
      ensures calm && Presented(old(s), Key(Certificate, ns, t)) && Deliverable(old(s), ns, t, oracle) ==> err == Ok
      ensures calm && SteadyTls(old(s), ns, t, oracle) ==> Unchanged(old(s), s)
    {
      hide Operator.Valid, Inv, Versions, SameCache, NoNew, Touched, Held, Sent, SteadyTls, Deliverable;
      revision := 0;
      var cert := Get(Key(Certificate, ns, t));
      ghost var s1 := s;
      ReadKept(old(s), s);
      KeptPinned(old(s), s);
      if calm {
        UnchangedTouches(old(s), s, DeliveryKeys(ns, t));
        DeliverableSame(old(s), s, ns, t, oracle);
        TlsSame(old(s), s, ns, t, oracle);
      }
      if !cert.Found? || !cert.obj.owned {
        return Failed, revision;
      }
      if cert.obj.deleting {
        return NotReady, revision;
      }
      err, revision := SendTls(ns, t, oracle);
      HeldKept(s1, s);
      KeptTrans(old(s), s1, s);
      ghost var s2 := s;
      if calm {
        TouchedGrow(old(s), s1, s, DeliveryKeys(ns, t), DeliveryKeys(ns, t));
      }
      if err == Ok {
        Do(Note(Delivered(t, revision)));
        Noticed(s2, s);
        KeptTrans(old(s), s2, s);
        if calm {
          UnchangedTouches(s2, s, {});
          TouchedGrow(old(s), s2, s, {}, DeliveryKeys(ns, t));
          SentSame(s2, s, ns, t, revision);
          if SteadyTls(old(s), ns, t, oracle) {
            UnchangedTrans(old(s), s1, s2);
          }
        }
      }
    }

    /** The chosen material into the last-valid cache and on to the tenant. */
    method SendTls(ns: string, t: Target, oracle: Oracle) returns (err: Err, revision: nat)
      requires Running() && Pinned(s) && Belongs(Key(LastValid, ns, t), s.inst.value.status)
      modifies this
      ensures Running() && old(history) <= history && Held(old(s), s)
      ensures err == Ok ==> Provisioned(s, RemoteKey(RemoteTls, t), revision)
      ensures err == Ok && oracle.issued.Some? ==> revision == oracle.issued.value
      ensures calm ==> Touched(old(s), s, DeliveryKeys(ns, t)) && (err == Ok ==> Sent(s, ns, t, revision))
      ensures calm && Deliverable(old(s), ns, t, oracle) ==> err == Ok
      ensures calm && SteadyTls(old(s), ns, t, oracle) ==> Unchanged(old(s), s)
    {
      hide Operator.Valid, Inv, Versions, SameCache, NoNew, Touched, Held;
      err, revision := ChooseMaterial(Key(LastValid, ns, t), oracle);
      ghost var s1 := s;
      HeldKept(old(s), s);
      KeptPinned(old(s), s);
      if calm {
        TouchedMore(old(s), s, {Key(LastValid, ns, t)}, DeliveryKeys(ns, t));
        UntouchedKey(old(s), s, {Key(LastValid, ns, t)}, RemoteKey(RemoteTls, t));
      }
      if err != Ok {
        return;
      }
      err := WriteTlsSecret(RemoteKey(RemoteTls, t), revision);
      HeldTrans(old(s), s1, s);
      if calm {
        if SteadyTls(old(s), ns, t, oracle) {
          UnchangedTrans(old(s), s1, s);
        }
        TouchedGrow(old(s), s1, s, {RemoteKey(RemoteTls, t)}, DeliveryKeys(ns, t));
        UntouchedKey(s1, s, {RemoteKey(RemoteTls, t)}, Key(LastValid, ns, t));
      }
    }

    /** Freshly validated material goes to the last-valid cache; otherwise that cache supplies it. */
    method ChooseMaterial(cacheKey: Key, oracle: Oracle) returns (err: Err, revision: nat)
      requires Running() && cacheKey.kind.LastValid? && Pinned(s) && Belongs(cacheKey, s.inst.value.status)
      modifies this
      ensures Running() && old(history) <= history && Held(old(s), s)
      ensures err == Ok && oracle.issued.Some? ==> revision == oracle.issued.value
      ensures err == Ok && oracle.issued.None? ==> oracle.cacheUsable
      ensures calm ==> Touched(old(s), s, {cacheKey}) && (err == Ok ==> Provisioned(s, cacheKey, revision))
      ensures calm && Strikable(old(s), cacheKey) && (oracle.issued.Some? || (oracle.cacheUsable && cacheKey in old(s.objs))) ==> err == Ok
      ensures calm && Owned(old(s), cacheKey) && Delivers(oracle, old(s.objs)[cacheKey].body.revision) ==>
                Unchanged(old(s), s) && (err == Ok ==> revision == old(s.objs)[cacheKey].body.revision)
    {
      hide Operator.Valid, Versions, SameCache, NoNew, Touched;
      if oracle.issued.Some? {
        revision := oracle.issued.value;
        err := WriteTlsSecret(cacheKey, revision);
        return;
      }
      revision := 0;
      var r := Get(cacheKey);
      if calm {
        UnchangedTouches(old(s), s, {cacheKey});
      }
      if r.NotFound? {
        return NotReady, revision;
      }
      if r.ReadError? || !r.obj.owned {
        return Failed, revision;
      }
      if !oracle.cacheUsable {
        return NotReady, revision;
      }
      return Ok, r.obj.body.revision;
    }

    /** The read of the Service that supplies the address for DNS; it does not check ownership. */
    method ReadAddress(t: Target) returns (err: Err, address: string)
      requires Running()
      modifies this
      ensures Running() && old(history) <= history && Kept(old(s), s)
      ensures err == Ok ==> s.know.svc == Some((t, address)) && address != ""
      ensures var k := RemoteKey(Service, t);
              calm ==> Unchanged(old(s), s) && (err == Ok <==> k in s.objs && s.objs[k].body.address != "")
                       && (err == Ok ==> address == s.objs[k].body.address)
    {
      hide Operator.Valid, Versions, SameCache, NoNew;
      address := "";
      var r := Get(RemoteKey(Service, t));
      HeldKept(old(s), s);
      if !r.Found? {
        return Failed, address;
      }
      address := r.obj.body.address;
      if address == "" {
        return NotReady, address;
      }
      ghost var s1 := s;
      Do(Note(SeeAddress(t, address)));
      assert s1.(know := s.know) == s;
      HeldRefl(s);
      KeptTrans(old(s), s1, s);
      err := Ok;
    }

    /** reconcileBYOCWorkload: Service, Certificate, DNS, TLS material, then the workload itself. */
    method ReconcileWorkload(domain: string, ns: string, t: Target, revision: nat, oracle: Oracle) returns (err: Err, tls: nat)
      requires Running() && Pinned(s) && Belongs(Key(LastValid, ns, t), s.inst.value.status)
      modifies this
      ensures Running() && old(history) <= history && Kept(old(s), s)
      ensures err == Ok ==> s.know.delivered == Some((t, tls)) && (oracle.issued.Some? ==> tls == oracle.issued.value)
      ensures calm ==> OnlyObjects(old(s), s) && (err == Ok ==> InPlace(s, ns, t, revision, tls, isPublic))
      ensures calm && (domain, ns) in old(s.scopes) && Servable(old(s), ns, t, oracle, isPublic) ==> err == Ok
      ensures calm && (domain, ns) in old(s.scopes) && Approachable(old(s), ns, t, oracle) ==> err == Ok || Prepared(old(s), s, ns, t)
      ensures calm && Steady(old(s), ns, t, revision, oracle, isPublic) ==> Unchanged(old(s), s)
    {
      hide Operator.Valid, Inv, Kept, Touched, ExposureFree, Addressed, Approachable, Prepared, Deliverable, Exposed, InPlace, NotForeign, OnlyObjects;
      tls := 0;
      if Steady(s, ns, t, revision, oracle, isPublic) {
        SteadyParts(s, ns, t, revision, oracle, isPublic);
      }
      err := ReconcileExposure(domain, ns, t, revision);
      ghost var s1 := s;
      KeptPinned(old(s), s);
      if calm && Steady(old(s), ns, t, revision, oracle, isPublic) {
        SteadySame(old(s), s, ns, t, revision, oracle, isPublic);
      }
      if calm {
        TouchedObjects(old(s), s, ExposureKeys(ns, t));
        if Approachable(old(s), ns, t, oracle) {
          ApproachableRest(old(s), s, ns, t, oracle);
        }
      }
      if err != Ok {
        return;
      }
      KeptPinned(old(s), s);
      err, tls := EquipTarget(ns, t, revision, oracle);
      KeptTrans(old(s), s1, s);
      if calm {
        ObjectsTrans(old(s), s1, s);
      }
    }

    /** The serving certificate and the workload, behind what ReconcileExposure set up. */
    method EquipTarget(ns: string, t: Target, revision: nat, oracle: Oracle) returns (err: Err, tls: nat)
      requires Running() && Pinned(s) && Belongs(Key(LastValid, ns, t), s.inst.value.status)
      modifies this
      ensures Running() && old(history) <= history && Kept(old(s), s)
      ensures err == Ok ==> s.know.delivered == Some((t, tls)) && (oracle.issued.Some? ==> tls == oracle.issued.value)
      ensures calm ==> OnlyObjects(old(s), s)
      ensures calm && Exposed(old(s), ns, t, revision, isPublic) && err == Ok ==> InPlace(s, ns, t, revision, tls, isPublic)
      ensures calm && Exposed(old(s), ns, t, revision, isPublic) && Deliverable(old(s), ns, t, oracle) && PodsFree(old(s), t) ==> err == Ok
      ensures calm && Steady(old(s), ns, t, revision, oracle, isPublic) ==> Unchanged(old(s), s)
    {
      hide Operator.Valid, Inv, Kept, Touched, Deliverable, Exposed, Sent, InPlace, PodsFree, OnlyObjects;
      ExposedCert(s, ns, t, revision, isPublic);
      if Steady(s, ns, t, revision, oracle, isPublic) {
        SteadyParts(s, ns, t, revision, oracle, isPublic);
      }
      err, tls := DeliverTls(ns, t, oracle);
      ghost var s1 := s;
      KeptPinned(old(s), s);
      if calm && Steady(old(s), ns, t, revision, oracle, isPublic) {
        SteadySame(old(s), s, ns, t, revision, oracle, isPublic);
      }
      if calm {
        TouchedObjects(old(s), s, DeliveryKeys(ns, t));
        PodsStay(old(s), s, ns, t);
      }
      if err != Ok {
        return;
      }
      KeptPinned(old(s), s);
      err := ReconcilePods(t, revision);
      HeldKept(s1, s);
      KeptTrans(old(s), s1, s);
      HeldKnow(s1, s);
      if calm {
        TouchedObjects(s1, s, PodKeys(t));
        ObjectsTrans(old(s), s1, s);
        if err == Ok && Exposed(old(s), ns, t, revision, isPublic) {
          StaysExposed(old(s), s1, ns, t, revision, isPublic);
          StaysInPlace(s1, s, ns, t, revision, tls, isPublic);
        }
      }
    }

    /** Service, Certificate and DNS. */
    method ReconcileExposure(domain: string, ns: string, t: Target, revision: nat) returns (err: Err)
      requires Running() && Pinned(s) && Belongs(Key(LastValid, ns, t), s.inst.value.status)
      modifies this
      ensures Running() && old(history) <= history && Kept(old(s), s)
      ensures calm ==> Touched(old(s), s, ExposureKeys(ns, t)) && (err == Ok ==> Exposed(s, ns, t, revision, isPublic))
      ensures calm && (domain, ns) in old(s.scopes) && ExposureFree(old(s), ns, t) ==>
                && Prepared(old(s), s, ns, t) && (Addressed(old(s), t, isPublic) ==> err == Ok)
      ensures calm && Exposed(old(s), ns, t, revision, isPublic) ==> Unchanged(old(s), s)
    {
      hide Operator.Valid, Inv, Kept, Touched, Exposed, Prepared, Requested, Pointed, ExposureFree, Addressed;
      if Exposed(s, ns, t, revision, isPublic) {
        ExposedParts(s, ns, t, revision, isPublic);
      }
      err := RequestExposure(domain, ns, t, revision);
      ghost var s1 := s;
      if calm && Exposed(old(s), ns, t, revision, isPublic) {
        PointedSame(old(s), s, ns, t, isPublic);
      }
      if err != Ok {
        if calm {
          TouchedMore(old(s), s, RequestKeys(ns, t), ExposureKeys(ns, t));
        }
        return;
      }
      KeptPinned(old(s), s);
      err := PointDns(ns, t);
      KeptTrans(old(s), s1, s);
      if calm {
        ExposureDone(old(s), s1, s, ns, t, revision, isPublic);
        ExposureClass(old(s), ns, t);
      }
    }

    /** Service and Certificate. */
    method RequestExposure(domain: string, ns: string, t: Target, revision: nat) returns (err: Err)
      requires Running() && Pinned(s) && Belongs(Key(LastValid, ns, t), s.inst.value.status)
      modifies this
      ensures Running() && old(history) <= history && Kept(old(s), s)
      ensures calm ==> Touched(old(s), s, RequestKeys(ns, t)) && (err == Ok ==> Requested(s, ns, t, revision))
      ensures calm && (domain, ns) in old(s.scopes) && ExposureFree(old(s), ns, t) ==>
                && err == Ok && Presented(s, RemoteKey(Service, t)) && Strikable(s, Key(DnsEntry, ns, t))
                && (Addressed(old(s), t, isPublic) ==> Addressed(s, t, isPublic))
      ensures calm && Requested(old(s), ns, t, revision) ==> Unchanged(old(s), s)
    {
      hide Operator.Valid, Inv, Versions, SameCache, NoNew, Held, Kept, OnlyCertNew, Touched;
      ghost var svc, cert := RemoteKey(Service, t), Key(Certificate, ns, t);
      var ok := EnsureRemote(RemoteKey(Service, t), revision);
      HeldKept(old(s), s);
      ghost var s1 := s;
      if calm {
        TouchedMore(old(s), s, {svc}, RequestKeys(ns, t));
        AfterService(old(s), s, ns, t);
      }
      if !ok {
        return Failed;
      }
      KeptPinned(old(s), s);
      err := ReconcileManagedCertificate(domain, ns, s.cfg.issuer, t);
      HeldKept(s1, s);
      KeptTrans(old(s), s1, s);
      if calm {
        AfterCertificate(s1, s, ns, t);
        TouchedGrow(old(s), s1, s, {cert}, RequestKeys(ns, t));
      }
      KeptPinned(old(s), s);
    }

    /** The DNSEntry for the Service's address. */
    method PointDns(ns: string, t: Target) returns (err: Err)
      requires Running() && Pinned(s) && Belongs(Key(LastValid, ns, t), s.inst.value.status)
      modifies this
      ensures Running() && old(history) <= history && Kept(old(s), s)
      ensures var dns := Key(DnsEntry, ns, t);
              calm ==>
                && Touched(old(s), s, {dns}) && (err == Ok ==> Pointed(s, ns, t, isPublic))
                && (Strikable(old(s), dns) ==> Strikable(s, dns))
                && (Strikable(old(s), dns) && old(s.cfg.dnsClass) != "" && Addressed(old(s), t, isPublic) ==> err == Ok)
                && (Pointed(old(s), ns, t, isPublic) ==> Unchanged(old(s), s))
    {
      hide Operator.Valid, Inv, Versions, SameCache, NoNew, Held, Kept, Touched;
      ghost var dns := Key(DnsEntry, ns, t);
      var address;
      err, address := ReadAddress(t);
      ghost var s1 := s;
      if calm {
        UnchangedTouches(old(s), s, {dns});
      }
      if err != Ok {
        return;
      }
      KeptPinned(old(s), s);
      err := ReconcileDns(ns, t, address);
      HeldKept(s1, s);
      KeptTrans(old(s), s1, s);
      if calm {
        UntouchedKey(s1, s, {dns}, RemoteKey(Service, t));
        TouchedAgain(old(s), s1, s, dns);
      }
    }

    method ReconcilePods(t: Target, revision: nat) returns (err: Err)
      requires Running() && Pinned(s) && Belongs(RemoteKey(Deployment, t), s.inst.value.status)
      modifies this
      ensures Running() && old(history) <= history && Held(old(s), s)
      ensures calm ==> Touched(old(s), s, PodKeys(t))
      ensures calm && err == Ok ==> forall kind :: kind in PODS ==> Provisioned(s, RemoteKey(kind, t), revision)
      ensures calm && PodsFree(old(s), t) ==> err == Ok
      ensures calm && PodsDone(old(s), t, revision) ==> Unchanged(old(s), s)
    {
      hide Operator.Valid, Versions, SameCache, NoNew, Anchored, Fixed, Touched;
      HeldRefl(s);
      UnchangedTouches(s, s, PodKeys(t));
      var kinds := PODS;
      for i := 0 to |kinds|
        invariant Running() && old(history) <= history && Held(old(s), s)
        invariant calm ==> Touched(old(s), s, PodKeys(t)) && (PodsDone(old(s), t, revision) ==> Unchanged(old(s), s))
        invariant calm ==> forall j :: 0 <= j < i ==> Provisioned(s, RemoteKey(kinds[j], t), revision)
        invariant calm && PodsFree(old(s), t) ==>
                    PodsFree(s, t)
      {
        ghost var before := s;
        var ok := EnsureRemote(RemoteKey(kinds[i], t), revision);
        HeldTrans(old(s), before, s);
        if calm {
          PodTouched(old(s), before, s, t, kinds[i]);
        }
        if !ok {
          return Failed;
        }
      }
      return Ok;
    }

    /** Ready only after a probe of the public host saw the delivered certificate. */
    method EvaluateReadiness(host: Host, tls: nat, oracle: Oracle) returns (ok: bool, ready: bool)
      requires Running()
      modifies this
      ensures Running() && old(history) <= history && Kept(old(s), s) && s.know.delivered == old(s.know.delivered)
      ensures ok && ready ==> s.know.probed == Some((host, tls)) && oracle.rolledOut && oracle.healthy
      ensures var deploy, svc := RemoteKey(Deployment, host.target), RemoteKey(Service, host.target);
              calm ==> Unchanged(old(s), s) && ok
                       && (ready <==> && deploy in s.objs && oracle.rolledOut
                                      && svc in s.objs && s.objs[svc].body.address != "" && oracle.healthy)
    {
      hide Operator.Valid, Versions, SameCache, NoNew;
      var deploy := Get(RemoteKey(Deployment, host.target));
      HeldKept(old(s), s);
      if deploy.ReadError? {
        return false, false;
      }
      if deploy.NotFound? || !oracle.rolledOut {
        return true, false;
      }
      ghost var s1 := s;
      var svc := Get(RemoteKey(Service, host.target));
      HeldKept(s1, s);
      KeptTrans(old(s), s1, s);
      if svc.ReadError? {
        return false, false;
      }
      if svc.NotFound? || svc.obj.body.address == "" || !oracle.healthy {
        return true, false;
      }
      ghost var s2 := s;
      Do(Note(Probe(host, tls)));
      assert s2.(know := s.know) == s;
      HeldRefl(s);
      KeptTrans(old(s), s2, s);
      return true, true;
    }

    /** The first half of reconcileBYOC: pin the target, cache its credentials, and only then record it.
        `done` reports a condition the tenant has to fix. */
    method EstablishTarget(i: Instance, slug: string) returns (err: Err, out: Instance, done: bool)
      requires Running() && InSync(s, i) && Snapshot(s, i)
      requires slug == i.status.slug && slug != ""
      requires i.clusterRef != "" && (i.status.kcName == "" || i.status.kcName == i.clusterRef)
      modifies this
      ensures Running() && old(history) <= history && MayWithdraw(s, out)
      ensures err == Ok && !done ==>
                && InSync(s, out) && out.status.target != NoTarget
                && out.status.domain == s.cfg.domain && out.status.tlsNs == s.cfg.ns
      ensures calm && old(s.inst) == Some(i) ==> Established(old(s), s, i, out) && (err == Ok && !done <==> Connectable(old(s), i))
      ensures calm && old(s.inst) == Some(i) && err == Ok ==>
                if done then out.status == Withdrawn(i.status)
                else
                  && Published(out.status) == Published(Recorded(i.status, i.clusterRef, SourceTarget(old(s), i.clusterRef), old(s.cfg)))
                  && CacheOwned(s, slug) && s.cache[slug].data == SourceOf(old(s), i.clusterRef)
    {
      hide Operator.Valid, Inv, Versions, SameCache, NoNew, StatusOk, Quiet, Kept, MayWrite, InSync, Snapshot, Anchored, SameStatus, Recorded, Published;
      InSyncWithdraw(s, i);
      out, done := i, false;
      var st := i.status;
      if (st.domain != "" && st.domain != s.cfg.domain) || (st.tlsNs != "" && st.tlsNs != s.cfg.ns) {
        return Failed, i, false;
      }
      if st.activeSlug != "" && st.activeSlug != slug {
        return Failed, i, false;
      }
      var ok, reached := ReachSource(i.clusterRef);
      HeldKept(old(s), s);
      InSyncKept(old(s), s, i);
      if ok && reached.None? {
        ok, out := UpdateStatus(i, Withdrawn(st));
        return if ok then Ok else Failed, out, true;
      }
      if !ok || (s.cfg.domain, s.cfg.ns) !in s.scopes || (st.target != NoTarget && st.target != reached.value.1) {
        return Failed, i, false;
      }
      err, out := RecordTarget(i, slug, reached.value.0, reached.value.1);
    }

    /** The tenant's kubeconfig and the cluster it leads to; nothing if there is none that can be read. */
    method ReachSource(name: string) returns (ok: bool, reached: Option<(Kubeconfig, Target)>)
      requires Running()
      modifies this
      ensures Running() && old(history) <= history && Rely(old(s), s)
      ensures ok && reached.Some? ==> reached.value in s.identified && reached.value.1 != NoTarget
      ensures calm ==>
                && s == old(s).(identified := s.identified)
                && (ok && reached.Some? <==> SourceTarget(old(s), name) != NoTarget)
                && (ok && reached.Some? ==> reached.value.1 == SourceTarget(old(s), name) && SourceOf(old(s), name) == Some(reached.value.0))
    {
      hide Operator.Valid, Inv, Versions, SameCache, NoNew;
      var read, data := SourceKubeconfig(name);
      if !read {
        return false, None;
      }
      if data.None? || data.value.Malformed? {
        return true, None;
      }
      ghost var s1 := s;
      var found, t := ClusterIdentity(data.value);
      RelyTrans(old(s), s1, s);
      return found, Some((data.value, t));
    }

    /** Credentials first, status second: a recorded target always has its credentials cached. */
    method RecordTarget(i: Instance, slug: string, kc: Kubeconfig, t: Target) returns (err: Err, out: Instance)
      requires Running() && InSync(s, i) && Snapshot(s, i)
      requires slug == i.status.slug && slug != "" && (i.status.activeSlug == "" || i.status.activeSlug == slug)
      requires i.clusterRef != "" && (i.status.kcName == "" || i.status.kcName == i.clusterRef)
      requires t != NoTarget && (kc, t) in s.identified && (i.status.target == NoTarget || i.status.target == t)
      requires (s.cfg.domain, s.cfg.ns) in s.scopes
      requires i.status.domain == "" || i.status.domain == s.cfg.domain
      requires i.status.tlsNs == "" || i.status.tlsNs == s.cfg.ns
      modifies this
      ensures Running() && old(history) <= history && MayWithdraw(s, out)
      ensures err == Ok ==> InSync(s, out) && out.status.target == t
                            && out.status.domain == s.cfg.domain && out.status.tlsNs == s.cfg.ns
      ensures calm && old(s.inst) == Some(i) ==>
                && Established(old(s), s, i, out) && (err == Ok <==> slug in old(s.cache) ==> old(s.cache)[slug].owned)
                && (err == Ok ==> Published(out.status) == Published(Recorded(i.status, i.clusterRef, t, old(s.cfg))))
                && (err == Ok ==> CacheOwned(s, slug) && s.cache[slug].data == Some(kc))
    {
      hide Operator.Valid, Versions, SameCache, NoNew, StatusOk;
      out := i;
      var st := i.status;
      var ok := EnsureCachedCredentials(slug, kc);
      InSyncStable(old(s), s, i);
      SnapshotStable(old(s), s, i);
      InSyncWithdraw(s, i);
      if !ok {
        return Failed, i;
      }
      Facts();
      if st.kcName != i.clusterRef || st.activeSlug == "" || st.target == NoTarget {
        var recorded := Withdrawn(st).(kcName := i.clusterRef, activeSlug := slug, target := t,
                                       domain := s.cfg.domain, tlsNs := s.cfg.ns);
        RecordedOk(s, recorded);
        ok, out := UpdateStatus(i, recorded);
        return if ok then Ok else Failed, out;
      }
      return Ok, i;
    }

    /** The second half of reconcileBYOC: provision the recorded target and publish it when it serves. */
    method ServeTarget(i: Instance, revision: nat, oracle: Oracle) returns (err: Err, out: Instance)
      requires Running() && InSync(s, i) && MayWithdraw(s, i)
      requires i.status.target != NoTarget && i.status.domain == s.cfg.domain && i.status.tlsNs == s.cfg.ns
      modifies this
      ensures Running() && old(history) <= history && MayWithdraw(s, out)
      ensures calm && old(s.inst) == Some(i) ==> s.inst == Some(out) && out == i.(rv := out.rv, status := out.status)
      ensures calm && old(s.inst) == Some(i) && err == Ok ==>
                || out.status == Withdrawn(i.status)
                || (out.status == Published(i.status) && Serving(s, i.status.tlsNs, i.status.target, revision, oracle, isPublic))
      ensures calm && old(s.inst) == Some(i) && Servable(old(s), i.status.tlsNs, i.status.target, oracle, isPublic) ==>
                err == Ok && out.status == Published(i.status)
      ensures calm && old(s.inst) == Some(i) ==>
                && Published(out.status) == Published(i.status) && s.cache == old(s.cache) && Framed(old(s), s)
                && (Approachable(old(s), i.status.tlsNs, i.status.target, oracle) ==>
                      (err == Ok && out.status == Published(i.status)) || Prepared(old(s), s, i.status.tlsNs, i.status.target))
                && (Steady(old(s), i.status.tlsNs, i.status.target, revision, oracle, isPublic) ==> s.objs == old(s.objs))
    {
      hide Operator.Valid, Kept, StatusOk, Quiet, InPlace, Approachable, Addressed, Prepared, Serving, Steady, InSync, MayWithdraw, OnlyObjects;
      Facts();
      out := i;
      var st := i.status;
      InSyncRecorded(s, i);
      var fails := DrawFailure(calm);
      if fails {
        return Failed, i;
      }
      ghost var approachable := Approachable(s, st.tlsNs, st.target, oracle);
      var tls;
      err, tls := ReconcileWorkload(st.domain, st.tlsNs, st.target, revision, oracle);
      InSyncKept(old(s), s, i);
      if calm {
        ObjectsFrame(old(s), s);
      }
      if err == Failed {
        return;
      }
      if err == NotReady {
        var ok;
        Facts();
        InSyncRecorded(s, i);
        ghost var s1 := s;
        ok, out := UpdateStatus(i, Withdrawn(st));
        if approachable && calm && old(s.inst) == Some(i) {
          PreparedSame(old(s), old(s), s1, s, st.tlsNs, st.target);
        }
        return if ok then Ok else Failed, out;
      }
      if approachable {
        GoodAnswers(old(s), st.tlsNs, st.target, oracle);
      }
      err, out := PublishTarget(i, revision, tls, oracle);
    }

    /** Publish what serves, withdraw what does not. */
    method PublishTarget(i: Instance, revision: nat, tls: nat, oracle: Oracle) returns (err: Err, out: Instance)
      requires Running() && InSync(s, i) && MayWithdraw(s, i) && i.status.target != NoTarget
      requires s.know.delivered == Some((i.status.target, tls)) && (oracle.issued.Some? ==> tls == oracle.issued.value)
      modifies this
      ensures Running() && old(history) <= history && MayWithdraw(s, out)
      ensures calm && old(s.inst) == Some(i) ==> s.inst == Some(out) && out == i.(rv := out.rv, status := out.status)
      ensures var st := i.status;
              calm && old(s.inst) == Some(i) && InPlace(old(s), st.tlsNs, st.target, revision, tls, isPublic) ==>
                && err == Ok && out.status == (if oracle.rolledOut && oracle.healthy then Published(st) else Withdrawn(st))
                && (oracle.rolledOut && oracle.healthy ==> Serving(s, st.tlsNs, st.target, revision, oracle, isPublic))
      ensures calm && old(s.inst) == Some(i) ==>
                Published(out.status) == Published(i.status) && s.cache == old(s.cache) && Framed(old(s), s) && s.objs == old(s.objs)
    {
      hide Operator.Valid, Inv, Versions, SameCache, NoNew, StatusOk, Quiet, InPlace, Serving, Steady, Kept, Rely, Held, Anchored, SameStatus;
      var st := i.status;
      var host := Host(st.target, st.domain);
      var ok, ready := EvaluateReadiness(host, tls, oracle);
      InSyncKept(old(s), s, i);
      if calm && InPlace(old(s), st.tlsNs, st.target, revision, tls, isPublic) {
        PlacedFacts(old(s), st.tlsNs, st.target, revision, tls, isPublic);
      }
      if !ok {
        return Failed, i;
      }
      if !ready {
        ok, out := UpdateStatus(i, Withdrawn(st));
        return if ok then Ok else Failed, out;
      }
      var published := st.(endpoint := Https(host), ready := true);
      PublishOk(s, published);
      ok, out := UpdateStatus(i, published);
      if calm && old(s.inst) == Some(i) && InPlace(old(s), st.tlsNs, st.target, revision, tls, isPublic) {
        NowServing(old(s), s, st.tlsNs, st.target, revision, tls, oracle, isPublic);
      }
      return if ok then Ok else Failed, out;
    }

    /** reconcileBYOC: any error withdraws the endpoint. */
    method ReconcileByoc(i: Instance, slug: string, revision: nat, oracle: Oracle)
      requires Running() && InSync(s, i) && Snapshot(s, i)
      requires slug == i.status.slug && slug != ""
      requires i.clusterRef != "" && (i.status.kcName == "" || i.status.kcName == i.clusterRef)
      modifies this
      ensures Running() && old(history) <= history
      ensures calm && old(s.inst) == Some(i) ==> s.inst.Some? && ByocOutcome(old(s), i, s, revision, oracle, isPublic)
    {
      hide Operator.Valid, Versions, SameCache, NoNew, StatusOk, Inv, Quiet, Servable, Approachable, Prepared, Serving, Steady, Connectable, ByocOutcome, Recorded;
      var err, out, done := EstablishTarget(i, slug);
      ghost var s1, mid, reached := s, out, err == Ok && !done;
      if err == Ok && !done {
        err, out := ServeTarget(out, revision, oracle);
      }
      ghost var s2 := s;
      if err != Ok {
        var _, _ := UpdateStatus(out, Withdrawn(out.status));
      }
      if calm && old(s.inst) == Some(i) {
        if reached {
          if Prepared(s1, s2, s.cfg.ns, mid.status.target) {
            PreparedSame(s1, s1, s2, s, s.cfg.ns, mid.status.target);
          }
          ByocReached(old(s), s1, s, i, mid, revision, oracle, isPublic);
        } else {
          ByocUnreached(old(s), s, i, revision, oracle, isPublic);
        }
      }
    }

    // -------------------------------------------------------------------------------------------
    // Reconcile
    // -------------------------------------------------------------------------------------------

    /** ensureSlug. */
    method EnsureSlug(i: Instance) returns (ok: bool, requeue: bool, out: Instance)
      requires Running() && InSync(s, i) && Snapshot(s, i)
      modifies this
      ensures Running() && old(history) <= history && MayWithdraw(s, out)
      ensures ok && !requeue ==> out == i && InSync(s, i) && i.status.slug != ""
      ensures var sel := SelectSlug(old(s.policy), i.status);
              calm && old(s.inst) == Some(i) && sel.Some? ==>
                && ok && (requeue <==> sel.value != Selection(i.status.slug, i.status.source))
                && (if requeue then OnlyInstance(old(s), s) && SlugWritten(s, i, sel.value) else s == old(s))
    {
      hide Operator.Valid, Versions, SameCache, NoNew, StatusOk;
      Facts();
      InSyncWithdraw(s, i);
      var sel := SelectSlug(s.policy, i.status);
      if sel.None? {
        return false, false, i;
      }
      if i.status.slug == sel.value.slug && i.status.source == sel.value.source {
        return true, false, i;
      }
      ok, out := PersistSlug(i, sel.value);
      requeue := true;
    }

    /** Patch with an optimistic lock, then read back what was persisted. */
    method PersistSlug(i: Instance, sel: Selection) returns (ok: bool, out: Instance)
      requires Running() && InSync(s, i) && Snapshot(s, i) && SlugOk(i.status, sel)
      modifies this
      ensures Running() && old(history) <= history && MayWithdraw(s, out)
      ensures ok ==> s.inst.Some? && s.inst.value.uid == i.uid
                     && s.inst.value.status.slug == sel.slug && s.inst.value.status.source == sel.source
      ensures calm && old(s.inst) == Some(i) ==> ok && OnlyInstance(old(s), s) && SlugWritten(s, i, sel)
    {
      hide Operator.Valid, Versions, SameCache, NoNew, StatusOk;
      Interfere();
      HeldKept(old(s), s);
      InSyncKept(old(s), s, i);
      var fate := DrawFate(calm);
      if fate.Lost? || s.inst.value.rv != i.rv {
        return false, i;
      }
      Do(Inst(PatchSlug(i.rv, sel)));
      if fate.Unacknowledged? {
        return false, i;
      }
      out := s.inst.value;
      Facts();
      WrittenWithdraw(s, out);
      ghost var s1 := s;
      var r := GetInstance();
      MayWithdrawStable(s1, s, out);
      ok := r.InstFound? && r.inst.uid == out.uid
            && r.inst.status.slug == sel.slug && r.inst.status.source == sel.source;
    }

    /** Reconcile of the instance: finalize, or select the slug, leave a changed target, and provision.
        Steps that only concern hosted objects or model settings appear as possible rejections. */
    method Reconcile(revision: nat, oracle: Oracle)
      requires Valid() && !s.know.busy
      modifies this
      ensures Valid() && !s.know.busy && old(history) <= history
      ensures s.inst.None? ==> NoneOwned(s)
      ensures Stuck(old(s)) ==> Stuck(s)
      ensures calm && Pinned(old(s)) && old(s.inst.value).deleting ==>
                var st := old(s.inst.value.status);
                s.inst.None? || TargetPass(old(s), s, st, CacheReaches(old(s), st), false)
      ensures calm && old(s.inst.Some?) && !old(s.inst.value).deleting ==>
                LivePass(old(s), old(s.inst.value), s, revision, oracle, isPublic)
    {
      hide Operator.Valid, Versions, NoNew, StatusOk, TargetPass, LivePass;
      Do(Note(Begin));
      var r := GetInstance();
      ghost var read := s;
      if r.InstFound? {
        if r.inst.deleting {
          var _, _ := FinalizeInstance(r.inst);
        } else {
          ReconcileLive(r.inst, revision, oracle);
        }
      }
      ghost var s1 := s;
      Do(Note(End));
      Facts();
      if calm && Pinned(old(s)) && old(s.inst.value).deleting && s.inst.Some? {
        var st := old(s.inst.value.status);
        PassFramed(old(s), read, s1, s, st, CacheReaches(old(s), st));
      }
      if calm && old(s.inst.Some?) && !old(s.inst.value).deleting {
        LivePassFramed(old(s), read, old(s.inst.value), s1, s, revision, oracle, isPublic);
      }
    }

    method ReconcileLive(i: Instance, revision: nat, oracle: Oracle)
      requires Running() && s.inst == Some(i) && !i.deleting
      modifies this
      ensures Running() && old(history) <= history
      ensures calm ==> LivePass(old(s), i, s, revision, oracle, isPublic)
    {
      hide Operator.Valid, Versions, SameCache, NoNew, StatusOk, TargetPassed, SelectSlug;
      Facts();
      WrittenWithdraw(s, i);
      if SelectSlug(s.policy, i.status).None? || oracle.settings.Rejected? {
        var _, _ := UpdateStatus(i, Withdrawn(i.status));
        return;
      }
      if oracle.settings.Unreadable? {
        return;
      }
      if !i.finalizer {
        PutFinalizer(i);
        return;
      }
      var ok, requeue, out := EnsureSlug(i);
      if !ok {
        var _, _ := UpdateStatus(out, Withdrawn(out.status));
        return;
      }
      if requeue {
        return;
      }
      ReconcileTarget(i, revision, oracle);
    }

    /** The part after the slug: the route check, leaving a changed target, and provisioning. */
    method ReconcileTarget(i: Instance, revision: nat, oracle: Oracle)
      requires Running() && InSync(s, i) && Snapshot(s, i) && i.status.slug != ""
      modifies this
      ensures Running() && old(history) <= history
      ensures calm && old(s.inst) == Some(i) ==> s.inst.Some? && TargetPassed(old(s), i, s, revision, oracle, isPublic)
    {
      hide Operator.Valid, Versions, SameCache, NoNew, StatusOk, Inv, Quiet, LeavePass, ByocOutcome, Staying, Departing;
      InSyncWithdraw(s, i);
      if i.clusterRef == "" && !oracle.route.Accepted? {
        if oracle.route.Rejected? {
          var _, _ := UpdateStatus(i, Withdrawn(i.status));
        }
        return;
      }
      var err, out := CleanupChangedTarget(i, i.status.slug);
      if err != Ok {
        var _, _ := UpdateStatus(out, Withdrawn(out.status));
        return;
      }
      ghost var mid := s;
      if calm && Staying(old(s), i) {
        OutcomeSame(old(s), s, i, revision, oracle, isPublic);
      }
      if out.clusterRef != "" {
        ReconcileByoc(out, out.status.slug, revision, oracle);
        if calm && old(s.inst) == Some(i) && !Staying(old(s), i) {
          LeftBehind(old(s), mid, i, out, s, revision, oracle, isPublic);
        }
      } else {
        ReconcileHosted(out, oracle);
        if calm && old(s.inst) == Some(i) && !Staying(old(s), i) {
          LeftRecorded(old(s), i);
        }
      }
    }

    method PutFinalizer(i: Instance)
      requires Running() && Snapshot(s, i)
      modifies this
      ensures Running() && old(history) <= history
      ensures calm && old(s.inst) == Some(i) ==> 
                OnlyInstance(old(s), s) && s.inst.Some? && s.inst.value == i.(rv := s.inst.value.rv, finalizer := true)
    {
      Interfere();
      var fate := DrawFate(calm);
      if !fate.Lost? && s.inst.Some? && s.inst.value.rv == i.rv {
        Do(Inst(AddFinalizer(i.rv)));
      }
    }

    /** The hosted branch as far as the instance's status goes. */
    method ReconcileHosted(i: Instance, oracle: Oracle)
      requires Running() && InSync(s, i) && MayWithdraw(s, i) && i.status.kcName == "" && i.status.slug != ""
      modifies this
      ensures Running() && old(history) <= history
      ensures calm && old(s.inst) == Some(i) ==> HostedOutcome(i, s, oracle)
    {
      hide Operator.Valid, Versions, SameCache, NoNew;
      Facts();
      if oracle.hosting.Unknown? {
        return;
      }
      if oracle.hosting.Refused? {
        var _, _ := UpdateStatus(i, Withdrawn(i.status));
        return;
      }
      var endpoint := if oracle.publicHost then Hosted(i.status.slug) else NoEndpoint;
      var _, _ := UpdateStatus(i, i.status.(endpoint := endpoint, ready := oracle.hosting.Running?));
    }

    // -------------------------------------------------------------------------------------------
    // Deletion terminates
    // -------------------------------------------------------------------------------------------

    /** Finalizers of deleted objects complete. */
    method Sweep(ghost st: Status, keys: seq<Key>)
      requires Valid() && !s.know.busy
      requires |keys| == |KIND_LIST| && forall j :: 0 <= j < |keys| ==> keys[j] == KeyOf(KIND_LIST[j], st)
      modifies this
      ensures Valid() && !s.know.busy && old(history) <= history
      ensures s == old(s).(clock := s.clock, objs := s.objs)
      ensures Swept(old(s), s) && Settled(s, st)
    {
      hide Operator.Valid, Swept, KeyOf;
      SweptRefl(s);
      for j := 0 to |keys|
        invariant Valid() && !s.know.busy && old(history) <= history
        invariant s == old(s).(clock := s.clock, objs := s.objs)
        invariant Swept(old(s), s)
        invariant forall x :: 0 <= x < j && keys[x] in s.objs ==> !s.objs[keys[x]].deleting
      {
        if keys[j] in s.objs && s.objs[keys[j]].deleting {
          ghost var before := s;
          Do(Object(keys[j], EditObject(None)));
          SweptOne(old(s), before, s, keys[j]);
        }
      }
      SweptSettled(s, st, keys);
    }

    /** The certificate controller issues, any number of times, as long as the Certificate is there. */
    method Issue(ghost st: Status, keys: seq<Key>)
      requires Valid() && !s.know.busy && Tidy(s, st)
      requires |keys| == |KIND_LIST| && forall j :: 0 <= j < |keys| ==> keys[j] == KeyOf(KIND_LIST[j], st)
      modifies this
      ensures Valid() && !s.know.busy && old(history) <= history
      ensures s == old(s).(clock := s.clock, objs := s.objs) && Issued(old(s), s, st)
    {
      hide Operator.Valid, Issued, SourceOk;
      var src, cert := keys[2], keys[1];
      assert src == KeyOf(SourceSecret, st) && cert == KeyOf(Certificate, st);
      NothingIssued(s, st);
      var present := cert in s.objs;
      var n :| 0 <= n;
      for i := 0 to n
        invariant Valid() && !s.know.busy && old(history) <= history
        invariant s == old(s).(clock := s.clock, objs := s.objs) && Issued(old(s), s, st)
      {
        if present {
          ghost var before := s;
          IssuedCert(old(s), s, st);
          var revision :| 0 <= revision;
          var body := Body("", s.objs[cert].body.certId, revision);
          var o := if src in s.objs then s.objs[src].(rv := s.clock + 1, owned := true, body := body)
                   else Obj(s.clock + 1, s.clock + 1, true, false, body);
          Do(Object(src, EditObject(Some(o))));
          IssuedOnce(before, s, st, o);
          IssuedTrans(old(s), before, s, st);
        }
      }
    }

    /** Other controllers catch up: the certificate controller issues, finalizers of deleted objects complete, and a
        requested label is put on the source Secret. */
    method Settle(ghost st: Status, keys: seq<Key>)
      requires Valid() && !s.know.busy && Tidy(s, st) && IssueSafe(s, st)
      requires |keys| == |KIND_LIST| && forall j :: 0 <= j < |keys| ==> keys[j] == KeyOf(KIND_LIST[j], st)
      modifies this
      ensures Valid() && !s.know.busy && old(history) <= history
      ensures s == old(s).(clock := s.clock, objs := s.objs)
      ensures Tidy(s, st) && Settled(s, st) && IssueSafe(s, st) && CaughtUp(old(s), s, st)
    {
      hide Operator.Valid, Issued, Swept, Settled, Resumed, CaughtUp, IssueSafe;
      Issue(st, keys);
      IssuedInOrder(old(s), s, st);
      ghost var issued := s;
      Sweep(st, keys);
      SweptInOrder(issued, s, st);
      ResumedTrans(old(s), issued, s, st);
      ghost var swept := s;
      var src, cert := keys[2], keys[1];
      assert src == KeyOf(SourceSecret, st) && cert == KeyOf(Certificate, st);
      if src in s.objs && cert in s.objs && s.objs[src].body.certId != s.objs[cert].body.certId {
        var o := s.objs[src];
        Do(Object(src, EditObject(Some(o.(rv := s.clock + 1, body := o.body.(certId := s.objs[cert].body.certId))))));
        Relabelled(swept, s, st);
        ResumedCaughtUp(old(s), swept, s, st);
      } else {
        NothingToLabel(old(s), s, st);
      }
    }

    /** Deletion terminates whatever the certificate controller issues meanwhile. If the credentials are at hand, the
        cluster is still the recorded one, no foreign object is in the way and issuance cannot outrun cleanup, then
        rounds of one or more reconciles, between which the other controllers catch up, end with the instance gone and
        nothing left behind. */
    method DrainDeletion(keys: seq<Key>)
      requires calm && Valid() && !s.know.busy && s.inst.Some?
      requires var st := s.inst.value.status; Drainable(s, st) && Settled(s, st) && IssueSafe(s, st)
      requires |keys| == |KIND_LIST| && forall j :: 0 <= j < |keys| ==> keys[j] == KeyOf(KIND_LIST[j], s.inst.value.status)
      modifies this
      ensures Valid() && !s.know.busy && old(history) <= history
      ensures s.inst.None? && NoneOwned(s)
    {
      hide Operator.Valid, Drainable, Settled, IssueSafe, CaughtUp, Better, Tidy, Stage, Rest, Live;
      ghost var st := s.inst.value.status;
      while s.inst.Some?
        invariant Valid() && !s.know.busy && old(history) <= history
        invariant s.inst.None? ==> NoneOwned(s)
        invariant s.inst.Some? ==> Drainable(s, st) && Settled(s, st) && IssueSafe(s, st)
        decreases s.inst.Some?, Live(s, KeyOf(DnsEntry, st)), Stage(s, st), Rest(s, st)
      {
        ghost var before := s;
        DeletionRound(st);
        if s.inst.Some? {
          ghost var passed := s;
          DrainableFacts(s, st);
          Settle(st, keys);
          RoundShrinks(before, passed, s, st);
          SettledSortable(passed, s, st);
          DrainableObjects(passed, s, st);
        }
      }
    }

    /** One or more reconciles of a deleted instance, with nobody else acting in between. */
    method DeletionRound(ghost st: Status)
      requires calm && Valid() && !s.know.busy && Drainable(s, st) && Settled(s, st) && IssueSafe(s, st)
      modifies this
      ensures Valid() && !s.know.busy && old(history) <= history && (s.inst.None? ==> NoneOwned(s))
      ensures s.inst.Some? ==> Drainable(s, st) && IssueSafe(s, st) && Better(old(s), s, st)
    {
      hide Operator.Valid, Drainable, Settled, IssueSafe, Better, TargetPass, CacheReaches, Sortable;
      DrainableFacts(s, st);
      var more :| 0 <= more;
      for n := 0 to more + 1
        invariant Valid() && !s.know.busy && old(history) <= history && (s.inst.None? ==> NoneOwned(s))
        invariant n == 0 ==> s == old(s)
        invariant s.inst.Some? ==> Drainable(s, st) && IssueSafe(s, st) && (n > 0 ==> Better(old(s), s, st))
      {
        if s.inst.None? {
          return;
        }
        ghost var before := s;
        Facts();
        DrainableFacts(s, st);
        DrainableReaches(s, st);
        var oracle: Oracle := *;
        Reconcile(0, oracle);
        if s.inst.Some? {
          PassInOrder(before, s, st, true);
          DrainableObjects(before, s, st);
          if n == 0 {
            FirstPass(before, s, st);
          } else {
            LaterPass(old(s), before, s, st, true);
          }
        }
      }
    }

    /** All else being in order, a deletion completes exactly when it is not stuck. */
    method DrainExactly(keys: seq<Key>, patience: nat)
      requires calm && Valid() && !s.know.busy && s.inst.Some?
      requires var st := s.inst.value.status;
               Deletable(s, st) && Sortable(s, st) && Settled(s, st) && IssueSafe(s, st)
      requires |keys| == |KIND_LIST| && forall j :: 0 <= j < |keys| ==> keys[j] == KeyOf(KIND_LIST[j], s.inst.value.status)
      modifies this
      ensures Valid() && !s.know.busy && old(history) <= history
      ensures if Stuck(old(s)) then Stuck(s) else s.inst.None? && NoneOwned(s)
    {
      hide Operator.Valid, Drainable, Settled, Sortable, IssueSafe;
      Facts();
      DrainableExactly(s, s.inst.value.status);
      if Stuck(s) {
        RetryStuck(patience);
      } else {
        DrainDeletion(keys);
      }
    }

    /** The part of a reconcile that leaves a changed target. */
    method MovePass() returns (err: Err)
      requires calm && Valid() && !s.know.busy && Pinned(s) && Moving(s, s.inst.value)
      modifies this
      ensures Valid() && !s.know.busy && old(history) <= history && s.inst.Some?
      ensures LeavePass(old(s), s, old(s.inst.value), s.inst.value, err == Ok)
    {
      hide Operator.Valid, LeavePass, TargetPass;
      ghost var before := s;
      Do(Note(Begin));
      var r := GetInstance();
      Facts();
      var i := r.inst;
      ghost var read := s;
      var out;
      err, out := CleanupChangedTarget(i, i.status.slug);
      ghost var passed := s;
      Do(Note(End));
      PassKnow(before, read, passed, s, i, out, err == Ok);
    }

    /** One or more such passes, with nobody else acting in between. */
    method MoveRound(ghost st: Status)
      requires calm && Valid() && !s.know.busy && s.inst.Some? && MoveReady(s, s.inst.value, st) && Settled(s, st)
      modifies this
      ensures Valid() && !s.know.busy && old(history) <= history && s.inst.Some?
      ensures s.inst.value.status.target != NoTarget ==> MoveReady(s, s.inst.value, st) && Better(old(s), s, st)
    {
      hide Operator.Valid, Settled, Better, LeavePass, Moving, Sortable, IssueSafe;
      var more :| 0 <= more;
      for n := 0 to more + 1
        invariant Valid() && !s.know.busy && old(history) <= history && s.inst.Some?
        invariant n == 0 ==> s == old(s)
        invariant s.inst.value.status.target != NoTarget ==> MoveReady(s, s.inst.value, st) && (n > 0 ==> Better(old(s), s, st))
      {
        if s.inst.value.status.target == NoTarget {
          return;
        }
        ghost var before := s;
        var err := MovePass();
        if err != Ok {
          StillMoving(before, s, st);
          if n == 0 {
            FirstMove(before, s, st);
          } else {
            LaterMove(old(s), before, s, st);
          }
        } else {
          LeftNoTarget(before, s);
        }
      }
    }

    /** A move terminates too: with credentials for the recorded cluster, no foreign object in the way and issuance that
        cannot outrun cleanup, rounds of passes empty the target and forget it, whatever is issued meanwhile. */
    method DrainMove(keys: seq<Key>)
      requires calm && Valid() && !s.know.busy && s.inst.Some?
      requires MoveReady(s, s.inst.value, s.inst.value.status) && Settled(s, s.inst.value.status)
      requires |keys| == |KIND_LIST| && forall j :: 0 <= j < |keys| ==> keys[j] == KeyOf(KIND_LIST[j], s.inst.value.status)
      modifies this
      ensures Valid() && !s.know.busy && old(history) <= history
      ensures s.inst.Some? && s.inst.value.status.target == NoTarget && NoneOwned(s)
    {
      hide Operator.Valid, Sortable, Settled, Moving, IssueSafe, CaughtUp, Better, Tidy, Stage, Rest, Live;
      ghost var st := s.inst.value.status;
      while s.inst.value.status.target != NoTarget
        invariant Valid() && !s.know.busy && old(history) <= history && s.inst.Some?
        invariant s.inst.value.status.target != NoTarget ==> MoveReady(s, s.inst.value, st) && Settled(s, st)
        decreases s.inst.value.status.target != NoTarget, Live(s, KeyOf(DnsEntry, st)), Stage(s, st), Rest(s, st)
      {
        ghost var before := s;
        MoveRound(st);
        if s.inst.value.status.target != NoTarget {
          ghost var passed := s;
          MoveFacts(s, st);
          Settle(st, keys);
          RoundShrinks(before, passed, s, st);
          SettledSortable(passed, s, st);
          MovingObjects(passed, s);
        }
      }
      Facts();
      NoneLeft(s);
    }

    /** Without that condition, the certificate controller can win the race: from any state of a deletion that is in order
        but for a Certificate that never asked for its UID and has issued nothing yet, there is a run in the order of the
        code, with only finalizers completing and one first issuance besides, into an abandoned source Secret. */
    method LoseRace(keys: seq<Key>)
      requires Valid() && !s.know.busy && s.inst.Some?
      requires var st := s.inst.value.status; Drainable(s, st) && Settled(s, st) && !IssueSafe(s, st)
      requires |keys| == |KIND_LIST| && forall j :: 0 <= j < |keys| ==> keys[j] == KeyOf(KIND_LIST[j], s.inst.value.status)
      modifies this
      ensures Valid() && !s.know.busy && old(history) <= history
      ensures var st := old(s.inst.value.status);
              && Abandoned(s, KeyOf(Certificate, st)) && Deletable(s, st) && IssuanceStopped(s, st)
              && CacheHolds(s, st.activeSlug, st.target)
    {
      hide Operator.Valid;
      ghost var st := s.inst.value.status;
      var dns, cert, src := keys[0], keys[1], keys[2];
      assert dns == KeyOf(DnsEntry, st) && cert == KeyOf(Certificate, st) && src == KeyOf(SourceSecret, st);
      if dns in s.objs {
        RemoveEntry(dns);
      }
      ghost var before := s;
      RaceFacts(old(s), s, st);
      var o := StrikeCertificate(cert, src);
      RaceLost(before, s, st, o);
    }

    /** A pass that deletes the DNSEntry. */
    method RemoveEntry(dns: Key)
      requires Valid() && !s.know.busy && dns.kind.DnsEntry? && Owned(s, dns)
      modifies this
      ensures Valid() && !s.know.busy && old(history) <= history
      ensures s == old(s).(clock := s.clock, objs := old(s.objs) - {dns}, know := s.know)
    {
      hide Operator.Valid;
      Do(Note(Begin));
      Do(Note(See(dns)));
      Do(Object(dns, Delete(s.objs[dns].id, true)));
      Do(Note(End));
    }

    /** A pass that deletes the Certificate; its controller issues for the first time, and the finalizer completes. */
    method StrikeCertificate(cert: Key, src: Key) returns (o: Obj)
      requires Valid() && !s.know.busy && cert.kind.Certificate? && src == cert.(kind := SourceSecret)
      requires Owned(s, cert) && s.objs[cert].body.certId == 0 && src !in s.objs
      modifies this
      ensures Valid() && !s.know.busy && old(history) <= history
      ensures o.owned && !o.deleting && o.body.certId == 0
      ensures s == old(s).(clock := s.clock, objs := (old(s.objs) - {cert})[src := o], know := s.know)
    {
      hide Operator.Valid;
      Do(Note(Begin));
      Do(Note(See(cert)));
      Do(Object(cert, Delete(s.objs[cert].id, false)));
      Do(Note(End));
      o := FirstIssuance(cert, src);
    }

    method FirstIssuance(cert: Key, src: Key) returns (o: Obj)
      requires Valid() && !s.know.busy && cert.kind.Certificate? && src == cert.(kind := SourceSecret)
      requires Owned(s, cert) && s.objs[cert].body.certId == 0 && src !in s.objs
      modifies this
      ensures Valid() && !s.know.busy && old(history) <= history
      ensures o.owned && !o.deleting && o.body.certId == 0
      ensures s == old(s).(clock := s.clock, objs := (old(s.objs) - {cert})[src := o])
    {
      hide Operator.Valid;
      o := Obj(s.clock + 1, s.clock + 1, true, false, Body("", 0, 1));
      Do(Object(src, EditObject(Some(o))));
      Do(Object(cert, EditObject(None)));
      assert s.objs == (old(s.objs) - {cert})[src := o];
    }

    /** So, with everything else in order, cleanup is bound to complete exactly when issuance cannot outrun it. */
    method DrainUnlessRaced(keys: seq<Key>)
      requires calm && Valid() && !s.know.busy && s.inst.Some?
      requires var st := s.inst.value.status; Drainable(s, st) && Settled(s, st)
      requires |keys| == |KIND_LIST| && forall j :: 0 <= j < |keys| ==> keys[j] == KeyOf(KIND_LIST[j], s.inst.value.status)
      modifies this
      ensures Valid() && !s.know.busy && old(history) <= history
      ensures var st := old(s.inst.value.status);
              if IssueSafe(old(s), st) then s.inst.None? && NoneOwned(s) else Abandoned(s, KeyOf(Certificate, st))
    {
      hide Operator.Valid, Drainable;
      ghost var st := s.inst.value.status;
      var cert, src := keys[1], keys[2];
      assert cert == KeyOf(Certificate, st) && src == KeyOf(SourceSecret, st);
      if cert in s.objs && s.objs[cert].body.certId != s.objs[cert].id && src !in s.objs {
        LoseRace(keys);
      } else {
        SafeWhen(s, st);
        DrainDeletion(keys);
      }
    }

    // -------------------------------------------------------------------------------------------
    // Provisioning terminates
    // -------------------------------------------------------------------------------------------

    /** From any state that promises it, at most four reconciles provision the target and publish its endpoint, if between
        the last two the tenant's cluster gives the Service a public address and the certificate controller catches up. */
    method ProvisionTarget(address: string, revision: nat, oracle: Oracle)
      requires calm && Valid() && !s.know.busy && Promising(s, oracle) && address != "" && isPublic(address)
      modifies this
      ensures Valid() && !s.know.busy && old(history) <= history
      ensures s.inst.Some? && s.inst.value.status == old(Goal(s))
      ensures var st, target := s.inst.value.status, old(SourceTarget(s, s.inst.value.clusterRef));
              && st.ready && st.target == target && st.endpoint == Https(Host(target, old(s.cfg.domain)))
              && Serving(s, old(s.cfg.ns), target, revision, oracle, isPublic)
    {
      hide Operator.Valid, Promising, Registered, ServedStatus, Serving, Prepared, Servable;
      GoalMeans(s, oracle);
      Register(revision, oracle);
      var done := RecordingPass(address, revision, oracle);
      if !done {
        ServePass(revision, oracle);
      }
    }

    /** The pass that records the target; if it cannot be served yet, it can be afterwards. */
    method RecordingPass(address: string, revision: nat, oracle: Oracle) returns (done: bool)
      requires calm && Valid() && !s.know.busy && Registered(s, oracle) && s.inst.value.status.slug != ""
      requires address != "" && isPublic(address)
      modifies this
      ensures Valid() && !s.know.busy && old(history) <= history && s.inst.Some?
      ensures if done then
                && s.inst.value.status == old(ServedStatus(s, s.inst.value.status))
                && Serving(s, s.inst.value.status.tlsNs, s.inst.value.status.target, revision, oracle, isPublic)
              else
                && Registered(s, oracle) && s.inst.value.status.slug != ""
                && Servable(s, s.cfg.ns, SourceTarget(s, s.inst.value.clusterRef), oracle, isPublic)
                && ServedStatus(s, s.inst.value.status) == old(ServedStatus(s, s.inst.value.status))
    {
      hide Operator.Valid, Inv, Registered, ServedStatus, Serving, Servable, Connectable, Approachable, ByocOutcome, Equipped;
      ServePass(revision, oracle);
      done := s.inst.value.status.endpoint != NoEndpoint;
      if !done {
        ghost var i, passed := old(s.inst.value), s;
        RegisteredFacts(old(s), oracle);
        ByocKeeps(old(s), i, s, revision, oracle, isPublic);
        SourceOurs(old(s), s, s.cfg.ns, SourceTarget(old(s), i.clusterRef), oracle);
        Equip(address, SourceTarget(s, s.inst.value.clusterRef), s.cfg.ns);
        NowServable(old(s), i, passed, s, revision, oracle, isPublic);
      }
    }

    /** Finalizer and slug. */
    method Register(revision: nat, oracle: Oracle)
      requires calm && Valid() && !s.know.busy && Promising(s, oracle)
      modifies this
      ensures Valid() && !s.know.busy && old(history) <= history
      ensures Registered(s, oracle) && s.inst.value.status.slug != ""
      ensures ServedStatus(s, s.inst.value.status) == old(Goal(s))
    {
      hide Operator.Valid, Followed, Goal, LivePass;
      for n := 0 to 2
        invariant Valid() && !s.know.busy && old(history) <= history && Promising(s, oracle) && Goal(s) == old(Goal(s))
        invariant n > 0 ==> s.inst.value.finalizer
        invariant n > 1 ==> SelectSlug(s.policy, s.inst.value.status) == Some(Selection(s.inst.value.status.slug, s.inst.value.status.source))
      {
        Facts();
        var i := s.inst.value;
        if !i.finalizer || SelectSlug(s.policy, i.status) != Some(Selection(i.status.slug, i.status.source)) {
          ghost var before := s;
          Reconcile(revision, oracle);
          RegisterPass(before, s, revision, oracle, isPublic);
        }
      }
      Facts();
      NowRegistered(s, oracle);
    }

    /** A reconcile that follows the reference. */
    method ServePass(revision: nat, oracle: Oracle)
      requires calm && Valid() && !s.know.busy && Registered(s, oracle) && s.inst.value.status.slug != ""
      modifies this
      ensures Valid() && !s.know.busy && old(history) <= history
      ensures Served(old(s), s, revision, oracle, isPublic)
      ensures ByocOutcome(old(s), old(s.inst.value), s, revision, oracle, isPublic)
      ensures Servable(old(s), old(s.cfg.ns), SourceTarget(old(s), old(s.inst.value.clusterRef)), oracle, isPublic) ==>
                s.inst.value.status.endpoint != NoEndpoint
      ensures Steady(old(s), old(s.cfg.ns), SourceTarget(old(s), old(s.inst.value.clusterRef)), revision, oracle, isPublic) ==>
                s.objs == old(s.objs)
    {
      hide Operator.Valid, Served, LivePass, Servable, Serving, Steady, Connectable, Staying, Approachable, Prepared;
      Reconcile(revision, oracle);
      RegisteredPass(old(s), s, revision, oracle, isPublic);
      RegisteredFacts(old(s), oracle);
      PassServed(old(s), s, revision, oracle, isPublic);
      ServedThere(old(s), s, revision, oracle, isPublic);
    }

    /** The tenant's cluster gives the Service an address, and the certificate controller puts the label it was asked for
        on its output. */
    method Equip(address: string, t: Target, ns: string)
      requires Valid() && !s.know.busy && address != "" && isPublic(address)
      requires Presented(s, RemoteKey(Service, t))
      requires var cert, src := Key(Certificate, ns, t), Key(SourceSecret, ns, t);
               && Presented(s, cert) && s.objs[cert].body.certId == s.objs[cert].id
               && (src in s.objs ==> s.objs[src].owned)
      modifies this
      ensures Valid() && !s.know.busy && old(history) <= history && s == old(s).(clock := s.clock, objs := s.objs)
      ensures Equipped(old(s), s, ns, t, isPublic)
    {
      hide Operator.Valid;
      var svc, cert, src := RemoteKey(Service, t), Key(Certificate, ns, t), Key(SourceSecret, ns, t);
      assert src.(kind := Certificate) == cert;
      var o := s.objs[svc];
      Do(Object(svc, EditObject(Some(o.(rv := s.clock + 1, body := o.body.(address := address))))));
      if src in s.objs {
        var output := s.objs[src];
        Do(Object(src, EditObject(Some(output.(rv := s.clock + 1, body := output.body.(certId := s.objs[cert].id))))));
      }
    }

    /** Once a deletion has dropped its credentials and the finalizer write did not land in the same call,
        no number of reconciles and nothing the surroundings do completes the deletion. */
    method RetryStuck(rounds: nat)
      requires Valid() && !s.know.busy && Stuck(s)
      modifies this
      ensures Valid() && !s.know.busy && old(history) <= history && Stuck(s)
    {
      hide Operator.Valid, Stuck;
      for n := 0 to rounds
        invariant Valid() && !s.know.busy && old(history) <= history && Stuck(s)
      {
        var e: Event := *;
        if e != Note(Crash) && EnvEnabled(s, e) {
          StuckEnv(s, e);
          Do(e);
        }
        var oracle: Oracle := *;
        Reconcile(0, oracle);
      }
    }
  }

  /** A calm pass that leaves a target: it is forgotten, or the endpoint is withdrawn, no ground was lost, and with
      everything settled the target came closer to being empty. */
  ghost predicate LeavePass(s: World, t: World, i: Instance, out: Instance, ok: bool) {
    && t.inst == Some(out)
    && if ok then out.status.target == NoTarget
       else OnlyWithdrawn(i, out) && TargetPass(s.(inst := t.inst), t, i.status, true, false)
  }

  lemma LeavePassSame(s: World, b: World, t: World, i: Instance, out: Instance, ok: bool)
    requires Unchanged(s, b) && LeavePass(b, t, i, out, ok)
    ensures LeavePass(s, t, i, out, ok)
  {
    if !ok {
      var c, d := s.(inst := t.inst), b.(inst := t.inst);
      YieldedSame(c, d, t, KeyOf(Certificate, i.status));
      assert Ordered(c, i.status, c.cfg.issuer) ==> Ordered(d, i.status, d.cfg.issuer);
      if Step(d, t, i.status) {
        StepSame(c, d, t, i.status);
      }
    }
  }

  lemma NotEmptied(s: World, b: World, t: World, i: Instance, out: Instance)
    requires b == s.(clock := b.clock, inst := Some(out)) && OnlyWithdrawn(i, out) && TargetPass(b, t, out.status, true, false)
    ensures LeavePass(s, t, i, out, false)
  {
    PassMoved(s, b, t, i.status, out.status, true);
  }

  lemma LeavingDeparts(s: World, b: World, i: Instance, slug: string, oldData: Kubeconfig)
    requires Inv(s) && s.inst == Some(i) && i.status.kcName != "" && b == s && slug == ActiveSlug(i, i.status.slug)
    requires CacheOwned(s, slug) && s.cache[slug].data == Some(oldData) && MoveWanted(b, i, oldData) && Decidable(b, i, oldData)
    ensures Departing(s, i) && !Staying(s, i)
  {
    MoveDeparts(s, i, slug);
  }

  lemma PassSame(b: World, t: World, st: Status, reach: bool, ok: bool)
    requires TargetPass(b, t, st, reach, ok)
    ensures t.inst == b.inst && t.cache == b.cache && Framed(b, t)
  {
  }

  lemma Forgotten(s: World, t: World, i: Instance, out: Instance)
    requires t.inst == Some(out) && out.status.target == NoTarget
    ensures LeavePass(s, t, i, out, true)
  {
  }

  lemma PassKnow(s: World, b: World, t: World, u: World, i: Instance, out: Instance, ok: bool)
    requires b == s.(know := b.know) && u == t.(know := u.know) && LeavePass(b, t, i, out, ok)
    ensures LeavePass(s, u, i, out, ok)
  {
    if !ok {
      PassFramed(s.(inst := u.inst), b.(inst := t.inst), t, u, i.status, true);
    }
  }

  lemma LeftNoTarget(s: World, t: World)
    requires s.inst.Some? && t.inst.Some? && LeavePass(s, t, s.inst.value, t.inst.value, true)
    ensures t.inst.value.status.target == NoTarget
  {
  }

  lemma MovingKept(s: World, t: World, i: Instance, j: Instance)
    requires Moving(s, i) && OnlyWithdrawn(i, j)
    requires t.cache == s.cache && t.secrets == s.secrets && t.clusters == s.clusters
    ensures Moving(t, j)
  {
  }

  lemma MoveFacts(s: World, st: Status)
    requires s.inst.Some? && MoveReady(s, s.inst.value, st)
    ensures Sortable(s, st) && Tidy(s, st) && IssueSafe(s, st)
  {
  }

  /** A pass that did not finish, as seen from the names of `st`. */
  lemma MovePassed(s: World, t: World, st: Status)
    requires s.inst.Some? && t.inst.Some? && MoveReady(s, s.inst.value, st)
    requires LeavePass(s, t, s.inst.value, t.inst.value, false)
    ensures TargetPass(s.(inst := t.inst), t, st, true, false)
  {
    var c := s.(inst := t.inst);
    PassMoved(c, c, t, st, s.inst.value.status, true);
  }

  /** After it, the move can still complete. */
  lemma StillMoving(s: World, t: World, st: Status)
    requires s.inst.Some? && t.inst.Some? && MoveReady(s, s.inst.value, st)
    requires LeavePass(s, t, s.inst.value, t.inst.value, false)
    ensures MoveReady(t, t.inst.value, st)
  {
    hide TargetPass;
    var c := s.(inst := t.inst);
    MovePassed(s, t, st);
    assert Sortable(c, st) && IssueSafe(c, st);
    PassInOrder(c, t, st, true);
    MovingKept(s, t, s.inst.value, t.inst.value);
  }

  lemma FirstMove(s: World, t: World, st: Status)
    requires s.inst.Some? && t.inst.Some? && MoveReady(s, s.inst.value, st) && Settled(s, st)
    requires LeavePass(s, t, s.inst.value, t.inst.value, false)
    ensures Better(s, t, st)
  {
    hide TargetPass;
    var c := s.(inst := t.inst);
    MovePassed(s, t, st);
    assert Sortable(c, st) && Settled(c, st);
    FirstPass(c, t, st);
    BetterFramed(c, s, t, st);
  }

  lemma LaterMove(a: World, s: World, t: World, st: Status)
    requires s.inst.Some? && t.inst.Some? && MoveReady(s, s.inst.value, st) && Better(a, s, st)
    requires LeavePass(s, t, s.inst.value, t.inst.value, false)
    ensures Better(a, t, st)
  {
    hide TargetPass;
    var c := s.(inst := t.inst);
    MovePassed(s, t, st);
    assert Better(a, c, st) by { BetterFramedRight(a, s, c, st); }
    LaterPass(a, c, t, st, true);
  }

  lemma BetterFramed(s: World, b: World, t: World, st: Status)
    requires s.objs == b.objs && Better(s, t, st)
    ensures Better(b, t, st)
  {
    assert forall k :: Live(s, k) == Live(b, k);
    if !Live(s, KeyOf(DnsEntry, st)) && !Live(s, KeyOf(Certificate, st)) {
      var kind :| Live(s, KeyOf(kind, st)) && !Live(t, KeyOf(kind, st));
      assert Live(b, KeyOf(kind, st));
    }
  }

  lemma BetterFramedRight(s: World, t: World, u: World, st: Status)
    requires t.objs == u.objs && Better(s, t, st)
    ensures Better(s, u, st)
  {
    assert forall k :: Live(t, k) == Live(u, k);
    if !Live(s, KeyOf(DnsEntry, st)) && !Live(s, KeyOf(Certificate, st)) {
      var kind :| Live(s, KeyOf(kind, st)) && !Live(t, KeyOf(kind, st));
      assert !Live(u, KeyOf(kind, st));
    }
  }

  lemma MovingObjects(s: World, t: World)
    requires s.inst.Some? && Moving(s, s.inst.value) && t == s.(clock := t.clock, objs := t.objs)
    ensures Moving(t, t.inst.value)
  {
  }

  /** Before the race: a Certificate of ours that never asked for its UID, and no source Secret. */
  lemma RaceFacts(s: World, t: World, st: Status)
    requires Drainable(s, st) && Settled(s, st) && !IssueSafe(s, st)
    requires t == s.(clock := t.clock, objs := s.objs - {KeyOf(DnsEntry, st)}, know := t.know)
    ensures var src, cert := KeyOf(SourceSecret, st), KeyOf(Certificate, st);
            Owned(t, cert) && t.objs[cert].body.certId == 0 && src !in t.objs
    ensures Deletable(t, st) && CacheHolds(t, st.activeSlug, st.target) && OursOrFree(t, st) && KeyOf(DnsEntry, st) !in t.objs
  {
    assert forall kind :: KeyOf(kind, st) in t.objs ==> KeyOf(kind, st) in s.objs && t.objs[KeyOf(kind, st)] == s.objs[KeyOf(kind, st)];
    assert KeyOf(Certificate, st) != KeyOf(DnsEntry, st);
  }

  lemma RaceLost(s: World, t: World, st: Status, o: Obj)
    requires Deletable(s, st) && CacheHolds(s, st.activeSlug, st.target) && OursOrFree(s, st) && KeyOf(DnsEntry, st) !in s.objs
    requires var src, cert := KeyOf(SourceSecret, st), KeyOf(Certificate, st);
             && o.owned && !o.deleting && o.body.certId == 0
             && t == s.(clock := t.clock, objs := (s.objs - {cert})[src := o], know := t.know)
    ensures Abandoned(t, KeyOf(Certificate, st)) && Deletable(t, st) && IssuanceStopped(t, st)
    ensures CacheHolds(t, st.activeSlug, st.target)
  {
    var src, cert := KeyOf(SourceSecret, st), KeyOf(Certificate, st);
    assert cert.(kind := SourceSecret) == src && src != cert && src != KeyOf(DnsEntry, st);
    forall kind
      ensures Strikable(t, KeyOf(kind, st))
    {
      assert Strikable(s, KeyOf(kind, st));
    }
  }

  /** The condition as a caller reads it off a settled state. */
  lemma SafeWhen(s: World, st: Status)
    requires Drainable(s, st) && Settled(s, st)
    ensures var src, cert := KeyOf(SourceSecret, st), KeyOf(Certificate, st);
            IssueSafe(s, st) <==> (cert in s.objs ==> s.objs[cert].body.certId == s.objs[cert].id || src in s.objs)
  {
  }

  /** Once issuance has stopped, an unsuccessful pass with credentials changes something unless a Secret is abandoned. */
  lemma StoppedPass(s: World, t: World, st: Status)
    requires Inv(s) && Deletable(s, st) && CacheHolds(s, st.activeSlug, st.target) && IssuanceStopped(s, st)
    requires !Abandoned(s, KeyOf(Certificate, st)) && TargetPass(s, t, st, CacheReaches(s, st), false)
    ensures !Unchanged(s, t)
  {
    StoppedDrainable(s, st);
    DrainableReaches(s, st);
    StepChanges(s, t, st);
  }

  lemma ManagedStopped(s: World, t: World, st: Status, ok: bool)
    requires ManagedPass(s, t, st, s.cfg.issuer, ok)
    ensures IssuanceStopped(s, st) && Abandoned(s, KeyOf(Certificate, st)) ==> !ok && Unchanged(s, t)
    ensures ok ==> Unchanged(s, t)
  {
  }

  lemma TouchedAgain(a: World, b: World, c: World, k: Key)
    requires Touched(a, b, {k}) && Touched(b, c, {k})
    ensures Touched(a, c, {k})
  {
    TouchedTrans(a, b, c, {k}, {k});
    assert {k} + {k} == {k};
  }

  lemma TouchedObjects(s: World, t: World, keys: set<Key>)
    requires Touched(s, t, keys)
    ensures OnlyObjects(s, t)
  {
  }

  lemma ObjectsTrans(a: World, b: World, c: World)
    requires OnlyObjects(a, b) && OnlyObjects(b, c)
    ensures OnlyObjects(a, c)
  {
  }

  lemma SentSame(s: World, t: World, ns: string, target: Target, tls: nat)
    requires t.objs == s.objs
    ensures Sent(s, ns, target, tls) ==> Sent(t, ns, target, tls)
  {
  }

  lemma TlsSame(s: World, t: World, ns: string, target: Target, oracle: Oracle)
    requires t.objs == s.objs
    ensures SteadyTls(s, ns, target, oracle) ==> SteadyTls(t, ns, target, oracle)
  {
  }

  lemma DeliverableSame(s: World, t: World, ns: string, target: Target, oracle: Oracle)
    requires t.objs == s.objs
    ensures Deliverable(s, ns, target, oracle) ==> Deliverable(t, ns, target, oracle)
  {
  }

  lemma HeldKnow(s: World, t: World)
    requires Held(s, t)
    ensures t.know.delivered == s.know.delivered
  {
  }

  /** The exposure leaves the rest of an approachable target as it was. */
  lemma ApproachableRest(s: World, t: World, ns: string, target: Target, oracle: Oracle)
    requires Approachable(s, ns, target, oracle) && Touched(s, t, ExposureKeys(ns, target))
    ensures ExposureFree(s, ns, target) && Deliverable(t, ns, target, oracle) && PodsFree(t, target)
  {
    StaysDeliverable(s, t, ns, target, oracle);
    PodsStayExposed(s, t, ns, target);
  }

  lemma RelyHeld(s: World, t: World)
    requires Rely(s, t)
    ensures Held(s, t) && NoNew(s, t)
  {
  }

  lemma UnchangedObjects(s: World, t: World)
    requires Unchanged(s, t)
    ensures t.objs == s.objs
  {
  }

  lemma ReadKept(s: World, t: World)
    requires Rely(s, t)
    ensures Kept(s, t)
  {
    HeldKept(s, t);
  }

  lemma Noticed(s: World, t: World)
    requires t == s.(know := t.know)
    ensures Kept(s, t)
  {
    HeldRefl(t);
  }

  /** What a pinned instance records stays recorded. */
  lemma KeptPinned(s: World, t: World)
    requires Kept(s, t) && Pinned(s)
    ensures Pinned(t) && t.inst.value.status == s.inst.value.status && t.cfg == s.cfg && t.scopes == s.scopes
  {
  }

  lemma ExposedCert(s: World, ns: string, t: Target, revision: nat, isPublic: string -> bool)
    ensures Exposed(s, ns, t, revision, isPublic) ==> Presented(s, Key(Certificate, ns, t))
  {
  }

  lemma AfterService(s: World, t: World, ns: string, target: Target)
    requires Touched(s, t, {RemoteKey(Service, target)})
    ensures CertObtainable(s, Key(Certificate, ns, target)) ==> CertObtainable(t, Key(Certificate, ns, target))
    ensures Strikable(s, Key(DnsEntry, ns, target)) ==> Strikable(t, Key(DnsEntry, ns, target))
  {
    var keys := {RemoteKey(Service, target)};
    UntouchedKey(s, t, keys, Key(Certificate, ns, target));
    UntouchedKey(s, t, keys, Key(SourceSecret, ns, target));
    UntouchedKey(s, t, keys, Key(LastValid, ns, target));
    UntouchedKey(s, t, keys, Key(DnsEntry, ns, target));
  }

  lemma AfterCertificate(s: World, t: World, ns: string, target: Target)
    requires Touched(s, t, {Key(Certificate, ns, target)})
    ensures Same(s, t, RemoteKey(Service, target)) && Same(s, t, Key(DnsEntry, ns, target))
  {
    UntouchedKey(s, t, {Key(Certificate, ns, target)}, RemoteKey(Service, target));
    UntouchedKey(s, t, {Key(Certificate, ns, target)}, Key(DnsEntry, ns, target));
  }

  lemma ExposureClass(s: World, ns: string, t: Target)
    ensures ExposureFree(s, ns, t) ==> s.cfg.dnsClass != ""
  {
  }

  lemma PodTouched(s: World, b: World, t: World, target: Target, kind: Kind)
    requires kind in PODS && Touched(s, b, PodKeys(target)) && Touched(b, t, {RemoteKey(kind, target)})
    ensures Touched(s, t, PodKeys(target))
    ensures forall x :: x != kind ==> Same(b, t, RemoteKey(x, target))
  {
    TouchedMore(b, t, {RemoteKey(kind, target)}, PodKeys(target));
    TouchedTrans(s, b, t, PodKeys(target), PodKeys(target));
    assert PodKeys(target) + PodKeys(target) == PodKeys(target);
    forall x | x != kind
      ensures Same(b, t, RemoteKey(x, target))
    {
      UntouchedKey(b, t, {RemoteKey(kind, target)}, RemoteKey(x, target));
    }
  }

  /** First the local names were free of ours, then the remote ones: now nothing is ours. */
  lemma EmptiedAll(b: World, s: World)
    requires Inv(s) && s.inst.Some? && NoNew(b, s)
    requires forall kind :: !IsRemote(kind) ==> !Owned(b, KeyOf(kind, s.inst.value.status))
    requires forall kind :: IsRemote(kind) ==> !Owned(s, RemoteKey(kind, s.inst.value.status.target))
    ensures NoneOwned(s)
  {
    var st := s.inst.value.status;
    forall k | Belongs(k, st)
      ensures !Owned(s, k)
    {
      assert k == KeyOf(k.kind, st);
      if k.kind.SourceSecret? {
        NoIssuance(b, s, KeyOf(Certificate, st));
      } else if IsRemote(k.kind) {
        assert k == RemoteKey(k.kind, st.target);
      }
    }
    NoneLeft(s);
  }

  lemma NothingAbandoned(s: World, cert: Key)
    requires NoneOwned(s)
    ensures !Abandoned(s, cert)
  {
  }

  lemma StuckFacts(s: World)
    requires Stuck(s)
    ensures s.inst.Some? && s.inst.value.status.target != NoTarget
  {
  }

  lemma NowStuck(s: World)
    requires Pinned(s) && s.inst.value.deleting && s.inst.value.status.target != NoTarget
    requires !CacheOwned(s, s.inst.value.status.activeSlug)
    ensures Stuck(s)
  {
  }

  /** Nothing the surroundings can do brings the credentials back. */
  lemma StuckEnv(s: World, e: Event)
    requires Stuck(s) && EnvEnabled(s, e)
    ensures Stuck(Apply(s, e))
  {
  }

  lemma StuckHeld(s: World, t: World)
    requires Stuck(s) && Held(s, t)
    ensures Stuck(t)
  {
  }

  /** Forgetting the target is allowed once nothing is left of it. */
  lemma ClearOk(s: World, st: Status)
    requires s.inst.Some? && NoneOwned(s)
    requires ClearedActive(st) && st.endpoint == NoEndpoint && !st.ready
    requires var was := s.inst.value.status;
             st.slug == was.slug && st.source == was.source && st.activeSlug == was.activeSlug
    ensures StatusOk(s, st)
  {
  }

  /** Recording the target is allowed once its credentials are cached. */
  lemma RecordedOk(s: World, st: Status)
    requires Pinned(s) && s.inst.value.status.target == NoTarget
    requires var was := s.inst.value.status;
             && st.slug == was.slug && st.source == was.source && st.activeSlug == was.slug != ""
             && (was.activeSlug == "" || was.activeSlug == was.slug)
    requires st.target != NoTarget && st.kcName != "" && (st.domain, st.tlsNs) in s.scopes
    requires CacheHolds(s, st.activeSlug, st.target)
    requires st.endpoint == NoEndpoint && !st.ready
    ensures StatusOk(s, st)
  {
  }

  lemma NowServing(s: World, t: World, ns: string, target: Target, revision: nat, tls: nat, oracle: Oracle, isPublic: string -> bool)
    requires t.objs == s.objs && t.cfg == s.cfg && InPlace(s, ns, target, revision, tls, isPublic)
    requires oracle.rolledOut && oracle.healthy && (oracle.issued.Some? ==> tls == oracle.issued.value)
    ensures Serving(t, ns, target, revision, oracle, isPublic)
  {
    assert Serving(s, ns, target, revision, oracle, isPublic);
    ServingSame(s, t, ns, target, revision, oracle, isPublic);
  }

  /** After leaving, only another target can have been recorded. */
  lemma LeftBehind(s: World, b: World, i: Instance, out: Instance, t: World, revision: nat, oracle: Oracle, isPublic: string -> bool)
    requires Framed(s, b) && out == i.(rv := out.rv, status := out.status) && Gone(out.status) && Departing(s, i)
    requires !Staying(s, i) && ByocOutcome(b, out, t, revision, oracle, isPublic)
    ensures t.inst.Some? && Left(i, t.inst.value)
  {
    hide Serving, Steady, Servable, Approachable, Prepared;
  }

  lemma LeftRecorded(s: World, i: Instance)
    requires !Staying(s, i)
    ensures i.status.kcName != ""
  {
  }

  lemma PlacedFacts(s: World, ns: string, t: Target, revision: nat, tls: nat, isPublic: string -> bool)
    requires InPlace(s, ns, t, revision, tls, isPublic)
    ensures var deploy, svc := RemoteKey(Deployment, t), RemoteKey(Service, t);
            deploy in s.objs && svc in s.objs && s.objs[svc].body.address != ""
  {
    assert Deployment in PODS;
  }

  lemma ByocUnreached(s: World, t: World, i: Instance, revision: nat, oracle: Oracle, isPublic: string -> bool)
    requires !Connectable(s, i) && Framed(s, t) && t.inst.Some?
    requires var u := t.inst.value;
             u == i.(rv := u.rv, status := u.status) && u.status.endpoint == NoEndpoint && !u.status.ready
    ensures ByocOutcome(s, i, t, revision, oracle, isPublic)
  {
  }

  /** The target was reached and recorded in `mid`; `t` is what serving it made of that. */
  lemma ByocReached(s: World, b: World, t: World, i: Instance, mid: Instance, revision: nat, oracle: Oracle, isPublic: string -> bool)
    requires Connectable(s, i) && Framed(s, b) && Framed(b, t) && b.objs == s.objs && t.cache == b.cache
    requires mid == i.(rv := mid.rv, status := mid.status)
    requires Published(mid.status) == Published(Recorded(i.status, i.clusterRef, SourceTarget(s, i.clusterRef), s.cfg))
    requires CacheOwned(b, i.status.slug) && b.cache[i.status.slug].data == SourceOf(s, i.clusterRef)
    requires t.inst.Some? && t.inst.value == mid.(rv := t.inst.value.rv, status := t.inst.value.status)
    requires var st, u := mid.status, t.inst.value.status;
             && ((u == Published(st) && Serving(t, st.tlsNs, st.target, revision, oracle, isPublic))
                 || (u.endpoint == NoEndpoint && !u.ready && Published(u) == Published(st)))
             && (Servable(b, st.tlsNs, st.target, oracle, isPublic) ==> u == Published(st))
             && (Approachable(b, st.tlsNs, st.target, oracle) ==> u == Published(st) || Prepared(b, t, st.tlsNs, st.target))
             && (Steady(b, st.tlsNs, st.target, revision, oracle, isPublic) ==> t.objs == b.objs)
    ensures ByocOutcome(s, i, t, revision, oracle, isPublic)
  {
    hide Serving, Steady, Servable, Approachable, Prepared;
    var st := mid.status;
    ServableSame(s, b, st.tlsNs, st.target, oracle, isPublic);
    if Prepared(b, t, st.tlsNs, st.target) {
      PreparedSame(s, b, t, t, st.tlsNs, st.target);
    }
  }

  lemma RegisteredFacts(s: World, oracle: Oracle)
    requires Registered(s, oracle)
    ensures s.inst.Some? && Followed(s, s.inst.value, oracle) && Connectable(s, s.inst.value)
    ensures Approachable(s, s.cfg.ns, SourceTarget(s, s.inst.value.clusterRef), oracle)
  {
  }

  lemma GoalMeans(s: World, oracle: Oracle)
    requires Promising(s, oracle)
    ensures var st, t := Goal(s), SourceTarget(s, s.inst.value.clusterRef);
            st.ready && st.target == t && st.tlsNs == s.cfg.ns && st.endpoint == Https(Host(t, s.cfg.domain))
  {
  }

  lemma ServedThere(s: World, t: World, revision: nat, oracle: Oracle, isPublic: string -> bool)
    requires Served(s, t, revision, oracle, isPublic)
    ensures t.inst.Some?
  {
  }

  lemma GoodAnswers(s: World, ns: string, t: Target, oracle: Oracle)
    requires Approachable(s, ns, t, oracle)
    ensures oracle.rolledOut && oracle.healthy
  {
  }

  /** What was read of the objects in between does not matter. */
  lemma OutcomeSame(s: World, b: World, i: Instance, revision: nat, oracle: Oracle, isPublic: string -> bool)
    requires Unchanged(s, b)
    ensures forall t :: ByocOutcome(b, i, t, revision, oracle, isPublic) ==> ByocOutcome(s, i, t, revision, oracle, isPublic)
  {
    hide ByocOutcome;
    forall t | ByocOutcome(b, i, t, revision, oracle, isPublic)
      ensures ByocOutcome(s, i, t, revision, oracle, isPublic)
    {
      ByocFramed(s, b, i, t, t, revision, oracle, isPublic);
    }
  }

  lemma InSyncRecorded(s: World, i: Instance)
    requires InSync(s, i) && Inv(s)
    ensures Pinned(s) && s.inst.value.status == i.status
    ensures i.status.target != NoTarget ==> (i.status.domain, i.status.tlsNs) in s.scopes
    ensures MayWithdraw(s, i) ==> Snapshot(s, i) && MayWrite(s, i, Withdrawn(i.status))
  {
  }

  lemma ObjectsFrame(s: World, t: World)
    requires OnlyObjects(s, t)
    ensures t.inst == s.inst && t.cache == s.cache && Framed(s, t)
  {
  }

  /** Publishing is allowed once the delivered certificate was seen on the public host. */
  lemma PublishOk(s: World, st: Status)
    requires s.inst.Some?
    requires var was := s.inst.value.status;
             st == was.(endpoint := st.endpoint, ready := st.ready)
    requires st.target != NoTarget && st.endpoint == Https(Host(st.target, st.domain)) && st.ready
    requires s.know.delivered.Some? && s.know.delivered.value.0 == st.target
    requires s.know.probed == Some((Host(st.target, st.domain), s.know.delivered.value.1))
    ensures StatusOk(s, st)
  {
  }

  lemma WrittenWithdraw(s: World, i: Instance)
    requires s.inst == Some(i) && i.rv <= s.clock
    ensures MayWithdraw(s, i)
  {
  }
}
