/** What every history of the lifecycle guarantees, whichever calls failed and whoever interfered. */
module LifecycleTheorems {
  import opened Calls
  import opened Lifecycle
  import opened CleanupProgress
  import Runs

  /** The state before the `i`-th event. */
  ghost function At(start: World, h: seq<Event>, i: nat): World
    requires i <= |h|
  {
    Replay(start, h[..i])
  }

  lemma Whole(start: World, h: seq<Event>)
    ensures At(start, h, |h|) == Replay(start, h)
  {
    assert h[..|h|] == h;
  }

  lemma StepAt(start: World, h: seq<Event>, i: nat)
    requires Initial(start) && Legal(start, h) && i <= |h|
    ensures Inv(At(start, h, i))
    ensures i < |h| ==> Enabled(At(start, h, i), h[i]) && At(start, h, i + 1) == Apply(At(start, h, i), h[i])
  {
    Runs.Prefix(Apply, Enabled, start, h, i);
    Reachable(start, h[..i]);
  }

  predicate Boundary(e: Event) {
    e == Note(Begin) || e == Note(End) || e == Note(Crash)
  }

  /** From just after event `j` up to state `i`, within one reconcile, `fact` was known all along. */
  ghost predicate KnownSince(start: World, h: seq<Event>, j: nat, i: nat, fact: Knowledge -> bool)
    requires i <= |h|
  {
    && j < i
    && (forall x :: j < x < i ==> !Boundary(h[x]))
    && (forall x :: j < x <= i ==> fact(At(start, h, x).know))
  }

  /** A reconcile starts out knowing nothing, and everything it comes to know it learns from one event. */
  lemma {:induction false} Learned(
      start: World, h: seq<Event>, i: nat, fact: Knowledge -> bool, origin: (World, Event) -> bool)
    requires Initial(start) && Legal(start, h) && i <= |h|
    requires !fact(IDLE) && !fact(IDLE.(busy := true))
    requires forall s, e :: Enabled(s, e) && !fact(s.know) && fact(Apply(s, e).know) ==> origin(s, e)
    requires fact(At(start, h, i).know)
    ensures exists j: nat :: KnownSince(start, h, j, i, fact) && origin(At(start, h, j), h[j])
  {
    hide Enabled, Inv, Initial, At, Apply, Legal, Boundary;
    if i == 0 {
      StartsIdle(start, h);
    } else {
      StepAt(start, h, i - 1);
      var was, e := At(start, h, i - 1), h[i - 1];
      if fact(was.know) && !Boundary(e) {
        Learned(start, h, i - 1, fact, origin);
        var j: nat :| KnownSince(start, h, j, i - 1, fact) && origin(At(start, h, j), h[j]);
        assert KnownSince(start, h, j, i, fact);
      } else {
        BoundaryForgets(was, e);
        assert KnownSince(start, h, i - 1, i, fact);
      }
    }
  }

  lemma StartsIdle(start: World, h: seq<Event>)
    requires Initial(start)
    ensures At(start, h, 0).know == IDLE
  {
  }

  lemma InstFrame(s: World, e: InstEvent)
    ensures var t := ApplyInst(s, e);
            t.know == s.know && t.objs == s.objs && t.identified == s.identified && s.clock <= t.clock
  {
    var t := ApplyInst(s, e);
    assert t == s.(clock := t.clock, inst := t.inst, cache := t.cache);
  }

  lemma CacheFrame(s: World, e: CacheEvent)
    ensures var t := ApplyCache(s, e);
            t.know == s.know && t.objs == s.objs && t.inst == s.inst && s.clock <= t.clock
  {
  }

  lemma ObjectFrame(s: World, k: Key, e: ObjEvent)
    ensures var t := ApplyObj(s, k, e);
            t.know == s.know && t.identified == s.identified && t.inst == s.inst && t.cache == s.cache && s.clock <= t.clock
  {
  }

  lemma NoteFrame(s: World, e: NoteEvent)
    ensures ApplyNote(s, e) == s.(know := ApplyNote(s, e).know)
  {
  }

  lemma ScopeFrame(s: World, e: ScopeEvent)
    ensures var t := ApplyScope(s, e);
            t == s.(secrets := t.secrets, clusters := t.clusters, cfg := t.cfg, policy := t.policy)
  {
  }

  /** Each kind of event changes its own part of the world. */
  lemma Frame(s: World, e: Event)
    ensures var t := Apply(s, e);
            && (!e.Inst? ==> t.inst == s.inst) && (!e.Object? ==> t.objs == s.objs)
            && (!e.Cache? ==> t.identified == s.identified) && (!e.Note? ==> t.know == s.know)
            && s.clock <= t.clock
  {
    hide ApplyInst, ApplyCache, ApplyObj, ApplyNote, ApplyScope;
    match e
    case Inst(i) => InstFrame(s, i);
    case Cache(c) => CacheFrame(s, c);
    case Object(k, o) => ObjectFrame(s, k, o);
    case Note(n) => NoteFrame(s, n);
    case Scope(x) => ScopeFrame(s, x);
  }

  lemma NoteApplied(s: World, n: NoteEvent)
    ensures Apply(s, Note(n)).know == Learn(s, n)
  {
  }

  lemma NoteStep(s: World, n: NoteEvent)
    requires Enabled(s, Note(n))
    ensures Apply(s, Note(n)).know == Learn(s, n) && (n.Crash? || NoteEnabled(s, n))
  {
    hide Learn;
  }

  lemma BoundaryForgets(s: World, e: Event)
    ensures Boundary(e) ==> Apply(s, e).know == IDLE || Apply(s, e).know == IDLE.(busy := true)
  {
    hide ApplyInst, ApplyCache, ApplyObj, ApplyScope;
    Frame(s, e);
  }

  // ---------------------------------------------------------------------------------------------
  // Objects
  // ---------------------------------------------------------------------------------------------

  /** Everything we own belongs to the one target recorded in the status; with no instance or no recorded
      target there is nothing. */
  lemma NoOrphans(start: World, h: seq<Event>)
    requires Initial(start) && Legal(start, h)
    ensures var s := Replay(start, h);
            && (forall k :: Owned(s, k) ==> s.inst.Some? && Belongs(k, s.inst.value.status))
            && (s.inst.None? || s.inst.value.status.target == NoTarget ==> NoneOwned(s))
  {
    Reachable(start, h);
  }

  /** At any time everything we own lies in one target: one service namespace and one tenant cluster. */
  lemma OneTarget(start: World, h: seq<Event>, k: Key, l: Key)
    requires Initial(start) && Legal(start, h)
    requires Owned(Replay(start, h), k) && Owned(Replay(start, h), l)
    ensures k.target == l.target && (IsRemote(k.kind) == IsRemote(l.kind) ==> k.ns == l.ns)
  {
    Reachable(start, h);
  }

  ghost predicate SawOwned(s: World, e: Event, k: Key, id: nat) {
    e == Note(See(k)) && Owned(s, k) && s.objs[k].id == id
  }

  lemma SeenLearned(s: World, e: Event, k: Key, id: nat)
    requires Enabled(s, e) && (k, id) !in s.know.seen && (k, id) in Apply(s, e).know.seen
    ensures SawOwned(s, e, k, id)
  {
    hide Enabled, Apply;
    Frame(s, e);
    NoteStep(s, e.note);
  }

  /** The operator changes one key at a time. It creates only where nothing is, and updates or deletes only
      the very object it read, earlier in the same reconcile, carrying our mark. Of the credential caches it
      writes or deletes only one that is free or ours at that moment. */
  lemma ForeignFrame(start: World, h: seq<Event>, i: nat)
    requires Initial(start) && Legal(start, h) && i < |h| && OpEnabled(At(start, h, i), h[i])
    ensures !h[i].Object? ==> At(start, h, i + 1).objs == At(start, h, i).objs
    ensures h[i].Object? ==>
              var s, t, k := At(start, h, i), At(start, h, i + 1), h[i].key;
              && t.objs - {k} == s.objs - {k}
              && (h[i].obj.Create? ==> k !in s.objs)
              && (!h[i].obj.Create? ==>
                    k in s.objs && exists j: nat :: j < i && SawOwned(At(start, h, j), h[j], k, s.objs[k].id)
                                                    && forall x :: j < x < i ==> !Boundary(h[x]))
    ensures CacheFramed(At(start, h, i), h[i], At(start, h, i + 1))
  {
    hide At, Legal, Initial, Inv, Enabled, Apply, CacheFramed;
    StepAt(start, h, i);
    OpTouches(At(start, h, i), h[i]);
    OpCaches(At(start, h, i), h[i]);
    if h[i].Object? && !h[i].obj.Create? {
      var k := h[i].key;
      LastSight(start, h, i, k, At(start, h, i).objs[k].id);
    }
  }

  /** Only the cache named by a cache write changes, and it was free or ours. */
  ghost predicate CacheFramed(s: World, e: Event, t: World) {
    if e.Cache? && (e.cache.PutCache? || e.cache.DropCache?)
    then t.cache - {e.cache.slug} == s.cache - {e.cache.slug} && (e.cache.slug in s.cache ==> s.cache[e.cache.slug].owned)
    else t.cache == s.cache
  }

  lemma OpCaches(s: World, e: Event)
    requires OpEnabled(s, e)
    ensures CacheFramed(s, e, Apply(s, e))
  {
    hide InstEnabled, ObjEnabled, NoteEnabled, ApplyObj, ApplyNote, ApplyScope;
    match e
    case Inst(i) => InstCaches(s, i);
    case Cache(c) => assert c.PutCache? || c.DropCache? ==> ApplyCache(s, c).cache - {c.slug} == s.cache - {c.slug};
    case Object(k, o) => ObjectFrame(s, k, o);
    case Note(n) => NoteFrame(s, n);
    case Scope(x) =>
  }

  lemma InstCaches(s: World, e: InstEvent)
    requires InstEnabled(s, e)
    ensures ApplyInst(s, e).cache == s.cache
  {
  }

  lemma OpTouches(s: World, e: Event)
    requires OpEnabled(s, e)
    ensures !e.Object? ==> Apply(s, e).objs == s.objs
    ensures e.Object? ==>
              && Apply(s, e).objs - {e.key} == s.objs - {e.key}
              && (e.obj.Create? ==> e.key !in s.objs)
              && (!e.obj.Create? ==> e.key in s.objs && (e.key, s.objs[e.key].id) in s.know.seen)
  {
    hide InstEnabled, CacheEnabled, NoteEnabled, ApplyInst, ApplyCache, ApplyNote, ApplyScope;
    Frame(s, e);
  }

  lemma LastSight(start: World, h: seq<Event>, i: nat, k: Key, id: nat)
    requires Initial(start) && Legal(start, h) && i <= |h| && (k, id) in At(start, h, i).know.seen
    ensures exists j: nat :: j < i && SawOwned(At(start, h, j), h[j], k, id)
                             && forall x :: j < x < i ==> !Boundary(h[x])
  {
    hide At, Legal, Initial, Inv, Enabled, Apply, SawOwned, Boundary;
    var fact := (kn: Knowledge) => (k, id) in kn.seen;
    forall s, e | Enabled(s, e) && !fact(s.know) && fact(Apply(s, e).know)
      ensures SawOwned(s, e, k, id)
    {
      SeenLearned(s, e, k, id);
    }
    Learned(start, h, i, fact, (s, e) => SawOwned(s, e, k, id));
  }

  // ---------------------------------------------------------------------------------------------
  // DNS and the LoadBalancer
  // ---------------------------------------------------------------------------------------------

  ghost predicate SawAddress(s: World, e: Event, t: Target, address: string) {
    var k := RemoteKey(Service, t);
    && e == Note(SeeAddress(t, address))
    && k in s.objs && s.objs[k].body.address == address != ""
  }

  lemma AddressLearned(s: World, e: Event, t: Target, address: string)
    requires Enabled(s, e) && s.know.svc != Some((t, address)) && Apply(s, e).know.svc == Some((t, address))
    ensures SawAddress(s, e, t, address)
  {
    hide Enabled, Apply;
    Frame(s, e);
    NoteStep(s, e.note);
  }

  /** The Service of a target is deleted only when none of our DNSEntries points there, and a DNSEntry is
      created or changed only to an address its Service was seen to have, earlier in the same reconcile. */
  lemma DnsBeforeLoadBalancer(start: World, h: seq<Event>, i: nat)
    requires Initial(start) && Legal(start, h) && i < |h| && h[i].Object? && OpEnabled(At(start, h, i), h[i])
    ensures h[i].key.kind.Service? && h[i].obj.Delete? ==> NoDns(At(start, h, i), h[i].key.target)
    ensures h[i].key.kind.DnsEntry? && (h[i].obj.Create? || h[i].obj.Update?) ==>
              exists j: nat :: j < i && SawAddress(At(start, h, j), h[j], h[i].key.target, h[i].obj.body.address)
                               && forall x :: j < x < i ==> !Boundary(h[x])
  {
    hide At, Legal, Initial, Inv, Enabled, Apply, Boundary, SawAddress;
    if h[i].key.kind.DnsEntry? && (h[i].obj.Create? || h[i].obj.Update?) {
      var t, address := h[i].key.target, h[i].obj.body.address;
      var fact := (kn: Knowledge) => kn.svc == Some((t, address));
      forall s, e | Enabled(s, e) && !fact(s.know) && fact(Apply(s, e).know)
        ensures SawAddress(s, e, t, address)
      {
        AddressLearned(s, e, t, address);
      }
      Learned(start, h, i, fact, (s, e) => SawAddress(s, e, t, address));
    }
  }

  // ---------------------------------------------------------------------------------------------
  // The published endpoint
  // ---------------------------------------------------------------------------------------------

  ghost predicate DeliveredRevision(s: World, e: Event, t: Target, revision: nat) {
    var k := RemoteKey(RemoteTls, t);
    && e == Note(Delivered(t, revision))
    && Owned(s, k) && s.objs[k].body.revision == revision
  }

  lemma DeliveryLearned(s: World, e: Event, t: Target, revision: nat)
    requires Enabled(s, e)
    requires s.know.delivered != Some((t, revision)) && Apply(s, e).know.delivered == Some((t, revision))
    ensures DeliveredRevision(s, e, t, revision)
  {
    hide Enabled, Apply;
    Frame(s, e);
    NoteStep(s, e.note);
  }

  lemma ProbeLearned(s: World, e: Event, host: Host, revision: nat)
    requires s.know.probed != Some((host, revision)) && Apply(s, e).know.probed == Some((host, revision))
    ensures e == Note(Probe(host, revision))
  {
    hide Apply;
    Frame(s, e);
    NoteApplied(s, e.note);
  }

  predicate Delivery(e: Event) {
    e.Note? && e.note.Delivered?
  }

  lemma DeliveryResets(s: World, e: Event)
    requires Delivery(e)
    ensures Apply(s, e).know.probed == None && Apply(s, e).know.delivered == Some((e.note.target, e.note.revision))
  {
  }

  lemma PublishGuard(s: World, e: Event)
    requires Enabled(s, e) && e.Inst? && e.inst.WriteStatus? && e.inst.status.target != NoTarget
    requires e.inst.status.ready || e.inst.status.endpoint != NoEndpoint
    ensures var st := e.inst.status;
            && s.know.delivered.Some? && s.know.delivered.value.0 == st.target
            && s.know.probed == Some((Host(st.target, st.domain), s.know.delivered.value.1))
  {
  }

  lemma LastDelivery(start: World, h: seq<Event>, i: nat, t: Target, revision: nat) returns (j: nat)
    requires Initial(start) && Legal(start, h) && i <= |h|
    requires At(start, h, i).know.delivered == Some((t, revision))
    ensures j < i && DeliveredRevision(At(start, h, j), h[j], t, revision)
    ensures forall x :: j < x < i ==> !Boundary(h[x])
    ensures forall x :: j < x <= i ==> At(start, h, x).know.delivered == Some((t, revision))
  {
    hide At, Legal, Initial, Inv, Enabled, Apply, Boundary, DeliveredRevision;
    var fact := (kn: Knowledge) => kn.delivered == Some((t, revision));
    forall s, e | Enabled(s, e) && !fact(s.know) && fact(Apply(s, e).know)
      ensures DeliveredRevision(s, e, t, revision)
    {
      DeliveryLearned(s, e, t, revision);
    }
    Learned(start, h, i, fact, (s, e) => DeliveredRevision(s, e, t, revision));
    j :| KnownSince(start, h, j, i, fact) && DeliveredRevision(At(start, h, j), h[j], t, revision);
  }

  lemma LastProbe(start: World, h: seq<Event>, i: nat, host: Host, revision: nat) returns (j: nat)
    requires Initial(start) && Legal(start, h) && i <= |h|
    requires At(start, h, i).know.probed == Some((host, revision))
    ensures j < i && h[j] == Note(Probe(host, revision))
    ensures forall x :: j < x <= i ==> At(start, h, x).know.probed == Some((host, revision))
  {
    hide At, Legal, Initial, Inv, Enabled, Apply, Boundary;
    var fact := (kn: Knowledge) => kn.probed == Some((host, revision));
    forall s, e | Enabled(s, e) && !fact(s.know) && fact(Apply(s, e).know)
      ensures e == Note(Probe(host, revision))
    {
      ProbeLearned(s, e, host, revision);
    }
    Learned(start, h, i, fact, (s, e) => e == Note(Probe(host, revision)));
    j :| KnownSince(start, h, j, i, fact) && h[j] == Note(Probe(host, revision));
  }

  /** Every status write that publishes an HTTPS endpoint or Ready follows, in the same reconcile, first the
      delivery of a certificate to the recorded target and then a probe that saw that certificate on the
      recorded host, with no other delivery after it. */
  lemma ReadyFollowsProbe(start: World, h: seq<Event>, i: nat)
    requires Initial(start) && Legal(start, h) && i < |h|
    requires h[i].Inst? && h[i].inst.WriteStatus? && h[i].inst.status.target != NoTarget
    requires h[i].inst.status.ready || h[i].inst.status.endpoint != NoEndpoint
    ensures var st := h[i].inst.status;
            exists j: nat, l: nat, revision: nat ::
              && j < l < i
              && DeliveredRevision(At(start, h, j), h[j], st.target, revision)
              && h[l] == Note(Probe(Host(st.target, st.domain), revision))
              && (forall x :: j < x < i ==> !Boundary(h[x]))
              && (forall x :: j < x < i && Delivery(h[x]) ==> x < l && h[x].note == Delivered(st.target, revision))
  {
    hide At, Legal, Initial, Inv, Apply, Boundary;
    StepAt(start, h, i);
    var s, st := At(start, h, i), h[i].inst.status;
    PublishGuard(s, h[i]);
    var revision := s.know.delivered.value.1;
    var host := Host(st.target, st.domain);
    var j := LastDelivery(start, h, i, st.target, revision);
    var l := LastProbe(start, h, i, host, revision);
    forall x | l <= x < i && (x == j || Delivery(h[x]))
      ensures false
    {
      StepAt(start, h, x);
      DeliveryResets(At(start, h, x), h[x]);
    }
    forall x | j < x < i && Delivery(h[x])
      ensures x < l && h[x].note == Delivered(st.target, revision)
    {
      StepAt(start, h, x);
      DeliveryResets(At(start, h, x), h[x]);
    }
  }

  /** A persisted endpoint next to a recorded target is the HTTPS host derived from that target and its
      recorded domain, and Ready is never persisted without it. */
  lemma EndpointAgrees(start: World, h: seq<Event>)
    requires Initial(start) && Legal(start, h)
    ensures var s := Replay(start, h);
            s.inst.Some? ==>
              var st := s.inst.value.status;
              && (st.target != NoTarget && st.endpoint != NoEndpoint ==> st.endpoint == Https(Host(st.target, st.domain)))
              && (st.target != NoTarget && st.ready ==> st.endpoint == Https(Host(st.target, st.domain)))
              && (st.target == NoTarget ==> !st.endpoint.Https?)
  {
    Reachable(start, h);
  }

  // ---------------------------------------------------------------------------------------------
  // Cleanup credentials
  // ---------------------------------------------------------------------------------------------

  /** A client built from `kc` reached the cluster that `t` names. */
  ghost predicate Identified(s: World, e: Event, kc: Kubeconfig, t: Target) {
    && e == Cache(Identify(kc)) && kc.Kubeconfig?
    && kc.api in s.clusters && t == Target(kc.api, s.clusters[kc.api])
  }

  lemma IdentityLearned(s: World, e: Event, kc: Kubeconfig, t: Target)
    requires Enabled(s, e) && (kc, t) !in s.identified && (kc, t) in Apply(s, e).identified
    ensures Identified(s, e, kc, t)
  {
    hide InstEnabled, ObjEnabled, NoteEnabled, EnvInst, EnvObj, ApplyInst, ApplyObj, ApplyNote, ApplyScope;
    Frame(s, e);
  }

  lemma {:induction false} IdentifiedBefore(start: World, h: seq<Event>, i: nat, kc: Kubeconfig, t: Target)
    requires Initial(start) && Legal(start, h) && i <= |h| && (kc, t) in At(start, h, i).identified
    ensures exists j: nat :: j < i && Identified(At(start, h, j), h[j], kc, t)
  {
    hide Legal, Inv, Enabled, Apply, Identified;
    if i > 0 {
      StepAt(start, h, i - 1);
      if (kc, t) in At(start, h, i - 1).identified {
        IdentifiedBefore(start, h, i - 1, kc, t);
      } else {
        IdentityLearned(At(start, h, i - 1), h[i - 1], kc, t);
      }
    }
  }

  /** An instance that is not being deleted and has a recorded target also has, in a protected cache of its
      own, a kubeconfig that was once used to identify exactly that target. */
  lemma CredentialsAvailable(start: World, h: seq<Event>)
    requires Initial(start) && Legal(start, h)
    ensures var s := Replay(start, h);
            s.inst.Some? && s.inst.value.status.target != NoTarget && !s.inst.value.deleting ==>
              var st := s.inst.value.status;
              && CacheOwned(s, st.activeSlug) && s.cache[st.activeSlug].data.Some?
              && exists j: nat :: j < |h| && Identified(At(start, h, j), h[j], s.cache[st.activeSlug].data.value, st.target)
  {
    hide Legal, Initial, Apply, Identified;
    Reachable(start, h);
    Whole(start, h);
    var s := Replay(start, h);
    if s.inst.Some? && s.inst.value.status.target != NoTarget && !s.inst.value.deleting {
      var st := s.inst.value.status;
      IdentifiedBefore(start, h, |h|, s.cache[st.activeSlug].data.value, st.target);
    }
  }

  // ---------------------------------------------------------------------------------------------
  // Slugs
  // ---------------------------------------------------------------------------------------------

  /** `t` holds the same incarnation with the slugs it had, or one created after `s`, or none. */
  ghost predicate SlugsKept(s: World, t: World) {
    && s.clock <= t.clock
    && (t.inst.Some? && t.inst.value.uid <= s.clock ==>
          && s.inst.Some? && t.inst.value.uid == s.inst.value.uid
          && (s.inst.value.status.slug != "" ==> t.inst.value.status.slug == s.inst.value.status.slug)
          && (s.inst.value.status.activeSlug != "" ==> t.inst.value.status.activeSlug == s.inst.value.status.activeSlug))
  }

  lemma SlugStepInst(s: World, e: InstEvent)
    requires Inv(s) && (EnvInst(s, e) || InstEnabled(s, e))
    ensures SlugsKept(s, ApplyInst(s, e))
  {
    hide SameActive, RecordOk, ClearedActive, EndpointOk;
    InstFrame(s, e);
    if s.inst.Some? && ApplyInst(s, e).inst.Some? {
      var i, j := s.inst.value, ApplyInst(s, e).inst.value;
      assert i.uid == j.uid;
      assert i.status.slug != "" ==> j.status.slug == i.status.slug;
    }
  }

  lemma SlugStep(s: World, e: Event)
    requires Inv(s) && Enabled(s, e)
    ensures SlugsKept(s, Apply(s, e))
  {
    hide CacheEnabled, ObjEnabled, NoteEnabled, InstEnabled, EnvInst, EnvCache, EnvObj;
    hide ApplyInst, ApplyCache, ApplyObj, ApplyNote, ApplyScope;
    Frame(s, e);
    if e.Inst? {
      SlugStepInst(s, e.inst);
    }
  }

  lemma SlugTrans(a: World, b: World, c: World)
    requires SlugsKept(a, b) && SlugsKept(b, c)
    ensures SlugsKept(a, c)
  {
  }

  lemma {:induction false} SlugsKeptBetween(start: World, h: seq<Event>, i: nat, j: nat)
    requires Initial(start) && Legal(start, h) && i <= j <= |h|
    ensures SlugsKept(At(start, h, i), At(start, h, j))
  {
    hide At, Legal, Initial, Inv, Enabled, Apply, SlugsKept;
    if i == j {
      SlugsRefl(start, h, i);
    } else {
      SlugsKeptBetween(start, h, i, j - 1);
      StepAt(start, h, j - 1);
      SlugStep(At(start, h, j - 1), h[j - 1]);
      SlugTrans(At(start, h, i), At(start, h, j - 1), At(start, h, j));
    }
  }

  lemma SlugsRefl(start: World, h: seq<Event>, i: nat)
    requires Initial(start) && Legal(start, h) && i <= |h|
    ensures SlugsKept(At(start, h, i), At(start, h, i))
  {
    hide At, Legal, Initial, Apply;
    StepAt(start, h, i);
  }

  /** A persisted slug or active slug never changes while the same instance lives, the two agree whenever
      both are set, and an instance with another UID is a later one that began with neither. */
  lemma SlugWriteOnce(start: World, h: seq<Event>, i: nat, j: nat)
    requires Initial(start) && Legal(start, h) && i <= j <= |h|
    requires At(start, h, i).inst.Some? && At(start, h, j).inst.Some?
    ensures var a, b := At(start, h, i).inst.value, At(start, h, j).inst.value;
            && (b.status.slug != "" && b.status.activeSlug != "" ==> b.status.slug == b.status.activeSlug)
            && (a.uid == b.uid && a.status.slug != "" ==> b.status.slug == a.status.slug)
            && (a.uid == b.uid && a.status.activeSlug != "" ==> b.status.activeSlug == a.status.activeSlug)
            && (a.uid != b.uid ==>
                  exists x: nat :: i <= x < j && Reborn(start, h, x, b.uid))
  {
    hide At, Legal, Initial, Enabled, Apply, Reborn;
    StepAt(start, h, i);
    StepAt(start, h, j);
    SlugsKeptBetween(start, h, i, j);
    if At(start, h, i).inst.value.uid != At(start, h, j).inst.value.uid {
      BirthOf(start, h, i, j);
    }
  }

  /** Event `x` created the instance with this UID, blank. */
  ghost predicate Reborn(start: World, h: seq<Event>, x: nat, uid: nat)
    requires x < |h|
  {
    && h[x].Inst? && h[x].inst.Recreate?
    && At(start, h, x + 1).inst.Some? && At(start, h, x + 1).inst.value.uid == uid
    && At(start, h, x + 1).inst.value.status == BLANK
  }

  lemma BirthStep(s: World, e: Event)
    requires Enabled(s, e) && Apply(s, e).inst.Some?
    ensures || (s.inst.Some? && Apply(s, e).inst.value.uid == s.inst.value.uid)
            || (e.Inst? && e.inst.Recreate? && Apply(s, e).inst.value.status == BLANK)
  {
    hide CacheEnabled, ObjEnabled, NoteEnabled, EnvCache, EnvObj, ApplyCache, ApplyObj, ApplyNote, ApplyScope;
    Frame(s, e);
  }

  lemma {:induction false} BirthOf(start: World, h: seq<Event>, i: nat, j: nat)
    requires Initial(start) && Legal(start, h) && i <= j <= |h|
    requires At(start, h, j).inst.Some?
    requires At(start, h, i).inst.None? || At(start, h, i).inst.value.uid != At(start, h, j).inst.value.uid
    ensures exists x: nat :: i <= x < j && Reborn(start, h, x, At(start, h, j).inst.value.uid)
  {
    hide At, Legal, Initial, Inv, Enabled, Apply;
    StepAt(start, h, j - 1);
    var was := At(start, h, j - 1);
    BirthStep(was, h[j - 1]);
    if was.inst.Some? && was.inst.value.uid == At(start, h, j).inst.value.uid {
      BirthOf(start, h, i, j - 1);
    } else {
      assert Reborn(start, h, j - 1, At(start, h, j).inst.value.uid);
    }
  }

  // ---------------------------------------------------------------------------------------------
  // Abandoned source Secrets
  // ---------------------------------------------------------------------------------------------

  lemma AbandonedObject(s: World, k: Key, o: ObjEvent, cert: Key)
    requires EnvObj(s, k, o) || ObjEnabled(s, k, o)
    requires Abandoned(s, cert) && cert.kind.Certificate? && !(k == cert.(kind := SourceSecret) && o == EditObject(None))
    ensures Abandoned(ApplyObj(s, k, o), cert)
  {
    var src, t := cert.(kind := SourceSecret), ApplyObj(s, k, o);
    assert src.(kind := Certificate) == cert;
    assert k != src ==> (src in t.objs <==> src in s.objs) && (src in t.objs ==> t.objs[src] == s.objs[src]);
    assert k != cert ==> (cert in t.objs <==> cert in s.objs) && (cert in t.objs ==> t.objs[cert] == s.objs[cert]);
  }

  /** Neither the operator nor anybody else gives an abandoned source Secret a UID or a Certificate; it stays until
      somebody else removes it. */
  lemma AbandonedStep(s: World, e: Event, cert: Key)
    requires Enabled(s, e) && Abandoned(s, cert) && cert.kind.Certificate?
    requires e != Object(cert.(kind := SourceSecret), EditObject(None))
    ensures Abandoned(Apply(s, e), cert)
  {
    hide InstEnabled, CacheEnabled, NoteEnabled, ObjEnabled, EnvInst, EnvCache, EnvObj;
    hide ApplyInst, ApplyCache, ApplyNote, ApplyObj, ApplyScope;
    Frame(s, e);
    if e.Object? {
      AbandonedObject(s, e.key, e.obj, cert);
    }
  }

  /** For as long as nobody else removes the Secret the cleanup is not over: it stays abandoned, its target recorded
      and the finalizer in place. */
  lemma {:induction false} AbandonedForever(start: World, h: seq<Event>, i: nat, j: nat, cert: Key)
    requires Initial(start) && Legal(start, h) && i <= j <= |h| && cert.kind.Certificate?
    requires Abandoned(At(start, h, i), cert)
    requires forall x :: i <= x < j ==> h[x] != Object(cert.(kind := SourceSecret), EditObject(None))
    ensures Abandoned(At(start, h, j), cert)
    ensures Pinned(At(start, h, j)) && Belongs(cert.(kind := SourceSecret), At(start, h, j).inst.value.status)
  {
    hide At, Legal, Initial, Enabled, Apply;
    StepAt(start, h, j);
    if i < j {
      AbandonedForever(start, h, i, j - 1, cert);
      StepAt(start, h, j - 1);
      AbandonedStep(At(start, h, j - 1), h[j - 1], cert);
    }
  }

  lemma AbandonedByObject(s: World, k: Key, o: ObjEvent, cert: Key)
    requires EnvObj(s, k, o) || ObjEnabled(s, k, o)
    requires cert.kind.Certificate? && !Abandoned(s, cert) && Abandoned(ApplyObj(s, k, o), cert)
    ensures k == cert && Owned(s, cert) && Unattributed(s, cert.(kind := SourceSecret))
    ensures o == EditObject(None) || (o.Delete? && s.objs[cert].body.certId == 0)
  {
    var src, t := cert.(kind := SourceSecret), ApplyObj(s, k, o);
    assert src.(kind := Certificate) == cert;
    assert k != src ==> (src in t.objs <==> src in s.objs) && (src in t.objs ==> t.objs[src] == s.objs[src]);
  }

  /** How a source Secret comes to be abandoned: its Certificate goes while the Secret carries no UID, removed by
      others, for good or as its finalizer completes, or by the operator, and then it never asked for its UID. */
  lemma AbandonedCause(start: World, h: seq<Event>, i: nat, cert: Key)
    requires Initial(start) && Legal(start, h) && i < |h| && cert.kind.Certificate?
    requires !Abandoned(At(start, h, i), cert) && Abandoned(At(start, h, i + 1), cert)
    ensures var s := At(start, h, i);
            && Owned(s, cert) && Unattributed(s, cert.(kind := SourceSecret))
            && h[i].Object? && h[i].key == cert
            && (h[i].obj == EditObject(None) || (h[i].obj.Delete? && s.objs[cert].body.certId == 0))
  {
    hide At, Legal, Initial, Inv, ObjEnabled, EnvObj, InstEnabled, CacheEnabled, NoteEnabled, EnvInst, EnvCache;
    hide ApplyInst, ApplyCache, ApplyNote, ApplyObj, ApplyScope;
    StepAt(start, h, i);
    var s, e := At(start, h, i), h[i];
    Frame(s, e);
    if e.Object? {
      AbandonedByObject(s, e.key, e.obj, cert);
    }
  }

  /** The Certificate has asked for its UID, and no source Secret of ours is without one. */
  ghost predicate Labelled(s: World, cert: Key) {
    (Owned(s, cert) ==> s.objs[cert].body.certId != 0) && !Unattributed(s, cert.(kind := SourceSecret))
  }

  lemma LabelledObject(s: World, k: Key, o: ObjEvent, cert: Key)
    requires EnvObj(s, k, o) || ObjEnabled(s, k, o)
    requires cert.kind.Certificate? && Labelled(s, cert) && !(k == cert && o.Create?)
    ensures Labelled(ApplyObj(s, k, o), cert)
  {
    var src, t := cert.(kind := SourceSecret), ApplyObj(s, k, o);
    assert src.(kind := Certificate) == cert;
    assert k != src ==> (src in t.objs <==> src in s.objs) && (src in t.objs ==> t.objs[src] == s.objs[src]);
    assert k != cert ==> (cert in t.objs <==> cert in s.objs) && (cert in t.objs ==> t.objs[cert] == s.objs[cert]);
  }

  /** Once the Certificate has asked for its UID its Secret is never abandoned, whatever is issued, deleted or
      removed by anybody, as long as no new Certificate is requested. */
  lemma {:induction false} LabelledForever(start: World, h: seq<Event>, i: nat, j: nat, cert: Key)
    requires Initial(start) && Legal(start, h) && i <= j <= |h| && cert.kind.Certificate?
    requires Labelled(At(start, h, i), cert)
    requires forall x :: i <= x < j && h[x].Object? && h[x].key == cert ==> !h[x].obj.Create?
    ensures Labelled(At(start, h, j), cert) && !Abandoned(At(start, h, j), cert)
  {
    hide At, Legal, Initial, Inv, ObjEnabled, EnvObj, InstEnabled, CacheEnabled, NoteEnabled, EnvInst, EnvCache;
    hide ApplyInst, ApplyCache, ApplyNote, ApplyObj, ApplyScope;
    if i < j {
      LabelledForever(start, h, i, j - 1, cert);
      StepAt(start, h, j - 1);
      var s, e := At(start, h, j - 1), h[j - 1];
      Frame(s, e);
      if e.Object? {
        LabelledObject(s, e.key, e.obj, cert);
      }
    }
  }
}
