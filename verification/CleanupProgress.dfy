/**
 Measures of progress for the cleanup of one target: which objects are live, and whether the source
 Secret has been bound to its Certificate.
 */
module CleanupProgress {
  import opened Calls
  import opened Lifecycle

  const ALL_KINDS := {DnsEntry, Certificate, SourceSecret, LastValid, Service, Deployment, KeySecret, ProxyConfig, RemoteTls}

  const KIND_LIST := [DnsEntry, Certificate, SourceSecret, LastValid, Service, Deployment, KeySecret, ProxyConfig, RemoteTls]

  /** The name reserved for `kind` by the target recorded in `st`. */
  function KeyOf(kind: Kind, st: Status): Key {
    Key(kind, if IsRemote(kind) then BYOC_NAMESPACE else st.tlsNs, st.target)
  }

  // ---------------------------------------------------------------------------------------------
  // Progress of cleanup in calm runs
  // ---------------------------------------------------------------------------------------------

  ghost predicate Live(s: World, k: Key) {
    k in s.objs && !s.objs[k].deleting
  }

  /** The source Secret exists but does not carry its Certificate's UID yet. */
  ghost predicate Unbound(s: World, st: Status) {
    var src, cert := KeyOf(SourceSecret, st), KeyOf(Certificate, st);
    src in s.objs && Live(s, cert) && s.objs[src].body.certId != s.objs[cert].id
  }

  /** The source Secret can be attributed: by its live Certificate, or by the UID label it carries. */
  ghost predicate SourceOk(s: World, st: Status) {
    var src, cert := KeyOf(SourceSecret, st), KeyOf(Certificate, st);
    && (Live(s, cert) ==>
          && s.objs[cert].id != 0 && (s.objs[cert].body.certId == 0 || s.objs[cert].body.certId == s.objs[cert].id)
          && (src in s.objs ==> s.objs[src].body.certId == 0 || s.objs[src].body.certId == s.objs[cert].body.certId))
    && (src in s.objs && !Live(s, cert) ==> s.objs[src].body.certId != 0)
  }

  /** No foreign object occupies a reserved name. */
  ghost predicate Tidy(s: World, st: Status) {
    SourceOk(s, st) && forall kind :: KeyOf(kind, st) in s.objs ==> s.objs[KeyOf(kind, st)].owned
  }

  /** Nothing is waiting for a finalizer. */
  ghost predicate Settled(s: World, st: Status) {
    forall kind :: KeyOf(kind, st) in s.objs ==> !s.objs[KeyOf(kind, st)].deleting
  }

  /** Only objects, observations and the clock differ. */
  ghost predicate OnlyObjects(s: World, t: World) {
    s.identified <= t.identified && t == s.(clock := t.clock, objs := t.objs, know := t.know, identified := t.identified)
  }

  ghost predicate Unchanged(s: World, t: World) {
    OnlyObjects(s, t) && t.objs == s.objs
  }

  /** `t` is `s` after deleting some objects: gone, or marked for deletion. */
  ghost predicate Struck(s: World, t: World) {
    && OnlyObjects(s, t)
    && forall k :: k in t.objs ==>
         && k in s.objs
         && t.objs[k] == s.objs[k].(rv := t.objs[k].rv, deleting := t.objs[k].deleting)
         && (s.objs[k].deleting ==> t.objs[k].deleting)
  }

  /** Object `k` was deleted: gone, or marked for deletion. */
  ghost predicate StruckAt(s: World, t: World, k: Key) {
    && OnlyObjects(s, t) && k in s.objs
    && (|| t.objs == s.objs - {k}
        || (&& k in t.objs && t.objs == s.objs[k := t.objs[k]]
            && t.objs[k] == s.objs[k].(rv := t.objs[k].rv, deleting := true)))
  }

  /** Nothing, or a live object of ours, is under `k`. */
  ghost predicate Strikable(s: World, k: Key) {
    k in s.objs ==> s.objs[k].owned && !s.objs[k].deleting
  }

  /** The Certificate asks for its own UID on its output; nothing else changed. */
  ghost predicate Asked(s: World, t: World, cert: Key) {
    && OnlyObjects(s, t) && cert in s.objs && cert in t.objs
    && t.objs == s.objs[cert := t.objs[cert]]
    && t.objs[cert] == s.objs[cert].(rv := t.objs[cert].rv, body := t.objs[cert].body)
    && t.objs[cert].body.certId == t.objs[cert].id
  }

  /** The handshake state of a live Certificate whose source Secret carries no UID yet. */
  ghost predicate Unlabelled(s: World, cert: Key) {
    var src := cert.(kind := SourceSecret);
    && Owned(s, cert) && Live(s, cert) && s.objs[cert].id != 0
    && (s.objs[cert].body.certId == 0 || s.objs[cert].body.certId == s.objs[cert].id)
    && Owned(s, src) && s.objs[src].body.certId == 0
  }

  /** A source Secret of ours without Certificate UID, and no Certificate of ours that could label it. */
  ghost predicate Abandoned(s: World, cert: Key) {
    var src := cert.(kind := SourceSecret);
    Owned(s, src) && s.objs[src].body.certId == 0 && !Owned(s, cert)
  }

  /** Every reserved name is free or holds a live object of ours. */
  ghost predicate OursOrFree(s: World, st: Status) {
    forall kind :: Strikable(s, KeyOf(kind, st))
  }

  /** DNSEntry and Certificate are gone; what is left of the reserved names is ours and live. */
  ghost predicate IssuanceStopped(s: World, st: Status) {
    OursOrFree(s, st) && KeyOf(DnsEntry, st) !in s.objs && KeyOf(Certificate, st) !in s.objs
  }

  /** Once issuance has stopped, the source Secret is attributable unless abandoned. */
  lemma StoppedOrdered(s: World, st: Status, issuer: nat)
    requires IssuanceStopped(s, st)
    ensures !Abandoned(s, KeyOf(Certificate, st)) <==> Ordered(s, st, issuer)
    ensures Ordered(s, st, issuer) ==> Tidy(s, st) && Settled(s, st)
  {
    var src := KeyOf(SourceSecret, st);
    assert KeyOf(Certificate, st).(kind := SourceSecret) == src;
    assert forall kind :: Strikable(s, KeyOf(kind, st));
  }

  /** A pass loses no ground: objects were struck, the Certificate only when its source Secret is absent or carries its
      UID, and that Secret only when the Certificate is gone; or a live Certificate came to ask for its UID. */
  ghost predicate Yielded(s: World, t: World, cert: Key) {
    var src := cert.(kind := SourceSecret);
    || (&& Struck(s, t)
        && (Live(s, cert) && !Live(t, cert) ==> src in s.objs ==> s.objs[src].body.certId == s.objs[cert].id)
        && (cert in t.objs ==> Same(s, t, src)))
    || (Live(s, cert) && Asked(s, t, cert))
  }

  /** The next thing in order was done: the DNSEntry, then the Certificate with its label handshake, then the rest. */
  ghost predicate Step(s: World, t: World, st: Status) {
    var dns, cert := KeyOf(DnsEntry, st), KeyOf(Certificate, st);
    if dns in s.objs then !Live(t, dns)
    else if cert in s.objs then
      if Unbound(s, st) then cert in t.objs && t.objs[cert].body.certId == t.objs[cert].id else !Live(t, cert)
    else exists kind :: Live(s, KeyOf(kind, st)) && !Live(t, KeyOf(kind, st))
  }

  /** One pass came closer to an empty target. */
  ghost predicate Advanced(s: World, t: World, st: Status) {
    Yielded(s, t, KeyOf(Certificate, st)) && Step(s, t, st)
  }

  /** A live Certificate of ours whose source Secret is absent, unlabelled, or already bound to it. */
  ghost predicate Releasable(s: World, cert: Key) {
    var src := cert.(kind := SourceSecret);
    && Owned(s, cert) && Live(s, cert) && s.objs[cert].id != 0
    && (src in s.objs ==> Unlabelled(s, cert) || (s.objs[src].owned && s.objs[src].body.certId == s.objs[cert].id))
  }

  /** A deletion that still has a recorded target, whose cluster is the one that was recorded. */
  ghost predicate Deletable(s: World, st: Status) {
    && Pinned(s) && s.inst.value.deleting && s.inst.value.status == st && st.target != NoTarget
    && st.target.api in s.clusters && s.clusters[st.target.api] == st.target.cluster != ""
  }

  /** Names are not taken by others, and the source Secret is bound or can be. */
  ghost predicate Sortable(s: World, st: Status) {
    Tidy(s, st) && (Unbound(s, st) ==> s.cfg.issuer != 0)
  }

  /** A deletion that can complete: with credentials at hand as well. */
  ghost predicate Drainable(s: World, st: Status) {
    Deletable(s, st) && Sortable(s, st) && CacheHolds(s, st.activeSlug, st.target)
  }

  /** Progress of a loop that strikes the objects named by `keys` one after the other. */
  ghost predicate StruckUpTo(s: World, t: World, keys: seq<Key>, i: nat, pending: bool) {
    && Struck(s, t) && i <= |keys|
    && (forall j :: i <= j < |keys| ==> Same(s, t, keys[j]))
    && (!pending ==> Unchanged(s, t))
    && (pending ==> exists j :: 0 <= j < i && Live(s, keys[j]) && !Live(t, keys[j]))
  }

  ghost predicate Same(s: World, t: World, k: Key) {
    (k in t.objs <==> k in s.objs) && (k in t.objs ==> t.objs[k] == s.objs[k])
  }

  lemma StruckAtStruck(s: World, t: World, k: Key)
    requires StruckAt(s, t, k)
    ensures Struck(s, t) && !Live(t, k)
    ensures forall x :: x != k ==> Same(s, t, x)
  {
  }

  lemma StruckTrans(a: World, b: World, c: World)
    requires Struck(a, b) && Struck(b, c)
    ensures Struck(a, c)
  {
  }

  lemma StruckRefl(s: World)
    ensures Struck(s, s) && Unchanged(s, s)
  {
  }

  lemma StruckAfter(a: World, b: World, c: World, pending: bool)
    requires Struck(a, b) && Struck(b, c) && (!pending ==> Unchanged(a, b) && Unchanged(b, c))
    ensures Struck(a, c) && (!pending ==> Unchanged(a, c))
  {
    StruckTrans(a, b, c);
  }

  lemma StruckStep(s: World, b: World, t: World, keys: seq<Key>, i: nat, pending: bool, p: bool)
    requires i < |keys| && StruckUpTo(s, b, keys, i, pending) && Strikable(s, keys[i])
    requires forall x, y :: 0 <= x < y < |keys| ==> keys[x] != keys[y]
    requires p == (keys[i] in b.objs) && (if p then StruckAt(b, t, keys[i]) else Unchanged(b, t))
    ensures StruckUpTo(s, t, keys, i + 1, pending || p)
  {
    assert Same(s, b, keys[i]);
    if p {
      StruckAtStruck(b, t, keys[i]);
      StruckTrans(s, b, t);
      assert Live(s, keys[i]) && !Live(t, keys[i]);
      forall j | i + 1 <= j < |keys|
        ensures Same(s, t, keys[j])
      {
        assert Same(s, b, keys[j]) && keys[j] != keys[i];
      }
    } else if pending {
      var j :| 0 <= j < i && Live(s, keys[j]) && !Live(b, keys[j]);
      assert !Live(t, keys[j]);
    }
  }

  lemma StruckStart(s: World, keys: seq<Key>)
    ensures StruckUpTo(s, s, keys, 0, false)
  {
  }

  lemma StillStrikable(s: World, b: World, keys: seq<Key>, i: nat, pending: bool)
    requires i < |keys| && StruckUpTo(s, b, keys, i, pending) && Strikable(s, keys[i])
    ensures Strikable(b, keys[i]) && Same(s, b, keys[i])
  {
    assert Same(s, b, keys[i]);
  }

  lemma StruckEnd(s: World, t: World, keys: seq<Key>, pending: bool)
    requires StruckUpTo(s, t, keys, |keys|, pending)
    ensures Struck(s, t) && (!pending ==> Unchanged(s, t))
    ensures pending ==> exists k :: k in keys && Live(s, k) && !Live(t, k)
  {
  }

  /** Every reserved name is free or holds a live object of ours, and the source Secret is attributable:
      already bound to its Certificate, or the configured issuer is there to have it bound. */
  ghost predicate Ordered(s: World, st: Status, issuer: nat) {
    Tidy(s, st) && Settled(s, st) && (Unbound(s, st) ==> issuer != 0)
  }

  lemma OrderedFacts(s: World, st: Status, issuer: nat, kind: Kind)
    requires Ordered(s, st, issuer)
    ensures SourceOk(s, st) && Strikable(s, KeyOf(kind, st))
    ensures var cert := KeyOf(Certificate, st); cert in s.objs ==> Releasable(s, cert)
    ensures var cert := KeyOf(Certificate, st); cert in s.objs ==> (Unlabelled(s, cert) <==> Unbound(s, st))
    ensures var cert := KeyOf(Certificate, st); cert in s.objs && Unlabelled(s, cert) ==> issuer != 0
  {
    assert KeyOf(Certificate, st).(kind := SourceSecret) == KeyOf(SourceSecret, st);
  }

  lemma OrderedSame(s: World, t: World, st: Status, issuer: nat)
    requires Ordered(s, st, issuer) && Unchanged(s, t)
    ensures Ordered(t, st, issuer)
  {
  }

  lemma UnchangedTrans(a: World, b: World, c: World)
    requires Unchanged(a, b) && Unchanged(b, c)
    ensures Unchanged(a, c)
  {
  }

  lemma YieldedSame(s: World, b: World, t: World, cert: Key)
    requires Unchanged(s, b) && Yielded(b, t, cert)
    ensures Yielded(s, t, cert)
  {
  }

  lemma StepSame(s: World, b: World, t: World, st: Status)
    requires s.objs == b.objs && Step(b, t, st)
    ensures Step(s, t, st)
  {
    if KeyOf(DnsEntry, st) !in s.objs && KeyOf(Certificate, st) !in s.objs {
      var kind :| Live(b, KeyOf(kind, st)) && !Live(t, KeyOf(kind, st));
      assert Live(s, KeyOf(kind, st));
    }
  }

  /** With the Certificate gone, striking what is left loses no ground. */
  lemma LaterYields(s: World, b: World, t: World, cert: Key)
    requires Unchanged(s, b) && Struck(b, t) && cert !in s.objs
    ensures Yielded(s, t, cert)
  {
  }

  // ---------------------------------------------------------------------------------------------
  // What a calm pass over the managed TLS objects achieves
  // ---------------------------------------------------------------------------------------------

  /** The two local Secrets: an abandoned source Secret stops everything; otherwise live ones are struck. */
  ghost predicate SecretsPass(s: World, t: World, cert: Key, ok: bool) {
    var src, last := cert.(kind := SourceSecret), cert.(kind := LastValid);
    && Struck(s, t) && (ok ==> Unchanged(s, t))
    && (Abandoned(s, cert) ==> !ok && Unchanged(s, t))
    && (Strikable(s, src) && Strikable(s, last) && (src in s.objs ==> s.objs[src].body.certId != 0) && !ok ==>
          exists k :: k in [src, last] && Live(s, k) && !Live(t, k))
  }

  /** The Certificate: absent, asked to label its output, or struck. */
  ghost predicate CertificatePass(s: World, t: World, cert: Key, issuer: nat, ok: bool) {
    && (ok <==> cert !in s.objs) && (ok ==> Unchanged(s, t)) && Yielded(s, t, cert)
    && (Releasable(s, cert) && (Unlabelled(s, cert) ==> issuer != 0) ==>
          if Unlabelled(s, cert) then Asked(s, t, cert) else StruckAt(s, t, cert))
  }

  ghost predicate IssuancePass(s: World, t: World, st: Status, issuer: nat, ok: bool) {
    var cert := KeyOf(Certificate, st);
    && Yielded(s, t, cert) && (ok ==> Unchanged(s, t) && cert !in s.objs)
    && (Ordered(s, st, issuer) && KeyOf(DnsEntry, st) !in s.objs && !ok ==> Step(s, t, st))
    && (cert !in s.objs && Abandoned(s, cert) ==> !ok && Unchanged(s, t))
  }

  /** All of it. A pass loses no ground, and comes closer once everything is settled; once issuance has stopped, it fails
      without effect exactly when the source Secret is abandoned. */
  ghost predicate ManagedPass(s: World, t: World, st: Status, issuer: nat, ok: bool) {
    var cert := KeyOf(Certificate, st);
    && Yielded(s, t, cert) && (ok ==> Unchanged(s, t) && cert !in s.objs && KeyOf(DnsEntry, st) !in s.objs)
    && (Ordered(s, st, issuer) && !ok ==> Step(s, t, st))
    && (IssuanceStopped(s, st) ==> (!ok && Unchanged(s, t) <==> Abandoned(s, cert)))
  }

  lemma AtCertificate(s: World, t: World, st: Status, issuer: nat)
    requires CertificatePass(s, t, KeyOf(Certificate, st), issuer, false)
    ensures IssuancePass(s, t, st, issuer, false)
  {
    hide Yielded, Ordered;
    if Ordered(s, st, issuer) {
      OrderedFacts(s, st, issuer, Certificate);
    }
  }

  lemma AtSecrets(s: World, b: World, t: World, st: Status, issuer: nat, ok: bool)
    requires CertificatePass(s, b, KeyOf(Certificate, st), issuer, true) && SecretsPass(b, t, KeyOf(Certificate, st), ok)
    ensures IssuancePass(s, t, st, issuer, ok)
  {
    hide Yielded, Ordered, Struck;
    var cert := KeyOf(Certificate, st);
    LaterYields(s, b, t, cert);
    AbandonedSame(s, b, cert);
    if ok || Abandoned(s, cert) {
      UnchangedTrans(s, b, t);
    }
    if Ordered(s, st, issuer) && KeyOf(DnsEntry, st) !in s.objs && !ok {
      OrderedSame(s, b, st, issuer);
      OrderedFacts(b, st, issuer, SourceSecret);
      OrderedFacts(b, st, issuer, LastValid);
      GoneBound(b, st, issuer);
      var k :| k in [cert.(kind := SourceSecret), cert.(kind := LastValid)] && Live(b, k) && !Live(t, k);
      assert KeyOf(k.kind, st) == k && Live(s, k);
    }
  }

  lemma GoneBound(s: World, st: Status, issuer: nat)
    requires Ordered(s, st, issuer) && KeyOf(Certificate, st) !in s.objs
    ensures var src := KeyOf(SourceSecret, st); src in s.objs ==> s.objs[src].body.certId != 0
  {
  }

  /** The DNSEntry: absent, struck, or already waiting for its finalizer. */
  ghost predicate DnsPass(s: World, t: World, k: Key, ok: bool) {
    && (ok <==> k !in s.objs) && (Unchanged(s, t) || (!ok && StruckAt(s, t, k)))
    && (k in s.objs && Strikable(s, k) ==> StruckAt(s, t, k))
  }

  lemma AtDns(s: World, t: World, st: Status, issuer: nat)
    requires DnsPass(s, t, KeyOf(DnsEntry, st), false)
    ensures ManagedPass(s, t, st, issuer, false)
  {
    var dns := KeyOf(DnsEntry, st);
    if StruckAt(s, t, dns) {
      StruckAtStruck(s, t, dns);
      assert Same(s, t, KeyOf(Certificate, st)) && Same(s, t, KeyOf(SourceSecret, st));
    }
    if Ordered(s, st, issuer) {
      OrderedFacts(s, st, issuer, DnsEntry);
    }
  }

  lemma AtIssuance(s: World, b: World, t: World, st: Status, issuer: nat, ok: bool)
    requires DnsPass(s, b, KeyOf(DnsEntry, st), true) && IssuancePass(b, t, st, issuer, ok)
    ensures ManagedPass(s, t, st, issuer, ok)
  {
    hide Yielded, StruckAt, Ordered, Abandoned, Step, Struck;
    var cert := KeyOf(Certificate, st);
    YieldedSame(s, b, t, cert);
    if ok {
      UnchangedTrans(s, b, t);
    }
    if Ordered(s, st, issuer) && !ok {
      OrderedSame(s, b, st, issuer);
      StepSame(s, b, t, st);
    }
    if IssuanceStopped(s, st) {
      StoppedOrdered(s, st, issuer);
      AbandonedSame(s, b, cert);
      if Abandoned(s, cert) {
        UnchangedTrans(s, b, t);
      } else if !ok {
        StepChanges(s, t, st);
      }
    }
  }

  lemma AbandonedSame(s: World, t: World, cert: Key)
    requires s.objs == t.objs
    ensures Abandoned(s, cert) <==> Abandoned(t, cert)
  {
  }

  lemma StepChanges(s: World, t: World, st: Status)
    requires Step(s, t, st) && KeyOf(DnsEntry, st) !in s.objs && KeyOf(Certificate, st) !in s.objs
    ensures !Unchanged(s, t)
  {
  }

  lemma RemoteAdvances(s: World, b: World, t: World, st: Status)
    requires Unchanged(s, b) && Struck(b, t) && KeyOf(Certificate, st) !in s.objs && KeyOf(DnsEntry, st) !in s.objs
    requires exists kind :: IsRemote(kind) && Live(b, RemoteKey(kind, st.target)) && !Live(t, RemoteKey(kind, st.target))
    ensures Advanced(s, t, st)
  {
    LaterYields(s, b, t, KeyOf(Certificate, st));
    var kind :| IsRemote(kind) && Live(b, RemoteKey(kind, st.target)) && !Live(t, RemoteKey(kind, st.target));
    assert KeyOf(kind, st) == RemoteKey(kind, st.target) && Live(s, KeyOf(kind, st));
  }

  // ---------------------------------------------------------------------------------------------
  // What stays in order
  // ---------------------------------------------------------------------------------------------

  /** Issuance cannot outrun cleanup: the Certificate has asked for its UID, or it and its source Secret are live, so that
      the label handshake comes first. */
  ghost predicate IssueSafe(s: World, st: Status) {
    var src, cert := KeyOf(SourceSecret, st), KeyOf(Certificate, st);
    cert in s.objs ==>
      || s.objs[cert].body.certId == s.objs[cert].id != 0
      || (Live(s, cert) && Live(s, src))
  }

  lemma YieldedSortable(s: World, t: World, st: Status)
    requires Sortable(s, st) && Yielded(s, t, KeyOf(Certificate, st))
    ensures Sortable(t, st)
  {
    assert KeyOf(Certificate, st).(kind := SourceSecret) == KeyOf(SourceSecret, st);
    assert forall kind :: KeyOf(kind, st) in t.objs ==> KeyOf(kind, st) in s.objs && t.objs[KeyOf(kind, st)].owned == s.objs[KeyOf(kind, st)].owned;
  }

  lemma YieldedSafe(s: World, t: World, st: Status)
    requires Sortable(s, st) && IssueSafe(s, st) && Yielded(s, t, KeyOf(Certificate, st))
    ensures IssueSafe(t, st)
  {
    assert KeyOf(Certificate, st).(kind := SourceSecret) == KeyOf(SourceSecret, st);
  }

  // ---------------------------------------------------------------------------------------------
  // The measure
  // ---------------------------------------------------------------------------------------------

  /** Where the Certificate is: going or gone, ready to go, or in need of the label handshake. */
  ghost function Stage(s: World, st: Status): nat {
    if !Live(s, KeyOf(Certificate, st)) then 0 else if Unbound(s, st) then 2 else 1
  }

  /** The other kinds, apart from the DNSEntry, that are live. */
  ghost function Rest(s: World, st: Status): set<Kind> {
    set kind | kind in ALL_KINDS && kind != DnsEntry && kind != Certificate && Live(s, KeyOf(kind, st))
  }

  /** Compared with a settled `s`, the passes since have done the next thing in order and lost no ground. */
  ghost predicate Better(s: World, t: World, st: Status) {
    var dns, cert := KeyOf(DnsEntry, st), KeyOf(Certificate, st);
    && (forall kind :: Live(t, KeyOf(kind, st)) ==> Live(s, KeyOf(kind, st)))
    && (cert in t.objs ==> cert in s.objs) && (Unbound(t, st) ==> Unbound(s, st))
    && if Live(s, dns) then !Live(t, dns)
       else if Live(s, cert) then
         if Unbound(s, st) then (cert in t.objs ==> t.objs[cert].body.certId == t.objs[cert].id) || !Live(t, cert)
         else !Live(t, cert)
       else exists kind :: Live(s, KeyOf(kind, st)) && !Live(t, KeyOf(kind, st))
  }

  lemma AdvancedBetter(s: World, t: World, st: Status)
    requires Settled(s, st) && Advanced(s, t, st)
    ensures Better(s, t, st)
  {
    assert KeyOf(Certificate, st).(kind := SourceSecret) == KeyOf(SourceSecret, st);
    if KeyOf(DnsEntry, st) !in s.objs && KeyOf(Certificate, st) !in s.objs {
      var kind :| Live(s, KeyOf(kind, st)) && !Live(t, KeyOf(kind, st));
    }
  }

  lemma BetterYields(s: World, t: World, u: World, st: Status)
    requires Better(s, t, st) && Yielded(t, u, KeyOf(Certificate, st))
    ensures Better(s, u, st)
  {
    assert KeyOf(Certificate, st).(kind := SourceSecret) == KeyOf(SourceSecret, st);
    assert forall k :: Live(u, k) ==> Live(t, k);
    if !Live(s, KeyOf(DnsEntry, st)) && !Live(s, KeyOf(Certificate, st)) {
      var kind :| Live(s, KeyOf(kind, st)) && !Live(t, KeyOf(kind, st));
      assert !Live(u, KeyOf(kind, st));
    }
  }

  /** Other controllers went on: objects waiting for finalizers may have gone, and the certificate controller may have
      issued, but only while the Certificate was there. */
  ghost predicate Resumed(s: World, t: World, st: Status) {
    var cert := KeyOf(Certificate, st);
    && (Live(t, KeyOf(DnsEntry, st)) ==> Live(s, KeyOf(DnsEntry, st)))
    && (cert in t.objs ==> cert in s.objs && t.objs[cert] == s.objs[cert])
    && (Unbound(t, st) ==> Unbound(s, st))
    && (cert !in s.objs ==> forall kind :: Live(t, KeyOf(kind, st)) ==> Live(s, KeyOf(kind, st)))
  }

  /** And they caught up: a Certificate's request for its UID was answered. */
  ghost predicate CaughtUp(s: World, t: World, st: Status) {
    var cert := KeyOf(Certificate, st);
    Resumed(s, t, st) && (cert in t.objs && t.objs[cert].body.certId == t.objs[cert].id ==> !Unbound(t, st))
  }

  lemma ResumedTrans(a: World, b: World, c: World, st: Status)
    requires Resumed(a, b, st) && Resumed(b, c, st)
    ensures Resumed(a, c, st)
  {
  }

  /** A round of passes, followed by the other controllers catching up, shrinks the measure lexicographically: the
      DNSEntry, then the stage of the Certificate, then the rest. */
  lemma RoundShrinks(s: World, t: World, u: World, st: Status)
    requires Settled(s, st) && Better(s, t, st) && CaughtUp(t, u, st)
    ensures var dns := KeyOf(DnsEntry, st);
            || (Live(s, dns) && !Live(u, dns))
            || (&& Live(s, dns) == Live(u, dns)
                && (Stage(u, st) < Stage(s, st) || (Stage(u, st) == Stage(s, st) && Rest(u, st) < Rest(s, st))))
  {
    var dns, cert := KeyOf(DnsEntry, st), KeyOf(Certificate, st);
    if !Live(s, dns) && !Live(s, cert) {
      assert cert !in t.objs;
      var kind :| Live(s, KeyOf(kind, st)) && !Live(t, KeyOf(kind, st));
      assert kind in Rest(s, st) && kind !in Rest(u, st);
      assert forall x :: Live(u, KeyOf(x, st)) ==> Live(s, KeyOf(x, st));
    }
  }

  // ---------------------------------------------------------------------------------------------
  // Passes over a whole target
  // ---------------------------------------------------------------------------------------------

  /** The kubeconfig leads to the recorded cluster. */
  predicate Reaches(s: World, kc: Kubeconfig, target: Target) {
    kc.Kubeconfig? && kc.api in s.clusters && s.clusters[kc.api] != "" && target == Target(kc.api, s.clusters[kc.api])
  }

  /** The cached credentials lead there. */
  predicate CacheReaches(s: World, st: Status) {
    CacheOwned(s, st.activeSlug) && s.cache[st.activeSlug].data.Some? && Reaches(s, s.cache[st.activeSlug].data.value, st.target)
  }

  /** The remote objects: all gone, or struck as far as the cluster can be reached and nothing foreign is in the way. */
  ghost predicate RemotePass(s: World, t: World, target: Target, reach: bool, ok: bool) {
    && Struck(s, t) && (ok ==> Unchanged(s, t))
    && (reach && (forall kind :: IsRemote(kind) ==> Strikable(s, RemoteKey(kind, target))) && !ok ==>
          exists kind :: IsRemote(kind) && Live(s, RemoteKey(kind, target)) && !Live(t, RemoteKey(kind, target)))
  }

  /** A pass over the whole target: nothing was left, or no ground was lost, and with everything settled and the
      cluster in reach it came closer. */
  ghost predicate TargetPass(s: World, t: World, st: Status, reach: bool, ok: bool) {
    if ok then Unchanged(s, t)
    else Yielded(s, t, KeyOf(Certificate, st)) && (Ordered(s, st, s.cfg.issuer) && reach ==> Step(s, t, st))
  }

  lemma NoRemotePass(s: World, t: World, target: Target)
    requires Unchanged(s, t)
    ensures RemotePass(s, t, target, false, false)
  {
  }

  lemma RemotePassed(s: World, t: World, target: Target)
    requires RemotePass(s, t, target, true, true) || RemotePass(s, t, target, false, true)
    ensures Unchanged(s, t)
  {
  }

  lemma RemotePassAfter(s: World, b: World, t: World, target: Target, ok: bool)
    requires Unchanged(s, b) && RemotePass(b, t, target, true, ok)
    ensures RemotePass(s, t, target, true, ok)
  {
    assert Struck(s, t);
    if (forall kind :: IsRemote(kind) ==> Strikable(s, RemoteKey(kind, target))) && !ok {
      assert forall kind :: IsRemote(kind) ==> Strikable(b, RemoteKey(kind, target));
      var kind :| IsRemote(kind) && Live(b, RemoteKey(kind, target)) && !Live(t, RemoteKey(kind, target));
      assert Live(s, RemoteKey(kind, target));
    }
  }

  lemma AtRemoteTls(s: World, a: World, b: World, t: World, target: Target, ok: bool)
    requires Unchanged(s, a) && RemotePass(a, b, target, true, true)
    requires var k := RemoteKey(RemoteTls, target);
             && Struck(b, t) && (ok <==> k !in b.objs) && (ok ==> Unchanged(b, t))
             && (k in b.objs && Strikable(b, k) ==> StruckAt(b, t, k))
    ensures RemotePass(s, t, target, true, ok)
  {
    var k := RemoteKey(RemoteTls, target);
    UnchangedTrans(s, a, b);
    if Strikable(s, k) && !ok {
      StruckAtStruck(b, t, k);
      assert IsRemote(RemoteTls) && Live(s, RemoteKey(RemoteTls, target)) && !Live(t, RemoteKey(RemoteTls, target));
    }
  }

  lemma AtManaged(s: World, t: World, st: Status, reach: bool)
    requires ManagedPass(s, t, st, s.cfg.issuer, false)
    ensures TargetPass(s, t, st, reach, false)
  {
  }

  lemma AtRemote(s: World, b: World, t: World, st: Status, reach: bool, ok: bool)
    requires ManagedPass(s, b, st, s.cfg.issuer, true) && RemotePass(b, t, st.target, reach, ok)
    ensures TargetPass(s, t, st, reach, ok)
  {
    hide Yielded, Struck, Step, Ordered, IssuanceStopped, Abandoned;
    LaterYields(s, b, t, KeyOf(Certificate, st));
    if ok {
      UnchangedTrans(s, b, t);
    } else if Ordered(s, st, s.cfg.issuer) && reach {
      forall kind | IsRemote(kind)
        ensures Strikable(b, RemoteKey(kind, st.target))
      {
        OrderedFacts(s, st, s.cfg.issuer, kind);
        assert KeyOf(kind, st) == RemoteKey(kind, st.target);
      }
      RemoteAdvances(s, b, t, st);
    }
  }

  /** Observations do not matter. */
  lemma PassFramed(s: World, b: World, t: World, u: World, st: Status, reach: bool)
    requires b == s.(know := b.know) && u == t.(know := u.know) && TargetPass(b, t, st, reach, false)
    ensures TargetPass(s, u, st, reach, false)
  {
    assert Ordered(s, st, s.cfg.issuer) == Ordered(b, st, b.cfg.issuer);
    if Step(b, t, st) {
      StepFramed(s, b, t, u, st);
    }
  }

  lemma StepFramed(s: World, b: World, t: World, u: World, st: Status)
    requires s.objs == b.objs && t.objs == u.objs && Step(b, t, st)
    ensures Step(s, u, st)
  {
    if KeyOf(DnsEntry, st) !in s.objs && KeyOf(Certificate, st) !in s.objs {
      var kind :| Live(b, KeyOf(kind, st)) && !Live(t, KeyOf(kind, st));
      assert Live(s, KeyOf(kind, st)) && !Live(u, KeyOf(kind, st));
    }
  }

  /** The same names are reserved. */
  predicate SameNames(a: Status, b: Status) {
    a.target == b.target && a.tlsNs == b.tlsNs
  }

  /** Neither does a status write that keeps the names. */
  lemma PassMoved(s: World, b: World, t: World, st: Status, u: Status, reach: bool)
    requires b == s.(clock := b.clock, inst := b.inst) && TargetPass(b, t, u, reach, false) && SameNames(st, u)
    ensures TargetPass(s.(inst := t.inst), t, st, reach, false) && t.inst == b.inst
  {
    var c := s.(inst := t.inst);
    assert forall kind :: KeyOf(kind, st) == KeyOf(kind, u);
    assert Ordered(c, st, c.cfg.issuer) ==> Ordered(b, u, b.cfg.issuer);
    if Step(b, t, u) {
      StepNamed(b, t, u, st);
      StepFramed(c, b, t, t, st);
    }
  }

  lemma StepNamed(s: World, t: World, st: Status, u: Status)
    requires Step(s, t, st) && SameNames(st, u)
    ensures Step(s, t, u)
  {
    assert forall kind :: KeyOf(kind, st) == KeyOf(kind, u);
    if KeyOf(DnsEntry, st) !in s.objs && KeyOf(Certificate, st) !in s.objs {
      var kind :| Live(s, KeyOf(kind, st)) && !Live(t, KeyOf(kind, st));
      assert Live(s, KeyOf(kind, u)) && !Live(t, KeyOf(kind, u));
    }
  }

  /** A pass that did not finish leaves everything in order. */
  lemma PassInOrder(s: World, t: World, st: Status, reach: bool)
    requires TargetPass(s, t, st, reach, false) && Sortable(s, st) && IssueSafe(s, st)
    ensures Sortable(t, st) && IssueSafe(t, st) && OnlyObjects(s, t)
  {
    YieldedSortable(s, t, st);
    YieldedSafe(s, t, st);
  }

  /** The first pass over a settled target does the next thing in order. */
  lemma FirstPass(s: World, t: World, st: Status)
    requires TargetPass(s, t, st, true, false) && Sortable(s, st) && Settled(s, st)
    ensures Better(s, t, st)
  {
    AdvancedBetter(s, t, st);
  }

  /** Further passes lose none of it. */
  lemma LaterPass(s: World, t: World, u: World, st: Status, reach: bool)
    requires Better(s, t, st) && TargetPass(t, u, st, reach, false)
    ensures Better(s, u, st)
  {
    BetterYields(s, t, u, st);
  }

  lemma SettledSortable(s: World, t: World, st: Status)
    requires Sortable(s, st) && Tidy(t, st) && t.cfg == s.cfg && CaughtUp(s, t, st)
    ensures Sortable(t, st)
  {
  }

  lemma DrainableReaches(s: World, st: Status)
    requires Inv(s) && Drainable(s, st)
    ensures CacheReaches(s, st)
  {
  }

  /** A deletion whose protected credentials are gone while the target is still recorded. */
  predicate Stuck(s: World) {
    && Pinned(s) && s.inst.value.deleting && s.inst.value.status.target != NoTarget
    && !CacheOwned(s, s.inst.value.status.activeSlug)
  }

  /** All else being in order, a deletion can complete exactly when it is not stuck. */
  lemma DrainableExactly(s: World, st: Status)
    requires Inv(s) && Deletable(s, st) && Sortable(s, st)
    ensures Drainable(s, st) <==> !Stuck(s)
  {
  }

  /** Once issuance has stopped, a deletion with credentials can complete exactly when no Secret is abandoned. */
  lemma StoppedDrainable(s: World, st: Status)
    requires Deletable(s, st) && CacheHolds(s, st.activeSlug, st.target) && IssuanceStopped(s, st)
    ensures !Abandoned(s, KeyOf(Certificate, st)) ==> Drainable(s, st) && Settled(s, st)
    ensures KeyOf(Certificate, st) !in s.objs
  {
    StoppedOrdered(s, st, s.cfg.issuer);
  }

  /** Some deleted objects were removed for good. */
  ghost predicate Swept(s: World, t: World) {
    && (forall k :: k in t.objs ==> k in s.objs && t.objs[k] == s.objs[k])
    && (forall k :: k in s.objs && k !in t.objs ==> s.objs[k].deleting)
  }

  lemma SweptRefl(s: World)
    ensures Swept(s, s)
  {
  }

  /** The certificate controller issued, any number of times, with the labels its Certificate asks for. */
  ghost predicate Issued(s: World, t: World, st: Status) {
    var src, cert := KeyOf(SourceSecret, st), KeyOf(Certificate, st);
    && (forall k :: k != src ==> Same(s, t, k))
    && (|| Same(s, t, src)
        || (&& cert in s.objs && src in t.objs && t.objs[src].owned && t.objs[src].body.certId == s.objs[cert].body.certId
            && (src in s.objs ==> t.objs[src].deleting == s.objs[src].deleting)))
  }

  lemma IssuedTrans(a: World, b: World, c: World, st: Status)
    requires Issued(a, b, st) && Issued(b, c, st)
    ensures Issued(a, c, st)
  {
    assert Same(a, b, KeyOf(Certificate, st));
    forall k | k != KeyOf(SourceSecret, st)
      ensures Same(a, c, k)
    {
      assert Same(a, b, k) && Same(b, c, k);
    }
  }

  lemma NothingIssued(s: World, st: Status)
    ensures Issued(s, s, st)
  {
  }

  lemma IssuedCert(s: World, t: World, st: Status)
    requires Issued(s, t, st) && Tidy(s, st)
    ensures var cert := KeyOf(Certificate, st);
            cert in s.objs ==> cert in t.objs && t.objs[cert] == s.objs[cert] && s.objs[cert].owned
  {
    assert Same(s, t, KeyOf(Certificate, st));
  }

  lemma IssuedOnce(s: World, t: World, st: Status, o: Obj)
    requires var src, cert := KeyOf(SourceSecret, st), KeyOf(Certificate, st);
             && cert in s.objs && t.objs == s.objs[src := o] && o.owned && o.body.certId == s.objs[cert].body.certId
             && (src in s.objs ==> o.deleting == s.objs[src].deleting)
    ensures Issued(s, t, st)
  {
  }

  lemma NothingToLabel(s: World, t: World, st: Status)
    requires Resumed(s, t, st) && Tidy(t, st)
    requires var src, cert := KeyOf(SourceSecret, st), KeyOf(Certificate, st);
             !(src in t.objs && cert in t.objs && t.objs[src].body.certId != t.objs[cert].body.certId)
    ensures CaughtUp(s, t, st)
  {
  }

  /** As long as issuance cannot outrun cleanup, what is issued is attributable. */
  lemma IssuedInOrder(s: World, t: World, st: Status)
    requires Tidy(s, st) && IssueSafe(s, st) && Issued(s, t, st)
    ensures Tidy(t, st) && IssueSafe(t, st) && Resumed(s, t, st)
  {
    var src, cert := KeyOf(SourceSecret, st), KeyOf(Certificate, st);
    assert Same(s, t, cert) && Same(s, t, KeyOf(DnsEntry, st));
    forall kind | KeyOf(kind, st) in t.objs
      ensures t.objs[KeyOf(kind, st)].owned
    {
      assert KeyOf(kind, st) != src ==> Same(s, t, KeyOf(kind, st));
    }
    forall kind | KeyOf(kind, st) != src
      ensures Live(t, KeyOf(kind, st)) <==> Live(s, KeyOf(kind, st))
    {
      assert Same(s, t, KeyOf(kind, st));
    }
  }

  /** The certificate controller copied the requested UID to the source Secret. */
  lemma Relabelled(s: World, t: World, st: Status)
    requires Tidy(s, st) && Settled(s, st) && IssueSafe(s, st)
    requires var src, cert := KeyOf(SourceSecret, st), KeyOf(Certificate, st);
             && src in s.objs && cert in s.objs
             && (exists rv :: t.objs == s.objs[src := s.objs[src].(rv := rv, body := s.objs[src].body.(certId := s.objs[cert].body.certId))])
    ensures Tidy(t, st) && Settled(t, st) && IssueSafe(t, st) && CaughtUp(s, t, st)
  {
    var src := KeyOf(SourceSecret, st);
    assert t.objs[src] == s.objs[src].(rv := t.objs[src].rv, body := t.objs[src].body);
    assert forall k :: k != src ==> (k in t.objs <==> k in s.objs) && (k in t.objs ==> t.objs[k] == s.objs[k]);
    assert forall k :: Live(t, k) <==> Live(s, k);
  }

  lemma ResumedCaughtUp(a: World, b: World, c: World, st: Status)
    requires Resumed(a, b, st) && CaughtUp(b, c, st)
    ensures CaughtUp(a, c, st)
  {
    ResumedTrans(a, b, c, st);
  }

  /** Removing one more deleted object. */
  lemma SweptOne(s: World, b: World, t: World, k: Key)
    requires Swept(s, b) && k in b.objs && b.objs[k].deleting && t.objs == b.objs - {k}
    ensures Swept(s, t)
  {
  }

  lemma SweptSettled(t: World, st: Status, keys: seq<Key>)
    requires |keys| == |KIND_LIST| && forall j :: 0 <= j < |keys| ==> keys[j] == KeyOf(KIND_LIST[j], st)
    requires forall x :: 0 <= x < |keys| && keys[x] in t.objs ==> !t.objs[keys[x]].deleting
    ensures Settled(t, st)
  {
    forall kind | KeyOf(kind, st) in t.objs
      ensures !t.objs[KeyOf(kind, st)].deleting
    {
      var x := match kind
        case DnsEntry => 0 case Certificate => 1 case SourceSecret => 2 case LastValid => 3 case Service => 4
        case Deployment => 5 case KeySecret => 6 case ProxyConfig => 7 case RemoteTls => 8;
      assert KIND_LIST[x] == kind && keys[x] == KeyOf(kind, st);
    }
  }

  lemma SweptInOrder(s: World, t: World, st: Status)
    requires Tidy(s, st) && IssueSafe(s, st) && Swept(s, t)
    ensures Tidy(t, st) && IssueSafe(t, st) && Resumed(s, t, st)
  {
    assert forall k :: Live(t, k) <==> Live(s, k);
  }

  lemma DrainableFacts(s: World, st: Status)
    requires Drainable(s, st)
    ensures Deletable(s, st) && Sortable(s, st) && Tidy(s, st) && Pinned(s) && s.inst.value.deleting && s.inst.value.status == st
  {
  }

  lemma DrainableObjects(s: World, t: World, st: Status)
    requires Drainable(s, st) && OnlyObjects(s, t) && Sortable(t, st)
    ensures Drainable(t, st)
  {
  }
}
