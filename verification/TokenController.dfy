/** The reconcile code of token requests, proved to take only the steps of Tokens. */
module TokenController {
  import opened Calls
  import opened Tokens
  import Auth
  import Runs

  /** Optimistic locking: a Secret is what it was, or carries a later resource version. */
  ghost predicate Versions(s: World, t: World) {
    && s.clock <= t.clock
    && forall n :: n in t.secrets ==> (n in s.secrets && t.secrets[n] == s.secrets[n]) || t.secrets[n].rv > s.clock
  }

  /** Between two calls of a reconcile no key is issued by anybody else either. */
  ghost predicate Rely(s: World, t: World) {
    t.used == s.used && Versions(s, t)
  }

  lemma EnvRely(s: World, e: Event)
    requires Inv(s) && EnvEnabled(s, e)
    ensures Rely(s, Apply(s, e))
  {
  }

  lemma RelyTrans(a: World, b: World, c: World)
    requires Rely(a, b) && Rely(b, c)
    ensures Rely(a, c)
  {
  }

  /** rotateTokenForTarget, on a copy of the Secret; `token` is what generateToken would return. */
  method RotateTokenForTarget(sec: Secret, inst: Option<Inst>, allowHosted: bool, slug: string, token: string)
    returns (ok: bool, changed: bool, out: Secret)
    ensures ok <==> !(inst.Some? && inst.value.byoc && inst.value.target != "" && inst.value.uid == 0)
    ensures ok ==> out == Rotated(sec, inst, allowHosted, slug, token) && (changed <==> out != sec)
  {
    out := sec;
    if inst.None? {
      return true, false, out;
    }
    var i := inst.value;
    var target := i.target;
    if i.byoc {
      if target == "" {
        return true, false, out;
      }
      if i.uid == 0 {
        return false, false, out;
      }
    } else {
      if !allowHosted {
        return true, false, out;
      }
      target := "";
    }
    var legacy := out.labels.instance == i.name && slug != "" && out.labels.slug == slug;
    if !i.byoc && out.binding.target == "" && out.binding.uid == 0 && legacy {
      if i.uid == 0 {
        return true, false, out;
      }
      out := out.(binding := out.binding.(uid := i.uid));
      return true, true, out;
    }
    if out.binding.target == target && out.binding.uid == i.uid {
      return true, false, out;
    }
    out := out.(key := token);
    out := out.(binding := out.binding.(target := target));
    out := out.(binding := out.binding.(uid := i.uid));
    return true, true, out;
  }

  /** applySecretMutations. */
  method ApplySecretMutations(sec: Secret, instance: string, slug: string, endpoint: string) returns (updated: bool, out: Secret)
    ensures out == sec.(url := endpoint, unavailable := false,
                        labels := sec.labels.(instance := instance, compatibility := OPENAI,
                                              slug := if slug != "" then slug else sec.labels.slug))
    ensures updated <==> out != sec
  {
    updated, out := false, sec;
    if out.unavailable {
      out, updated := out.(unavailable := false), true;
    }
    if out.labels.instance != instance {
      out, updated := out.(labels := out.labels.(instance := instance)), true;
    }
    if out.labels.compatibility != OPENAI {
      out, updated := out.(labels := out.labels.(compatibility := OPENAI)), true;
    }
    if slug != "" && out.labels.slug != slug {
      out, updated := out.(labels := out.labels.(slug := slug)), true;
    }
    if out.url != endpoint {
      out, updated := out.(url := endpoint), true;
    }
  }

  /** The part of invalidateTokenEndpoint that changes the Secret. */
  method WithdrawEndpoint(sec: Secret, inst: Option<Inst>, token: string) returns (changed: bool, out: Secret)
    requires inst.Some? ==> inst.value.uid != 0
    ensures out == Withdrawn(sec, inst, token) && (changed <==> out != sec)
  {
    var _, rotated, bound := RotateTokenForTarget(sec, inst, false, "", token);
    changed, out := rotated, bound;
    var pendingByoc := inst.Some? && inst.value.byoc && inst.value.target != "";
    if pendingByoc && out.labels.instance != inst.value.name {
      out, changed := out.(labels := out.labels.(instance := inst.value.name)), true;
    }
    if out.url != UNAVAILABLE_URL {
      out, changed := out.(url := UNAVAILABLE_URL), true;
    }
    if !out.unavailable {
      out, changed := out.(unavailable := true), true;
    }
  }

  /** The part of ensureSecret that changes the Secret. */
  method ServeEndpoint(sec: Secret, inst: Inst, slug: string, endpoint: string, token: string) returns (changed: bool, out: Secret)
    requires Issuable(inst, slug)
    ensures out == Serving(sec, inst, slug, endpoint, token) && (changed <==> out != sec)
  {
    var _, rotated, bound := RotateTokenForTarget(sec, Some(inst), true, slug, token);
    var updated;
    updated, out := ApplySecretMutations(bound, inst.name, slug, endpoint);
    changed := updated || rotated;
  }

  /** The slug the instance is served under: the policy's, if it is also the persisted one. */
  function CurrentSlug(inst: Inst): string {
    if inst.selection.None? || inst.slug != inst.selection.value.slug || inst.source != inst.selection.value.source
    then "" else inst.slug
  }

  predicate Eligible(inst: Inst, validUrl: string -> bool) {
    && CurrentSlug(inst) != "" && inst.endpoint != "" && inst.ready && !inst.deleting
    && (inst.byoc ==> inst.target != "" && validUrl(inst.endpoint))
  }

  function TokenName(n: Name): Name {
    Name(n.ns, n.id + "-token")
  }

  /** A live request with its finalizer in place. */
  ghost predicate Pending(s: World, n: Name) {
    n in s.requests && !s.requests[n].deleting && s.requests[n].finalizer && s.requests[n].uid != 0
  }

  /** The request's token Secret exists, live and with the label that createSecret puts on it. */
  ghost predicate Presentable(s: World, n: Name, r: Request) {
    var t := TokenName(n);
    t in s.secrets && Owns(r, s.secrets[t]) && !s.secrets[t].deleting && s.secrets[t].labels.request == r.name
  }

  ghost function Instance(s: World, n: Name): Option<Inst>
    requires n in s.requests
  {
    var at := Name(n.ns, s.requests[n].instanceName);
    if at in s.insts then Some(s.insts[at]) else None
  }

  /** Who is served: an instance under a slug that is both selected and persisted, Ready with an endpoint and not going
      away; in BYOC mode with a recorded target and a well-formed endpoint. */
  lemma EligibleExactly(inst: Inst, validUrl: string -> bool)
    ensures Eligible(inst, validUrl) <==>
              && inst.selection == Some(Selection(inst.slug, inst.source)) && inst.slug != ""
              && inst.endpoint != "" && inst.ready && !inst.deleting
              && (inst.byoc ==> inst.target != "" && validUrl(inst.endpoint))
    ensures Eligible(inst, validUrl) ==> CurrentSlug(inst) == inst.slug
  {
  }

  /** The key a Secret held was given out for this binding, or from before bindings for this very hosted instance. */
  predicate KeyStays(sec: Secret, inst: Inst) {
    || sec.binding == Binding(inst.uid, if inst.byoc then inst.target else "")
    || (!inst.byoc && sec.binding == Binding(0, "") && sec.labels.instance == inst.name && sec.labels.slug == inst.slug)
  }

  /** The Secret of a served instance: its endpoint, bound and labelled for it, with the key it had or a new one. */
  ghost predicate ServedSecret(was: Option<Secret>, now: Secret, r: Request, inst: Inst, token: string) {
    && now.url == inst.endpoint && !now.unavailable && now.opaqueType && now.owner == Some(Owner(r.uid, r.name))
    && now.binding == Binding(inst.uid, if inst.byoc then inst.target else "")
    && now.labels == Labels(inst.name, inst.slug, if was.Some? then was.value.labels.request else r.name, "openai")
    && now.key == (if was.Some? && KeyStays(was.value, inst) then was.value.key else token)
    && now.deleting == (was.Some? && was.value.deleting)
  }

  /** The Secret of an instance that cannot be served: unavailable; bound afresh only to a recorded BYOC target. */
  ghost predicate UnavailableSecret(was: Secret, now: Secret, inst: Option<Inst>, token: string) {
    && now.url == "https://unavailable.invalid" && now.unavailable
    && now.owner == was.owner && now.opaqueType == was.opaqueType && now.deleting == was.deleting
    && if inst.Some? && inst.value.byoc && inst.value.target != "" then
         var b := Binding(inst.value.uid, inst.value.target);
         && now.binding == b && now.key == (if was.binding == b then was.key else token)
         && now.labels == was.labels.(instance := inst.value.name)
       else now.binding == was.binding && now.key == was.key && now.labels == was.labels
  }

  ghost function SecretOf(s: World, n: Name): Option<Secret> {
    if n in s.secrets then Some(s.secrets[n]) else None
  }

  /** What a pass over a live request achieves: its Secret serves the instance or is withdrawn, and is not written if it did
      so before; the request points at it, is observed and names its version; a foreign Secret is left alone, and so is
      every other. */
  ghost predicate Reconciled(s: World, t: World, n: Name, validUrl: string -> bool, token: string)
    requires n in s.requests
  {
    var r, inst, name := s.requests[n], Instance(s, n), TokenName(n);
    var serve := inst.Some? && Eligible(inst.value, validUrl);
    && t.secrets - {name} == s.secrets - {name}
    && if name in s.secrets && (s.secrets[name].owner != Some(Owner(r.uid, r.name)) || !s.secrets[name].opaqueType) then
         t.secrets == s.secrets && t.requests == s.requests
       else
         && n in t.requests && t.requests[n].observed == r.generation
         && t.requests[n] == r.(syncedVersion := t.requests[n].syncedVersion, observed := r.generation, secretName := t.requests[n].secretName)
         && if serve || name in s.secrets then
              && name in t.secrets && t.requests[n].secretName == name.id
              && (serve ==> ServedSecret(SecretOf(s, name), t.secrets[name], r, inst.value, token))
              && (!serve ==> UnavailableSecret(s.secrets[name], t.secrets[name], inst, token))
              && (name in s.secrets ==>
                    && t.requests[n].syncedVersion == t.secrets[name].rv
                    && ((if serve then ServedSecret(SecretOf(s, name), s.secrets[name], r, inst.value, token)
                         else UnavailableSecret(s.secrets[name], s.secrets[name], inst, token)) ==> t.secrets == s.secrets))
            else name !in t.secrets && t.requests[n].secretName == r.secretName
  }

  lemma WithdrawnSecret(sec: Secret, inst: Option<Inst>, token: string)
    ensures UnavailableSecret(sec, Withdrawn(sec, inst, token), inst, token)
    ensures UnavailableSecret(sec, sec, inst, token) ==> Withdrawn(sec, inst, token) == sec
  {
  }

  lemma ServingSecret(sec: Secret, r: Request, inst: Inst, token: string)
    requires Owns(r, sec) && inst.slug != "" && (inst.byoc ==> inst.target != "")
    ensures ServedSecret(Some(sec), Serving(sec, inst, inst.slug, inst.endpoint, token), r, inst, token)
    ensures ServedSecret(Some(sec), sec, r, inst, token) ==> Serving(sec, inst, inst.slug, inst.endpoint, token) == sec
  {
  }

  lemma MintedSecret(r: Request, inst: Inst, token: string)
    ensures ServedSecret(None, Minted(r, inst, inst.slug, inst.endpoint, token), r, inst, token)
  {
  }

  /** The resource version does not matter. */
  lemma SecretVersion(was: Option<Secret>, sec: Secret, rv: nat, r: Request, inst: Option<Inst>, token: string)
    ensures inst.Some? && ServedSecret(was, sec, r, inst.value, token) ==> ServedSecret(was, sec.(rv := rv), r, inst.value, token)
    ensures was.Some? && UnavailableSecret(was.value, sec, inst, token) ==> UnavailableSecret(was.value, sec.(rv := rv), inst, token)
  {
  }

  /** After a pass, the key of a Ready hosted instance is accepted by the verifier, if its Secret is live and carries the
      request's label. */
  lemma ServedAccepted(s: World, t: World, n: Name, validUrl: string -> bool, token: string)
    requires Inv(s) && Pending(s, n) && Reconciled(s, t, n, validUrl, token) && t.insts == s.insts
    requires Instance(s, n).Some? && Eligible(Instance(s, n).value, validUrl) && !Instance(s, n).value.byoc
    requires TokenName(n) !in s.secrets || Presentable(s, n, s.requests[n])
    ensures var inst, name := Instance(s, n).value, TokenName(n);
            && name in t.secrets && Auth.Accepts(t, Auth.Route(n.ns, inst.name, inst.uid, inst.slug), t.secrets[name].key)
            && (name !in s.secrets ==> t.secrets[name].key == token)
  {
    var r, inst, name := s.requests[n], Instance(s, n).value, TokenName(n);
    assert n == Name(n.ns, r.name);
    assert Auth.OwnsToken(t, Auth.Route(n.ns, inst.name, inst.uid, inst.slug), name);
  }

  /** Without the Secrets of `r` among `names`. */
  ghost function Pruned(secrets: map<Name, Secret>, r: Request, names: seq<Name>): map<Name, Secret> {
    map n | n in secrets && !(n in names && Owns(r, secrets[n])) :: secrets[n]
  }

  lemma PrunedStep(secrets: map<Name, Secret>, r: Request, names: seq<Name>, n: Name)
    requires n in secrets
    ensures Pruned(secrets, r, names + [n]) ==
            if Owns(r, secrets[n]) then Pruned(secrets, r, names) - {n} else Pruned(secrets, r, names)
  {
  }

  lemma VersionsTrans(a: World, b: World, c: World)
    requires Versions(a, b) && Versions(b, c)
    ensures Versions(a, c)
  {
  }

  class Controller {
    var s: World
    ghost var history: seq<Event>
    ghost const start: World
    /** In calm runs nobody interferes and no call fails. */
    const calm: bool
    /** The URL contract of BYOC endpoints, from the Go URL parser. */
    const validUrl: string -> bool

    ghost predicate Valid()
      reads this
    {
      && Initial(start)
      && Runs.Legal(Apply, Enabled, start, history)
      && s == Runs.Replay(Apply, start, history)
      && Inv(s)
    }

    constructor (world: World, calm: bool, validUrl: string -> bool)
      requires Initial(world)
      ensures Valid() && s == world && history == [] && this.calm == calm
    {
      s, history, start := world, [], world;
      this.calm, this.validUrl := calm, validUrl;
    }

    method Do(e: Event)
      requires Valid() && Enabled(s, e)
      modifies this
      ensures Valid() && s == Apply(old(s), e) && history == old(history) + [e]
    {
      Runs.Extend(Apply, Enabled, start, history, e);
      StepInv(s, e);
      s := Apply(s, e);
      history := history + [e];
    }

    /** Any finite number of actions of the surroundings. */
    method Interfere()
      requires Valid()
      modifies this
      ensures Valid() && old(history) <= history && Rely(old(s), s)
      ensures calm ==> s == old(s)
    {
      hide Valid, Rely;
      assert Rely(s, s) by { RelyRefl(s); }
      var n :| 0 <= n;
      for i := 0 to n
        invariant Valid() && old(history) <= history && Rely(old(s), s)
        invariant calm ==> s == old(s)
      {
        var e: Event := *;
        if !calm && EnvEnabled(s, e) {
          Facts();
          EnvRely(s, e);
          RelyTrans(old(s), s, Apply(s, e));
          Do(e);
        }
      }
    }

    lemma Facts()
      requires Valid()
      ensures Inv(s)
    {
    }

    method GetSecret(n: Name) returns (ok: bool, sec: Option<Secret>)
      requires Valid()
      modifies this
      ensures Valid() && old(history) <= history && Rely(old(s), s)
      ensures ok ==> sec == (if n in s.secrets then Some(s.secrets[n]) else None)
      ensures ok && sec.Some? ==> sec.value.rv <= s.clock
      ensures calm ==> ok && s == old(s)
    {
      hide Valid, Rely;
      Interfere();
      Facts();
      var fails := DrawFailure(calm);
      if fails {
        return false, None;
      }
      return true, if n in s.secrets then Some(s.secrets[n]) else None;
    }

    /** Update of the Secret read as `sec` to `out`, which is what the allowed `change` makes of it. */
    method UpdateSecret(n: Name, r: Request, sec: Secret, out: Secret, ghost change: Change, token: string) returns (ok: bool, rv: nat)
      requires out == Changed(sec, change, token)
      requires Valid() && Owns(r, sec) && ChangeOk(change) && token !in s.used && sec.rv <= s.clock
      requires n in s.secrets && s.secrets[n].rv == sec.rv ==> s.secrets[n] == sec
      modifies this
      ensures Valid() && old(history) <= history
      ensures calm && n in old(s.secrets) && old(s.secrets[n]) == sec ==>
                ok && s == Put(old(s), n, out) && rv == s.clock
    {
      hide Valid;
      Interfere();
      var fate := DrawFate(calm);
      if fate.Lost? || n !in s.secrets || s.secrets[n].rv != sec.rv {
        return false, 0;
      }
      Write(Rewrite(n, r, sec.rv, change, token), Put(s, n, out));
      return fate.Acknowledged?, s.clock;
    }

    /** Store the new world that the event leads to. */
    method Write(ghost e: Event, after: World)
      requires Valid() && Enabled(s, e) && after == Apply(s, e)
      modifies this
      ensures Valid() && s == after && history == old(history) + [e]
    {
      Runs.Extend(Apply, Enabled, start, history, e);
      StepInv(s, e);
      s := after;
      history := history + [e];
    }

    /** Update of the request; conflicts with any change since it was read. */
    method UpdateRequest(n: Name, was: Request, now: Request) returns (ok: bool)
      requires Valid() && now.name == was.name == n.id
      modifies this
      ensures Valid() && old(history) <= history
      ensures calm && n in old(s.requests) && old(s.requests[n]) == was ==>
                ok && s == old(s).(requests := old(s.requests)[n := now])
    {
      hide Valid;
      Interfere();
      var fate := DrawFate(calm);
      if fate.Lost? || n !in s.requests || s.requests[n] != was {
        return false;
      }
      Do(WriteRequest(n, was, Some(now)));
      return fate.Acknowledged?;
    }

    /** touchAPITokenRequest. */
    method Touch(n: Name, r: Request, version: nat) returns (ok: bool, out: Request)
      requires Valid() && r.name == n.id
      modifies this
      ensures Valid() && old(history) <= history && out == r.(syncedVersion := version)
      ensures version != 0 && r.syncedVersion == version ==> ok && s == old(s) && history == old(history)
      ensures calm && n in old(s.requests) && old(s.requests[n]) == r ==>
                ok && s == old(s).(requests := old(s.requests)[n := out])
    {
      hide Valid;
      if version != 0 && r.syncedVersion == version {
        assert n in s.requests && s.requests[n] == r ==> s.requests[n := r] == s.requests;
        return true, r;
      }
      out := r.(syncedVersion := version);
      ok := UpdateRequest(n, r, out);
    }

    /** invalidateTokenEndpoint: withdraw the route, and rotate the key once a new BYOC target is established. */
    method InvalidateTokenEndpoint(n: Name, r: Request, inst: Option<Inst>, token: string) returns (ok: bool, out: Request)
      requires Valid() && r.name == n.id && token !in s.used && (inst.Some? ==> inst.value.uid != 0)
      modifies this
      ensures Valid() && old(history) <= history && out.name == r.name && out.generation == r.generation
      ensures calm && n in old(s.requests) && old(s.requests[n]) == r ==>
                var t := TokenName(n);
                && (ok <==> t in old(s.secrets) ==> Owns(r, old(s.secrets[t])))
                && (ok ==> n in s.requests && s.requests[n] == out.(secretName := r.secretName))
                && (ok && t in old(s.secrets) ==>
                      t in s.secrets && out.secretName == t.id
                      && s.secrets[t] == Withdrawn(old(s.secrets[t]), inst, token).(rv := s.secrets[t].rv))
                && s == old(s).(clock := s.clock, requests := s.requests, secrets := s.secrets, used := s.used)
                && s.secrets - {t} == old(s.secrets) - {t} && (!ok ==> s == old(s)) && (t !in old(s.secrets) ==> s == old(s) && out == r)
                && (ok ==> out == r.(secretName := out.secretName, syncedVersion := out.syncedVersion))
                && (ok && t in old(s.secrets) ==>
                      && out.syncedVersion == s.secrets[t].rv
                      && (Withdrawn(old(s.secrets[t]), inst, token) == old(s.secrets[t]) ==> s.secrets == old(s.secrets)))
    {
      hide Valid, Rely, Withdrawn;
      out := r;
      var t := TokenName(n);
      var got, found := GetSecret(t);
      if !got || found.None? {
        return got, r;
      }
      var sec := found.value;
      if !Owns(r, sec) {
        return false, r;
      }
      assert token !in s.used by { RelyUsed(old(s), s); }
      var changed, next := WithdrawEndpoint(sec, inst, token);
      var version := sec.rv;
      if changed {
        ok, version := UpdateSecret(t, r, sec, next, Withdraw(inst), token);
        if !ok {
          return false, r;
        }
      }
      ok, out := Touch(n, r, version);
      if !ok {
        return false, out;
      }
      out := out.(secretName := t.id);
    }

    /** createSecret. */
    method CreateSecret(n: Name, r: Request, inst: Inst, slug: string, endpoint: string, token: string) returns (ok: bool)
      requires Valid() && Issuable(inst, slug) && token !in s.used
      modifies this
      ensures Valid() && old(history) <= history
      ensures calm && TokenName(n) !in old(s.secrets) ==>
                ok && s == Put(old(s), TokenName(n), Minted(r, inst, slug, endpoint, token))
    {
      hide Valid, Rely;
      var t := TokenName(n);
      Interfere();
      assert token !in s.used by { RelyUsed(old(s), s); }
      var fate := DrawFate(calm);
      if fate.Lost? || t in s.secrets {
        return false;
      }
      Do(Mint(t, r, inst, slug, endpoint, token));
      return fate.Acknowledged?;
    }

    /** ensureSecret. Minting leaves the sync touch to the next pass. */
    method EnsureSecret(n: Name, r: Request, inst: Inst, slug: string, endpoint: string, token: string) returns (ok: bool, out: Request)
      requires Valid() && r.name == n.id && Issuable(inst, slug) && token !in s.used
      modifies this
      ensures Valid() && old(history) <= history && out == r.(syncedVersion := out.syncedVersion)
      ensures calm && n in old(s.requests) && old(s.requests[n]) == r ==>
                var t := TokenName(n);
                && (ok <==> t in old(s.secrets) ==> Owns(r, old(s.secrets[t])))
                && (ok ==> n in s.requests && out == s.requests[n] && t in s.secrets
                           && s.secrets[t] == (if t in old(s.secrets) then Serving(old(s.secrets[t]), inst, slug, endpoint, token)
                                               else Minted(r, inst, slug, endpoint, token)).(rv := s.secrets[t].rv))
                && s == old(s).(clock := s.clock, requests := s.requests, secrets := s.secrets, used := s.used)
                && s.secrets - {t} == old(s.secrets) - {t} && (!ok ==> s == old(s))
                && (ok && t in old(s.secrets) ==>
                      && out.syncedVersion == s.secrets[t].rv
                      && (Serving(old(s.secrets[t]), inst, slug, endpoint, token) == old(s.secrets[t]) ==> s.secrets == old(s.secrets)))
    {
      hide Valid, Rely, Serving, Minted;
      out := r;
      var t := TokenName(n);
      var got, found := GetSecret(t);
      if !got {
        return false, r;
      }
      assert token !in s.used by { RelyUsed(old(s), s); }
      if found.None? {
        ok := CreateSecret(n, r, inst, slug, endpoint, token);
        return;
      }
      var sec := found.value;
      if !Owns(r, sec) {
        return false, r;
      }
      var changed, next := ServeEndpoint(sec, inst, slug, endpoint, token);
      var version := sec.rv;
      if changed {
        ok, version := UpdateSecret(t, r, sec, next, Serve(inst, slug, endpoint), token);
        if !ok {
          return;
        }
      }
      ok, out := Touch(n, r, version);
    }

    /** The Secrets of a namespace that carry the request's label, in some order. */
    method ListSecrets(ns: string, request: string) returns (items: seq<Name>)
      ensures forall n :: n in items <==> n in s.secrets && n.ns == ns && s.secrets[n].labels.request == request
    {
      items := [];
      var rest := s.secrets.Keys;
      while rest != {}
        invariant rest <= s.secrets.Keys
        invariant forall n :: n in items <==> n in s.secrets.Keys - rest && n.ns == ns && s.secrets[n].labels.request == request
        decreases |rest|
      {
        var n :| n in rest;
        rest := rest - {n};
        if n.ns == ns && s.secrets[n].labels.request == request {
          items := items + [n];
        }
      }
    }

    method DeleteSecret(n: Name, r: Request, sec: Secret)
      requires Valid() && Owns(r, sec) && sec.rv <= s.clock
      requires n in s.secrets && s.secrets[n].rv == sec.rv ==> s.secrets[n] == sec
      modifies this
      ensures Valid() && old(history) <= history && Versions(old(s), s)
      ensures calm ==> s == old(s).(clock := s.clock, secrets := s.secrets)
      ensures calm && (n in old(s.secrets) ==> old(s.secrets[n]) == sec) ==> s.secrets == old(s.secrets) - {n}
    {
      hide Valid;
      Interfere();
      var fate := DrawFate(calm);
      if fate.Lost? || n !in s.secrets || s.secrets[n].rv != sec.rv {
        return;
      }
      Do(Remove(n, r, sec.rv));
    }

    /** The loop of finalizeTokenRequest over the listed Secrets: labels select, the owner authorizes. */
    method DeleteOwned(r: Request, items: seq<Name>)
      requires Valid() && forall i :: 0 <= i < |items| ==> items[i] in s.secrets
      modifies this
      ensures Valid() && old(history) <= history
      ensures calm ==> s == old(s).(clock := s.clock, secrets := Pruned(old(s.secrets), r, items))
    {
      hide Valid;
      Facts();
      var listed := s.secrets;
      assert Pruned(listed, r, []) == listed;
      for i := 0 to |items|
        invariant Valid() && old(history) <= history && Versions(old(s), s)
        invariant calm ==> s == old(s).(clock := s.clock, secrets := Pruned(listed, r, items[..i]))
      {
        ghost var before := s;
        var sec := listed[items[i]];
        if Owns(r, sec) {
          DeleteSecret(items[i], r, sec);
          VersionsTrans(old(s), before, s);
        }
        assert items[..i + 1] == items[..i] + [items[i]];
        PrunedStep(listed, r, items[..i], items[i]);
      }
      assert items[..|items|] == items;
    }

    /** finalizeTokenRequest: Secret cleanup does not block, and only Secrets of this very request go. */
    method FinalizeTokenRequest(n: Name, request: Request)
      requires Valid() && request.name == n.id && request.deleting
      modifies this
      ensures Valid() && old(history) <= history
      ensures !request.finalizer ==> s == old(s)
      ensures calm && request.finalizer && n in old(s.requests) && old(s.requests[n]) == request ==>
                && n !in s.requests
                && (forall m :: m in s.secrets ==> m in old(s.secrets) && s.secrets[m] == old(s.secrets[m]))
                && (forall m :: m in old(s.secrets) ==>
                      (m !in s.secrets <==>
                        m.ns == n.ns && old(s.secrets[m]).labels.request == request.name && Owns(request, old(s.secrets[m]))))
    {
      hide Valid, Rely, Versions;
      if !request.finalizer {
        return;
      }
      Interfere();
      var fails := DrawFailure(calm);
      if !fails {
        var items := ListSecrets(n.ns, request.name);
        DeleteOwned(request, items);
      }
      DropFinalizer(n, request);
    }

    /** Up to three attempts, each on a fresh copy after a conflict. */
    method DropFinalizer(n: Name, request: Request)
      requires Valid() && request.name == n.id
      modifies this
      ensures Valid() && old(history) <= history
      ensures calm && n in old(s.requests) && old(s.requests[n]) == request ==>
                s == old(s).(requests := old(s.requests) - {n})
    {
      hide Valid, Rely;
      var r := request;
      for i := 0 to 3
        invariant Valid() && old(history) <= history
        invariant calm && n in old(s.requests) && old(s.requests[n]) == request ==> i == 0 && s == old(s) && r == request
      {
        Interfere();
        var fate := DrawFate(calm);
        if n !in s.requests || fate.Lost? {
          return;
        }
        if s.requests[n] == r {
          Do(WriteRequest(n, r, None));
          return;
        }
        Interfere();
        if n !in s.requests {
          return;
        }
        r := s.requests[n];
      }
    }

    /** Reconcile. A live request gets its finalizer first; then the Secret serves the instance, hosted or BYOC, or is
        withdrawn; a deleted request goes, with the Secrets that carry its label and are its own. */
    method Reconcile(n: Name, token: string)
      requires Valid() && token !in s.used
      modifies this
      ensures Valid() && old(history) <= history
      ensures calm && Pending(old(s), n) ==> Reconciled(old(s), s, n, validUrl, token) && s.insts == old(s.insts)
      ensures calm && n in old(s.requests) && !old(s.requests[n]).deleting && !old(s.requests[n]).finalizer ==>
                s == old(s).(requests := old(s.requests)[n := old(s.requests[n]).(finalizer := true)])
      ensures calm && n in old(s.requests) && old(s.requests[n]).deleting && old(s.requests[n]).finalizer ==>
                && n !in s.requests
                && forall m :: m in old(s.secrets) ==>
                     (m !in s.secrets <==>
                        && m.ns == n.ns && old(s.secrets[m]).labels.request == n.id && old(s.requests[n]).uid != 0
                        && old(s.secrets[m]).owner == Some(Owner(old(s.requests[n]).uid, n.id)) && old(s.secrets[m]).opaqueType)
    {
      hide Valid, Rely;
      Interfere();
      Facts();
      if n !in s.requests {
        return;
      }
      var r := s.requests[n];
      if r.deleting {
        FinalizeTokenRequest(n, r);
        return;
      }
      if !r.finalizer {
        var _ := UpdateRequest(n, r, r.(finalizer := true));
        return;
      }
      RelyUsed(old(s), s);
      ReconcileActive(n, r, token);
    }

    /** The rest of Reconcile, for a live request with its finalizer in place. */
    method ReconcileActive(n: Name, r: Request, token: string)
      requires Valid() && token !in s.used && r.name == n.id
      modifies this
      ensures Valid() && old(history) <= history
      ensures calm && Pending(old(s), n) && r == old(s.requests[n]) ==>
                Reconciled(old(s), s, n, validUrl, token) && s.insts == old(s.insts)
    {
      hide Valid, Rely, Reconciled, Eligible;
      Interfere();
      RelyUsed(old(s), s);
      var fails := DrawFailure(calm);
      if fails {
        return;
      }
      var at := Name(n.ns, r.instanceName);
      Facts();
      if at !in s.insts {
        Withhold(n, r, None, token);
        return;
      }
      var inst := s.insts[at];
      if !Eligible(inst, validUrl) {
        Withhold(n, r, Some(inst), token);
        return;
      }
      EligibleExactly(inst, validUrl);
      Provide(n, r, inst, token);
    }

    /** The branches for an instance that is missing or cannot be served. */
    method Withhold(n: Name, r: Request, inst: Option<Inst>, token: string)
      requires Valid() && token !in s.used && r.name == n.id && (inst.Some? ==> inst.value.uid != 0)
      modifies this
      ensures Valid() && old(history) <= history
      ensures (&& calm && Pending(old(s), n) && r == old(s.requests[n]) && inst == Instance(old(s), n)
               && (inst.Some? ==> !Eligible(inst.value, validUrl))) ==>
                Reconciled(old(s), s, n, validUrl, token) && s.insts == old(s.insts)
    {
      hide Valid, Rely, Withdrawn, ServedSecret, UnavailableSecret, Eligible;
      var ok, out := InvalidateTokenEndpoint(n, r, inst, token);
      NowUnavailable(old(s), s, TokenName(n), r, inst, token);
      if ok {
        SetPending(n, out.(secretName := r.secretName), out);
      }
    }

    /** The branch for an instance that is served. */
    method Provide(n: Name, r: Request, inst: Inst, token: string)
      requires Valid() && token !in s.used && r.name == n.id && inst.uid != 0 && Eligible(inst, validUrl)
      modifies this
      ensures Valid() && old(history) <= history
      ensures calm && Pending(old(s), n) && r == old(s.requests[n]) && Instance(old(s), n) == Some(inst) ==>
                Reconciled(old(s), s, n, validUrl, token) && s.insts == old(s.insts)
    {
      hide Valid, Rely, Serving, Minted, ServedSecret, UnavailableSecret, Eligible;
      EligibleExactly(inst, validUrl);
      var ok, out := EnsureSecret(n, r, inst, CurrentSlug(inst), inst.endpoint, token);
      if TokenName(n) in old(s.secrets) ==> Owns(r, old(s.secrets[TokenName(n)])) {
        NowServed(old(s), s, TokenName(n), r, inst, token);
      }
      if ok {
        SetReady(n, out);
      }
    }

    /** updatePendingStatus. */
    method SetPending(n: Name, read: Request, r: Request)
      requires Valid() && r.name == n.id
      modifies this
      ensures Valid() && old(history) <= history
      ensures calm && n in old(s.requests) && old(s.requests[n]) == read ==>
                s == old(s).(requests := old(s.requests)[n := r.(observed := r.generation)])
    {
      hide Valid, Rely;
      Interfere();
      var fate := DrawFate(calm);
      if !fate.Lost? && n in s.requests && s.requests[n] == read {
        Do(WriteRequest(n, read, Some(r.(observed := r.generation))));
      }
    }

    /** updateReadyStatus. */
    method SetReady(n: Name, r: Request)
      requires Valid() && r.name == n.id
      modifies this
      ensures Valid() && old(history) <= history
      ensures calm && n in old(s.requests) && old(s.requests[n]) == r ==>
                s == old(s).(requests := old(s.requests)[n := r.(secretName := TokenName(n).id, observed := r.generation)])
    {
      hide Valid, Rely;
      Interfere();
      var fate := DrawFate(calm);
      if !fate.Lost? && n in s.requests && s.requests[n] == r {
        Do(WriteRequest(n, r, Some(r.(secretName := TokenName(n).id, observed := r.generation))));
      }
    }
  }

  lemma NowUnavailable(s: World, t: World, name: Name, r: Request, inst: Option<Inst>, token: string)
    ensures (&& name in s.secrets && name in t.secrets
             && t.secrets[name] == Withdrawn(s.secrets[name], inst, token).(rv := t.secrets[name].rv)) ==>
              UnavailableSecret(s.secrets[name], t.secrets[name], inst, token)
    ensures name in s.secrets && UnavailableSecret(s.secrets[name], s.secrets[name], inst, token) ==>
              Withdrawn(s.secrets[name], inst, token) == s.secrets[name]
  {
    if name in s.secrets {
      WithdrawnSecret(s.secrets[name], inst, token);
    }
    if name in s.secrets && name in t.secrets {
      WithdrawnSecret(s.secrets[name], inst, token);
      SecretVersion(Some(s.secrets[name]), Withdrawn(s.secrets[name], inst, token), t.secrets[name].rv, r, inst, token);
    }
  }

  lemma NowServed(s: World, t: World, name: Name, r: Request, inst: Inst, token: string)
    requires inst.slug != "" && (inst.byoc ==> inst.target != "") && (name in s.secrets ==> Owns(r, s.secrets[name]))
    ensures (&& name in t.secrets
             && t.secrets[name] == (if name in s.secrets then Serving(s.secrets[name], inst, inst.slug, inst.endpoint, token)
                                    else Minted(r, inst, inst.slug, inst.endpoint, token)).(rv := t.secrets[name].rv)) ==>
              ServedSecret(SecretOf(s, name), t.secrets[name], r, inst, token)
    ensures name in s.secrets && ServedSecret(SecretOf(s, name), s.secrets[name], r, inst, token) ==>
              Serving(s.secrets[name], inst, inst.slug, inst.endpoint, token) == s.secrets[name]
  {
    if name in s.secrets {
      ServingSecret(s.secrets[name], r, inst, token);
    }
    if name in t.secrets {
      if name in s.secrets {
        ServingSecret(s.secrets[name], r, inst, token);
        SecretVersion(Some(s.secrets[name]), Serving(s.secrets[name], inst, inst.slug, inst.endpoint, token), t.secrets[name].rv, r, Some(inst), token);
      } else {
        MintedSecret(r, inst, token);
        SecretVersion(None, Minted(r, inst, inst.slug, inst.endpoint, token), t.secrets[name].rv, r, Some(inst), token);
      }
    }
  }

  lemma RelyUsed(s: World, t: World)
    requires Rely(s, t)
    ensures t.used == s.used
  {
  }

  lemma RelyRefl(s: World)
    ensures Rely(s, s)
  {
  }
}
