/**
 API keys: how token Secrets are minted, bound to an instance and target, rotated and withdrawn, over all
 runs of the token controller with tenants and the instance controller acting in between.
 */
module Tokens {
  import opened Calls
  import Runs

  datatype Name = Name(ns: string, id: string)

  /** What a key is good for: an instance incarnation and, for BYOC, one remote target. UID 0 is no UID. */
  datatype Binding = Binding(uid: nat, target: string)

  const UNBOUND := Binding(0, "")

  datatype Selection = Selection(slug: string, source: nat)

  /** `byoc` is requested or still active BYOC mode, `selection` what the slug policy selects for it, and
      `ready` the Ready condition observed at the current generation. */
  datatype Inst = Inst(
    uid: nat, name: string, byoc: bool, target: string, slug: string, source: nat, selection: Option<Selection>,
    endpoint: string, ready: bool, deleting: bool)

  datatype Request = Request(
    uid: nat, name: string, instanceName: string, deleting: bool, finalizer: bool, generation: nat,
    secretName: string, observed: nat, syncedVersion: nat)

  /** The controlling APITokenRequest. */
  datatype Owner = Owner(uid: nat, name: string)

  datatype Labels = Labels(instance: string, slug: string, request: string, compatibility: string)

  datatype Secret = Secret(
    rv: nat, owner: Option<Owner>, opaqueType: bool, deleting: bool, labels: Labels,
    key: string, url: string, unavailable: bool, binding: Binding)

  /** `used` records every key a controlled Secret ever held. */
  datatype World = World(
    clock: nat, insts: map<Name, Inst>, requests: map<Name, Request>, secrets: map<Name, Secret>, used: set<string>)

  const UNAVAILABLE_URL := "https://unavailable.invalid"
  const OPENAI := "openai"

  // ---------------------------------------------------------------------------------------------
  // What the controller writes
  // ---------------------------------------------------------------------------------------------

  /** The binding an instance authorizes; none while BYOC has no target or the hosted endpoint is pending. */
  function Wanted(inst: Inst, allowHosted: bool): Option<Binding> {
    if inst.byoc then (if inst.target == "" then None else Some(Binding(inst.uid, inst.target)))
    else if allowHosted then Some(Binding(inst.uid, ""))
    else None
  }

  /** A key from before bindings were recorded may be kept by the hosted instance it was labelled for. */
  predicate LegacyMatch(sec: Secret, inst: Inst, slug: string) {
    && !inst.byoc && sec.binding == UNBOUND
    && sec.labels.instance == inst.name && slug != "" && sec.labels.slug == slug
  }

  /** Bind the key to `wanted`: kept if it is bound there already or adopted, replaced otherwise. */
  function Rebound(sec: Secret, inst: Inst, wanted: Binding, slug: string, token: string): Secret {
    if sec.binding == wanted then sec
    else if LegacyMatch(sec, inst, slug) then sec.(binding := wanted)
    else sec.(key := token, binding := wanted)
  }

  function Rotated(sec: Secret, inst: Option<Inst>, allowHosted: bool, slug: string, token: string): Secret {
    if inst.None? || Wanted(inst.value, allowHosted).None? then sec
    else Rebound(sec, inst.value, Wanted(inst.value, allowHosted).value, slug, token)
  }

  /** A Secret whose endpoint is withdrawn. */
  function Withdrawn(sec: Secret, inst: Option<Inst>, token: string): Secret {
    var bound := Rotated(sec, inst, false, "", token);
    var pendingByoc := inst.Some? && inst.value.byoc && inst.value.target != "";
    bound.(url := UNAVAILABLE_URL, unavailable := true,
           labels := if pendingByoc then sec.labels.(instance := inst.value.name) else sec.labels)
  }

  /** A Secret that serves a Ready instance. */
  function Serving(sec: Secret, inst: Inst, slug: string, endpoint: string, token: string): Secret {
    Rotated(sec, Some(inst), true, slug, token).(
      url := endpoint, unavailable := false,
      labels := sec.labels.(instance := inst.name, slug := slug, compatibility := OPENAI))
  }

  function Minted(r: Request, inst: Inst, slug: string, endpoint: string, token: string): Secret {
    Secret(0, Some(Owner(r.uid, r.name)), true, false, Labels(inst.name, slug, r.name, OPENAI),
           token, endpoint, false, Binding(inst.uid, if inst.byoc then inst.target else ""))
  }

  /** ownsTokenSecret. */
  predicate Owns(r: Request, sec: Secret) {
    r.uid != 0 && sec.owner == Some(Owner(r.uid, r.name)) && sec.opaqueType
  }

  // ---------------------------------------------------------------------------------------------
  // The machine
  // ---------------------------------------------------------------------------------------------

  datatype Change = Withdraw(inst: Option<Inst>) | Serve(ready: Inst, slug: string, endpoint: string)

  datatype Event =
    | EditInst(name: Name, inst: Option<Inst>)
    | EditRequest(name: Name, request: Option<Request>)
    | EditSecret(name: Name, secret: Option<Secret>)
    | WriteRequest(name: Name, was: Request, now: Option<Request>)
    | Mint(name: Name, issuer: Request, forInst: Inst, slug: string, endpoint: string, token: string)
    | Rewrite(name: Name, issuer: Request, rv: nat, change: Change, token: string)
    | Remove(name: Name, issuer: Request, rv: nat)

  /** A Secret controlled by some token request. */
  predicate Controlled(sec: Secret) {
    sec.owner.Some?
  }

  /** Nobody but the token controller puts a controller reference on a Secret or edits one that has it; such
      a Secret can be deleted by others. Everything else can change in any way. */
  predicate EnvEnabled(s: World, e: Event) {
    match e
    case EditInst(n, inst) => inst.Some? ==> inst.value.uid != 0 && inst.value.name == n.id
    case EditRequest(n, r) => r.Some? ==> r.value.name == n.id
    case EditSecret(n, secret) =>
      secret.Some? ==>
        && secret.value.rv == s.clock + 1
        && if n in s.secrets && Controlled(s.secrets[n])
           then !Controlled(secret.value)
                || secret.value == s.secrets[n].(rv := secret.value.rv, deleting := true)
           else !Controlled(secret.value)
    case _ => false
  }

  /** An instance that a token may be issued for. */
  predicate Issuable(inst: Inst, slug: string) {
    inst.uid != 0 && slug != "" && (inst.byoc ==> inst.target != "")
  }

  function Changed(sec: Secret, change: Change, token: string): Secret {
    match change
    case Withdraw(inst) => Withdrawn(sec, inst, token)
    case Serve(inst, slug, endpoint) => Serving(sec, inst, slug, endpoint, token)
  }

  predicate ChangeOk(change: Change) {
    match change
    case Withdraw(inst) => inst.Some? ==> inst.value.uid != 0
    case Serve(inst, slug, _) => Issuable(inst, slug)
  }

  /** What the token controller may do, always with a token never used before. Requests and Secrets are written under
      optimistic locks. */
  predicate OpEnabled(s: World, e: Event) {
    match e
    case Mint(n, r, inst, slug, _, token) =>
      n !in s.secrets && Issuable(inst, slug) && token !in s.used
    case Rewrite(n, r, rv, change, token) =>
      && n in s.secrets && s.secrets[n].rv == rv && Owns(r, s.secrets[n])
      && ChangeOk(change) && token !in s.used
    case Remove(n, r, rv) => n in s.secrets && s.secrets[n].rv == rv && Owns(r, s.secrets[n])
    case WriteRequest(n, was, now) => n in s.requests && s.requests[n] == was && (now.Some? ==> now.value.name == n.id)
    case _ => false
  }

  predicate Enabled(s: World, e: Event) {
    EnvEnabled(s, e) || OpEnabled(s, e)
  }

  function Put(s: World, n: Name, sec: Secret): World {
    s.(clock := s.clock + 1, secrets := s.secrets[n := sec.(rv := s.clock + 1)],
       used := if Controlled(sec) then s.used + {sec.key} else s.used)
  }

  function Without(s: World, n: Name): World {
    s.(clock := s.clock + 1, secrets := s.secrets - {n})
  }

  function SetRequest(s: World, n: Name, r: Option<Request>): World {
    s.(requests := if r.Some? then s.requests[n := r.value] else s.requests - {n})
  }

  function Apply(s: World, e: Event): World {
    match e
    case EditInst(n, inst) => s.(insts := if inst.Some? then s.insts[n := inst.value] else s.insts - {n})
    case EditRequest(n, r) => SetRequest(s, n, r)
    case WriteRequest(n, _, r) => SetRequest(s, n, r)
    case EditSecret(n, secret) => if secret.Some? then Put(s, n, secret.value) else Without(s, n)
    case Mint(n, r, inst, slug, endpoint, token) => Put(s, n, Minted(r, inst, slug, endpoint, token))
    case Rewrite(n, _, _, change, token) =>
      if n in s.secrets then Put(s, n, Changed(s.secrets[n], change, token)) else s
    case Remove(n, _, _) => Without(s, n)
  }

  /** Runs start with keys issued before bindings were recorded, each in one Secret. */
  ghost predicate Initial(s: World) {
    && (forall n :: n in s.secrets ==> s.secrets[n].rv <= s.clock)
    && (forall n :: n in s.secrets && Controlled(s.secrets[n]) ==>
          s.secrets[n].binding == UNBOUND && s.secrets[n].key in s.used)
    && (forall n, m :: n in s.secrets && m in s.secrets && n != m && Controlled(s.secrets[n]) && Controlled(s.secrets[m]) ==>
          s.secrets[n].key != s.secrets[m].key)
    && (forall n :: n in s.insts ==> s.insts[n].uid != 0 && s.insts[n].name == n.id)
    && (forall n :: n in s.requests ==> s.requests[n].name == n.id)
  }

  ghost function Replay(start: World, h: seq<Event>): World {
    Runs.Replay(Apply, start, h)
  }

  ghost predicate Legal(start: World, h: seq<Event>) {
    Runs.Legal(Apply, Enabled, start, h)
  }

  ghost function At(start: World, h: seq<Event>, i: nat): World
    requires i <= |h|
  {
    Replay(start, h[..i])
  }

  /** Secret `n` of `s` holds `key` under `b`. */
  ghost predicate Holds(s: World, n: Name, key: string, b: Binding) {
    n in s.secrets && Controlled(s.secrets[n]) && s.secrets[n].key == key && s.secrets[n].binding == b
  }

  // ---------------------------------------------------------------------------------------------
  // Invariants
  // ---------------------------------------------------------------------------------------------

  /** Every controlled key is on record, and no two controlled Secrets share one. */
  ghost predicate KeysInv(s: World) {
    && (forall n :: n in s.secrets && Controlled(s.secrets[n]) ==> s.secrets[n].key in s.used)
    && (forall n, m :: n in s.secrets && m in s.secrets && n != m && Controlled(s.secrets[n]) && Controlled(s.secrets[m]) ==>
          s.secrets[n].key != s.secrets[m].key)
  }

  ghost predicate NamesInv(s: World) {
    && (forall n :: n in s.secrets ==> s.secrets[n].rv <= s.clock)
    && (forall n :: n in s.insts ==> s.insts[n].uid != 0 && s.insts[n].name == n.id)
    && (forall n :: n in s.requests ==> s.requests[n].name == n.id)
  }

  ghost predicate Inv(s: World) {
    KeysInv(s) && NamesInv(s)
  }

  /** What the step makes of the Secret named `n`: nothing new, or the outcome of one write. */
  ghost predicate SecretOutcome(s: World, e: Event, t: World, n: Name)
    requires n in t.secrets
  {
    var after := t.secrets[n];
    || (n in s.secrets && Controlled(s.secrets[n])
        && after == s.secrets[n].(rv := after.rv, deleting := after.deleting))
    || (e.Mint? && e.name == n && n !in s.secrets && after.key == e.token && e.token !in s.used && after.binding.uid != 0)
    || (e.Rewrite? && e.name == n && n in s.secrets && Controlled(s.secrets[n]) && e.token !in s.used
        && ChangeOk(e.change) && after == Changed(s.secrets[n], e.change, e.token).(rv := after.rv))
  }

  lemma SecretWritten(s: World, e: Event, n: Name)
    requires Enabled(s, e) && (e.Mint? || e.Rewrite?) && n in Apply(s, e).secrets && Controlled(Apply(s, e).secrets[n])
    ensures SecretOutcome(s, e, Apply(s, e), n)
  {
    if n != e.name {
      assert n in s.secrets && Apply(s, e).secrets[n] == s.secrets[n];
    }
  }

  lemma SecretStep(s: World, e: Event, n: Name)
    requires Enabled(s, e) && n in Apply(s, e).secrets && Controlled(Apply(s, e).secrets[n])
    ensures SecretOutcome(s, e, Apply(s, e), n)
  {
    if e.Mint? || e.Rewrite? {
      SecretWritten(s, e, n);
    } else if e.EditSecret? {
      assert n != e.name ==> n in s.secrets && Apply(s, e).secrets[n] == s.secrets[n];
    } else {
      assert n in s.secrets && Apply(s, e).secrets[n] == s.secrets[n];
    }
  }

  /** A write keeps the key or takes the new token; it changes the key only together with the binding. */
  lemma ChangedKey(sec: Secret, change: Change, token: string)
    requires ChangeOk(change)
    ensures var after := Changed(sec, change, token);
            && after.owner == sec.owner
            && (after.key == sec.key || after.key == token)
            && (after.key != sec.key ==> after.binding != sec.binding && after.binding.uid != 0)
            && (after.binding != sec.binding ==> after.key == token || (sec.binding == UNBOUND && Adopts(sec, change)))
            && (after.binding == UNBOUND ==> after.labels == sec.labels && after.key == sec.key && sec.binding == UNBOUND)
  {
  }

  /** The write serves a hosted instance with the name and selected slug the Secret is labelled with. */
  predicate Adopts(sec: Secret, change: Change) {
    && change.Serve? && !change.ready.byoc
    && sec.labels.instance == change.ready.name
    && change.slug != "" && sec.labels.slug == change.slug
  }

  lemma KeyAfter(s: World, e: Event, n: Name)
    requires Inv(s) && Enabled(s, e) && n in Apply(s, e).secrets && Controlled(Apply(s, e).secrets[n])
    ensures var after := Apply(s, e).secrets[n];
            || (n in s.secrets && Controlled(s.secrets[n]) && s.secrets[n].key == after.key)
            || (after.key !in s.used && e.name == n && (e.Mint? || e.Rewrite?))
  {
    SecretStep(s, e, n);
    if e.Rewrite? && n in s.secrets && ChangeOk(e.change) {
      ChangedKey(s.secrets[n], e.change, e.token);
    }
  }

  lemma UsedGrows(s: World, e: Event)
    ensures s.used <= Apply(s, e).used
  {
  }

  lemma KeysStep(s: World, e: Event)
    requires Inv(s) && Enabled(s, e)
    ensures KeysInv(Apply(s, e))
  {
    hide Enabled;
    var t := Apply(s, e);
    UsedGrows(s, e);
    forall n | n in t.secrets && Controlled(t.secrets[n])
      ensures t.secrets[n].key in t.used
    {
      KeyAfter(s, e, n);
    }
    forall n, m | n in t.secrets && m in t.secrets && n != m && Controlled(t.secrets[n]) && Controlled(t.secrets[m])
      ensures t.secrets[n].key != t.secrets[m].key
    {
      KeyAfter(s, e, n);
      KeyAfter(s, e, m);
    }
  }

  lemma NamesStep(s: World, e: Event)
    requires NamesInv(s) && Enabled(s, e)
    ensures NamesInv(Apply(s, e))
  {
  }

  lemma StepInv(s: World, e: Event)
    requires Inv(s) && Enabled(s, e)
    ensures Inv(Apply(s, e))
  {
    KeysStep(s, e);
    NamesStep(s, e);
  }

  lemma Reachable(start: World, h: seq<Event>)
    requires Initial(start) && Legal(start, h)
    ensures Inv(Replay(start, h))
  {
    forall s: World, e: Event | Inv(s) && Enabled(s, e)
      ensures Inv(Apply(s, e))
    {
      StepInv(s, e);
    }
    Runs.Invariant(Apply, Enabled, Inv, start, h);
  }

  lemma StepAt(start: World, h: seq<Event>, i: nat)
    requires Initial(start) && Legal(start, h) && i <= |h|
    ensures Inv(At(start, h, i))
    ensures i < |h| ==> Enabled(At(start, h, i), h[i]) && At(start, h, i + 1) == Apply(At(start, h, i), h[i])
  {
    Runs.Prefix(Apply, Enabled, start, h, i);
    Reachable(start, h[..i]);
  }

  // ---------------------------------------------------------------------------------------------
  // One key, one binding
  // ---------------------------------------------------------------------------------------------

  /** The key is spent: wherever it is still held, it is bound to `b`. */
  ghost predicate Spent(s: World, key: string, b: Binding) {
    key in s.used && forall n, c :: Holds(s, n, key, c) ==> c == b
  }

  lemma SpentStep(s: World, e: Event, key: string, b: Binding)
    requires Inv(s) && Enabled(s, e) && Spent(s, key, b) && b != UNBOUND
    ensures Spent(Apply(s, e), key, b)
  {
    hide Enabled, Apply;
    var t := Apply(s, e);
    UsedGrows(s, e);
    forall n, c | Holds(t, n, key, c)
      ensures c == b
    {
      SecretStep(s, e, n);
      KeyAfter(s, e, n);
      assert Holds(s, n, key, s.secrets[n].binding);
      if e.Rewrite? && e.name == n && ChangeOk(e.change) {
        ChangedKey(s.secrets[n], e.change, e.token);
      }
    }
  }

  lemma {:induction false} SpentForever(start: World, h: seq<Event>, i: nat, j: nat, key: string, b: Binding)
    requires Initial(start) && Legal(start, h) && i <= j <= |h|
    requires Spent(At(start, h, i), key, b) && b != UNBOUND
    ensures Spent(At(start, h, j), key, b)
  {
    hide At, Legal, Initial, Inv, Enabled, Apply, Spent;
    if i < j {
      SpentForever(start, h, i, j - 1, key, b);
      StepAt(start, h, j - 1);
      SpentStep(At(start, h, j - 1), h[j - 1], key, b);
    }
  }

  lemma BoundIsSpent(s: World, n: Name, key: string, b: Binding)
    requires Inv(s) && Holds(s, n, key, b)
    ensures Spent(s, key, b)
  {
  }

  /** Over a whole run a key is bound to at most one pair of instance UID and target. */
  lemma SingleBinding(start: World, h: seq<Event>, i: nat, n: Name, a: Binding, j: nat, m: Name, b: Binding, key: string)
    requires Initial(start) && Legal(start, h) && i <= j <= |h|
    requires Holds(At(start, h, i), n, key, a) && a != UNBOUND
    requires Holds(At(start, h, j), m, key, b)
    ensures a == b
  {
    hide At, Legal, Initial, Inv, Enabled, Apply;
    StepAt(start, h, i);
    BoundIsSpent(At(start, h, i), n, key, a);
    SpentForever(start, h, i, j, key, a);
  }

  /** The key is on record, and no controlled Secret holds it but those in `names`. */
  ghost predicate OnlyAt(s: World, key: string, names: set<Name>) {
    key in s.used && forall n :: n in s.secrets && Controlled(s.secrets[n]) && s.secrets[n].key == key ==> n in names
  }

  lemma OnlyAtStep(s: World, e: Event, key: string, names: set<Name>)
    requires Inv(s) && Enabled(s, e) && OnlyAt(s, key, names)
    ensures OnlyAt(Apply(s, e), key, names)
  {
    hide Enabled, Inv;
    var t := Apply(s, e);
    UsedGrows(s, e);
    forall n | n in t.secrets && Controlled(t.secrets[n]) && t.secrets[n].key == key
      ensures n in names
    {
      KeyAfter(s, e, n);
    }
  }

  /** A key never comes to a Secret that did not hold it when it was on record. */
  lemma {:induction false} OnlyAtForever(start: World, h: seq<Event>, i: nat, j: nat, key: string, names: set<Name>)
    requires Initial(start) && Legal(start, h) && i <= j <= |h| && OnlyAt(At(start, h, i), key, names)
    ensures OnlyAt(At(start, h, j), key, names)
  {
    hide At, Legal, Initial, Inv, Enabled, Apply, OnlyAt;
    if i < j {
      OnlyAtForever(start, h, i, j - 1, key, names);
      StepAt(start, h, j - 1);
      OnlyAtStep(At(start, h, j - 1), h[j - 1], key, names);
    }
  }

  /** The key in a Secret changes only at steps that change what it is bound to, so a retry cannot rotate again. */
  lemma KeyFollowsBinding(start: World, h: seq<Event>, i: nat, n: Name)
    requires Initial(start) && Legal(start, h) && i < |h|
    requires n in At(start, h, i).secrets && Controlled(At(start, h, i).secrets[n])
    requires n in At(start, h, i + 1).secrets && Controlled(At(start, h, i + 1).secrets[n])
    ensures var before, after := At(start, h, i).secrets[n], At(start, h, i + 1).secrets[n];
            before.key != after.key ==> before.binding != after.binding
  {
    hide At, Legal, Initial, Inv, Enabled, Apply;
    StepAt(start, h, i);
    var s, e := At(start, h, i), h[i];
    SecretStep(s, e, n);
    if e.Rewrite? && ChangeOk(e.change) {
      ChangedKey(s.secrets[n], e.change, e.token);
    }
  }

  /** Writing again, with any token, after a write that took effect changes nothing. */
  lemma RewriteSettles(sec: Secret, change: Change, token: string, again: string)
    requires ChangeOk(change)
    ensures Changed(Changed(sec, change, token), change, again) == Changed(sec, change, token)
  {
  }

  // ---------------------------------------------------------------------------------------------
  // Keys from before bindings
  // ---------------------------------------------------------------------------------------------

  /** An unbound Secret still has the key and labels it started with. */
  ghost predicate LegacyIntact(start: World, s: World) {
    forall n :: n in s.secrets && Controlled(s.secrets[n]) && s.secrets[n].binding == UNBOUND ==>
      && n in start.secrets
      && s.secrets[n].key == start.secrets[n].key
      && s.secrets[n].labels == start.secrets[n].labels
  }

  lemma LegacyStep(start: World, s: World, e: Event)
    requires Enabled(s, e) && LegacyIntact(start, s)
    ensures LegacyIntact(start, Apply(s, e))
  {
    hide Enabled, Apply;
    var t := Apply(s, e);
    forall n | n in t.secrets && Controlled(t.secrets[n]) && t.secrets[n].binding == UNBOUND
      ensures n in start.secrets && t.secrets[n].key == start.secrets[n].key && t.secrets[n].labels == start.secrets[n].labels
    {
      SecretStep(s, e, n);
      if e.Rewrite? && e.name == n && n in s.secrets && ChangeOk(e.change) {
        ChangedKey(s.secrets[n], e.change, e.token);
      }
    }
  }

  lemma {:induction false} LegacyKept(start: World, h: seq<Event>, i: nat)
    requires Initial(start) && Legal(start, h) && i <= |h|
    ensures LegacyIntact(start, At(start, h, i))
  {
    hide Legal, Inv, Enabled, Apply;
    if i > 0 {
      LegacyKept(start, h, i - 1);
      StepAt(start, h, i - 1);
      LegacyStep(start, At(start, h, i - 1), h[i - 1]);
    }
  }

  /** An unbound key comes to be bound, unchanged, only when a hosted instance is served that has the name
      and the selected slug with which the Secret was labelled from the start. */
  lemma LegacyAdoption(start: World, h: seq<Event>, i: nat, n: Name, key: string, b: Binding)
    requires Initial(start) && Legal(start, h) && i < |h|
    requires Holds(At(start, h, i), n, key, UNBOUND) && Holds(At(start, h, i + 1), n, key, b) && b != UNBOUND
    ensures h[i].Rewrite? && h[i].change.Serve? && n in start.secrets && start.secrets[n].key == key
    ensures var inst := h[i].change.ready;
            && !inst.byoc && b == Binding(inst.uid, "")
            && start.secrets[n].labels.instance == inst.name
            && start.secrets[n].labels.slug == h[i].change.slug != ""
  {
    hide At, Legal, Initial, Enabled, Apply;
    StepAt(start, h, i);
    LegacyKept(start, h, i);
    var s, e := At(start, h, i), h[i];
    SecretStep(s, e, n);
    ChangedKey(s.secrets[n], e.change, e.token);
  }

  /** The controller touches one Secret per step: a new name, or the very version it read of a Secret that
      the acting request controls. */
  lemma ForeignSecretsKept(s: World, e: Event)
    requires OpEnabled(s, e)
    ensures e.WriteRequest? ==> Apply(s, e).secrets == s.secrets && e.name in s.requests && s.requests[e.name] == e.was
    ensures !e.WriteRequest? ==>
              && Apply(s, e).secrets - {e.name} == s.secrets - {e.name}
              && (e.name in s.secrets ==> Owns(e.issuer, s.secrets[e.name]) && !e.Mint? && s.secrets[e.name].rv == e.rv)
  {
  }
}
