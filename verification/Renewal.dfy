/**
 Delivery of the serving certificate to a tenant cluster: freshly issued material is validated, kept in
 a last-valid cache on the service cluster, and copied to the tenant; while issuance fails, the cache
 supplies the material. Parsing, chain verification and the leaf fingerprint are parameters.
 */
module Renewal {
  import opened Calls

  type Data = map<string, string>

  const CERT_ENTRY := "tls.crt"
  const KEY_ENTRY := "tls.key"

  /** byocTLSRenewalMargin, in seconds. */
  const MARGIN := 120

  function Entry(d: Data, name: string): string {
    if name in d then d[name] else ""
  }

  /** copyBYOCTLSData: the certificate and its key, nothing else. */
  function Copy(d: Data): Data {
    map[CERT_ENTRY := Entry(d, CERT_ENTRY), KEY_ENTRY := Entry(d, KEY_ENTRY)]
  }

  // ---------------------------------------------------------------------------------------------
  // The Certificate specification
  // ---------------------------------------------------------------------------------------------

  datatype Field = Null | Bool(flag: bool) | Text(text: string) | Other(rendering: string)

  type Spec = map<string, Field>

  const CONTROLS := ["renew", "ensureRenewedAfter"]

  /** A renewal control that may be carried over: `renew` is a boolean, the other one a timestamp. */
  predicate ControlOk(name: string, value: Field, isTime: string -> bool) {
    if name == "renew" then value.Bool? else value.Text? && isTime(value.text)
  }

  predicate Given(spec: Spec, name: string) {
    name in spec && spec[name] != Null
  }

  /** The desired specification with those of the named controls that are set in `spec`. */
  function Merge(spec: Spec, desired: Spec, names: seq<string>): Spec {
    map name | name in desired.Keys + spec.Keys && (name in desired || (name in names && Given(spec, name))) ::
      if name in names && Given(spec, name) then spec[name] else desired[name]
  }

  function Merged(spec: Spec, desired: Spec): Spec {
    Merge(spec, desired, CONTROLS)
  }

  predicate ControlsOk(spec: Spec, isTime: string -> bool) {
    forall name :: name in CONTROLS && Given(spec, name) ==> ControlOk(name, spec[name], isTime)
  }

  lemma MergeStep(spec: Spec, desired: Spec, names: seq<string>, name: string)
    ensures Merge(spec, desired, names + [name]) ==
            if Given(spec, name) then Merge(spec, desired, names)[name := spec[name]] else Merge(spec, desired, names)
  {
  }

  /** preserveBYOCCertificateRenewal. */
  method PreserveRenewal(spec: Spec, desired: Spec, isTime: string -> bool) returns (ok: bool, merged: Spec)
    ensures ok <==> ControlsOk(spec, isTime)
    ensures ok ==> merged == Merged(spec, desired)
  {
    hide Merge;
    merged := desired;
    assert merged == Merge(spec, desired, []) by { NoControls(spec, desired); }
    for i := 0 to |CONTROLS|
      invariant forall name :: name in CONTROLS[..i] && Given(spec, name) ==> ControlOk(name, spec[name], isTime)
      invariant merged == Merge(spec, desired, CONTROLS[..i])
    {
      var name := CONTROLS[i];
      MergeStep(spec, desired, CONTROLS[..i], name);
      assert CONTROLS[..i + 1] == CONTROLS[..i] + [name];
      if Given(spec, name) {
        if !ControlOk(name, spec[name], isTime) {
          return false, merged;
        }
        merged := merged[name := spec[name]];
      }
    }
    assert CONTROLS[..|CONTROLS|] == CONTROLS;
    ok := true;
  }

  lemma NoControls(spec: Spec, desired: Spec)
    ensures Merge(spec, desired, []) == desired
  {
  }

  /** `spec` asks for exactly what is desired, give or take well-formed renewal controls. */
  predicate Converged(spec: Spec, desired: Spec, isTime: string -> bool) {
    ControlsOk(spec, isTime) && spec == Merged(spec, desired)
  }

  /** Convergence leaves subject, issuer, output and labels no freedom, and one write reaches it. */
  lemma ConvergedExactly(spec: Spec, desired: Spec, isTime: string -> bool)
    requires desired.Keys !! (set name | name in CONTROLS)
    ensures Converged(spec, desired, isTime) <==>
              && (forall name :: name in spec.Keys + desired.Keys && name !in CONTROLS ==>
                    name in spec && name in desired && spec[name] == desired[name])
              && ("renew" in spec ==> spec["renew"].Bool?)
              && ("ensureRenewedAfter" in spec ==> spec["ensureRenewedAfter"].Text? && isTime(spec["ensureRenewedAfter"].text))
    ensures ControlsOk(spec, isTime) ==> Converged(Merged(spec, desired), desired, isTime)
  {
    var merged := Merged(spec, desired);
    assert Merged(merged, desired) == merged;
    if Converged(spec, desired, isTime) {
      forall name | name in CONTROLS && name in spec
        ensures ControlOk(name, spec[name], isTime)
      {
        assert name in merged;
      }
      forall name | name in spec.Keys + desired.Keys && name !in CONTROLS
        ensures name in spec && name in desired && spec[name] == desired[name]
      {
        assert name in merged <==> name in desired;
      }
    } else if ControlsOk(spec, isTime) {
      var name :| (name in spec) != (name in merged) || (name in spec && spec[name] != merged[name]);
      assert name in CONTROLS ==> name !in desired;
    }
  }

  // ---------------------------------------------------------------------------------------------
  // Choosing the material
  // ---------------------------------------------------------------------------------------------

  datatype PublicKey = Rsa(bits: nat) | Ecdsa(bits: nat) | OtherKey

  /** What the checks look at in a leaf certificate; `otherNames` counts its IP, e-mail and URI names. */
  datatype Leaf = Leaf(
    isCA: bool, dnsNames: seq<string>, otherNames: nat, serverAuth: bool, notBefore: nat, notAfter: nat, key: PublicKey)

  /** X.509 for one hostname: `pair` parses a certificate with the key that matches it, `chain` verifies the chain
      up to the roots for `host` at a time. */
  datatype Pki = Pki(
    host: string, pair: (string, string) -> Option<Leaf>, chain: (string, string, nat) -> bool, fingerprint: string -> string)

  predicate StrongKey(key: PublicKey) {
    match key
    case Rsa(bits) => bits >= 2048
    case Ecdsa(bits) => bits >= 256
    case OtherKey => false
  }

  /** validateBYOCTLSMaterial succeeds. */
  predicate Usable(pki: Pki, d: Data, now: nat) {
    var crt := Entry(d, CERT_ENTRY);
    var pair := pki.pair(crt, Entry(d, KEY_ENTRY));
    pair.Some? &&
    var leaf := pair.value;
    && !leaf.isCA && |leaf.dnsNames| == 1 && leaf.dnsNames[0] == pki.host && leaf.otherNames == 0
    && now < leaf.notAfter - MARGIN && leaf.notBefore <= now
    && leaf.serverAuth && StrongKey(leaf.key)
    && pki.chain(crt, pki.host, now)
  }

  function Revision(pki: Pki, d: Data): string {
    pki.fingerprint(Entry(d, CERT_ENTRY))
  }

  /** The Certificate. `current` means state Ready, observed at the current generation. */
  datatype Request = Request(owned: bool, deleting: bool, converged: bool, revoked: bool, current: bool)

  /** `bound` abstracts the owner, target, type and Certificate-UID checks of the Secret's place. */
  datatype Secret = Secret(bound: bool, marked: bool, deleting: bool, data: Data)

  /** `validated` and `revoked` record the past: what was validated when, and every pair of certificate and key
      that a revocation was ever seen to concern. */
  datatype World = World(
    now: nat, cert: Option<Request>, source: Option<Secret>, cache: Option<Secret>, remote: Option<Secret>,
    validated: set<(Data, nat)>, revoked: set<Data>)

  datatype Choice = Chosen(data: Data, issued: bool) | NotReady | Refused

  /** Issued material that may be delivered right now. */
  predicate Fresh(pki: Pki, cert: Request, source: Option<Secret>, now: nat) {
    source.Some? && cert.current && Usable(pki, source.value.data, now)
  }

  function FromCache(pki: Pki, cache: Option<Secret>, now: nat): Choice {
    if cache.None? then NotReady
    else if !cache.value.bound then Refused
    else if !Usable(pki, cache.value.data, now) then NotReady
    else Chosen(cache.value.data, false)
  }

  /** What reconcileBYOCTLSSecret decides to deliver, from what it reads. */
  function Choose(pki: Pki, cert: Option<Request>, source: Option<Secret>, cache: Option<Secret>, now: nat): Choice {
    if cert.None? || !cert.value.owned then Refused
    else if cert.value.deleting || !cert.value.converged || cert.value.revoked then NotReady
    else if source.Some? && !source.value.bound then Refused
    else if source.Some? && source.value.marked then NotReady
    else if Fresh(pki, cert.value, source, now) then Chosen(source.value.data, true)
    else FromCache(pki, cache, now)
  }

  predicate CertRevoked(s: World) {
    s.cert.Some? && s.cert.value.revoked
  }

  /** The pairs that a revocation concerns right now: what the source Secret holds if that is marked, and if the
      Certificate itself is revoked, what the source Secret and the cache hold. */
  function RevokedNow(s: World): set<Data> {
    (if s.source.Some? && (s.source.value.marked || CertRevoked(s)) then {Copy(s.source.value.data)} else {})
    + (if s.cache.Some? && s.cache.value.bound && CertRevoked(s) then {Copy(s.cache.value.data)} else {})
  }

  predicate OnRecord(s: World) {
    RevokedNow(s) <= s.revoked
  }

  /** The record brought up to date. */
  function Noted(s: World): World {
    s.(revoked := s.revoked + RevokedNow(s))
  }

  /** A source Secret that holds a revoked pair shows it, by its own mark or by that of its Certificate. */
  predicate MarksFaithful(s: World) {
    s.source.Some? && Copy(s.source.value.data) in s.revoked ==> s.source.value.marked || CertRevoked(s)
  }

  /** A pair on record does not come back into the source Secret unmarked, and does not lose its mark there. */
  predicate NotRepublished(s: World, t: World) {
    t.source.Some? && Copy(t.source.value.data) in s.revoked && !t.source.value.marked ==>
      s.source.Some? && Copy(s.source.value.data) == Copy(t.source.value.data) && !s.source.value.marked
  }

  function ChooseIn(pki: Pki, s: World): Choice {
    Choose(pki, s.cert, s.source, s.cache, s.now)
  }

  /** A caller can tell beforehand that nothing revoked will be served: either fresh material is at hand, or
      what the cache holds was never revoked. */
  predicate CacheSafe(pki: Pki, s: World) {
    || (s.cert.Some? && Fresh(pki, s.cert.value, s.source, s.now))
    || (s.cache.Some? ==> Copy(s.cache.value.data) !in s.revoked)
  }

  /** Whenever material is chosen, it is free of revocation, from whichever side that was seen, exactly when
      CacheSafe. */
  lemma RevokedExactly(pki: Pki, s: World)
    requires MarksFaithful(s) && ChooseIn(pki, s).Chosen?
    ensures Copy(ChooseIn(pki, s).data) !in s.revoked <==> CacheSafe(pki, s)
  {
  }

  // ---------------------------------------------------------------------------------------------
  // Runs
  // ---------------------------------------------------------------------------------------------

  /** What the surroundings may do: time passes, the certificate controller changes Certificate and source
      Secret, the tenant changes the tenant's Secret. The cache may be removed, marked for deletion or
      replaced by something foreign, but only the operator writes a bound cache. */
  predicate EnvStep(s: World, t: World) {
    && s.now <= t.now && t.validated == s.validated && s.revoked <= t.revoked
    && OnRecord(t) && MarksFaithful(t) && NotRepublished(s, t)
    && CacheKept(s, t)
  }

  predicate CacheKept(s: World, t: World) {
    t.cache.Some? && t.cache.value.bound ==>
      s.cache.Some? && s.cache.value.bound && t.cache.value.data == s.cache.value.data
  }

  lemma EnvTrans(a: World, b: World, c: World)
    requires EnvStep(a, b) && EnvStep(b, c)
    ensures EnvStep(a, c)
  {
  }

  /** Revocation does not reach the cache: material delivered once, then revoked through its source Secret or
      through its Certificate, is delivered again when the next issuance has replaced the source Secret but is
      not Ready yet. */
  lemma RevokedMaterialReturns(pki: Pki, m: Data, next: Data, now: nat, bySource: bool)
    requires m == Copy(m) != Copy(next) && Usable(pki, m, now)
    ensures var ready := Request(true, false, true, false, true);
            var held := Secret(true, false, false, m);
            var s0 := World(now, Some(ready), Some(held), Some(held), Some(held), {(m, now)}, {});
            var s1 := s0.(cert := Some(ready.(revoked := !bySource)), source := Some(held.(marked := bySource)), revoked := {m});
            var s2 := s1.(cert := Some(ready.(current := false)), source := Some(held.(data := next)));
            && OnRecord(s0) && MarksFaithful(s0) && EnvStep(s0, s1) && EnvStep(s1, s2)
            && ChooseIn(pki, s0) == Chosen(m, true) && !ChooseIn(pki, s1).Chosen?
            && ChooseIn(pki, s2) == Chosen(m, false) && m in s2.revoked && !CacheSafe(pki, s2)
  {
  }

  /** What shows no revocation when the Certificate is read cannot turn out to hold a pair on record by then. */
  lemma FreshUnrevoked(s: World, t: World)
    requires MarksFaithful(s) && !CertRevoked(s) && EnvStep(s, t)
    requires t.source.Some? && !t.source.value.marked
    ensures Copy(t.source.value.data) !in s.revoked
  {
  }

  datatype Err = Ok | Waiting | Failed

  datatype Place = Cache | Remote

  function Slot(s: World, p: Place): Option<Secret> {
    if p.Cache? then s.cache else s.remote
  }

  /** Create the Secret, or replace the data of the one that is there. */
  function SetSlot(s: World, p: Place, d: Data): World {
    var slot := Slot(s, p);
    var secret := if slot.Some? then slot.value.(data := d) else Secret(true, false, false, d);
    if p.Cache? then s.(cache := Some(secret)) else s.(remote := Some(secret))
  }

  /** writeBYOCTLSSecret without failures: refuses foreign and leaves deleted Secrets, and otherwise leaves
      exactly the copied pair. */
  ghost predicate WriteSpec(s: World, t: World, p: Place, d: Data, err: Err) {
    var slot := Slot(s, p);
    if slot.Some? && !slot.value.bound then err == Failed && t == s
    else if slot.Some? && slot.value.deleting then err == Waiting && t == s
    else err == Ok && t == Noted(SetSlot(s, p, Copy(d)))
  }

  /** One attempt to hand material to the tenant, and what it was decided on; `revoked` is what was on record when
      the Certificate was read. */
  datatype Delivery = Delivery(
    cert: Option<Request>, source: Option<Secret>, cache: Option<Secret>, now: nat, data: Data, revision: string,
    revoked: set<Data>)

  /** CacheSafe, for what an attempt was decided on. */
  predicate SafeAt(pki: Pki, d: Delivery) {
    || (d.cert.Some? && Fresh(pki, d.cert.value, d.source, d.now))
    || (d.cache.Some? ==> Copy(d.cache.value.data) !in d.revoked)
  }

  /** The decision was Choose's, on material usable at the time, the revision names it, and it is of revoked
      material exactly when it was not safe. */
  ghost predicate DeliveryOk(pki: Pki, d: Delivery) {
    var c := Choose(pki, d.cert, d.source, d.cache, d.now);
    && c.Chosen? && c.data == d.data && Usable(pki, d.data, d.now) && d.revision == Revision(pki, d.data)
    && (Copy(d.data) !in d.revoked <==> SafeAt(pki, d))
  }

  /** The cache holds nothing but material that was validated for this host. */
  ghost predicate CacheInv(pki: Pki, s: World) {
    && OnRecord(s) && MarksFaithful(s)
    && (forall v :: v in s.validated ==> v.1 <= s.now && Usable(pki, v.0, v.1))
    && (s.cache.Some? && s.cache.value.bound ==>
          var d := s.cache.value.data;
          d == Copy(d) && exists at :: (d, at) in s.validated)
  }

  predicate Writable(slot: Option<Secret>) {
    slot.Some? ==> slot.value.bound && !slot.value.deleting
  }

  lemma CopyUsable(pki: Pki, d: Data, now: nat)
    ensures Usable(pki, Copy(d), now) == Usable(pki, d, now) && Revision(pki, Copy(d)) == Revision(pki, d)
    ensures Copy(Copy(d)) == Copy(d)
  {
  }

  lemma CopyTwice(d: Data)
    ensures Copy(Copy(d)) == Copy(d)
  {
  }

  lemma NotedSame(s: World)
    requires OnRecord(s)
    ensures Noted(s) == s
  {
    assert s.revoked + RevokedNow(s) == s.revoked;
  }

  /** The operator's own writes keep the record faithful. */
  lemma SlotNoted(s: World, p: Place, d: Data)
    requires OnRecord(s) && MarksFaithful(s)
    ensures var t := Noted(SetSlot(s, p, d));
            && OnRecord(t) && MarksFaithful(t) && s.revoked <= t.revoked
            && (!CertRevoked(s) ==> t == SetSlot(s, p, d))
            && t.now == s.now && t.validated == s.validated && Slot(t, p) == Slot(SetSlot(s, p, d), p)
            && (p.Remote? ==> t.cache == s.cache) && (p.Cache? ==> t.remote == s.remote)
  {
    var u := SetSlot(s, p, d);
    assert RevokedNow(Noted(u)) == RevokedNow(u);
    if !CertRevoked(s) {
      assert RevokedNow(u) <= s.revoked;
      NotedSame(u);
    }
  }

  class Courier {
    var s: World
    ghost var log: seq<Delivery>
    const pki: Pki
    /** In calm runs nobody interferes and no call fails. */
    const calm: bool

    ghost predicate Valid()
      reads this
    {
      CacheInv(pki, s) && forall d :: d in log ==> DeliveryOk(pki, d)
    }

    constructor (pki: Pki, calm: bool, start: World)
      requires start.cache.None? && start.validated == {}
      requires OnRecord(start) && MarksFaithful(start)
      ensures Valid() && s == start && log == [] && this.pki == pki && this.calm == calm
    {
      s, log, this.pki, this.calm := start, [], pki, calm;
    }

    /** Any number of actions of the surroundings. */
    method Interfere()
      requires Valid()
      modifies this`s
      ensures Valid() && EnvStep(old(s), s)
      ensures calm ==> s == old(s)
    {
      var n :| 0 <= n;
      for i := 0 to n
        invariant Valid() && EnvStep(old(s), s)
        invariant calm ==> s == old(s)
      {
        var t: World := *;
        if !calm && EnvStep(s, t) {
          EnvTrans(old(s), s, t);
          s := t;
        }
      }
    }

    /** writeBYOCTLSSecret. */
    method WriteSecret(p: Place, d: Data) returns (err: Err)
      requires Valid()
      requires exists at :: (Copy(d), at) in s.validated
      modifies this`s
      ensures Valid() && old(s.now) <= s.now && old(s.validated) <= s.validated && old(s.revoked) <= s.revoked
      ensures err == Ok ==> Slot(s, p).Some? && Slot(s, p).value.bound && Slot(s, p).value.data == Copy(d)
      ensures p.Remote? ==> CacheKept(old(s), s)
      ensures calm ==> WriteSpec(old(s), s, p, d, err)
    {
      hide OnRecord, MarksFaithful, NotRepublished, Usable;
      Interfere();
      NotedSame(s);
      var fails := DrawFailure(calm);
      if fails {
        return Failed;
      }
      var slot := Slot(s, p);
      if slot.Some? {
        if !slot.value.bound {
          return Failed;
        }
        if slot.value.deleting {
          return Waiting;
        }
        if slot.value.data == Copy(d) {
          return Ok;
        }
      }
      Interfere();
      CopyTwice(d);
      var fate := DrawFate(calm);
      if fate.Lost? || Slot(s, p) != slot {
        return Failed;
      }
      SlotNoted(s, p, Copy(d));
      s := Noted(SetSlot(s, p, Copy(d)));
      return if fate.Acknowledged? then Ok else Failed;
    }

    /** The material to deliver, with what was read to decide on it. Freshly issued material is cached first. */
    method ChooseMaterial() returns (err: Err, d: Delivery)
      requires Valid()
      modifies this`s
      ensures Valid() && old(s.now) <= s.now
      ensures err == Ok ==>
                && DeliveryOk(pki, d) && old(s.now) <= d.now <= s.now && old(s.revoked) <= d.revoked <= s.revoked
                && (exists at :: (Copy(d.data), at) in s.validated)
                && s.cache.Some? && s.cache.value.bound && s.cache.value.data == Copy(d.data)
      ensures calm ==>
                var c := ChooseIn(pki, old(s));
                && s == old(s).(cache := s.cache, validated := s.validated)
                && (err == Ok <==> c.Chosen? && (c.issued ==> Writable(old(s.cache))))
                && (err == Ok ==> d.data == c.data)
                && (!(c.Chosen? && c.issued && err == Ok) ==> s.cache == old(s.cache))
    {
      hide CacheInv, Copy, Usable;
      d := Delivery(None, None, None, s.now, map[], "", {});
      Interfere();
      var fails := DrawFailure(calm);
      if fails || s.cert.None? || !s.cert.value.owned {
        return Failed, d;
      }
      var cert := s.cert.value;
      if cert.deleting || !cert.converged || cert.revoked {
        return Waiting, d;
      }
      var now, known := s.now, s.revoked;
      ghost var read := s;
      Interfere();
      fails := DrawFailure(calm);
      if fails {
        return Failed, d;
      }
      var source := s.source;
      if source.Some? {
        if !source.value.bound {
          return Failed, d;
        }
        if source.value.marked {
          return Waiting, d;
        }
        if cert.current && Usable(pki, source.value.data, now) {
          FreshUnrevoked(read, s);
          err, d := UseIssued(cert, source.value, now, known);
          return;
        }
      }
      err, d := UseCache(cert, source, now, known);
    }

    /** Freshly issued material goes to the cache first. */
    method UseIssued(cert: Request, source: Secret, now: nat, known: set<Data>) returns (err: Err, d: Delivery)
      requires Valid() && now <= s.now
      requires cert.owned && !cert.deleting && cert.converged && !cert.revoked && cert.current
      requires source.bound && !source.marked && Usable(pki, source.data, now) && Copy(source.data) !in known
      modifies this`s
      ensures Valid() && old(s.now) <= s.now && old(s.revoked) <= s.revoked
      ensures d == Delivery(Some(cert), Some(source), None, now, source.data, Revision(pki, source.data), known) && DeliveryOk(pki, d)
      ensures err == Ok ==>
                && (exists at :: (Copy(d.data), at) in s.validated)
                && s.cache.Some? && s.cache.value.bound && s.cache.value.data == Copy(d.data)
      ensures calm ==>
                && s == old(s).(cache := s.cache, validated := s.validated, revoked := s.revoked)
                && (!CertRevoked(old(s)) ==> s.revoked == old(s.revoked))
                && (err == Ok <==> Writable(old(s.cache))) && (err != Ok ==> s.cache == old(s.cache))
    {
      var data := source.data;
      d := Delivery(Some(cert), Some(source), None, now, data, Revision(pki, data), known);
      CopyUsable(pki, data, now);
      s := s.(validated := s.validated + {(Copy(data), now)});
      err := WriteSecret(Cache, data);
    }

    method UseCache(cert: Request, source: Option<Secret>, now: nat, known: set<Data>) returns (err: Err, d: Delivery)
      requires Valid() && now <= s.now
      requires cert.owned && !cert.deleting && cert.converged && !cert.revoked && !Fresh(pki, cert, source, now)
      requires source.Some? ==> source.value.bound && !source.value.marked
      modifies this`s
      ensures Valid() && EnvStep(old(s), s)
      ensures err == Ok ==>
                && DeliveryOk(pki, d) && d.now == now && d.revoked == known
                && (exists at :: (Copy(d.data), at) in s.validated)
                && s.cache.Some? && s.cache.value.bound && s.cache.value.data == Copy(d.data)
      ensures calm ==>
                var c := FromCache(pki, old(s.cache), now);
                && s == old(s) && (err == Ok <==> c.Chosen?)
                && (err == Ok ==> d.data == c.data)
    {
      d := Delivery(None, None, None, now, map[], "", {});
      Interfere();
      var fails := DrawFailure(calm);
      if fails {
        return Failed, d;
      }
      var cache := s.cache;
      if cache.None? {
        return Waiting, d;
      }
      if !cache.value.bound {
        return Failed, d;
      }
      if !Usable(pki, cache.value.data, now) {
        return Waiting, d;
      }
      return Ok, Delivery(Some(cert), source, cache, now, cache.value.data, Revision(pki, cache.value.data), known);
    }

    /** reconcileBYOCTLSSecret. A success leaves the tenant's Secret and the cache with the same pair, usable
        when the call read the clock, and returns its fingerprint; every attempt is one Choose decided on,
        and hands over a pair revoked before the call exactly when the decision was not safe. */
    method Deliver() returns (err: Err, revision: string)
      requires Valid()
      modifies this
      ensures Valid() && old(log) <= log && |log| <= |old(log)| + 1 && (err != Ok ==> revision == "")
      ensures err == Ok ==>
                && |log| == |old(log)| + 1
                && var d := log[|old(log)|];
                   && revision == d.revision && old(s.now) <= d.now <= s.now && old(s.revoked) <= d.revoked
                   && s.remote.Some? && s.remote.value.bound && s.remote.value.data == Copy(d.data)
                   && (s.cache.Some? && s.cache.value.bound ==> s.cache.value.data == Copy(d.data))
      ensures calm ==>
                var c := ChooseIn(pki, old(s));
                && (err == Ok <==> c.Chosen? && (c.issued ==> Writable(old(s.cache))) && Writable(old(s.remote)))
                && (err == Ok ==> revision == Revision(pki, c.data) && s.remote.value.data == Copy(c.data)
                                  && s.cache.Some? && s.cache.value.data == Copy(c.data))
                && s == old(s).(cache := s.cache, remote := s.remote, validated := s.validated)
                && (err != Ok ==> s.remote == old(s.remote))
    {
      revision := "";
      var d;
      err, d := ChooseMaterial();
      if err != Ok {
        return;
      }
      log := log + [d];
      err := WriteSecret(Remote, d.data);
      if err == Ok {
        revision := d.revision;
      }
    }

    /** Any run: the surroundings act, deliveries are attempted. */
    method Run(rounds: nat)
      requires Valid()
      modifies this
      ensures Valid() && old(log) <= log
    {
      for n := 0 to rounds
        invariant Valid() && old(log) <= log
      {
        Interfere();
        var _, _ := Deliver();
      }
    }
  }

  /** Whatever is delivered was, when the clock was read, a key with its certificate for exactly this host, strong, for
      servers, verified up to the roots, and valid for more than the renewal margin. */
  lemma DeliveredServes(pki: Pki, d: Delivery)
    requires DeliveryOk(pki, d)
    ensures pki.pair(Entry(d.data, "tls.crt"), Entry(d.data, "tls.key")).Some?
    ensures pki.chain(Entry(d.data, "tls.crt"), pki.host, d.now)
    ensures var leaf := pki.pair(Entry(d.data, "tls.crt"), Entry(d.data, "tls.key")).value;
            && leaf.dnsNames == [pki.host] && leaf.otherNames == 0 && !leaf.isCA && leaf.serverAuth
            && leaf.notBefore <= d.now && d.now + 120 < leaf.notAfter
            && ((leaf.key.Rsa? && leaf.key.bits >= 2048) || (leaf.key.Ecdsa? && leaf.key.bits >= 256))
    ensures d.revision == pki.fingerprint(Entry(d.data, "tls.crt"))
  {
  }

  /** So is whatever the cache holds, as of some time in the past. */
  lemma CachedServes(pki: Pki, s: World)
    requires CacheInv(pki, s) && s.cache.Some? && s.cache.value.bound
    ensures var crt, key := Entry(s.cache.value.data, "tls.crt"), Entry(s.cache.value.data, "tls.key");
            && s.cache.value.data == map["tls.crt" := crt, "tls.key" := key] && pki.pair(crt, key).Some?
            && var leaf := pki.pair(crt, key).value;
               && leaf.dnsNames == [pki.host] && leaf.otherNames == 0 && !leaf.isCA && leaf.serverAuth && StrongKey(leaf.key)
               && exists at: nat :: at <= s.now && leaf.notBefore <= at && at + 120 < leaf.notAfter && pki.chain(crt, pki.host, at)
  {
    var d := s.cache.value.data;
    var at :| (d, at) in s.validated;
    assert at <= s.now && Usable(pki, d, at);
    assert d == map["tls.crt" := Entry(d, "tls.crt"), "tls.key" := Entry(d, "tls.key")] by { assert d == Copy(d); }
  }

  /** A source pair that fails a check is not handed over, from wherever it may come. */
  lemma BadPairWithheld(pki: Pki, s: World)
    requires s.source.Some? && ChooseIn(pki, s).Chosen?
    requires var crt, key := Entry(s.source.value.data, "tls.crt"), Entry(s.source.value.data, "tls.key");
             var pair := pki.pair(crt, key);
             || pair.None? || !pki.chain(crt, pki.host, s.now)
             || pair.value.dnsNames != [pki.host] || pair.value.otherNames > 0 || pair.value.isCA || !pair.value.serverAuth
             || s.now < pair.value.notBefore || s.now + 120 >= pair.value.notAfter
             || pair.value.key.OtherKey? || pair.value.key.bits < (if pair.value.key.Rsa? then 2048 else 256)
    ensures Copy(ChooseIn(pki, s).data) != Copy(s.source.value.data)
  {
    var d := ChooseIn(pki, s).data;
    CopyUsable(pki, d, s.now);
    CopyUsable(pki, s.source.value.data, s.now);
    assert Usable(pki, d, s.now) && !Usable(pki, s.source.value.data, s.now);
  }

  /** The decision, outcome by outcome. Nothing is taken from the source Secret but usable, unrevoked material of a
      current Certificate, and the cache is asked only for want of it. */
  lemma ChooseExactly(pki: Pki, cert: Option<Request>, source: Option<Secret>, cache: Option<Secret>, now: nat, d: Data)
    ensures var ready := cert.Some? && cert.value.owned && !cert.value.deleting && cert.value.converged && !cert.value.revoked;
            var clear := source.Some? ==> source.value.bound && !source.value.marked;
            var issued := ready && clear && source.Some? && cert.value.current && Usable(pki, source.value.data, now);
            var c := Choose(pki, cert, source, cache, now);
            && (c == Chosen(d, true) <==> issued && d == source.value.data)
            && (c == Chosen(d, false) <==>
                  ready && clear && !issued && cache.Some? && cache.value.bound && Usable(pki, cache.value.data, now) && d == cache.value.data)
            && (c == Refused <==>
                  || cert.None? || !cert.value.owned
                  || (ready && source.Some? && !source.value.bound)
                  || (ready && clear && !issued && cache.Some? && !cache.value.bound))
  {
  }

  /** A pair delivered within the renewal margin of reading the clock has not expired on arrival. */
  lemma AliveOnArrival(pki: Pki, d: Delivery, arrival: nat)
    requires DeliveryOk(pki, d) && d.now <= arrival <= d.now + MARGIN
    ensures var leaf := pki.pair(Entry(d.data, CERT_ENTRY), Entry(d.data, KEY_ENTRY));
            leaf.Some? && leaf.value.notBefore <= arrival < leaf.value.notAfter
  {
  }
}
