/** The verifier of API keys, which reads the store independently of the token controller. */
module Auth {
  import opened Calls
  import opened Tokens
  import Names

  /** What a route names: the instance and the slug it is served under. */
  datatype Route = Route(ns: string, name: string, uid: nat, slug: string)

  datatype Verdict = Decided(allowed: bool) | LookupError

  /** Query parameters: the values given for each name, in order. */
  type Query = map<string, seq<string>>

  const PARAMETERS := ["namespace", "instance", "uid", "slug"]

  /** strings.TrimSpace leaves nothing. */
  predicate Blank(s: string) {
    forall c :: c in s ==> Names.IsSpace(c)
  }

  predicate Single(query: Query, key: string) {
    key in query && |query[key]| == 1 && !Blank(query[key][0])
  }

  /** The raw route of a request: the four parameters, each given exactly once. */
  datatype RawRoute = RawRoute(ns: string, name: string, uid: string, slug: string)

  /** parseBinding. Every parameter must be there once and not blank, and the three names well-formed. */
  method ParseBinding(query: Query) returns (ok: bool, b: RawRoute)
    ensures ok <==>
              && Single(query, "namespace") && Single(query, "instance") && Single(query, "uid") && Single(query, "slug")
              && Names.IsLabel(query["namespace"][0]) && Names.IsSubdomain(query["instance"][0])
              && Names.IsLabelValue(query["slug"][0])
    ensures ok ==> b == RawRoute(query["namespace"][0], query["instance"][0], query["uid"][0], query["slug"][0])
  {
    b := RawRoute("", "", "", "");
    assert PARAMETERS[0] == "namespace" && PARAMETERS[1] == "instance" && PARAMETERS[2] == "uid" && PARAMETERS[3] == "slug";
    for i := 0 to |PARAMETERS|
      invariant forall j :: 0 <= j < i ==> Single(query, PARAMETERS[j])
    {
      if !Single(query, PARAMETERS[i]) {
        return false, b;
      }
    }
    assert forall j :: 0 <= j < |PARAMETERS| ==> Single(query, PARAMETERS[j]);
    b := RawRoute(query["namespace"][0], query["instance"][0], query["uid"][0], query["slug"][0]);
    ok := Names.IsLabel(b.ns) && Names.IsSubdomain(b.name) && Names.IsLabelValue(b.slug);
  }

  /** The instance exists as the route names it, under its policy-selected slug, hosted and not going away. */
  predicate RouteOk(s: World, b: Route) {
    var n := Name(b.ns, b.name);
    n in s.insts &&
    var inst := s.insts[n];
    && inst.selection == Some(Selection(b.slug, inst.source)) && inst.slug == b.slug
    && inst.uid == b.uid && !inst.deleting && !inst.byoc
  }

  /** The Secret's own part of the ownership relation. */
  predicate SecretOk(b: Route, sec: Secret) {
    && sec.opaqueType && !sec.deleting
    && sec.labels.instance == b.name && sec.binding == Binding(b.uid, "")
    && sec.owner.Some? && sec.owner.value.uid != 0
  }

  /** The request's part: it still is the owner, wants this instance, and points at this very Secret. */
  predicate RequestOk(b: Route, n: Name, sec: Secret, r: Request) {
    && sec.owner.Some? && r.uid == sec.owner.value.uid && !r.deleting && r.instanceName == b.name
    && r.secretName == n.id && r.observed == r.generation && sec.labels.request == r.name
  }

  /** The ownership relation between a route and a stored Secret. */
  predicate OwnsToken(s: World, b: Route, n: Name) {
    n in s.secrets && n.ns == b.ns &&
    var sec := s.secrets[n];
    && SecretOk(b, sec)
    && var at := Name(b.ns, sec.owner.value.name);
       at in s.requests && RequestOk(b, n, sec, s.requests[at])
  }

  /** The token is good for the route: some Secret listed under the slug holds it and passes the relation. */
  ghost predicate Accepts(s: World, b: Route, token: string) {
    RouteOk(s, b) && exists n :: n in s.secrets && s.secrets[n].labels.slug == b.slug && s.secrets[n].key == token && OwnsToken(s, b, n)
  }

  /** `items` is the answer to listing the namespace by slug label, in whatever order. */
  ghost predicate Listing(s: World, ns: string, slug: string, items: seq<Name>) {
    forall n :: n in items <==> n in s.secrets && n.ns == ns && s.secrets[n].labels.slug == slug
  }

  /** ownsToken, with requests whose lookup fails. */
  method CheckOwner(s: World, b: Route, n: Name, broken: set<Name>) returns (v: Verdict)
    requires n in s.secrets && n.ns == b.ns
    ensures v.Decided? ==> v.allowed == OwnsToken(s, b, n)
    ensures v.LookupError? <==> SecretOk(b, s.secrets[n]) && Name(b.ns, s.secrets[n].owner.value.name) in broken
  {
    var sec := s.secrets[n];
    if !SecretOk(b, sec) {
      return Decided(false);
    }
    var at := Name(b.ns, sec.owner.value.name);
    if at in broken {
      return LookupError;
    }
    if at !in s.requests {
      return Decided(false);
    }
    return Decided(RequestOk(b, n, sec, s.requests[at]));
  }

  /** authorize. An error never allows anything; without errors the answer is exact. */
  method Authorize(s: World, b: Route, token: string, items: seq<Name>, broken: set<Name>) returns (v: Verdict)
    requires Listing(s, b.ns, b.slug, items)
    ensures v == Decided(true) ==> Accepts(s, b, token)
    ensures v == Decided(false) ==> !Accepts(s, b, token)
    ensures v.LookupError? ==>
              RouteOk(s, b) && exists n :: n in items && s.secrets[n].key == token && SecretOk(b, s.secrets[n])
                                           && Name(b.ns, s.secrets[n].owner.value.name) in broken
  {
    if !RouteOk(s, b) {
      return Decided(false);
    }
    for i := 0 to |items|
      invariant forall j :: 0 <= j < i ==> !(s.secrets[items[j]].key == token && OwnsToken(s, b, items[j]))
    {
      if s.secrets[items[i]].key != token {
        continue;
      }
      var owner := CheckOwner(s, b, items[i], broken);
      if owner.LookupError? || owner.allowed {
        return owner;
      }
    }
    forall n | n in s.secrets && s.secrets[n].labels.slug == b.slug && s.secrets[n].key == token
      ensures !OwnsToken(s, b, n)
    {
      if n in items {
        var j :| 0 <= j < |items| && items[j] == n;
      }
    }
    return Decided(false);
  }

  /** Spelled out: the route names a live hosted instance under its selected and persisted slug, and a live opaque Secret
      with this key, labelled for the instance and bound to its UID, is controlled by a live request that names the
      instance, points at this Secret, is observed at its generation and labels it. */
  lemma AcceptsExactly(s: World, b: Route, token: string)
    ensures Accepts(s, b, token) <==>
              && Name(b.ns, b.name) in s.insts
              && (var inst := s.insts[Name(b.ns, b.name)];
                  && inst.uid == b.uid && inst.slug == b.slug && inst.selection == Some(Selection(b.slug, inst.source))
                  && !inst.deleting && !inst.byoc)
              && exists n :: n in s.secrets && n.ns == b.ns &&
                   var sec := s.secrets[n];
                   && sec.key == token && sec.opaqueType && !sec.deleting
                   && sec.labels.instance == b.name && sec.labels.slug == b.slug && sec.binding == Binding(b.uid, "")
                   && sec.owner.Some? && sec.owner.value.uid != 0 && Name(b.ns, sec.owner.value.name) in s.requests
                   && var r := s.requests[Name(b.ns, sec.owner.value.name)];
                      && r.uid == sec.owner.value.uid && !r.deleting && r.instanceName == b.name
                      && r.secretName == n.id && r.observed == r.generation && sec.labels.request == r.name
  {
    if Accepts(s, b, token) {
      var n :| n in s.secrets && s.secrets[n].labels.slug == b.slug && s.secrets[n].key == token && OwnsToken(s, b, n);
      assert n.ns == b.ns;
    } else if RouteOk(s, b) {
      assert forall n :: n in s.secrets && s.secrets[n].labels.slug == b.slug && s.secrets[n].key == token ==> !OwnsToken(s, b, n);
    }
  }

  // ---------------------------------------------------------------------------------------------
  // Revocation
  // ---------------------------------------------------------------------------------------------

  /** The key of a Secret is refused on every route as soon as its Secret or request is marked for deletion, the request is
      gone or replaced, names another instance, points elsewhere or is not observed, or the instance is gone, marked or BYOC. */
  lemma Revoked(s: World, n: Name, b: Route)
    requires Tokens.Inv(s) && n in s.secrets && s.secrets[n].owner.Some?
    requires var sec, at, home := s.secrets[n], Name(n.ns, s.secrets[n].owner.value.name), Name(b.ns, b.name);
             || sec.deleting || !sec.opaqueType || sec.labels.instance != b.name || sec.labels.slug != b.slug
             || at !in s.requests || s.requests[at].uid != sec.owner.value.uid || s.requests[at].deleting
             || s.requests[at].instanceName != b.name || s.requests[at].secretName != n.id
             || s.requests[at].observed != s.requests[at].generation
             || home !in s.insts || s.insts[home].deleting || s.insts[home].byoc || s.insts[home].uid != b.uid
    ensures !Accepts(s, b, s.secrets[n].key)
  {
    if Accepts(s, b, s.secrets[n].key) {
      AcceptsExactly(s, b, s.secrets[n].key);
      var _ := AcceptedHolds(s, b, s.secrets[n].key);
    }
  }

  lemma HeldOnlyThere(s: World, n: Name, key: string)
    requires Tokens.Inv(s) && n in s.secrets && Controlled(s.secrets[n]) && s.secrets[n].key == key
    ensures OnlyAt(s, key, {n})
  {
  }

  lemma NotHeldRefused(s: World, b: Route, key: string)
    requires OnlyAt(s, key, {})
    ensures !Accepts(s, b, key)
  {
  }

  /** Once the Secret that held a key is gone, given up or has another key, no route ever accepts that key again. */
  lemma RevokedForever(start: World, h: seq<Event>, i: nat, n: Name, k: nat, j: nat, b: Route, key: string)
    requires Initial(start) && Legal(start, h) && i <= k <= j <= |h|
    requires n in At(start, h, i).secrets && Controlled(At(start, h, i).secrets[n]) && At(start, h, i).secrets[n].key == key
    requires var t := At(start, h, k); n !in t.secrets || !Controlled(t.secrets[n]) || t.secrets[n].key != key
    ensures !Accepts(At(start, h, j), b, key)
  {
    hide At, Legal, Initial, Tokens.Inv, Accepts;
    StepAt(start, h, i);
    HeldOnlyThere(At(start, h, i), n, key);
    OnlyAtForever(start, h, i, k, key, {n});
    assert OnlyAt(At(start, h, k), key, {});
    OnlyAtForever(start, h, k, j, key, {});
    NotHeldRefused(At(start, h, j), b, key);
  }

  // ---------------------------------------------------------------------------------------------
  // Agreement with the token controller
  // ---------------------------------------------------------------------------------------------

  lemma AcceptedHolds(s: World, b: Route, token: string) returns (n: Name)
    requires Tokens.Inv(s) && Accepts(s, b, token)
    ensures Holds(s, n, token, Binding(b.uid, "")) && Binding(b.uid, "") != UNBOUND
  {
    n :| n in s.secrets && s.secrets[n].labels.slug == b.slug && s.secrets[n].key == token && OwnsToken(s, b, n);
  }

  /** Over a whole run, a key is accepted for one instance incarnation at most. */
  lemma AcceptedForOne(start: World, h: seq<Event>, i: nat, b: Route, j: nat, c: Route, token: string)
    requires Initial(start) && Legal(start, h) && i <= j <= |h|
    requires Accepts(At(start, h, i), b, token) && Accepts(At(start, h, j), c, token)
    ensures b.uid == c.uid
  {
    hide At, Legal, Initial, Tokens.Inv, Accepts, Holds;
    StepAt(start, h, i);
    StepAt(start, h, j);
    var n := AcceptedHolds(At(start, h, i), b, token);
    var m := AcceptedHolds(At(start, h, j), c, token);
    SingleBinding(start, h, i, n, Binding(b.uid, ""), j, m, Binding(c.uid, ""), token);
  }

  /** A key that is ever bound to another UID or to a BYOC target is accepted neither before nor after. */
  lemma BoundElsewhereRefused(start: World, h: seq<Event>, i: nat, n: Name, a: Binding, j: nat, b: Route, token: string)
    requires Initial(start) && Legal(start, h) && i <= |h| && j <= |h|
    requires Holds(At(start, h, i), n, token, a) && a != UNBOUND && (a.target != "" || a.uid != b.uid)
    ensures !Accepts(At(start, h, j), b, token)
  {
    hide At, Legal, Initial, Tokens.Inv, Accepts, Holds;
    if Accepts(At(start, h, j), b, token) {
      StepAt(start, h, j);
      var m := AcceptedHolds(At(start, h, j), b, token);
      if i <= j {
        SingleBinding(start, h, i, n, a, j, m, Binding(b.uid, ""), token);
      } else {
        SingleBinding(start, h, j, m, Binding(b.uid, ""), i, n, a, token);
      }
    }
  }

  /** Whatever a run does before or after, a key minted for a hosted instance is accepted for that instance's UID
      alone. */
  lemma MintedForOne(start: World, h: seq<Event>, i: nat, j: nat, b: Route)
    requires Initial(start) && Legal(start, h) && i < |h| && j <= |h|
    requires h[i].Mint? && !h[i].forInst.byoc && Accepts(At(start, h, j), b, h[i].token)
    ensures b.uid == h[i].forInst.uid
  {
    hide At, Legal, Initial, Accepts;
    StepAt(start, h, i);
    var a := Binding(h[i].forInst.uid, "");
    MintedHolds(At(start, h, i), h[i]);
    if b.uid != a.uid {
      BoundElsewhereRefused(start, h, i + 1, h[i].name, a, j, b, h[i].token);
    }
  }

  lemma MintedHolds(s: World, e: Event)
    requires Enabled(s, e) && e.Mint? && !e.forInst.byoc
    ensures Holds(Apply(s, e), e.name, e.token, Binding(e.forInst.uid, "")) && e.forInst.uid != 0
  {
  }

  /** A key minted for a hosted instance is accepted on that instance's route as long as Secret, request and
      instance are as the controller leaves them, and on no other instance's route. */
  lemma MintedAccepted(s: World, n: Name, r: Request, inst: Inst, endpoint: string, token: string, t: World)
    requires OpEnabled(s, Mint(n, r, inst, inst.slug, endpoint, token)) && r.uid != 0 && !inst.byoc
    requires n in t.secrets && t.secrets[n] == Apply(s, Mint(n, r, inst, inst.slug, endpoint, token)).secrets[n]
    requires var at := Name(n.ns, inst.name);
             at in t.insts && t.insts[at] == inst && !inst.deleting && inst.selection == Some(Selection(inst.slug, inst.source))
    requires var at := Name(n.ns, r.name);
             at in t.requests && t.requests[at] == r.(secretName := n.id, observed := r.generation)
             && !r.deleting && r.instanceName == inst.name
    ensures Accepts(t, Route(n.ns, inst.name, inst.uid, inst.slug), token)
    ensures forall b :: Tokens.Inv(t) && Accepts(t, b, token) ==> b.uid == inst.uid
  {
    assert OwnsToken(t, Route(n.ns, inst.name, inst.uid, inst.slug), n);
    forall b | Tokens.Inv(t) && Accepts(t, b, token)
      ensures b.uid == inst.uid
    {
      var m := AcceptedHolds(t, b, token);
      assert m == n;
    }
  }
}
