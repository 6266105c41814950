/** The route check before an instance's Ingress is served: no foreign rule may catch its requests. */
module SlugRoute {
  import opened Calls
  import opened SlugPolicy

  /** Controller owner of kind LLMInstance. */
  datatype Owner = Owner(uid: string, name: string)

  datatype Rule = Rule(host: string, http: Option<seq<string>>)

  /** The paths of a rule stand for themselves; how they match is up to the ingress controller. */
  datatype Ingress = Ingress(ns: string, name: string, owner: Option<Owner>, defaultBackend: bool, rules: seq<Rule>)

  datatype Instance = Instance(uid: string, ns: string, name: string)

  datatype Verdict = Free | NotOwned | Conflict

  // ---------------------------------------------------------------------------------------------
  // Hosts
  // ---------------------------------------------------------------------------------------------

  function LowerChar(c: char): char {
    if 'A' <= c <= 'Z' then (c as int + 32) as char else c
  }

  function Lower(s: string): string {
    seq(|s|, i requires 0 <= i < |s| => LowerChar(s[i]))
  }

  function Dots(s: string): nat {
    if s == "" then 0 else (if s[0] == '.' then 1 else 0) + Dots(s[1..])
  }

  predicate HasSuffix(s: string, tail: string) {
    |tail| <= |s| && s[|s| - |tail|..] == tail
  }

  /** hostClaimsSlugHost. */
  predicate HostClaims(rule: string, host: string) {
    var r, h := Lower(rule), Lower(host);
    || r == "" || r == h
    || (HasPrefix(r, "*.") && HasSuffix(h, r[1..]) && Dots(h) == Dots(r))
  }

  /** A rule's host covers a host: any, the same up to case, or a wildcard for exactly one label. */
  ghost predicate HostCovers(rule: string, host: string) {
    var r, h := Lower(rule), Lower(host);
    r == "" || r == h || (HasPrefix(r, "*.") && exists first: string :: '.' !in first && h == first + r[1..])
  }

  lemma {:induction false} DotsConcat(a: string, b: string)
    ensures Dots(a + b) == Dots(a) + Dots(b)
  {
    if a == "" {
      assert a + b == b;
    } else {
      DotsConcat(a[1..], b);
      assert (a + b)[1..] == a[1..] + b;
    }
  }

  lemma {:induction false} NoDots(s: string)
    ensures Dots(s) == 0 <==> '.' !in s
  {
    if s != "" {
      NoDots(s[1..]);
      assert s == [s[0]] + s[1..];
    }
  }

  /** Counting dots is the same as matching one label. */
  lemma HostClaimsExactly(rule: string, host: string)
    ensures HostClaims(rule, host) <==> HostCovers(rule, host)
  {
    var r, h := Lower(rule), Lower(host);
    if HasPrefix(r, "*.") {
      DotsConcat(r[..1], r[1..]);
      assert r == r[..1] + r[1..] && r[..1] == "*";
      NoDots("*");
      if HasSuffix(h, r[1..]) {
        var first := h[..|h| - |r[1..]|];
        assert h == first + r[1..];
        DotsConcat(first, r[1..]);
        NoDots(first);
      }
      forall first: string | '.' !in first && h == first + r[1..]
        ensures HasSuffix(h, r[1..]) && Dots(h) == Dots(r)
      {
        DotsConcat(first, r[1..]);
        NoDots(first);
      }
    }
  }

  // ---------------------------------------------------------------------------------------------
  // Paths
  // ---------------------------------------------------------------------------------------------

  /** strings.TrimRight with a slash. */
  function TrimSlashes(s: string): (r: string)
    ensures r <= s && (r == "" || r[|r| - 1] != '/')
  {
    if s != "" && s[|s| - 1] == '/' then TrimSlashes(s[..|s| - 1]) else s
  }

  /** How ingress controllers match a path: exactly, by path elements, or as a raw prefix. */
  datatype Matcher = Exact | Elements | RawPrefix

  predicate PathMatches(m: Matcher, rule: string, path: string) {
    match m
    case Exact => path == rule
    case Elements => path == TrimSlashes(rule) || HasPrefix(path, TrimSlashes(rule) + "/")
    case RawPrefix => HasPrefix(path, rule)
  }

  function SelectedPath(slug: string): string {
    "/llm/" + slug
  }

  /** Requests of the instance: its path and everything below it. */
  predicate OwnRequest(slug: string, path: string) {
    path == SelectedPath(slug) || HasPrefix(path, SelectedPath(slug) + "/")
  }

  predicate Overlap(selected: string, rule: string) {
    !Apart(TrimSlashes(rule), selected)
  }

  /** Whatever the matcher, a path rule that catches an own request overlaps the selected path. */
  lemma CaughtOverlaps(m: Matcher, rule: string, slug: string, path: string)
    requires OwnRequest(slug, path) && PathMatches(m, rule, path)
    ensures Overlap(SelectedPath(slug), rule)
  {
    var selected, trimmed := SelectedPath(slug), TrimSlashes(rule);
    assert selected <= path && trimmed <= path;
    if |selected| <= |trimmed| {
      assert selected == path[..|selected|] == trimmed[..|selected|];
    } else {
      assert trimmed == path[..|trimmed|] == selected[..|trimmed|];
    }
  }

  // ---------------------------------------------------------------------------------------------
  // The check
  // ---------------------------------------------------------------------------------------------

  /** ownsLLMResource. */
  predicate Owns(inst: Instance, ing: Ingress) {
    inst.uid != "" && ing.ns == inst.ns && ing.owner == Some(Owner(inst.uid, inst.name))
  }

  predicate Named(inst: Instance, ing: Ingress) {
    ing.ns == inst.ns && ing.name == inst.name + "-llama"
  }

  predicate Foreign(inst: Instance, ing: Ingress) {
    !(Named(inst, ing) && Owns(inst, ing))
  }

  predicate RuleConflicts(host: string, slug: string, rule: Rule) {
    && HostClaims(rule.host, host) && rule.http.Some?
    && exists i :: 0 <= i < |rule.http.value| && Overlap(SelectedPath(slug), rule.http.value[i])
  }

  predicate Conflicts(host: string, slug: string, ing: Ingress) {
    ing.defaultBackend || exists i :: 0 <= i < |ing.rules| && RuleConflicts(host, slug, ing.rules[i])
  }

  ghost predicate RouteFree(inst: Instance, host: string, slug: string, ingresses: seq<Ingress>) {
    && (forall i :: 0 <= i < |ingresses| && Named(inst, ingresses[i]) ==> Owns(inst, ingresses[i]))
    && (forall i :: 0 <= i < |ingresses| && Foreign(inst, ingresses[i]) ==> !Conflicts(host, slug, ingresses[i]))
  }

  method CheckRule(host: string, slug: string, rule: Rule) returns (conflict: bool)
    ensures conflict <==> RuleConflicts(host, slug, rule)
  {
    if !HostClaims(rule.host, host) || rule.http.None? {
      return false;
    }
    var selected := SelectedPath(slug);
    for i := 0 to |rule.http.value|
      invariant forall j :: 0 <= j < i ==> !Overlap(selected, rule.http.value[j])
    {
      var candidate := TrimSlashes(rule.http.value[i]);
      if HasPrefix(candidate, selected) || HasPrefix(selected, candidate) {
        return true;
      }
    }
    return false;
  }

  method CheckIngress(host: string, slug: string, ing: Ingress) returns (conflict: bool)
    ensures conflict <==> Conflicts(host, slug, ing)
  {
    if ing.defaultBackend {
      return true;
    }
    for i := 0 to |ing.rules|
      invariant forall j :: 0 <= j < i ==> !RuleConflicts(host, slug, ing.rules[j])
    {
      conflict := CheckRule(host, slug, ing.rules[i]);
      if conflict {
        return;
      }
    }
    return false;
  }

  /** checkSlugRoute: first the Ingress under the instance's own name, then all of them. */
  method CheckSlugRoute(inst: Instance, host: string, slug: string, ingresses: seq<Ingress>) returns (v: Verdict)
    ensures v.Free? <==> RouteFree(inst, host, slug, ingresses)
    ensures v.NotOwned? <==> exists i :: 0 <= i < |ingresses| && Named(inst, ingresses[i]) && !Owns(inst, ingresses[i])
  {
    for i := 0 to |ingresses|
      invariant forall j :: 0 <= j < i && Named(inst, ingresses[j]) ==> Owns(inst, ingresses[j])
    {
      if Named(inst, ingresses[i]) && !Owns(inst, ingresses[i]) {
        return NotOwned;
      }
    }
    for i := 0 to |ingresses|
      invariant forall j :: 0 <= j < i && Foreign(inst, ingresses[j]) ==> !Conflicts(host, slug, ingresses[j])
    {
      if Foreign(inst, ingresses[i]) {
        var conflict := CheckIngress(host, slug, ingresses[i]);
        if conflict {
          return Conflict;
        }
      }
    }
    return Free;
  }

  /** Some rule of the Ingress, or its default backend, may catch a request to `host` and `path`. */
  ghost predicate Catches(ing: Ingress, host: string, path: string) {
    || ing.defaultBackend
    || exists r, i, m :: && 0 <= r < |ing.rules| && HostCovers(ing.rules[r].host, host)
                         && ing.rules[r].http.Some? && 0 <= i < |ing.rules[r].http.value|
                         && PathMatches(m, ing.rules[r].http.value[i], path)
  }

  /** After a successful check no foreign Ingress catches any request of the instance, whichever way its
      controller matches paths. */
  lemma RouteExclusive(inst: Instance, host: string, slug: string, ingresses: seq<Ingress>, i: nat, path: string)
    requires RouteFree(inst, host, slug, ingresses) && i < |ingresses| && Foreign(inst, ingresses[i])
    requires OwnRequest(slug, path)
    ensures !Catches(ingresses[i], host, path)
  {
    var ing := ingresses[i];
    assert !Conflicts(host, slug, ing);
    forall r, p, m | && 0 <= r < |ing.rules| && HostCovers(ing.rules[r].host, host)
                     && ing.rules[r].http.Some? && 0 <= p < |ing.rules[r].http.value|
      ensures !PathMatches(m, ing.rules[r].http.value[p], path)
    {
      HostClaimsExactly(ing.rules[r].host, host);
      if PathMatches(m, ing.rules[r].http.value[p], path) {
        CaughtOverlaps(m, ing.rules[r].http.value[p], slug, path);
        assert RuleConflicts(host, slug, ing.rules[r]);
      }
    }
  }

  /** Two path prefixes overlap exactly when some path starts with both. */
  lemma OverlapExactly(selected: string, rule: string)
    ensures Overlap(selected, rule) <==> exists path: string :: HasPrefix(path, selected) && HasPrefix(path, TrimSlashes(rule))
  {
    var trimmed := TrimSlashes(rule);
    if Overlap(selected, rule) {
      var path := if selected <= trimmed then trimmed else selected;
      assert HasPrefix(path, selected) && HasPrefix(path, trimmed);
    }
    forall path: string | HasPrefix(path, selected) && HasPrefix(path, trimmed)
      ensures Overlap(selected, rule)
    {
      if |selected| <= |trimmed| {
        assert selected == path[..|selected|] == trimmed[..|selected|];
      } else {
        assert trimmed == path[..|trimmed|] == selected[..|trimmed|];
      }
    }
  }

  /** A foreign Ingress refuses the route if it has a default backend, or a rule whose host covers the public host and one
      of whose paths is, up to trailing slashes, the start of a path that starts with the selected one; and for no other
      reason. */
  lemma ConflictsExactly(host: string, slug: string, ing: Ingress)
    ensures Conflicts(host, slug, ing) <==>
              || ing.defaultBackend
              || exists r, k :: && 0 <= r < |ing.rules| && HostCovers(ing.rules[r].host, host)
                                && ing.rules[r].http.Some? && 0 <= k < |ing.rules[r].http.value|
                                && exists path: string :: HasPrefix(path, "/llm/" + slug) && HasPrefix(path, TrimSlashes(ing.rules[r].http.value[k]))
  {
    forall r | 0 <= r < |ing.rules|
      ensures RuleConflicts(host, slug, ing.rules[r]) <==>
                && HostCovers(ing.rules[r].host, host) && ing.rules[r].http.Some?
                && exists k :: 0 <= k < |ing.rules[r].http.value|
                               && exists path: string :: HasPrefix(path, "/llm/" + slug) && HasPrefix(path, TrimSlashes(ing.rules[r].http.value[k]))
    {
      HostClaimsExactly(ing.rules[r].host, host);
      if ing.rules[r].http.Some? {
        forall k | 0 <= k < |ing.rules[r].http.value|
          ensures Overlap(SelectedPath(slug), ing.rules[r].http.value[k]) <==>
                    exists path: string :: HasPrefix(path, "/llm/" + slug) && HasPrefix(path, TrimSlashes(ing.rules[r].http.value[k]))
        {
          OverlapExactly(SelectedPath(slug), ing.rules[r].http.value[k]);
        }
      }
    }
  }

  /** The route is free if the Ingress under the instance's name, where there is one, is controlled by this very instance,
      and no other Ingress conflicts. */
  lemma RouteFreeExactly(inst: Instance, host: string, slug: string, ingresses: seq<Ingress>)
    ensures RouteFree(inst, host, slug, ingresses) <==>
              forall ing :: ing in ingresses ==>
                if ing.ns == inst.ns && ing.name == inst.name + "-llama"
                then inst.uid != "" && ing.owner == Some(Owner(inst.uid, inst.name))
                else !Conflicts(host, slug, ing)
  {
    assert forall i :: 0 <= i < |ingresses| ==> ingresses[i] in ingresses;
  }

  // ---------------------------------------------------------------------------------------------
  // Instances do not get in each other's way
  // ---------------------------------------------------------------------------------------------

  /** slugIngressRules: the path itself and everything below. */
  function SlugIngressRules(host: string, slug: string): seq<Rule> {
    [Rule(host, Some([SelectedPath(slug), SelectedPath(slug) + "/"]))]
  }

  function IngressOf(inst: Instance, host: string, slug: string): Ingress {
    Ingress(inst.ns, inst.name + "-llama", Some(Owner(inst.uid, inst.name)), false, SlugIngressRules(host, slug))
  }

  predicate SlugOk(slug: string) {
    slug != "" && '/' !in slug
  }

  lemma SlugTrimmed(slug: string)
    requires SlugOk(slug)
    ensures TrimSlashes(SelectedPath(slug)) == SelectedPath(slug)
    ensures TrimSlashes(SelectedPath(slug) + "/") == SelectedPath(slug)
  {
    var selected := SelectedPath(slug);
    assert selected[|selected| - 1] == slug[|slug| - 1];
    assert slug[|slug| - 1] in slug;
    assert (selected + "/")[..|selected + "/"| - 1] == selected;
  }

  /** The rules made for a slug catch exactly the instance's own requests, with their path types. */
  lemma RulesExact(host: string, slug: string, path: string)
    requires SlugOk(slug)
    ensures var paths := SlugIngressRules(host, slug)[0].http.value;
            PathMatches(Exact, paths[0], path) || PathMatches(Elements, paths[1], path) <==> OwnRequest(slug, path)
  {
    SlugTrimmed(slug);
  }

  /** Ingresses built for slugs that are apart never fail each other's check. */
  lemma ApartCoexist(host: string, mine: string, b: Instance, other: string)
    requires SlugOk(mine) && SlugOk(other) && Apart(mine, other)
    ensures !Conflicts(host, mine, IngressOf(b, host, other))
  {
    SlugTrimmed(other);
    var x, y := SelectedPath(mine), SelectedPath(other);
    assert x[5..] == mine && y[5..] == other;
    assert HasPrefix(x, y) ==> HasPrefix(mine, other);
    assert HasPrefix(y, x) ==> HasPrefix(other, mine);
  }

  /** So do Ingresses of any two instances with slugs selected by one accepted policy. */
  lemma SelectedCoexist(p: Policy, entries: seq<Entry>, digest: string -> string, a: Object, b: Object, host: string)
    requires EntriesOk(entries) && Holds(p, entries) && a.uid != b.uid && Separates(digest, a.uid, b.uid)
    requires Select(p, digest, a).Selected? && Select(p, digest, b).Selected?
    requires SlugOk(digest(DOMAIN_TAG + a.uid)) && SlugOk(digest(DOMAIN_TAG + b.uid))
    ensures var x, y := Select(p, digest, a).slug, Select(p, digest, b).slug;
            && !Conflicts(host, x, IngressOf(Instance(b.uid, b.ns, b.name), host, y))
            && !Conflicts(host, y, IngressOf(Instance(a.uid, a.ns, a.name), host, x))
  {
    hide Select, EntriesOk, Holds, Conflicts;
    PrefixFree(p, entries, digest, a, b);
    SelectedSlugOk(p, entries, digest, a);
    SelectedSlugOk(p, entries, digest, b);
    var x, y := Select(p, digest, a).slug, Select(p, digest, b).slug;
    ApartCoexist(host, x, Instance(b.uid, b.ns, b.name), y);
    ApartCoexist(host, y, Instance(a.uid, a.ns, a.name), x);
  }

  function InstanceOf(o: Object): Instance {
    Instance(o.uid, o.ns, o.name)
  }

  /** Instances with selected slugs and names of their own. */
  ghost predicate Neighbours(p: Policy, digest: string -> string, objects: seq<Object>) {
    && (forall i :: 0 <= i < |objects| ==> Select(p, digest, objects[i]).Selected? && SlugOk(digest(DOMAIN_TAG + objects[i].uid)))
    && (forall i, j :: 0 <= i < |objects| && 0 <= j < |objects| && i != j ==>
          && objects[i].uid != objects[j].uid && Separates(digest, objects[i].uid, objects[j].uid)
          && !(objects[i].ns == objects[j].ns && objects[i].name == objects[j].name))
  }

  /** The Ingresses of all of them. */
  function IngressesOf(p: Policy, digest: string -> string, objects: seq<Object>, host: string): seq<Ingress>
    requires forall i :: 0 <= i < |objects| ==> Select(p, digest, objects[i]).Selected?
  {
    seq(|objects|, i requires 0 <= i < |objects| => IngressOf(InstanceOf(objects[i]), host, Select(p, digest, objects[i]).slug))
  }

  /** However many instances one accepted policy selects slugs for, once their Ingresses are built every one of them
      passes its route check. */
  lemma SelectedRoutesFree(p: Policy, entries: seq<Entry>, digest: string -> string, objects: seq<Object>, host: string, i: nat)
    requires EntriesOk(entries) && Holds(p, entries) && Neighbours(p, digest, objects) && i < |objects|
    ensures RouteFree(InstanceOf(objects[i]), host, Select(p, digest, objects[i]).slug, IngressesOf(p, digest, objects, host))
  {
    hide EntriesOk, Holds, Conflicts;
    var inst, slug, all := InstanceOf(objects[i]), Select(p, digest, objects[i]).slug, IngressesOf(p, digest, objects, host);
    forall j | 0 <= j < |all|
      ensures Named(inst, all[j]) ==> Owns(inst, all[j])
      ensures Foreign(inst, all[j]) ==> !Conflicts(host, slug, all[j])
    {
      if j == i {
        assert Owns(inst, all[j]);
      } else {
        NamesApart(inst.name, objects[j].name);
        SelectedCoexist(p, entries, digest, objects[i], objects[j], host);
      }
    }
  }

  lemma NamesApart(a: string, b: string)
    ensures a + "-llama" == b + "-llama" <==> a == b
  {
    if a + "-llama" == b + "-llama" {
      assert a == (a + "-llama")[..|a|] && b == (b + "-llama")[..|b|];
    }
  }

  lemma LegacySlugOk(entries: seq<Entry>, e: Entry)
    requires EntriesOk(entries) && e in entries && e.mode == LEGACY
    ensures SlugOk(e.slug)
  {
    assert EntryOk(e);
  }

  lemma DerivedSlugOk(tail: string)
    requires SlugOk(tail)
    ensures SlugOk(RESERVED + tail)
  {
  }

  lemma SelectedSlugOk(p: Policy, entries: seq<Entry>, digest: string -> string, o: Object)
    requires EntriesOk(entries) && Holds(p, entries) && Select(p, digest, o).Selected? && SlugOk(digest(DOMAIN_TAG + o.uid))
    ensures SlugOk(Select(p, digest, o).slug)
  {
    hide Select, EntriesOk, Holds, SlugOk;
    Grounded(p, entries, digest, o);
    var r := Select(p, digest, o);
    if r.source.Legacy? {
      LegacySlugOk(entries, Entry(o.uid, o.ns, o.name, LEGACY, r.slug));
    } else {
      DerivedSlugOk(digest(DOMAIN_TAG + o.uid));
    }
  }
}
