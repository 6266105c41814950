/** Selection of inference slugs from the operator's migration policy and immutable identities. */
module SlugPolicy {
  import opened Calls
  import Names

  datatype Entry = Entry(uid: string, ns: string, name: string, mode: string, slug: string)

  const LEGACY := "legacy"
  const DERIVE := "derive"
  const RESERVED := "llm-"
  const DOMAIN_TAG := "llm.privatellms.msp/slug/v1:"

  datatype Policy = Policy(cutover: int, entries: map<string, Entry>)

  predicate HasPrefix(s: string, p: string) {
    p <= s
  }

  /** Neither is a prefix of the other; in particular they differ. */
  predicate Apart(a: string, b: string) {
    !HasPrefix(a, b) && !HasPrefix(b, a)
  }

  /** validateEntry. */
  predicate EntryOk(e: Entry) {
    && e.uid != "" && !Names.IsSpace(e.uid[0]) && !Names.IsSpace(e.uid[|e.uid| - 1])
    && Names.IsLabel(e.ns) && Names.IsSubdomain(e.name)
    && (if e.mode == LEGACY then e.slug != "" && Names.IsLabelValue(e.slug) && Apart(e.slug, RESERVED)
        else e.mode == DERIVE && e.slug == "")
  }

  /** Two entries that may stand in one policy. */
  predicate Compatible(a: Entry, b: Entry) {
    && a.uid != b.uid && !(a.ns == b.ns && a.name == b.name)
    && (a.mode == LEGACY && b.mode == LEGACY ==> Apart(a.slug, b.slug))
  }

  ghost predicate EntriesOk(entries: seq<Entry>) {
    && (forall i :: 0 <= i < |entries| ==> EntryOk(entries[i]))
    && (forall i, j :: 0 <= i < j < |entries| ==> Compatible(entries[i], entries[j]))
  }

  /** Spelled out: entries name a UID without outer white space and a well-formed object, legacy ones with a slug of their
      own outside the reserved prefix, derived ones with none; no two share UID or object, nor does one legacy slug start
      another. */
  lemma EntriesExactly(entries: seq<Entry>)
    ensures EntriesOk(entries) <==>
              && (forall e :: e in entries ==>
                    && e.uid != "" && !Names.IsSpace(e.uid[0]) && !Names.IsSpace(e.uid[|e.uid| - 1])
                    && Names.IsLabel(e.ns) && Names.IsSubdomain(e.name)
                    && ((e.mode == "derive" && e.slug == "")
                        || (e.mode == "legacy" && e.slug != "" && Names.IsLabelValue(e.slug) && !("llm-" <= e.slug) && !(e.slug <= "llm-"))))
              && (forall i, j :: 0 <= i < j < |entries| ==>
                    && entries[i].uid != entries[j].uid && (entries[i].ns != entries[j].ns || entries[i].name != entries[j].name)
                    && (entries[i].mode == "legacy" == entries[j].mode ==>
                          !(entries[i].slug <= entries[j].slug) && !(entries[j].slug <= entries[i].slug)))
  {
    if EntriesOk(entries) {
      assert forall i, j :: 0 <= i < j < |entries| ==> Compatible(entries[i], entries[j]);
    }
    assert forall i :: 0 <= i < |entries| ==> entries[i] in entries;
  }

  ghost predicate Holds(p: Policy, entries: seq<Entry>) {
    && (forall i :: 0 <= i < |entries| ==> entries[i].uid in p.entries && p.entries[entries[i].uid] == entries[i])
    && (forall uid :: uid in p.entries ==> exists i :: 0 <= i < |entries| && entries[i].uid == uid)
  }

  function Identity(e: Entry): string {
    e.ns + "/" + e.name
  }

  /** A namespace has no slash, so the joined identity tells entries apart exactly by namespace and name. */
  lemma IdentityInjective(a: Entry, b: Entry)
    requires Names.IsLabel(a.ns) && Names.IsLabel(b.ns)
    ensures Identity(a) == Identity(b) <==> a.ns == b.ns && a.name == b.name
  {
    if Identity(a) == Identity(b) {
      assert Identity(a)[|a.ns|] == '/' && Identity(b)[|b.ns|] == '/';
      assert |a.ns| == |b.ns|;
      assert a.ns == Identity(a)[..|a.ns|] && b.ns == Identity(b)[..|b.ns|];
      assert a.name == Identity(a)[|a.ns| + 1..] && b.name == Identity(b)[|b.ns| + 1..];
    }
  }

  /** The scan of one legacy slug against those accepted before. */
  method Overlaps(slug: string, slugs: set<string>) returns (found: bool)
    ensures found <==> exists other :: other in slugs && !Apart(other, slug)
  {
    var rest := slugs;
    while rest != {}
      invariant rest <= slugs
      invariant forall other :: other in slugs - rest ==> Apart(other, slug)
      decreases |rest|
    {
      var other :| other in rest;
      if HasPrefix(other, slug) || HasPrefix(slug, other) {
        return true;
      }
      rest := rest - {other};
    }
    return false;
  }

  /** The three maps that Parse fills hold exactly what the entries say. */
  ghost predicate Tracks(entries: seq<Entry>, p: Policy, slugs: set<string>, identities: set<string>) {
    && Holds(p, entries)
    && identities == (set j | 0 <= j < |entries| :: Identity(entries[j]))
    && slugs == (set j | 0 <= j < |entries| && entries[j].mode == LEGACY :: entries[j].slug)
  }

  ghost predicate Clashes(done: seq<Entry>, item: Entry) {
    exists j :: 0 <= j < |done| && !Compatible(done[j], item)
  }

  /** The lookups in the three maps find a clash exactly when there is one. */
  lemma ClashFound(done: seq<Entry>, item: Entry, p: Policy, slugs: set<string>, identities: set<string>)
    requires EntriesOk(done) && EntryOk(item) && Tracks(done, p, slugs, identities)
    ensures Clashes(done, item) <==>
              || item.uid in p.entries || Identity(item) in identities
              || (item.mode == LEGACY && exists other :: other in slugs && !Apart(other, item.slug))
  {
    forall j | 0 <= j < |done|
      ensures Identity(done[j]) == Identity(item) <==> done[j].ns == item.ns && done[j].name == item.name
    {
      IdentityInjective(done[j], item);
    }
  }

  lemma TracksNext(done: seq<Entry>, item: Entry, p: Policy, slugs: set<string>, identities: set<string>)
    requires Tracks(done, p, slugs, identities) && item.uid !in p.entries
    ensures Tracks(done + [item], p.(entries := p.entries[item.uid := item]),
                   slugs + (if item.mode == LEGACY then {item.slug} else {}), identities + {Identity(item)})
  {
    var all := done + [item];
    assert all[|done|] == item;
    assert forall j :: 0 <= j < |done| ==> all[j] == done[j];
    var next := p.entries[item.uid := item];
    forall uid | uid in next
      ensures exists i :: 0 <= i < |all| && all[i].uid == uid
    {
      if uid != item.uid {
        var i :| 0 <= i < |done| && done[i].uid == uid;
        assert all[i].uid == uid;
      }
    }
  }

  lemma EntriesNext(done: seq<Entry>, item: Entry)
    ensures EntriesOk(done + [item]) <==> EntriesOk(done) && EntryOk(item) && !Clashes(done, item)
  {
    var all := done + [item];
    assert all[|done|] == item;
    assert forall j :: 0 <= j < |done| ==> all[j] == done[j];
  }

  lemma PrefixOk(entries: seq<Entry>, i: nat)
    requires i <= |entries| && EntriesOk(entries)
    ensures EntriesOk(entries[..i])
  {
  }

  /** The loop of Parse over the decoded entries. */
  method Parse(cutover: int, entries: seq<Entry>) returns (ok: bool, policy: Policy)
    ensures ok <==> EntriesOk(entries)
    ensures ok ==> policy.cutover == cutover && Holds(policy, entries)
  {
    hide EntriesOk, Clashes, EntryOk;
    policy := Policy(cutover, map[]);
    var slugs: set<string>, identities: set<string> := {}, {};
    assert EntriesOk(entries[..0]) by { NoEntries(); }
    for i := 0 to |entries|
      invariant EntriesOk(entries[..i]) && policy.cutover == cutover
      invariant Tracks(entries[..i], policy, slugs, identities)
    {
      hide Tracks;
      var item := entries[i];
      ghost var done := entries[..i];
      assert entries[..i + 1] == done + [item];
      EntriesNext(done, item);
      if EntriesOk(entries) {
        PrefixOk(entries, i + 1);
      }
      if !EntryOk(item) {
        return false, policy;
      }
      ClashFound(done, item, policy, slugs, identities);
      if item.uid in policy.entries || Identity(item) in identities {
        return false, policy;
      }
      if item.mode == LEGACY {
        var overlap := Overlaps(item.slug, slugs);
        if overlap {
          return false, policy;
        }
      }
      TracksNext(done, item, policy, slugs, identities);
      policy := policy.(entries := policy.entries[item.uid := item]);
      identities := identities + {Identity(item)};
      if item.mode == LEGACY {
        slugs := slugs + {item.slug};
      }
    }
    assert entries[..|entries|] == entries;
    ok := true;
  }

  lemma NoEntries()
    ensures EntriesOk([])
  {
  }

  // ---------------------------------------------------------------------------------------------
  // Selection
  // ---------------------------------------------------------------------------------------------

  /** What an object is known by. `created` is missing for a zero timestamp. */
  datatype Object = Object(uid: string, ns: string, name: string, created: Option<int>)

  datatype Source = Legacy | Derived

  datatype Selected = Selected(slug: string, source: Source) | IdentityError | Unmapped

  /** Select; `digest` stands for the truncated SHA-256 in hexadecimal. */
  function Select(p: Policy, digest: string -> string, o: Object): Selected {
    if o.uid == "" || o.created.None? then IdentityError
    else if o.uid in p.entries then
      var item := p.entries[o.uid];
      if item.ns != o.ns || item.name != o.name then IdentityError
      else if item.mode == LEGACY then Selected(item.slug, Legacy)
      else Selected(RESERVED + digest(DOMAIN_TAG + o.uid), Derived)
    else if o.created.value <= p.cutover then Unmapped
    else Selected(RESERVED + digest(DOMAIN_TAG + o.uid), Derived)
  }

  /** Selection over the entries. A slug is given to a listed object under exactly its namespace and name, and to an unlisted
      one created after the cutover; what was there before and is not listed is never renamed. */
  lemma SelectExactly(p: Policy, entries: seq<Entry>, digest: string -> string, o: Object)
    requires Holds(p, entries)
    ensures var r := Select(p, digest, o);
            var known := o.uid != "" && o.created.Some?;
            var listed := exists e :: e in entries && e.uid == o.uid;
            && (r.Selected? <==> known && if listed then exists e :: e in entries && e.uid == o.uid && e.ns == o.ns && e.name == o.name
                                          else o.created.value > p.cutover)
            && (r.Unmapped? <==> known && !listed && o.created.value <= p.cutover)
            && (forall e :: e in entries && e.uid == o.uid && r.Selected? ==>
                  r == if e.mode == "legacy" then Selected(e.slug, Legacy)
                       else Selected("llm-" + digest("llm.privatellms.msp/slug/v1:" + o.uid), Derived))
            && (!listed && r.Selected? ==> r == Selected("llm-" + digest("llm.privatellms.msp/slug/v1:" + o.uid), Derived))
  {
    forall e | e in entries
      ensures e.uid in p.entries && p.entries[e.uid] == e
    {
      var i :| 0 <= i < |entries| && entries[i] == e;
    }
    if o.uid in p.entries {
      var i :| 0 <= i < |entries| && entries[i].uid == o.uid;
      assert entries[i] in entries;
    }
  }

  /** The digest has a fixed length and tells the given UIDs apart. */
  ghost predicate Separates(digest: string -> string, a: string, b: string) {
    && |digest(DOMAIN_TAG + a)| == |digest(DOMAIN_TAG + b)|
    && (a != b ==> digest(DOMAIN_TAG + a) != digest(DOMAIN_TAG + b))
  }

  /** A slug outside the reserved prefix is apart from everything inside it. */
  lemma ReservedApart(slug: string, tail: string)
    requires Apart(slug, RESERVED)
    ensures Apart(slug, RESERVED + tail)
  {
    assert HasPrefix(RESERVED + tail, RESERVED);
  }

  /** What a selection rests on: a legacy slug on a valid entry reviewed for exactly this UID, namespace and
      name; a derived one on the UID alone. */
  lemma Grounded(p: Policy, entries: seq<Entry>, digest: string -> string, o: Object)
    requires EntriesOk(entries) && Holds(p, entries) && Select(p, digest, o).Selected?
    ensures var r := Select(p, digest, o);
            if r.source.Legacy?
            then exists i :: 0 <= i < |entries| && entries[i] == Entry(o.uid, o.ns, o.name, LEGACY, r.slug)
                             && Apart(r.slug, RESERVED)
            else r.slug == RESERVED + digest(DOMAIN_TAG + o.uid)
  {
    if o.uid in p.entries {
      var i :| 0 <= i < |entries| && entries[i].uid == o.uid;
      assert p.entries[o.uid] == entries[i];
    }
  }

  /** Under any policy Parse accepts, objects with different UIDs get slugs neither of which is a prefix of
      the other, and a slug alone tells its source. */
  lemma PrefixFree(p: Policy, entries: seq<Entry>, digest: string -> string, a: Object, b: Object)
    requires EntriesOk(entries) && Holds(p, entries) && a.uid != b.uid && Separates(digest, a.uid, b.uid)
    requires Select(p, digest, a).Selected? && Select(p, digest, b).Selected?
    ensures Apart(Select(p, digest, a).slug, Select(p, digest, b).slug)
    ensures Select(p, digest, a).source.Derived? <==> HasPrefix(Select(p, digest, a).slug, RESERVED)
  {
    hide EntriesOk, Holds, Select;
    var x, y := Select(p, digest, a), Select(p, digest, b);
    Grounded(p, entries, digest, a);
    Grounded(p, entries, digest, b);
    if x.source.Legacy? && y.source.Legacy? {
      LegacyApart(entries, a, b, x.slug, y.slug);
    } else if x.source.Legacy? {
      ReservedApart(x.slug, digest(DOMAIN_TAG + b.uid));
    } else if y.source.Legacy? {
      ReservedApart(y.slug, digest(DOMAIN_TAG + a.uid));
    } else {
      DerivedApart(digest(DOMAIN_TAG + a.uid), digest(DOMAIN_TAG + b.uid));
    }
  }

  lemma LegacyApart(entries: seq<Entry>, a: Object, b: Object, x: string, y: string)
    requires EntriesOk(entries) && a.uid != b.uid
    requires Entry(a.uid, a.ns, a.name, LEGACY, x) in entries && Entry(b.uid, b.ns, b.name, LEGACY, y) in entries
    ensures Apart(x, y)
  {
    var i :| 0 <= i < |entries| && entries[i] == Entry(a.uid, a.ns, a.name, LEGACY, x);
    var j :| 0 <= j < |entries| && entries[j] == Entry(b.uid, b.ns, b.name, LEGACY, y);
    assert i < j ==> Compatible(entries[i], entries[j]);
    assert j < i ==> Compatible(entries[j], entries[i]);
  }

  lemma DerivedApart(x: string, y: string)
    requires |x| == |y| && x != y
    ensures Apart(RESERVED + x, RESERVED + y)
  {
    var a, b := RESERVED + x, RESERVED + y;
    assert a[4..] == x && b[4..] == y;
    assert |a| == |b|;
    assert HasPrefix(a, b) ==> a == b;
    assert HasPrefix(b, a) ==> a == b;
  }
}
