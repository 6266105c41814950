/** The API key file of a BYOC workload: which keys it holds, how it is laid out, and the bootstrap key. */
module KeyFile {
  import opened Calls
  import opened Tokens
  import Auth

  // ---------------------------------------------------------------------------------------------
  // Layout
  // ---------------------------------------------------------------------------------------------

  /** strings.Join with a newline. */
  function Join(keys: seq<string>): string {
    if keys == [] then "" else if |keys| == 1 then keys[0] else keys[0] + "\n" + Join(keys[1..])
  }

  /** The newline-terminated lines of a file. */
  function Lines(file: string): seq<string> {
    if file == "" then []
    else
      var rest := Lines(file[1..]);
      if file[0] == '\n' then [""] + rest
      else if rest == [] then [[file[0]]]
      else [[file[0]] + rest[0]] + rest[1..]
  }

  lemma {:induction false} FirstLine(line: string, rest: string)
    requires '\n' !in line
    ensures Lines(line + "\n" + rest) == [line] + Lines(rest)
  {
    var file := line + "\n" + rest;
    if line == "" {
      assert file[1..] == rest;
    } else {
      FirstLine(line[1..], rest);
      assert file[1..] == line[1..] + "\n" + rest;
      assert [line[0]] + line[1..] == line;
    }
  }

  /** Splitting a generated file on newlines gives back the keys it was made from. */
  lemma {:induction false} FileRoundTrip(keys: seq<string>)
    requires keys != [] && forall i :: 0 <= i < |keys| ==> '\n' !in keys[i]
    ensures Lines(Join(keys) + "\n") == keys
  {
    if |keys| == 1 {
      FirstLine(keys[0], "");
      assert keys[0] + "\n" + "" == Join(keys) + "\n";
    } else {
      FileRoundTrip(keys[1..]);
      FirstLine(keys[0], Join(keys[1..]) + "\n");
      assert keys[0] + "\n" + (Join(keys[1..]) + "\n") == Join(keys) + "\n";
    }
  }

  // ---------------------------------------------------------------------------------------------
  // Order
  // ---------------------------------------------------------------------------------------------

  predicate Leq(a: string, b: string) {
    a == "" || (b != "" && (a[0] < b[0] || (a[0] == b[0] && Leq(a[1..], b[1..]))))
  }

  lemma LeqTotal(a: string, b: string)
    ensures Leq(a, b) || Leq(b, a)
  {
  }

  lemma {:induction false} LeqAntisymmetric(a: string, b: string)
    requires Leq(a, b) && Leq(b, a)
    ensures a == b
  {
    if a != "" {
      LeqAntisymmetric(a[1..], b[1..]);
      assert a == [a[0]] + a[1..] && b == [b[0]] + b[1..];
    }
  }

  lemma LeqTransitive(a: string, b: string, c: string)
    requires Leq(a, b) && Leq(b, c)
    ensures Leq(a, c)
  {
  }

  predicate Sorted(keys: seq<string>) {
    forall i, j :: 0 <= i < j < |keys| ==> Leq(keys[i], keys[j])
  }

  /** Insert one key into a sorted sequence. */
  function Insert(key: string, keys: seq<string>): (r: seq<string>)
    requires Sorted(keys)
    ensures Sorted(r) && multiset(r) == multiset(keys) + multiset{key}
  {
    if keys == [] then [key]
    else if Leq(key, keys[0]) then
      assert forall j :: 0 <= j < |keys| ==> Leq(key, keys[j]) by {
        forall j | 0 < j < |keys| ensures Leq(key, keys[j]) { LeqTransitive(key, keys[0], keys[j]); }
      }
      [key] + keys
    else
      var rest := Insert(key, keys[1..]);
      assert keys == [keys[0]] + keys[1..];
      assert forall j :: 0 <= j < |rest| ==> Leq(keys[0], rest[j]) by {
        LeqTotal(key, keys[0]);
        forall j | 0 <= j < |rest| ensures Leq(keys[0], rest[j]) { assert rest[j] in multiset(keys[1..]) + multiset{key}; }
      }
      [keys[0]] + rest
  }

  /** sort.Strings. */
  function Sort(keys: seq<string>): (r: seq<string>)
    ensures Sorted(r) && multiset(r) == multiset(keys)
  {
    if keys == [] then []
    else
      assert keys == [keys[0]] + keys[1..];
      Insert(keys[0], Sort(keys[1..]))
  }

  function WithoutAt<T>(a: seq<T>, i: nat): seq<T>
    requires i < |a|
  {
    a[..i] + a[i + 1..]
  }

  lemma TakeOut<T>(a: seq<T>, i: nat)
    requires i < |a|
    ensures multiset(WithoutAt(a, i)) == multiset(a) - multiset{a[i]}
  {
    assert a == a[..i] + [a[i]] + a[i + 1..];
  }

  lemma TakeFirst<T>(a: seq<T>)
    requires a != []
    ensures multiset(a[1..]) == multiset(a) - multiset{a[0]}
  {
    assert a == [a[0]] + a[1..];
  }

  lemma Least(a: seq<string>, x: string)
    requires Sorted(a) && x in multiset(a)
    ensures Leq(a[0], x)
  {
    LeqTotal(a[0], a[0]);
  }

  lemma {:induction false} SortedUnique(a: seq<string>, b: seq<string>)
    requires Sorted(a) && Sorted(b) && multiset(a) == multiset(b)
    ensures a == b
  {
    assert |a| == |multiset(a)| == |b|;
    if a != [] {
      Least(a, b[0]);
      Least(b, a[0]);
      LeqAntisymmetric(a[0], b[0]);
      TakeFirst(a);
      TakeFirst(b);
      SortedUnique(a[1..], b[1..]);
      assert a == [a[0]] + a[1..] && b == [b[0]] + b[1..];
    }
  }

  // ---------------------------------------------------------------------------------------------
  // Which keys
  // ---------------------------------------------------------------------------------------------

  predicate Clean(key: string) {
    key != "" && '\n' !in key && '\r' !in key
  }

  /** The Secret is a live token Secret of the instance, current for its request, bound to the instance's
      UID and target. */
  predicate Qualifies(s: World, ns: string, inst: Inst, n: Name) {
    n in s.secrets && n.ns == ns &&
    var sec := s.secrets[n];
    && sec.labels.instance == inst.name && sec.owner.Some? && sec.opaqueType && !sec.deleting
    && inst.target != "" && sec.binding == Binding(inst.uid, inst.target) && Clean(sec.key)
    && var at := Name(ns, sec.owner.value.name);
       && at in s.requests
       && var r := s.requests[at];
          r.uid == sec.owner.value.uid && r.instanceName == inst.name && !r.deleting && r.secretName == n.id
  }

  /** Spelled out: the key of a live opaque Secret of this namespace, labelled for the instance and bound to its UID and
      its recorded target, whose controlling request is live, names the instance and points at this Secret. Nobody else's. */
  lemma QualifiesExactly(s: World, ns: string, inst: Inst, n: Name)
    ensures Qualifies(s, ns, inst, n) <==>
              && n in s.secrets && n.ns == ns && inst.target != ""
              && (var sec := s.secrets[n];
                  && sec.labels.instance == inst.name && sec.opaqueType && !sec.deleting
                  && sec.binding.uid == inst.uid && sec.binding.target == inst.target
                  && sec.key != "" && (forall c :: c in sec.key ==> c != '\n' && c != '\r')
                  && exists r :: r in s.requests && r.ns == ns && sec.owner == Some(Owner(s.requests[r].uid, r.id))
                                 && s.requests[r].instanceName == inst.name && !s.requests[r].deleting && s.requests[r].secretName == n.id)
  {
    if Qualifies(s, ns, inst, n) {
      var sec := s.secrets[n];
      assert Name(ns, sec.owner.value.name) in s.requests;
    }
  }

  function Picked(s: World, ns: string, inst: Inst, items: seq<Name>): seq<string> {
    if items == [] then []
    else (if Qualifies(s, ns, inst, items[0]) then [s.secrets[items[0]].key] else []) + Picked(s, ns, inst, items[1..])
  }

  lemma {:induction false} PickedAppend(s: World, ns: string, inst: Inst, a: seq<Name>, b: seq<Name>)
    ensures Picked(s, ns, inst, a + b) == Picked(s, ns, inst, a) + Picked(s, ns, inst, b)
  {
    if a == [] {
      assert a + b == b;
    } else {
      PickedAppend(s, ns, inst, a[1..], b);
      assert (a + b)[1..] == a[1..] + b;
    }
  }

  lemma {:induction false} PickedIff(s: World, ns: string, inst: Inst, items: seq<Name>, key: string)
    ensures key in Picked(s, ns, inst, items) <==> exists n :: n in items && Qualifies(s, ns, inst, n) && s.secrets[n].key == key
  {
    if items != [] {
      PickedIff(s, ns, inst, items[1..], key);
      assert items == [items[0]] + items[1..];
    }
  }

  lemma PickedAround(s: World, ns: string, inst: Inst, a: seq<Name>, i: nat)
    requires i < |a|
    ensures multiset(Picked(s, ns, inst, a)) ==
            multiset(Picked(s, ns, inst, WithoutAt(a, i))) + multiset(Picked(s, ns, inst, [a[i]]))
  {
    assert a == a[..i] + ([a[i]] + a[i + 1..]);
    PickedAppend(s, ns, inst, a[..i], [a[i]] + a[i + 1..]);
    PickedAppend(s, ns, inst, [a[i]], a[i + 1..]);
    PickedAppend(s, ns, inst, a[..i], a[i + 1..]);
  }

  lemma {:induction false} PickedPermuted(s: World, ns: string, inst: Inst, a: seq<Name>, b: seq<Name>)
    requires multiset(a) == multiset(b)
    ensures multiset(Picked(s, ns, inst, a)) == multiset(Picked(s, ns, inst, b))
    decreases |a|
  {
    hide Qualifies, WithoutAt;
    assert |a| == |multiset(a)| == |b|;
    if a != [] {
      assert a[0] in multiset(b);
      var i :| 0 <= i < |b| && b[i] == a[0];
      TakeFirst(a);
      TakeOut(b, i);
      PickedPermuted(s, ns, inst, a[1..], WithoutAt(b, i));
      PickedAppend(s, ns, inst, [a[0]], a[1..]);
      assert a == [a[0]] + a[1..];
      PickedAround(s, ns, inst, b, i);
    }
  }

  /** The controlling request of such a Secret is looked up. */
  predicate Looked(sec: Secret) {
    sec.owner.Some? && sec.opaqueType && !sec.deleting
  }

  /** The loop of desiredAPIKeyFile. A request that cannot be looked up fails the whole file. */
  method CollectKeys(s: World, ns: string, inst: Inst, items: seq<Name>, broken: set<Name>) returns (ok: bool, keys: seq<string>)
    requires forall n :: n in items ==> n in s.secrets && n.ns == ns && s.secrets[n].labels.instance == inst.name
    ensures ok ==> keys == Picked(s, ns, inst, items)
    ensures ok <==> forall n :: n in items && Looked(s.secrets[n]) ==> Name(ns, s.secrets[n].owner.value.name) !in broken
  {
    keys := [];
    for i := 0 to |items|
      invariant keys == Picked(s, ns, inst, items[..i])
      invariant forall j :: 0 <= j < i && Looked(s.secrets[items[j]]) ==> Name(ns, s.secrets[items[j]].owner.value.name) !in broken
    {
      var n, sec := items[i], s.secrets[items[i]];
      PickedAppend(s, ns, inst, items[..i], [n]);
      assert items[..i + 1] == items[..i] + [n];
      assert Picked(s, ns, inst, [n]) == if Qualifies(s, ns, inst, n) then [sec.key] else [];
      if sec.owner.None? || !sec.opaqueType || sec.deleting {
        continue;
      }
      var at := Name(ns, sec.owner.value.name);
      if at in broken {
        return false, keys;
      }
      if at !in s.requests {
        continue;
      }
      var r := s.requests[at];
      if r.uid != sec.owner.value.uid || r.instanceName != inst.name || r.deleting || r.secretName != n.id {
        continue;
      }
      if inst.target == "" || sec.binding.target != inst.target || sec.binding.uid != inst.uid {
        continue;
      }
      if Clean(sec.key) {
        keys := keys + [sec.key];
      }
    }
    assert items[..|items|] == items;
    ok := true;
  }

  /** The file of user keys; it exists when some key qualifies. */
  function UserFile(s: World, ns: string, inst: Inst, items: seq<Name>): string {
    Join(Sort(Picked(s, ns, inst, items))) + "\n"
  }

  lemma {:induction false} PickedClean(s: World, ns: string, inst: Inst, items: seq<Name>)
    ensures forall k :: k in Picked(s, ns, inst, items) ==> Clean(k)
  {
    forall k | k in Picked(s, ns, inst, items)
      ensures Clean(k)
    {
      PickedIff(s, ns, inst, items, k);
    }
  }

  /** The lines of the file are the qualifying keys in order, each as often as Secrets hold it, whatever the
      order in which the Secrets were listed. */
  lemma UserFileExact(s: World, ns: string, inst: Inst, items: seq<Name>, other: seq<Name>)
    requires Picked(s, ns, inst, items) != [] && multiset(items) == multiset(other)
    ensures var lines := Lines(UserFile(s, ns, inst, items));
            && Sorted(lines) && multiset(lines) == multiset(Picked(s, ns, inst, items))
            && (forall k :: k in lines <==> exists n :: n in items && Qualifies(s, ns, inst, n) && s.secrets[n].key == k)
    ensures UserFile(s, ns, inst, other) == UserFile(s, ns, inst, items)
  {
    var picked := Picked(s, ns, inst, items);
    var keys := Sort(picked);
    PickedClean(s, ns, inst, items);
    assert |keys| == |multiset(keys)| == |picked|;
    forall i | 0 <= i < |keys|
      ensures '\n' !in keys[i]
    {
      assert keys[i] in multiset(keys);
      assert keys[i] in picked;
    }
    FileRoundTrip(keys);
    forall k
      ensures k in keys <==> exists n :: n in items && Qualifies(s, ns, inst, n) && s.secrets[n].key == k
    {
      assert k in keys <==> k in multiset(keys);
      PickedIff(s, ns, inst, items, k);
    }
    PickedPermuted(s, ns, inst, items, other);
    SortedUnique(keys, Sort(Picked(s, ns, inst, other)));
  }

  /** A key that is in some instance's file at some time is never, before or after, accepted by the verifier
      of hosted instances. */
  lemma FileKeysRefused(start: World, h: seq<Event>, i: nat, ns: string, inst: Inst, n: Name, j: nat, b: Auth.Route)
    requires Initial(start) && Legal(start, h) && i <= |h| && j <= |h|
    requires Qualifies(At(start, h, i), ns, inst, n)
    ensures !Auth.Accepts(At(start, h, j), b, At(start, h, i).secrets[n].key)
  {
    hide At, Legal, Initial, Auth.Accepts;
    var key := At(start, h, i).secrets[n].key;
    assert Holds(At(start, h, i), n, key, Binding(inst.uid, inst.target));
    Auth.BoundElsewhereRefused(start, h, i, n, Binding(inst.uid, inst.target), j, b, key);
  }

  // ---------------------------------------------------------------------------------------------
  // The remote key Secret
  // ---------------------------------------------------------------------------------------------

  /** The Secret on the tenant's cluster that holds the file; `owned` is the instance's mark. */
  datatype KeySecret = KeySecret(owned: bool, bootstrap: bool, file: string)

  /** A bootstrap file holds one generated key that was never issued to a user; any other file holds
      issued keys only. */
  ghost predicate FileOk(used: set<string>, boots: set<string>, file: string, bootstrap: bool) {
    if bootstrap then exists b :: b in boots && file == b + "\n"
    else Lines(file) != [] && forall k :: k in Lines(file) ==> k in used
  }

  ghost predicate RemoteOk(used: set<string>, boots: set<string>, remote: Option<KeySecret>) {
    remote.Some? && remote.value.owned ==> FileOk(used, boots, remote.value.file, remote.value.bootstrap)
  }

  class Writer {
    var s: World
    var remote: Option<KeySecret>
    /** The bootstrap keys generated so far, for the record. */
    var boots: set<string>
    const calm: bool

    ghost predicate Valid()
      reads this
    {
      && Tokens.Inv(s) && boots !! s.used
      && (forall b :: b in boots ==> Clean(b))
      && RemoteOk(s.used, boots, remote)
    }

    constructor (world: World, calm: bool)
      requires Tokens.Inv(world)
      ensures Valid() && s == world && remote == None && this.calm == calm
    {
      s, remote, boots, this.calm := world, None, {}, calm;
    }

    /** Token requests, instances and Secrets change; the tenant may remove the remote Secret or replace it by
        one without the mark. Generated tokens never coincide, so none of `reserved` is issued to a user. */
    method Interfere(reserved: set<string>)
      requires Valid() && boots <= reserved && reserved !! s.used
      modifies this`s, this`remote
      ensures Valid() && reserved !! s.used && old(s.used) <= s.used
      ensures remote == old(remote) || remote.None? || !remote.value.owned
      ensures calm ==> s == old(s) && remote == old(remote)
    {
      if calm {
        return;
      }
      var n :| 0 <= n;
      for i := 0 to n
        invariant Valid() && reserved !! s.used && old(s.used) <= s.used
        invariant remote == old(remote) || remote.None? || !remote.value.owned
      {
        var e: Event := *;
        if Enabled(s, e) && reserved !! Apply(s, e).used {
          StepInv(s, e);
          UsedGrows(s, e);
          s := Apply(s, e);
        }
        var gone: bool, other: KeySecret := *, *;
        if gone {
          remote := if other.owned then None else Some(other);
        }
      }
    }

    /** The list call: every Secret of the namespace labelled with the instance's name, once. */
    method ListTokenSecrets(ns: string, inst: Inst) returns (items: seq<Name>)
      ensures forall n :: n in items <==> n in s.secrets && n.ns == ns && s.secrets[n].labels.instance == inst.name
    {
      items := [];
      var rest := s.secrets.Keys;
      while rest != {}
        invariant rest <= s.secrets.Keys
        invariant forall n :: n in items <==> n in s.secrets.Keys - rest && n.ns == ns && s.secrets[n].labels.instance == inst.name
        decreases |rest|
      {
        var n :| n in rest;
        rest := rest - {n};
        if n.ns == ns && s.secrets[n].labels.instance == inst.name {
          items := items + [n];
        }
      }
    }

    /** desiredAPIKeyFile. `token` is what generateToken would return. */
    method DesiredKeyFile(ns: string, inst: Inst, token: string) returns (ok: bool, file: string, bootstrap: bool)
      requires Valid() && Clean(token) && token !in s.used && token !in boots
      modifies this
      ensures Valid() && (ok ==> FileOk(s.used, boots, file, bootstrap) && file != "")
      ensures remote == old(remote) || remote.None? || !remote.value.owned
      ensures calm ==> s == old(s) && remote == old(remote)
      ensures calm && ok ==> (bootstrap <==> forall n :: !Qualifies(s, ns, inst, n))
      ensures calm && ok && !bootstrap ==>
                && Sorted(Lines(file))
                && forall k :: k in Lines(file) <==> exists n :: Qualifies(s, ns, inst, n) && s.secrets[n].key == k
      ensures calm ==> (ok <==> (exists n :: Qualifies(s, ns, inst, n)) || remote.None? || remote.value.owned)
      ensures calm && ok && bootstrap ==>
                file == if remote.Some? && remote.value.bootstrap && remote.value.file != "" then remote.value.file else token + "\n"
    {
      hide Tokens.Inv, RemoteOk, Sorted, Qualifies;
      ok, file, bootstrap := false, "", false;
      Interfere(boots + {token});
      var fails := DrawFailure(calm);
      if fails {
        return;
      }
      var items := ListTokenSecrets(ns, inst);
      var broken: set<Name> := *;
      if calm {
        broken := {};
      }
      var keys;
      ok, keys := CollectKeys(s, ns, inst, items, broken);
      if !ok {
        return;
      }
      if |keys| > 0 {
        file := Join(Sort(keys)) + "\n";
        IssuedKeys(s, ns, inst, items, file);
        return true, file, false;
      }
      NoneQualifies(s, ns, inst, items);
      ok, file := BootstrapFile(token);
      bootstrap := ok;
    }

    /** No key qualifies: keep the bootstrap key that is in place, or generate one. */
    method BootstrapFile(token: string) returns (ok: bool, file: string)
      requires Valid() && Clean(token) && token !in s.used && token !in boots
      modifies this
      ensures Valid() && old(s.used) <= s.used && (ok ==> FileOk(s.used, boots, file, true) && file != "")
      ensures remote == old(remote) || remote.None? || !remote.value.owned
      ensures calm ==> s == old(s) && remote == old(remote)
      ensures calm ==> (ok <==> remote.None? || remote.value.owned)
      ensures calm && ok ==>
                file == if remote.Some? && remote.value.bootstrap && remote.value.file != "" then remote.value.file else token + "\n"
    {
      hide Tokens.Inv;
      ok, file := false, "";
      Interfere(boots + {token});
      var fails := DrawFailure(calm);
      if fails {
        return;
      }
      if remote.Some? {
        if !remote.value.owned {
          return;
        }
        if remote.value.bootstrap && remote.value.file != "" {
          return true, remote.value.file;
        }
      }
      boots := boots + {token};
      return true, token + "\n";
    }

    /** reconcileBYOCKeySecret: a foreign Secret is refused; file and bootstrap mark change together. */
    method ReconcileKeySecret(file: string, bootstrap: bool) returns (ok: bool)
      requires Valid() && FileOk(s.used, boots, file, bootstrap)
      modifies this`s, this`remote
      ensures Valid() && old(s.used) <= s.used
      ensures ok ==> remote == Some(KeySecret(true, bootstrap, file))
      ensures calm ==> s == old(s) && (ok <==> old(remote).Some? ==> old(remote).value.owned)
    {
      hide Tokens.Inv;
      Interfere(boots);
      var fails := DrawFailure(calm);
      if fails {
        return false;
      }
      var read := remote;
      if read.Some? {
        if !read.value.owned {
          return false;
        }
        var next, updated := read.value, false;
        if next.file != file {
          next, updated := next.(file := file), true;
        }
        if next.bootstrap != bootstrap {
          next, updated := next.(bootstrap := bootstrap), true;
        }
        if !updated {
          return true;
        }
        ok := Store(read, next);
        return;
      }
      ok := Store(None, KeySecret(true, bootstrap, file));
    }

    /** Create or update with a lock on what was read. */
    method Store(read: Option<KeySecret>, next: KeySecret) returns (ok: bool)
      requires Valid() && next.owned && FileOk(s.used, boots, next.file, next.bootstrap)
      requires read.Some? ==> read.value.owned
      modifies this`s, this`remote
      ensures Valid() && old(s.used) <= s.used
      ensures ok ==> remote == Some(next)
      ensures calm ==> s == old(s) && (read == old(remote) ==> ok)
    {
      hide Tokens.Inv;
      Interfere(boots);
      var fate := DrawFate(calm);
      if fate.Lost? || remote != read {
        return false;
      }
      Write(read, next);
      return fate.Acknowledged?;
    }

    /** The server takes a write only of what is still what was read, and only ours is written. */
    method Write(ghost read: Option<KeySecret>, next: KeySecret)
      requires Valid() && remote == read && (read.Some? ==> read.value.owned)
      requires next.owned && FileOk(s.used, boots, next.file, next.bootstrap)
      modifies this`remote
      ensures Valid() && remote == Some(next)
    {
      remote := Some(next);
    }

    /** One pass over the key Secret. When the last token is revoked, the file is left with a single key that
        was never issued to any user, the same one for as long as none is issued. */
    method Pass(ns: string, inst: Inst, token: string) returns (ok: bool)
      requires Valid() && Clean(token) && token !in s.used && token !in boots
      modifies this
      ensures Valid() && (ok ==> remote.Some? && remote.value.owned && remote.value.file != "")
      ensures calm ==> (ok <==> old(remote).None? || old(remote).value.owned)
      ensures calm && ok ==>
                && s == old(s)
                && (remote.value.bootstrap <==> forall n :: !Qualifies(s, ns, inst, n))
                && (if remote.value.bootstrap
                    then |Lines(remote.value.file)| == 1 && Lines(remote.value.file)[0] !in s.used
                    else forall k :: k in Lines(remote.value.file) <==> exists n :: Qualifies(s, ns, inst, n) && s.secrets[n].key == k)
      ensures calm && ok && remote.value.bootstrap && old(remote).Some? && old(remote).value.bootstrap ==>
                remote.value.file == old(remote).value.file
    {
      hide Tokens.Inv, Qualifies, Sorted;
      var file, bootstrap;
      ok, file, bootstrap := DesiredKeyFile(ns, inst, token);
      if !ok {
        return;
      }
      ok := ReconcileKeySecret(file, bootstrap);
      if ok && bootstrap {
        SingleLine(s.used, boots, file);
      }
    }
  }

  lemma SingleLine(used: set<string>, boots: set<string>, file: string)
    requires boots !! used && (forall b :: b in boots ==> Clean(b)) && FileOk(used, boots, file, true)
    ensures |Lines(file)| == 1 && Lines(file)[0] !in used
  {
    var b :| b in boots && file == b + "\n";
    FirstLine(b, "");
    assert b + "\n" + "" == file;
  }

  lemma NoneQualifies(s: World, ns: string, inst: Inst, items: seq<Name>)
    requires Picked(s, ns, inst, items) == []
    requires forall n :: n in items <==> n in s.secrets && n.ns == ns && s.secrets[n].labels.instance == inst.name
    ensures forall n :: !Qualifies(s, ns, inst, n)
  {
    forall n
      ensures !Qualifies(s, ns, inst, n)
    {
      if Qualifies(s, ns, inst, n) {
        assert n in items;
        PickedIff(s, ns, inst, items, s.secrets[n].key);
      }
    }
  }

  /** The user file holds issued keys only, and every qualifying one. */
  lemma IssuedKeys(s: World, ns: string, inst: Inst, items: seq<Name>, file: string)
    requires Tokens.Inv(s) && Picked(s, ns, inst, items) != [] && file == UserFile(s, ns, inst, items)
    requires forall n :: n in items <==> n in s.secrets && n.ns == ns && s.secrets[n].labels.instance == inst.name
    ensures Lines(file) != [] && Sorted(Lines(file)) && forall k :: k in Lines(file) ==> k in s.used
    ensures forall k :: k in Lines(file) <==> exists n :: Qualifies(s, ns, inst, n) && s.secrets[n].key == k
    ensures exists n :: Qualifies(s, ns, inst, n)
  {
    UserFileExact(s, ns, inst, items, items);
    var picked := Picked(s, ns, inst, items);
    assert picked[0] in multiset(Lines(file));
    PickedIff(s, ns, inst, items, picked[0]);
    assert forall n :: Qualifies(s, ns, inst, n) ==> n in items;
  }
}
