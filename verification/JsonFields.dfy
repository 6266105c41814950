/**
 The field check that runs before the slug policy is decoded, on token streams of JSON values. Names in
 an object should be unique (section 4 of RFC 8259), and here they also have to be known ones.
 */
module JsonFields {

  datatype Value =
    | Scalar
    | Text(text: string)
    | Object(fields: seq<Field>)
    | Array(items: seq<Value>)

  datatype Field = Field(name: string, value: Value)

  datatype Token = OpenObject | CloseObject | OpenArray | CloseArray | Str(text: string) | Literal

  const KNOWN := {"cutover", "entries", "uid", "namespace", "name", "mode", "slug"}

  function Stream(v: Value): seq<Token> {
    match v
    case Scalar => [Literal]
    case Text(text) => [Str(text)]
    case Object(fields) => [OpenObject] + FieldStream(fields) + [CloseObject]
    case Array(items) => [OpenArray] + ItemStream(items) + [CloseArray]
  }

  function FieldStream(fields: seq<Field>): seq<Token> {
    if fields == [] then [] else [Str(fields[0].name)] + Stream(fields[0].value) + FieldStream(fields[1..])
  }

  function ItemStream(items: seq<Value>): seq<Token> {
    if items == [] then [] else Stream(items[0]) + ItemStream(items[1..])
  }

  /** Every object at any depth has distinct and known field names. */
  predicate Clean(v: Value) {
    match v
    case Object(fields) =>
      && (forall i, j :: 0 <= i < j < |fields| ==> fields[i].name != fields[j].name)
      && (forall i :: 0 <= i < |fields| ==> fields[i].name in KNOWN && Clean(fields[i].value))
    case Array(items) => forall i :: 0 <= i < |items| ==> Clean(items[i])
    case _ => true
  }

  /** `w` is `v` or lies in it at some depth. */
  predicate Occurs(w: Value, v: Value) {
    w == v ||
    match v
    case Object(fields) => exists i :: 0 <= i < |fields| && Occurs(w, fields[i].value)
    case Array(items) => exists i :: 0 <= i < |items| && Occurs(w, items[i])
    case _ => false
  }

  predicate NamesOk(fields: seq<Field>) {
    && (forall i, j :: 0 <= i < j < |fields| ==> fields[i].name != fields[j].name)
    && forall i :: 0 <= i < |fields| ==> fields[i].name in ["cutover", "entries", "uid", "namespace", "name", "mode", "slug"]
  }

  /** One bad object anywhere spoils the whole document, and nothing else does. */
  lemma {:induction false} CleanExactly(v: Value)
    ensures Clean(v) <==> forall fields :: Occurs(Object(fields), v) ==> NamesOk(fields)
  {
    match v
    case Object(fields) =>
      assert Occurs(Object(fields), v);
      forall i | 0 <= i < |fields|
        ensures Clean(fields[i].value) <==> forall fs :: Occurs(Object(fs), fields[i].value) ==> NamesOk(fs)
        ensures forall fs :: Occurs(Object(fs), fields[i].value) ==> Occurs(Object(fs), v)
      {
        CleanExactly(fields[i].value);
      }
    case Array(items) =>
      forall i | 0 <= i < |items|
        ensures Clean(items[i]) <==> forall fs :: Occurs(Object(fs), items[i]) ==> NamesOk(fs)
        ensures forall fs :: Occurs(Object(fs), items[i]) ==> Occurs(Object(fs), v)
      {
        CleanExactly(items[i]);
      }
    case _ =>
  }

  /** The stream from position `p` begins with `part`. */
  predicate StartsWith(tokens: seq<Token>, p: nat, part: seq<Token>) {
    p + |part| <= |tokens| && tokens[p..p + |part|] == part
  }

  predicate Closing(t: Token) {
    t.CloseObject? || t.CloseArray?
  }

  lemma StreamHead(v: Value)
    ensures |Stream(v)| > 0 && !Closing(Stream(v)[0])
    ensures v.Object? <==> Stream(v)[0].OpenObject?
    ensures v.Array? <==> Stream(v)[0].OpenArray?
  {
  }

  lemma StartsSplit(tokens: seq<Token>, p: nat, a: seq<Token>, b: seq<Token>)
    ensures StartsWith(tokens, p, a + b) <==> StartsWith(tokens, p, a) && StartsWith(tokens, p + |a|, b)
  {
    if p + |a| + |b| <= |tokens| {
      var part := tokens[p..p + |a| + |b|];
      assert part == tokens[p..p + |a|] + tokens[p + |a|..p + |a| + |b|];
      assert part[..|a|] == tokens[p..p + |a|] && part[|a|..] == tokens[p + |a|..p + |a| + |b|];
      assert (a + b)[..|a|] == a && (a + b)[|a|..] == b;
    }
  }

  lemma StartsOne(tokens: seq<Token>, p: nat, t: Token)
    ensures StartsWith(tokens, p, [t]) <==> p < |tokens| && tokens[p] == t
  {
  }

  /** The first `k` fields are distinct, known and clean. */
  ghost predicate FieldsClean(fields: seq<Field>, k: nat)
    requires k <= |fields|
  {
    && (forall i, j :: 0 <= i < j < k ==> fields[i].name != fields[j].name)
    && (forall i :: 0 <= i < k ==> fields[i].name in KNOWN && Clean(fields[i].value))
  }

  /** `k` fields were read and found clean, `keys` holds their names, the rest lies ahead. */
  ghost predicate FieldsRead(tokens: seq<Token>, p: nat, fields: seq<Field>, k: nat, keys: set<string>) {
    && k <= |fields|
    && StartsWith(tokens, p, FieldStream(fields[k..]) + [CloseObject])
    && keys == (set i | 0 <= i < k :: fields[i].name)
    && FieldsClean(fields, k)
  }

  ghost predicate ItemsRead(tokens: seq<Token>, p: nat, items: seq<Value>, k: nat) {
    && k <= |items|
    && StartsWith(tokens, p, ItemStream(items[k..]) + [CloseArray])
    && forall i :: 0 <= i < k ==> Clean(items[i])
  }

  lemma ObjectParts(tokens: seq<Token>, p: nat, fields: seq<Field>)
    requires StartsWith(tokens, p, Stream(Object(fields)))
    ensures FieldsRead(tokens, p + 1, fields, 0, {})
  {
    assert Stream(Object(fields)) == [OpenObject] + (FieldStream(fields) + [CloseObject]);
    StartsSplit(tokens, p, [OpenObject], FieldStream(fields) + [CloseObject]);
    assert fields[0..] == fields;
  }

  lemma ArrayParts(tokens: seq<Token>, p: nat, items: seq<Value>)
    requires StartsWith(tokens, p, Stream(Array(items)))
    ensures ItemsRead(tokens, p + 1, items, 0)
  {
    assert Stream(Array(items)) == [OpenArray] + (ItemStream(items) + [CloseArray]);
    StartsSplit(tokens, p, [OpenArray], ItemStream(items) + [CloseArray]);
    assert items[0..] == items;
  }

  lemma NoFieldLeft(tokens: seq<Token>, p: nat, fields: seq<Field>)
    requires p < |tokens| && StartsWith(tokens, p, FieldStream(fields[|fields|..]) + [CloseObject])
    ensures Closing(tokens[p])
  {
    assert FieldStream(fields[|fields|..]) + [CloseObject] == [CloseObject];
    StartsOne(tokens, p, CloseObject);
  }

  lemma NextField(tokens: seq<Token>, p: nat, fields: seq<Field>, k: nat)
    requires k <= |fields| && StartsWith(tokens, p, FieldStream(fields[k..]) + [CloseObject])
    requires p < |tokens| && !Closing(tokens[p])
    ensures k < |fields| && tokens[p] == Str(fields[k].name)
    ensures var len := |Stream(fields[k].value)|;
            && StartsWith(tokens, p + 1, Stream(fields[k].value))
            && StartsWith(tokens, p + 1 + len, FieldStream(fields[k + 1..]) + [CloseObject])
            && |FieldStream(fields[k..])| == 1 + len + |FieldStream(fields[k + 1..])|
  {
    if k == |fields| {
      NoFieldLeft(tokens, p, fields);
    } else {
      var head, body, rest := [Str(fields[k].name)], Stream(fields[k].value), FieldStream(fields[k + 1..]);
      assert fields[k..][1..] == fields[k + 1..];
      assert FieldStream(fields[k..]) + [CloseObject] == head + (body + (rest + [CloseObject]));
      StartsSplit(tokens, p, head, body + (rest + [CloseObject]));
      StartsSplit(tokens, p + 1, body, rest + [CloseObject]);
      StartsOne(tokens, p, Str(fields[k].name));
    }
  }

  lemma NoItemLeft(tokens: seq<Token>, p: nat, items: seq<Value>)
    requires p < |tokens| && StartsWith(tokens, p, ItemStream(items[|items|..]) + [CloseArray])
    ensures Closing(tokens[p])
  {
    assert ItemStream(items[|items|..]) + [CloseArray] == [CloseArray];
    StartsOne(tokens, p, CloseArray);
  }

  lemma NextItem(tokens: seq<Token>, p: nat, items: seq<Value>, k: nat)
    requires k <= |items| && StartsWith(tokens, p, ItemStream(items[k..]) + [CloseArray])
    requires p < |tokens| && !Closing(tokens[p])
    ensures k < |items|
    ensures var len := |Stream(items[k])|;
            && StartsWith(tokens, p, Stream(items[k]))
            && StartsWith(tokens, p + len, ItemStream(items[k + 1..]) + [CloseArray])
            && |ItemStream(items[k..])| == len + |ItemStream(items[k + 1..])|
  {
    if k == |items| {
      NoItemLeft(tokens, p, items);
    } else {
      var body, rest := Stream(items[k]), ItemStream(items[k + 1..]);
      assert items[k..][1..] == items[k + 1..];
      assert ItemStream(items[k..]) + [CloseArray] == body + (rest + [CloseArray]);
      StartsSplit(tokens, p, body, rest + [CloseArray]);
    }
  }

  lemma FieldAhead(tokens: seq<Token>, p: nat, fields: seq<Field>, k: nat)
    requires k < |fields| && StartsWith(tokens, p, FieldStream(fields[k..]) + [CloseObject])
    ensures p < |tokens| && !Closing(tokens[p])
  {
    var rest := Stream(fields[k].value) + FieldStream(fields[k..][1..]) + [CloseObject];
    assert FieldStream(fields[k..]) + [CloseObject] == [Str(fields[k].name)] + rest;
    StartsSplit(tokens, p, [Str(fields[k].name)], rest);
    StartsOne(tokens, p, Str(fields[k].name));
  }

  lemma ItemAhead(tokens: seq<Token>, p: nat, items: seq<Value>, k: nat)
    requires k < |items| && StartsWith(tokens, p, ItemStream(items[k..]) + [CloseArray])
    ensures p < |tokens| && !Closing(tokens[p])
  {
    var first, rest := Stream(items[k]), ItemStream(items[k..][1..]) + [CloseArray];
    StreamHead(items[k]);
    assert ItemStream(items[k..]) + [CloseArray] == first + rest;
    StartsSplit(tokens, p, first, rest);
    assert tokens[p] == first[0];
  }

  /** When no more fields follow, all were read and the closing token is next. */
  lemma FieldsDone(tokens: seq<Token>, p: nat, fields: seq<Field>, k: nat)
    requires k <= |fields| && StartsWith(tokens, p, FieldStream(fields[k..]) + [CloseObject])
    requires p >= |tokens| || Closing(tokens[p])
    ensures k == |fields| && p < |tokens| && FieldStream(fields[k..]) == []
  {
    hide StartsWith;
    if k < |fields| {
      FieldAhead(tokens, p, fields, k);
    } else {
      assert FieldStream(fields[k..]) + [CloseObject] == [CloseObject];
      StartsOne(tokens, p, CloseObject);
    }
  }

  lemma ItemsDone(tokens: seq<Token>, p: nat, items: seq<Value>, k: nat)
    requires k <= |items| && StartsWith(tokens, p, ItemStream(items[k..]) + [CloseArray])
    requires p >= |tokens| || Closing(tokens[p])
    ensures k == |items| && p < |tokens| && ItemStream(items[k..]) == []
  {
    hide StartsWith;
    if k < |items| {
      ItemAhead(tokens, p, items, k);
    } else {
      assert ItemStream(items[k..]) + [CloseArray] == [CloseArray];
      StartsOne(tokens, p, CloseArray);
    }
  }

  /** The decoder at a position of its token stream. */
  class Decoder {
    const tokens: seq<Token>
    var pos: nat

    ghost predicate Valid()
      reads this
    {
      pos <= |tokens|
    }

    constructor (tokens: seq<Token>)
      ensures Valid() && this.tokens == tokens && pos == 0
    {
      this.tokens, pos := tokens, 0;
    }

    /** Token: the next token, or an error at the end of the input. */
    method Next() returns (ok: bool, t: Token)
      requires Valid()
      modifies this
      ensures Valid() && ok == (old(pos) < |tokens|)
      ensures if ok then t == tokens[old(pos)] && pos == old(pos) + 1 else pos == old(pos)
    {
      if pos == |tokens| {
        return false, Literal;
      }
      t := tokens[pos];
      pos := pos + 1;
      ok := true;
    }

    /** More: there is another element in the current object or array. */
    predicate More()
      reads this
      requires Valid()
    {
      pos < |tokens| && !Closing(tokens[pos])
    }

    /** rejectDuplicateKeys. On the token stream of any value it consumes exactly that value, and succeeds
        exactly when every object in it has distinct, known field names. */
    method RejectDuplicateKeys(ghost v: Value) returns (ok: bool)
      requires Valid()
      modifies this
      ensures Valid() && old(pos) <= pos && (ok ==> old(pos) < pos)
      ensures StartsWith(tokens, old(pos), Stream(v)) ==>
                (ok <==> Clean(v)) && (ok ==> pos == old(pos) + |Stream(v)|)
      decreases |tokens| - pos, 0
    {
      ghost var start, on := pos, StartsWith(tokens, pos, Stream(v));
      StreamHead(v);
      var t;
      ok, t := Next();
      assert on ==> ok && t == Stream(v)[0];
      if !ok {
        return;
      }
      match t {
        case OpenObject => ok := RejectInObject(v);
        case OpenArray => ok := RejectInArray(v);
        case CloseObject => ok := false;
        case CloseArray => ok := false;
        case _ =>
      }
    }

    /** The object case, after its opening token. */
    method RejectInObject(ghost v: Value) returns (ok: bool)
      requires Valid() && 0 < pos && tokens[pos - 1].OpenObject?
      modifies this
      ensures Valid() && old(pos) <= pos
      ensures StartsWith(tokens, old(pos) - 1, Stream(v)) ==>
                (ok <==> Clean(v)) && (ok ==> pos == old(pos) - 1 + |Stream(v)|)
      decreases |tokens| - pos, 1
    {
      hide StartsWith, FieldStream, ItemStream;
      ghost var on := StartsWith(tokens, pos - 1, Stream(v));
      if on {
        Opened(tokens, pos - 1, v);
        ObjectParts(tokens, pos - 1, v.fields);
        assert v.fields[0..] == v.fields;
      }
      ghost var fields := if on then v.fields else [];
      ghost var k: nat := 0;
      var keys: set<string> := {};
      while More()
        invariant Valid() && old(pos) <= pos
        invariant on ==> FieldsRead(tokens, pos, fields, k, keys)
        invariant on ==> pos + |FieldStream(fields[k..])| == old(pos) + |FieldStream(fields)|
        decreases |tokens| - pos
      {
        if on {
          NextField(tokens, pos, fields, k);
        }
        var key;
        ok, key := Next();
        if !key.Str? || key.text in keys || key.text !in KNOWN {
          return false;
        }
        keys := keys + {key.text};
        ok := RejectDuplicateKeys(if on then fields[k].value else v);
        if !ok {
          return;
        }
        k := k + 1;
      }
      if on {
        FieldsDone(tokens, pos, fields, k);
      }
      var last;
      ok, last := Next();
    }

    /** The array case, after its opening token. */
    method RejectInArray(ghost v: Value) returns (ok: bool)
      requires Valid() && 0 < pos && tokens[pos - 1].OpenArray?
      modifies this
      ensures Valid() && old(pos) <= pos
      ensures StartsWith(tokens, old(pos) - 1, Stream(v)) ==>
                (ok <==> Clean(v)) && (ok ==> pos == old(pos) - 1 + |Stream(v)|)
      decreases |tokens| - pos, 1
    {
      hide StartsWith, FieldStream, ItemStream;
      ghost var on := StartsWith(tokens, pos - 1, Stream(v));
      if on {
        Opened(tokens, pos - 1, v);
        ArrayParts(tokens, pos - 1, v.items);
        assert v.items[0..] == v.items;
      }
      ghost var items := if on then v.items else [];
      ghost var k: nat := 0;
      while More()
        invariant Valid() && old(pos) <= pos
        invariant on ==> ItemsRead(tokens, pos, items, k)
        invariant on ==> pos + |ItemStream(items[k..])| == old(pos) + |ItemStream(items)|
        decreases |tokens| - pos
      {
        if on {
          NextItem(tokens, pos, items, k);
        }
        ok := RejectDuplicateKeys(if on then items[k] else v);
        if !ok {
          return;
        }
        k := k + 1;
      }
      if on {
        ItemsDone(tokens, pos, items, k);
      }
      var last;
      ok, last := Next();
    }
  }

  lemma Opened(tokens: seq<Token>, p: nat, v: Value)
    requires StartsWith(tokens, p, Stream(v))
    ensures p < |tokens| && tokens[p] == Stream(v)[0]
    ensures v.Object? <==> tokens[p].OpenObject?
    ensures v.Array? <==> tokens[p].OpenArray?
  {
    StreamHead(v);
  }
}
