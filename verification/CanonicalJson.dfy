/** packages/research-agent-contracts/src/canonical-json.ts: a normal form for JSON values that does not
    depend on the order of object keys. */
module CanonicalJson {
  import opened Seqs
  import opened KeyOrder

  datatype Number = Finite(r: real) | NegativeZero | NonFinite

  /** Where an object's prototype chain starts. */
  datatype Proto = ObjectPrototype | NoPrototype | OtherPrototype

  /** An own property: an enumerable data property, or anything else. */
  datatype Field = Data(value: Json) | Special

  datatype Prop = Prop(key: Text, field: Field)

  /** A tree-shaped JavaScript value. The properties of an object stand in enumeration order. */
  datatype Json =
    | Null
    | Bool(b: bool)
    | Str(s: Text)
    | Num(n: Number)
    | Arr(items: seq<Json>)
    | Obj(proto: Proto, symbolKeys: bool, props: seq<Prop>)
    | NotJson

  datatype Step = Index(i: nat) | Key(k: Text)

  type Path = seq<Step>

  datatype Failure =
    | NonFiniteNumber(at: Path)
    | NonJsonValue(at: Path)
    | NotPlain(at: Path)
    | HasSymbolKey(at: Path)
    | NotEnumerableData(at: Path)

  /** The key `__proto__`, which an assignment to a plain object does not store but hands to the prototype setter. */
  const PROTO: Text := [95, 95, 112, 114, 111, 116, 111, 95, 95]

  function Keys(props: seq<Prop>): (r: seq<Text>)
    ensures |r| == |props|
  {
    seq(|props|, i requires 0 <= i < |props| => props[i].key)
  }

  /** The own properties of an object by key. */
  function Table(props: seq<Prop>): (r: map<Text, Field>)
    ensures forall k <- r :: Prop(k, r[k]) in props
  {
    if props == [] then map[] else Table(props[1..])[props[0].key := props[0].field]
  }

  lemma {:induction false} TableKeys(props: seq<Prop>)
    ensures Table(props).Keys == Members(Keys(props))
  {
    if props != [] {
      TableKeys(props[1..]);
      assert Keys(props) == [props[0].key] + Keys(props[1..]);
    }
  }

  /** A canonical array index, which engines enumerate first and in numeric order. */
  predicate IsIndex(k: Text) {
    && k != []
    && (forall d <- k :: 48 <= d <= 57)
    && (|k| > 1 ==> k[0] != 48)
    && NumericValue(k) < 0xffff_ffff
  }

  function NumericValue(k: Text): int {
    if k == [] then 0 else 10 * NumericValue(k[..|k| - 1]) + (k[|k| - 1] as int - 48)
  }

  /** Where a new property goes in the enumeration order. */
  function Place(props: seq<Prop>, p: Prop): seq<Prop> {
    if IsIndex(p.key) then PlaceIndex(props, p) else props + [p]
  }

  function PlaceIndex(props: seq<Prop>, p: Prop): seq<Prop>
    requires IsIndex(p.key)
  {
    if props == [] || !IsIndex(props[0].key) || NumericValue(p.key) < NumericValue(props[0].key) then [p] + props
    else [props[0]] + PlaceIndex(props[1..], p)
  }

  /** `result[key] = value` on an object that starts as `{}`. */
  function Assign(result: Json, key: Text, value: Json): (r: Json)
    requires result.Obj?
    ensures r.Obj?
  {
    if key != PROTO then result.(props := Place(result.props, Prop(key, Data(value))))
    else if value.Null? then result.(proto := NoPrototype)
    else if value.Obj? || value.Arr? then result.(proto := OtherPrototype)
    else result
  }

  const EMPTY: Json := Obj(ObjectPrototype, false, [])

  function Canon(v: Json, path: Path): Result<Json, Failure>
    decreases v, 1, 0
  {
    match v
    case Num(NonFinite) => Err(NonFiniteNumber(path))
    case Num(NegativeZero) => Ok(Num(Finite(0.0)))
    case Arr(items) =>
      (match CanonItems(v, 0, path)
       case Err(e) => Err(e)
       case Ok(r) => Ok(Arr(r)))
    case NotJson => Err(NonJsonValue(path))
    case Obj(proto, symbolKeys, props) =>
      if proto.OtherPrototype? then Err(NotPlain(path))
      else if symbolKeys then Err(HasSymbolKey(path))
      else (TableKeys(props); Fill(v, Sort(Keys(props)), path, EMPTY))
    case _ => Ok(v)
  }

  function CanonItems(v: Json, i: nat, path: Path): (r: Result<seq<Json>, Failure>)
    requires v.Arr? && i <= |v.items|
    ensures r.Ok? ==> |r.value| == |v.items| - i
    decreases v, 0, |v.items| - i
  {
    if i == |v.items| then Ok([])
    else
      match Canon(v.items[i], path + [Index(i)])
      case Err(e) => Err(e)
      case Ok(x) =>
        match CanonItems(v, i + 1, path)
        case Err(e) => Err(e)
        case Ok(rest) => Ok([x] + rest)
  }

  /** The loop over the sorted keys. */
  function Fill(v: Json, keys: seq<Text>, path: Path, result: Json): (r: Result<Json, Failure>)
    requires v.Obj? && result.Obj? && Members(keys) <= Table(v.props).Keys
    ensures r.Ok? ==> r.value.Obj?
    decreases v, 0, |keys|
  {
    if keys == [] then Ok(result)
    else
      assert keys[0] in Members(keys);
      match Table(v.props)[keys[0]]
      case Special => Err(NotEnumerableData(path + [Key(keys[0])]))
      case Data(x) =>
        match Canon(x, path + [Key(keys[0])])
        case Err(e) => Err(e)
        case Ok(y) => Fill(v, keys[1..], path, Assign(result, keys[0], y))
  }

  /** `canonicalize`: recursion over arrays and properties, with a loop that fills the result in sorted key order. */
  method Canonicalize(value: Json, path: Path) returns (r: Result<Json, Failure>)
    ensures r == Canon(value, path)
    decreases value
  {
    match value {
      case Num(n) =>
        if n == NonFinite {
          return Err(NonFiniteNumber(path));
        }
        return Ok(if n == NegativeZero then Num(Finite(0.0)) else value);
      case Arr(items) =>
        var done: seq<Json> := [];
        assert CanonItems(value, 0, path).Ok? ==>
          done + CanonItems(value, 0, path).value == CanonItems(value, 0, path).value;
        for index := 0 to |items|
          invariant |done| == index
          invariant Canon(value, path) == (match CanonItems(value, index, path)
                                           case Err(e) => Err(e)
                                           case Ok(rest) => Ok(Arr(done + rest)))
        {
          var item := Canonicalize(items[index], path + [Index(index)]);
          if item.Err? {
            return Err(item.error);
          }
          assert CanonItems(value, index + 1, path).Ok? ==>
              done + ([item.value] + CanonItems(value, index + 1, path).value)
              == (done + [item.value]) + CanonItems(value, index + 1, path).value;
          done := done + [item.value];
        }
        assert done + [] == done;
        return Ok(Arr(done));
      case NotJson => return Err(NonJsonValue(path));
      case Obj(proto, symbolKeys, props) =>
        if proto == OtherPrototype {
          return Err(NotPlain(path));
        }
        if symbolKeys {
          return Err(HasSymbolKey(path));
        }
        TableKeys(props);
        var keys := Sort(Keys(props));
        var result := EMPTY;
        var i := 0;
        while i < |keys|
          invariant i <= |keys| && result.Obj?
          invariant Members(keys[i..]) <= Table(props).Keys
          invariant Canon(value, path) == Fill(value, keys[i..], path, result)
        {
          var key := keys[i];
          assert keys[i..][0] == key && keys[i..][1..] == keys[i + 1..];
          assert key in Members(keys[i..]);
          var field := Table(props)[key];
          if field == Special {
            return Err(NotEnumerableData(path + [Key(key)]));
          }
          var item := Canonicalize(field.value, path + [Key(key)]);
          if item.Err? {
            return Err(item.error);
          }
          result := Assign(result, key, item.value);
          i := i + 1;
        }
        return Ok(result);
      case _ => return Ok(value);
    }
  }

  /** Equal up to the order of keys at every depth, and up to the sign of zero. */
  predicate Similar(a: Json, b: Json)
    decreases a, 1
  {
    match a
    case Num(n) => b.Num? && Plus(n) == Plus(b.n)
    case Arr(items) => b.Arr? && |items| == |b.items| && forall i | 0 <= i < |items| :: Similar(items[i], b.items[i])
    case Obj(proto, symbolKeys, props) =>
      && b.Obj? && symbolKeys == b.symbolKeys
      && proto.OtherPrototype? == b.proto.OtherPrototype?
      && Table(props).Keys == Table(b.props).Keys
      && forall k | k in Table(props) :: SimilarAt(a, b, k)
    case _ => a == b
  }

  predicate SimilarAt(a: Json, b: Json, k: Text)
    requires a.Obj? && b.Obj? && k in Table(a.props) && k in Table(b.props)
    decreases a, 0
  {
    match (Table(a.props)[k], Table(b.props)[k])
    case (Data(x), Data(y)) => Similar(x, y)
    case (Special, Special) => true
    case _ => false
  }

  function Plus(n: Number): Number {
    if n.NegativeZero? then Finite(0.0) else n
  }

  /** Key order never shows: similar values have the same canonical form, or fail in the same place. */
  lemma {:induction false} SimilarSameCanon(a: Json, b: Json, path: Path)
    requires Similar(a, b)
    ensures Canon(a, path) == Canon(b, path)
    decreases a, 1, 0
  {
    match a
    case Arr(items) => SimilarItems(a, b, 0, path);
    case Obj(proto, symbolKeys, props) =>
      TableKeys(props);
      TableKeys(b.props);
      AscendingUnique(Sort(Keys(props)), Sort(Keys(b.props)));
      SimilarFill(a, b, Sort(Keys(props)), path, EMPTY);
    case _ =>
  }

  lemma {:induction false} SimilarItems(a: Json, b: Json, i: nat, path: Path)
    requires a.Arr? && Similar(a, b) && i <= |a.items|
    ensures CanonItems(a, i, path) == CanonItems(b, i, path)
    decreases a, 0, |a.items| - i
  {
    if i < |a.items| {
      SimilarSameCanon(a.items[i], b.items[i], path + [Index(i)]);
      SimilarItems(a, b, i + 1, path);
    }
  }

  lemma {:induction false} SimilarFill(a: Json, b: Json, keys: seq<Text>, path: Path, result: Json)
    requires a.Obj? && Similar(a, b) && result.Obj? && Members(keys) <= Table(a.props).Keys
    ensures Fill(a, keys, path, result) == Fill(b, keys, path, result)
    decreases a, 0, |keys|
  {
    if keys != [] {
      var k := keys[0];
      assert k in Members(keys);
      assert SimilarAt(a, b, k);
      match Table(a.props)[k]
      case Special =>
      case Data(x) =>
        SimilarSameCanon(x, Table(b.props)[k].value, path + [Key(k)]);
        match Canon(x, path + [Key(k)])
        case Err(_) =>
        case Ok(y) => SimilarFill(a, b, keys[1..], path, Assign(result, k, y));
    }
  }

  lemma {:induction false} TableSnoc(props: seq<Prop>, p: Prop)
    requires p.key !in Table(props)
    ensures Table(props + [p]) == Table(props)[p.key := p.field]
  {
    if props == [] {
      assert props + [p] == [p] && [p][1..] == [];
    } else {
      TableSnoc(props[1..], p);
      TableCons(props);
      TableCons(props + [p]);
      assert (props + [p])[1..] == props[1..] + [p];
      assert props[0].key != p.key;
      PutTwice(Table(props[1..]), props[0], p);
      hide Table;
    }
  }

  lemma PutTwice(table: map<Text, Field>, p: Prop, q: Prop)
    requires p.key != q.key
    ensures table[p.key := p.field][q.key := q.field] == table[q.key := q.field][p.key := p.field]
  {
  }

  lemma TableCons(props: seq<Prop>)
    requires props != []
    ensures Table(props) == Table(props[1..])[props[0].key := props[0].field]
  {
  }

  lemma {:induction false} TablePlaceIndex(props: seq<Prop>, p: Prop)
    requires p.key !in Table(props) && IsIndex(p.key)
    ensures Table(PlaceIndex(props, p)) == Table(props)[p.key := p.field]
  {
    if props == [] || !IsIndex(props[0].key) || NumericValue(p.key) < NumericValue(props[0].key) {
      assert ([p] + props)[1..] == props;
    } else {
      var rest := PlaceIndex(props[1..], p);
      TableCons(props);
      TableCons([props[0]] + rest);
      assert ([props[0]] + rest)[1..] == rest;
      TablePlaceIndex(props[1..], p);
      assert PlaceIndex(props, p) == [props[0]] + rest;
      assert props[0].key != p.key;
      PutTwice(Table(props[1..]), props[0], p);
      hide Table, PlaceIndex;
    }
  }

  lemma TablePlace(props: seq<Prop>, p: Prop)
    requires p.key !in Table(props)
    ensures Table(Place(props, p)) == Table(props)[p.key := p.field]
  {
    if IsIndex(p.key) {
      TablePlaceIndex(props, p);
    } else {
      TableSnoc(props, p);
    }
  }

  /** Property k was read as a data property and its value has a canonical form. */
  ghost predicate CanonAt(v: Json, k: Text, path: Path)
    requires v.Obj? && k in Table(v.props)
  {
    Table(v.props)[k].Data? && Canon(Table(v.props)[k].value, path + [Key(k)]).Ok?
  }

  function CanonOf(v: Json, k: Text, path: Path): Json
    requires v.Obj? && k in Table(v.props) && CanonAt(v, k, path)
  {
    Canon(Table(v.props)[k].value, path + [Key(k)]).value
  }

  function ProtoAfter(proto: Proto, value: Json): Proto {
    if value.Null? then NoPrototype else if value.Obj? || value.Arr? then OtherPrototype else proto
  }

  /** What the loop leaves in `result`: the old properties, and every key but `__proto__` with its canonical value. */
  ghost predicate Filled(v: Json, keys: set<Text>, path: Path, before: Json, after: Json)
    requires v.Obj? && before.Obj? && after.Obj? && keys <= Table(v.props).Keys
  {
    && (forall k <- keys :: CanonAt(v, k, path))
    && Table(after.props).Keys == Table(before.props).Keys + (keys - {PROTO})
    && (forall k <- Table(before.props) :: Table(after.props)[k] == Table(before.props)[k])
    && (forall k | k in keys && k != PROTO :: Table(after.props)[k] == Data(CanonOf(v, k, path)))
    && after.symbolKeys == before.symbolKeys
    && after.proto == (if PROTO in keys then ProtoAfter(before.proto, CanonOf(v, PROTO, path)) else before.proto)
  }

  lemma {:induction false} FillFills(v: Json, keys: seq<Text>, path: Path, result: Json)
    requires v.Obj? && result.Obj? && Members(keys) <= Table(v.props).Keys
    requires Ascending(keys) && Members(keys) !! Table(result.props).Keys
    requires Fill(v, keys, path, result).Ok?
    ensures Filled(v, Members(keys), path, result, Fill(v, keys, path, result).value)
    decreases |keys|
  {
    if keys == [] {
      FilledNothing(v, path, result);
      assert Members(keys) == {};
    } else {
      var k, rest := keys[0], keys[1..];
      FirstKey(v, keys, result);
      hide Table, Canon, Filled, Assign, CanonAt, CanonOf, Members, Ascending;
      FillOne(v, keys, path, result);
      AssignTable(result, k, CanonOf(v, k, path));
      hide Fill;
      assert Members(rest) !! Table(Assign(result, k, CanonOf(v, k, path)).props).Keys;
      FillFills(v, rest, path, Assign(result, k, CanonOf(v, k, path)));
      FilledStep(v, k, Members(rest), path, result, Fill(v, keys, path, result).value);
    }
  }

  /** The first key is an own property that was not filled in yet, and the others are other keys. */
  lemma FirstKey(v: Json, keys: seq<Text>, result: Json)
    requires v.Obj? && result.Obj? && Members(keys) <= Table(v.props).Keys && keys != []
    requires Ascending(keys) && Members(keys) !! Table(result.props).Keys
    ensures Ascending(keys[1..]) && Members(keys) == Members(keys[1..]) + {keys[0]} && keys[0] !in Members(keys[1..])
    ensures keys[0] in Table(v.props) && keys[0] !in Table(result.props)
  {
    MembersOfTail(keys);
    assert keys[0] in Members(keys);
    hide Table, Less;
    assert Members(keys) == Members(keys[1..]) + {keys[0]};
  }

  lemma FilledNothing(v: Json, path: Path, result: Json)
    requires v.Obj? && result.Obj?
    ensures Filled(v, {}, path, result, result)
  {
  }

  lemma FillOne(v: Json, keys: seq<Text>, path: Path, result: Json)
    requires v.Obj? && result.Obj? && Members(keys) <= Table(v.props).Keys && keys != []
        && Members(keys[1..]) <= Table(v.props).Keys
    requires Fill(v, keys, path, result).Ok?
    ensures keys[0] in Table(v.props) && CanonAt(v, keys[0], path)
    ensures Fill(v, keys, path, result) == Fill(v, keys[1..], path, Assign(result, keys[0], CanonOf(v, keys[0], path)))
  {
    assert keys[0] in Members(keys);
    hide Canon;
  }

  lemma AssignTable(result: Json, k: Text, y: Json)
    requires result.Obj? && k !in Table(result.props)
    ensures Table(Assign(result, k, y).props)
         == if k == PROTO then Table(result.props) else Table(result.props)[k := Data(y)]
  {
    if k != PROTO {
      TablePlace(result.props, Prop(k, Data(y)));
    }
  }

  lemma FilledStep(v: Json, k: Text, rest: set<Text>, path: Path, before: Json, after: Json)
    requires v.Obj? && before.Obj? && after.Obj? && k in Table(v.props) && rest <= Table(v.props).Keys
    requires k !in rest && k !in Table(before.props) && CanonAt(v, k, path)
    requires Table(Assign(before, k, CanonOf(v, k, path)).props)
          == if k == PROTO then Table(before.props) else Table(before.props)[k := Data(CanonOf(v, k, path))]
    requires Filled(v, rest, path, Assign(before, k, CanonOf(v, k, path)), after)
    ensures Filled(v, rest + {k}, path, before, after)
  {
    hide Table, Canon;
  }

  lemma CanonFills(v: Json, path: Path)
    requires v.Obj? && Canon(v, path).Ok?
    ensures Canon(v, path).value.Obj? && Filled(v, Table(v.props).Keys, path, EMPTY, Canon(v, path).value)
  {
    TableKeys(v.props);
    FillFills(v, Sort(Keys(v.props)), path, EMPTY);
  }

  /** No object at any depth has an own `__proto__` key. */
  predicate Clean(v: Json) {
    match v
    case Arr(items) => forall i | 0 <= i < |items| :: Clean(items[i])
    case Obj(_, _, props) =>
      && PROTO !in Table(props)
      && forall k | k in Table(props) :: Table(props)[k].Data? ==> Clean(Table(props)[k].value)
    case _ => true
  }

  /** Completeness: values without a `__proto__` key that have the same canonical form are similar. */
  lemma {:induction false} SameCanonSimilar(a: Json, b: Json, path: Path, path': Path)
    requires Clean(a) && Clean(b)
    requires Canon(a, path).Ok? && Canon(a, path) == Canon(b, path')
    ensures Similar(a, b)
    decreases a, 2
  {
    match a
    case Arr(items) =>
      CanonItemsAt(a, 0, path);
      CanonItemsAt(b, 0, path');
      forall i | 0 <= i < |items|
        ensures Similar(items[i], b.items[i])
      {
        SameCanonSimilar(items[i], b.items[i], path + [Index(i)], path' + [Index(i)]);
      }
    case Obj(proto, symbolKeys, props) =>
      SameCanonSimilarObjects(a, b, path, path');
    case _ =>
  }

  lemma {:induction false} SameCanonSimilarObjects(a: Json, b: Json, path: Path, path': Path)
    requires a.Obj? && b.Obj? && Clean(a) && Clean(b)
    requires Canon(a, path).Ok? && Canon(a, path) == Canon(b, path')
    ensures Similar(a, b)
    decreases a, 1
  {
    hide Fill, CanonAt, CanonOf, Filled;
    CanonFills(a, path);
    CanonFills(b, path');
    PlainWhenCanon(a, path);
    PlainWhenCanon(b, path');
    SameFilling(a, b, path, path', Canon(a, path).value);
    forall k | k in Table(a.props)
      ensures k in Table(b.props) && SimilarAt(a, b, k)
    {
      SameCanonSimilarAt(a, b, k, path, path');
    }
  }

  lemma SameFilling(a: Json, b: Json, path: Path, path': Path, w: Json)
    requires a.Obj? && b.Obj? && w.Obj? && PROTO !in Table(a.props) && PROTO !in Table(b.props)
    requires Filled(a, Table(a.props).Keys, path, EMPTY, w) && Filled(b, Table(b.props).Keys, path', EMPTY, w)
    ensures Table(a.props).Keys == Table(b.props).Keys
    ensures forall k <- Table(a.props) ::
              CanonAt(a, k, path) && k in Table(b.props) && CanonAt(b, k, path')
                  && CanonOf(a, k, path) == CanonOf(b, k, path')
  {
    hide Filled, Table, Canon, CanonAt, CanonOf;
    FilledWhole(a, path, w);
    FilledWhole(b, path', w);
    forall k | k in Table(a.props)
      ensures k in Table(b.props) && CanonOf(a, k, path) == CanonOf(b, k, path')
    {
      assert k in Table(w.props).Keys;
      assert k in Table(b.props).Keys;
      assert Table(w.props)[k] == Data(CanonOf(a, k, path)) == Data(CanonOf(b, k, path'));
    }
  }

  lemma FilledWhole(v: Json, path: Path, w: Json)
    requires v.Obj? && w.Obj? && PROTO !in Table(v.props) && Filled(v, Table(v.props).Keys, path, EMPTY, w)
    ensures Table(w.props).Keys == Table(v.props).Keys
    ensures forall k <- Table(v.props) :: CanonAt(v, k, path) && Table(w.props)[k] == Data(CanonOf(v, k, path))
  {
    assert Table(EMPTY.props) == map[];
    hide Table, Canon, CanonAt, CanonOf;
    assert Table(v.props).Keys - {PROTO} == Table(v.props).Keys;
  }

  lemma PlainWhenCanon(v: Json, path: Path)
    requires v.Obj? && Canon(v, path).Ok?
    ensures !v.proto.OtherPrototype? && !v.symbolKeys
  {
  }

  lemma {:induction false} SameCanonSimilarAt(a: Json, b: Json, k: Text, path: Path, path': Path)
    requires a.Obj? && b.Obj? && Clean(a) && Clean(b) && k in Table(a.props) && k in Table(b.props)
    requires CanonAt(a, k, path) && CanonAt(b, k, path') && CanonOf(a, k, path) == CanonOf(b, k, path')
    ensures SimilarAt(a, b, k)
    decreases a, 0
  {
    SameCanonSimilar(Table(a.props)[k].value, Table(b.props)[k].value, path + [Key(k)], path' + [Key(k)]);
  }

  lemma {:induction false} CanonItemsAt(v: Json, i: nat, path: Path)
    requires v.Arr? && i <= |v.items| && CanonItems(v, i, path).Ok?
    ensures forall j | i <= j < |v.items| ::
              Canon(v.items[j], path + [Index(j)]) == Ok(CanonItems(v, i, path).value[j - i])
    decreases |v.items| - i
  {
    if i < |v.items| {
      CanonItemsAt(v, i + 1, path);
    }
  }

  /** For values without a `__proto__` key the canonical form decides similarity. */
  lemma CanonicalFormDecides(a: Json, b: Json, path: Path)
    requires Clean(a) && Clean(b) && Canon(a, path).Ok?
    ensures Canon(a, path) == Canon(b, path) <==> Similar(a, b)
  {
    if Similar(a, b) {
      SimilarSameCanon(a, b, path);
    } else if Canon(a, path) == Canon(b, path) {
      SameCanonSimilar(a, b, path, path);
    }
  }

  /** The value with every prototype set back to `Object.prototype`; `JSON.stringify` prints both alike. */
  function Strip(v: Json): Json {
    match v
    case Arr(items) => Arr(seq(|items|, i requires 0 <= i < |items| => Strip(items[i])))
    case Obj(_, symbolKeys, props) =>
      Obj(ObjectPrototype, symbolKeys, seq(|props|, i requires 0 <= i < |props| => StripProp(props[i])))
    case _ => v
  }

  function StripProp(p: Prop): Prop {
    Prop(p.key, match p.field case Data(x) => Data(Strip(x)) case Special => Special)
  }

  /** Some object at some depth has an own `__proto__` key whose value is an object or an array. */
  predicate Poisoned(v: Json) {
    match v
    case Arr(items) => exists i | 0 <= i < |items| :: Poisoned(items[i])
    case Obj(_, _, props) =>
      || (PROTO in Table(props) && Table(props)[PROTO].Data?
          && (Table(props)[PROTO].value.Obj? || Table(props)[PROTO].value.Arr?))
      || exists k | k in Table(props) :: Table(props)[k].Data? && Poisoned(Table(props)[k].value)
    case _ => false
  }

  lemma {:induction false} StripPlaceIndex(props: seq<Prop>, p: Prop)
    requires IsIndex(p.key)
    ensures Strip(EMPTY.(props := PlaceIndex(props, p))).props == PlaceIndex(Strip(EMPTY.(props := props)).props,
        StripProp(p))
  {
    StripCons(p, props);
    if props != [] {
      StripCons(props[0], props[1..]);
      assert props == [props[0]] + props[1..];
      var stripped := Strip(EMPTY.(props := props[1..])).props;
      assert ([StripProp(props[0])] + stripped)[1..] == stripped;
      if IsIndex(props[0].key) && NumericValue(p.key) >= NumericValue(props[0].key) {
        StripPlaceIndex(props[1..], p);
        StripCons(props[0], PlaceIndex(props[1..], p));
      }
    }
    hide Strip, IsIndex, NumericValue;
  }

  lemma StripCons(head: Prop, rest: seq<Prop>)
    ensures Strip(EMPTY.(props := [head] + rest)).props == [StripProp(head)] + Strip(EMPTY.(props := rest)).props
    ensures StripProp(head).key == head.key
  {
  }

  lemma StripAssign(result: Json, k: Text, y: Json)
    requires result.Obj?
    ensures Strip(Assign(result, k, y)) == if k == PROTO then Strip(result) else Assign(Strip(result), k, Strip(y))
  {
    if k != PROTO && IsIndex(k) {
      StripPlaceIndex(result.props, Prop(k, Data(y)));
    }
  }

  function Without(keys: seq<Text>): seq<Text> {
    if keys == [] then [] else if keys[0] == PROTO then Without(keys[1..]) else [keys[0]] + Without(keys[1..])
  }

  lemma {:induction false} WithoutAscending(keys: seq<Text>)
    requires Ascending(keys)
    ensures Ascending(Without(keys)) && Members(Without(keys)) == Members(keys) - {PROTO}
  {
    if keys != [] {
      var rest := Without(keys[1..]);
      WithoutAscending(keys[1..]);
      assert Members(keys) == Members(keys[1..]) + {keys[0]};
      if keys[0] != PROTO {
        assert Members([keys[0]] + rest) == {keys[0]} + Members(rest);
      }
      forall j | 0 <= j < |rest|
        ensures Less(keys[0], rest[j])
      {
        assert rest[j] in Members(rest);
        assert rest[j] in Members(keys[1..]);
        var i :| 0 <= i < |keys[1..]| && keys[1..][i] == rest[j];
        assert keys[i + 1] == rest[j];
      }
    }
  }

  lemma CanonKeepsKind(v: Json, path: Path)
    requires Canon(v, path).Ok?
    ensures Canon(v, path).value.Obj? <==> v.Obj?
    ensures Canon(v, path).value.Arr? <==> v.Arr?
  {
  }

  lemma {:induction false} FillFails(w: Json, keys: seq<Text>, k: Text, path: Path, result: Json)
    requires w.Obj? && result.Obj? && Members(keys) <= Table(w.props).Keys
    requires k in Members(keys) && !CanonAt(w, k, path)
    ensures Fill(w, keys, path, result).Err?
    decreases |keys|
  {
    assert keys[0] in Members(keys);
    if keys[0] != k && CanonAt(w, keys[0], path) {
      FillFails(w, keys[1..], k, path, Assign(result, keys[0], CanonOf(w, keys[0], path)));
    }
  }

  lemma {:induction false} ItemsFail(w: Json, i: nat, j: nat, path: Path)
    requires w.Arr? && i <= j < |w.items| && Canon(w.items[j], path + [Index(j)]).Err?
    ensures CanonItems(w, i, path).Err?
    decreases j - i
  {
    if i < j {
      ItemsFail(w, i + 1, j, path);
    }
  }

  /** Canonicalizing y again works and only resets prototypes. */
  ghost predicate Settled(y: Json, path: Path) {
    Canon(y, path) == Ok(Strip(y))
  }

  lemma {:induction false} SettledItems(w: Json, i: nat, path: Path)
    requires w.Arr? && i <= |w.items| && forall j | 0 <= j < |w.items| :: Settled(w.items[j], path + [Index(j)])
    ensures CanonItems(w, i, path) == Ok(Strip(w).items[i..])
    decreases |w.items| - i
  {
    if i == |w.items| {
      assert Strip(w).items[i..] == [];
    } else {
      SettledItems(w, i + 1, path);
      assert Settled(w.items[i], path + [Index(i)]);
      assert Strip(w).items[i..] == [Strip(w.items[i])] + Strip(w).items[i + 1..];
    }
  }

  /** Filling from the canonical object follows the filling that made it, skipping `__proto__`. */
  lemma {:induction false} SettledFill(v: Json, w: Json, keys: seq<Text>, path: Path, path': Path, result: Json)
    requires v.Obj? && w.Obj? && result.Obj? && Members(keys) <= Table(v.props).Keys
    requires Fill(v, keys, path, result) == Ok(w)
    requires Members(Without(keys)) <= Table(w.props).Keys
    requires forall k | k in Members(keys) && k != PROTO ::
               && CanonAt(v, k, path) && k in Table(w.props) && Table(w.props)[k] == Data(CanonOf(v, k, path))
               && Settled(CanonOf(v, k, path), path' + [Key(k)])
    ensures Fill(w, Without(keys), path', Strip(result)) == Ok(Strip(w))
    decreases |keys|
  {
    if keys != [] {
      var k, rest := keys[0], keys[1..];
      assert k in Members(keys);
      var y := CanonOf(v, k, path);
      var next := Assign(result, k, y);
      StripAssign(result, k, y);
      assert Members(keys) == Members(rest) + {k};
      if k != PROTO {
        assert Without(keys) == [k] + Without(rest);
        assert Without(keys)[1..] == Without(rest);
        assert k in Members(Without(keys)) && Members(Without(rest)) <= Members(Without(keys));
      }
      SettledFill(v, w, rest, path, path', next);
    }
  }

  lemma RecanonObject(v: Json, path: Path, path': Path)
    requires v.Obj? && Canon(v, path).Ok?
    requires PROTO in Table(v.props) ==>
      CanonAt(v, PROTO, path) && !CanonOf(v, PROTO, path).Obj? && !CanonOf(v, PROTO, path).Arr?
    requires forall k | k in Table(v.props) && k != PROTO ::
      CanonAt(v, k, path) && Settled(CanonOf(v, k, path), path' + [Key(k)])
    ensures Settled(Canon(v, path).value, path')
  {
    var w := Canon(v, path).value;
    CanonFills(v, path);
    CanonOfPlain(v, path);
    SortedAgain(v, w, path);
    hide Canon, Fill, Table, Strip, Keys;
    assert w.proto != OtherPrototype && !w.symbolKeys;
    assert Strip(EMPTY) == EMPTY;
    CanonOfPlain(w, path');
    assert Fill(w, Sort(Keys(w.props)), path', EMPTY) == Ok(Strip(w)) by {
      SettledFill(v, w, Sort(Keys(v.props)), path, path', EMPTY);
    }
  }

  lemma CanonOfPlain(w: Json, path: Path)
    requires w.Obj? && w.proto != OtherPrototype && !w.symbolKeys
    ensures Members(Sort(Keys(w.props))) == Table(w.props).Keys
    ensures Canon(w, path) == Fill(w, Sort(Keys(w.props)), path, EMPTY)
  {
    TableKeys(w.props);
  }

  lemma SortedAgain(v: Json, w: Json, path: Path)
    requires v.Obj? && w.Obj? && Filled(v, Table(v.props).Keys, path, EMPTY, w)
    ensures Sort(Keys(w.props)) == Without(Sort(Keys(v.props)))
    ensures Members(Sort(Keys(v.props))) == Table(v.props).Keys
  {
    TableKeys(v.props);
    TableKeys(w.props);
    WithoutAscending(Sort(Keys(v.props)));
    AscendingUnique(Sort(Keys(w.props)), Without(Sort(Keys(v.props))));
  }

  /** Canonicalizing a second time succeeds exactly when no object had an own `__proto__` key with an object or
      array value; it then changes nothing that `JSON.stringify` prints. */
  lemma {:induction false} CanonTwice(v: Json, path: Path, path': Path)
    requires Canon(v, path).Ok?
    ensures Canon(Canon(v, path).value, path').Ok? <==> !Poisoned(v)
    ensures !Poisoned(v) ==> Settled(Canon(v, path).value, path')
    decreases v, 1
  {
    hide Fill, Filled, CanonItems;
    match v
    case Arr(items) =>
      CanonTwiceItems(v, path, path');
    case Obj(_, _, props) =>
      CanonFills(v, path);
      assert PROTO in Table(props) ==> CanonAt(v, PROTO, path);
      if PROTO in Table(props) && (Table(props)[PROTO].value.Obj? || Table(props)[PROTO].value.Arr?) {
        PoisonedPrototype(v, path, path');
      } else {
        CanonTwiceObject(v, path, path');
      }
    case _ =>
  }

  lemma PoisonedPrototype(v: Json, path: Path, path': Path)
    requires v.Obj? && Canon(v, path).Ok? && PROTO in Table(v.props) && CanonAt(v, PROTO, path)
    requires Table(v.props)[PROTO].value.Obj? || Table(v.props)[PROTO].value.Arr?
    ensures Canon(Canon(v, path).value, path') == Err(NotPlain(path'))
  {
    CanonFills(v, path);
    CanonKeepsKind(Table(v.props)[PROTO].value, path + [Key(PROTO)]);
  }

  lemma {:induction false} CanonTwiceItems(v: Json, path: Path, path': Path)
    requires v.Arr? && Canon(v, path).Ok?
    ensures Canon(Canon(v, path).value, path').Ok? <==> !Poisoned(v)
    ensures !Poisoned(v) ==> Settled(Canon(v, path).value, path')
    decreases v, 0
  {
    var w := Canon(v, path).value;
    CanonItemsAt(v, 0, path);
    forall j | 0 <= j < |v.items|
      ensures Canon(w.items[j], path' + [Index(j)]).Ok? <==> !Poisoned(v.items[j])
      ensures !Poisoned(v.items[j]) ==> Settled(w.items[j], path' + [Index(j)])
    {
      CanonTwice(v.items[j], path + [Index(j)], path' + [Index(j)]);
      hide Canon, Poisoned, Settled;
    }
    hide Canon, Settled;
    if Poisoned(v) {
      var j :| 0 <= j < |v.items| && Poisoned(v.items[j]);
      ItemsFail(w, 0, j, path');
    } else {
      SettledItems(w, 0, path');
    }
  }

  /** What a second pass does to the property values of a canonical object. */
  ghost predicate FieldsTwice(v: Json, path: Path, path': Path)
    requires v.Obj?
  {
    forall k | k in Table(v.props) ::
      && CanonAt(v, k, path)
      && (Poisoned(Table(v.props)[k].value) ==> Canon(CanonOf(v, k, path), path' + [Key(k)]).Err?)
      && (!Poisoned(Table(v.props)[k].value) ==> Settled(CanonOf(v, k, path), path' + [Key(k)]))
  }

  lemma {:induction false} CanonTwiceObject(v: Json, path: Path, path': Path)
    requires v.Obj? && Canon(v, path).Ok? && Filled(v, Table(v.props).Keys, path, EMPTY, Canon(v, path).value)
    requires PROTO in Table(v.props) ==> !Table(v.props)[PROTO].value.Obj? && !Table(v.props)[PROTO].value.Arr?
    ensures Canon(Canon(v, path).value, path').Ok? <==> !Poisoned(v)
    ensures !Poisoned(v) ==> Settled(Canon(v, path).value, path')
    decreases v, 0
  {
    forall k | k in Table(v.props)
      ensures CanonAt(v, k, path)
      ensures Canon(CanonOf(v, k, path), path' + [Key(k)]).Ok? <==> !Poisoned(Table(v.props)[k].value)
      ensures !Poisoned(Table(v.props)[k].value) ==> Settled(CanonOf(v, k, path), path' + [Key(k)])
    {
      assert CanonAt(v, k, path);
      CanonTwice(Table(v.props)[k].value, path + [Key(k)], path' + [Key(k)]);
    }
    assert FieldsTwice(v, path, path');
    hide Canon, Fill, Filled, Table, FieldsTwice, Settled;
    if k :| k in Table(v.props) && Table(v.props)[k].Data? && Poisoned(Table(v.props)[k].value) {
      PoisonedField(v, k, path, path');
    } else {
      SoundFields(v, path, path');
    }
  }

  lemma PoisonedIsComposite(v: Json)
    requires Poisoned(v)
    ensures v.Obj? || v.Arr?
  {
  }

  lemma PoisonedField(v: Json, k: Text, path: Path, path': Path)
    requires v.Obj? && Canon(v, path).Ok? && Filled(v, Table(v.props).Keys, path, EMPTY, Canon(v, path).value)
    requires FieldsTwice(v, path, path') && k in Table(v.props) && Table(v.props)[k].Data?
        && Poisoned(Table(v.props)[k].value)
    requires PROTO in Table(v.props) ==> !Table(v.props)[PROTO].value.Obj? && !Table(v.props)[PROTO].value.Arr?
    ensures Canon(Canon(v, path).value, path').Err?
  {
    var w := Canon(v, path).value;
    assert k != PROTO by {
      PoisonedIsComposite(Table(v.props)[k].value);
    }
    hide Canon, Table, Fill, Poisoned;
    assert k in Table(w.props) && Table(w.props)[k] == Data(CanonOf(v, k, path));
    hide Filled;
    assert Canon(CanonOf(v, k, path), path' + [Key(k)]).Err?;
    hide FieldsTwice;
    assert !CanonAt(w, k, path');
    hide CanonAt;
    if w.proto != OtherPrototype && !w.symbolKeys {
      CanonOfPlain(w, path');
      FillFails(w, Sort(Keys(w.props)), k, path', EMPTY);
    }
  }

  lemma SoundFields(v: Json, path: Path, path': Path)
    requires v.Obj? && Canon(v, path).Ok? && FieldsTwice(v, path, path')
    requires forall k | k in Table(v.props) :: Table(v.props)[k].Data? ==> !Poisoned(Table(v.props)[k].value)
    requires PROTO in Table(v.props) ==> !Table(v.props)[PROTO].value.Obj? && !Table(v.props)[PROTO].value.Arr?
    ensures Settled(Canon(v, path).value, path')
  {
    if PROTO in Table(v.props) {
      CanonKeepsKind(Table(v.props)[PROTO].value, path + [Key(PROTO)]);
    }
    RecanonObject(v, path, path');
  }

  /** Where idempotence fails: `{"__proto__": {}}` has a canonical form that is not a plain object any more. */
  lemma NotIdempotent(path: Path)
    ensures var v := Obj(ObjectPrototype, false, [Prop(PROTO, Data(EMPTY))]);
            Canon(v, path).Ok? && Canon(Canon(v, path).value, path) == Err(NotPlain(path))
  {
    var v := Obj(ObjectPrototype, false, [Prop(PROTO, Data(EMPTY))]);
    CanonOfEmpty(path + [Key(PROTO)]);
    TableKeys(v.props);
    var keys := Sort(Keys(v.props));
    assert Keys(v.props) == [PROTO];
    assert keys == [PROTO] by {
      assert Members([PROTO]) == Members(keys);
      AscendingUnique(keys, [PROTO]);
    }
    assert keys[1..] == [];
    assert Fill(v, keys, path, EMPTY) == Fill(v, [], path, Assign(EMPTY, PROTO, EMPTY));
  }

  lemma CanonOfEmpty(path: Path)
    ensures Canon(EMPTY, path) == Ok(EMPTY)
  {
    assert Keys(EMPTY.props) == [];
  }

  /** A value without any `__proto__` key has a canonical form that is its own canonical form. */
  lemma {:induction false} CleanIsIdempotent(v: Json, path: Path, path': Path)
    requires Clean(v) && Canon(v, path).Ok?
    ensures Canon(Canon(v, path).value, path') == Canon(v, path)
  {
    CleanNotPoisoned(v);
    CanonTwice(v, path, path');
    CanonIsPlain(v, path);
  }

  lemma {:induction false} CleanNotPoisoned(v: Json)
    requires Clean(v)
    ensures !Poisoned(v)
  {
    match v
    case Arr(items) =>
      forall i | 0 <= i < |items|
        ensures !Poisoned(items[i])
      {
        CleanNotPoisoned(items[i]);
      }
    case Obj(_, _, props) =>
      forall k | k in Table(props) && Table(props)[k].Data?
        ensures !Poisoned(Table(props)[k].value)
      {
        CleanNotPoisoned(Table(props)[k].value);
      }
    case _ =>
  }

  lemma {:induction false} CanonIsPlain(v: Json, path: Path)
    requires Clean(v) && Canon(v, path).Ok?
    ensures Strip(Canon(v, path).value) == Canon(v, path).value
    decreases v, 1, 0
  {
    match v
    case Arr(items) =>
      CanonItemsAt(v, 0, path);
      var w := Canon(v, path).value;
      forall j | 0 <= j < |items|
        ensures Strip(w.items[j]) == w.items[j]
      {
        CanonIsPlain(items[j], path + [Index(j)]);
      }
      assert Strip(w).items == w.items;
    case Obj(_, _, props) =>
      TableKeys(props);
      assert Strip(EMPTY) == EMPTY;
      FillIsPlain(v, Sort(Keys(props)), path, EMPTY);
    case _ =>
  }

  lemma {:induction false} FillIsPlain(v: Json, keys: seq<Text>, path: Path, result: Json)
    requires v.Obj? && Clean(v) && result.Obj? && Members(keys) <= Table(v.props).Keys
    requires Strip(result) == result && Fill(v, keys, path, result).Ok?
    ensures Strip(Fill(v, keys, path, result).value) == Fill(v, keys, path, result).value
    decreases v, 0, |keys|
  {
    if keys != [] {
      var k := keys[0];
      assert k in Members(keys);
      CanonIsPlain(Table(v.props)[k].value, path + [Key(k)]);
      StripAssign(result, k, CanonOf(v, k, path));
      FillIsPlain(v, keys[1..], path, Assign(result, k, CanonOf(v, k, path)));
    }
  }
}
