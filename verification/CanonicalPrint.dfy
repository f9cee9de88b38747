/** What the canonical form decides when objects may have an own `__proto__` key: canonicalization drops that key, so
    two values print alike exactly when they are equal up to it. */
module CanonicalPrint {
  import opened CanonicalJson
  import opened KeyOrder
  import opened Seqs

  /** Equal up to the order of keys, the sign of zero, and own `__proto__` keys, at every depth. */
  predicate Alike(a: Json, b: Json)
    decreases a, 1
  {
    match a
    case Num(n) => b.Num? && Plus(n) == Plus(b.n)
    case Arr(items) => b.Arr? && |items| == |b.items| && forall i | 0 <= i < |items| :: Alike(items[i], b.items[i])
    case Obj(_, _, props) =>
      && b.Obj?
      && Table(props).Keys - {PROTO} == Table(b.props).Keys - {PROTO}
      && forall k | k in Table(props) && k != PROTO :: AlikeAt(a, b, k)
    case _ => a == b
  }

  predicate AlikeAt(a: Json, b: Json, k: Text)
    requires a.Obj? && b.Obj? && k in Table(a.props)
    decreases a, 0
  {
    && k in Table(b.props) && Table(a.props)[k].Data? && Table(b.props)[k].Data?
    && Alike(Table(a.props)[k].value, Table(b.props)[k].value)
  }

  /** What `JSON.stringify` prints of the canonical form. */
  function Printed(v: Json, path: Path): Json
    requires Canon(v, path).Ok?
  {
    Strip(Canon(v, path).value)
  }

  /** Stripping keeps the keys and strips the values. */
  lemma {:induction false} StripTable(props: seq<Prop>)
    ensures Table(Strip(EMPTY.(props := props)).props).Keys == Table(props).Keys
    ensures forall k <- Table(props) ::
      Table(Strip(EMPTY.(props := props)).props)[k] == StripProp(Prop(k, Table(props)[k])).field
  {
    if props != [] {
      StripTable(props[1..]);
      assert props == [props[0]] + props[1..];
      StripCons(props[0], props[1..]);
      var rest := Strip(EMPTY.(props := props[1..])).props;
      assert ([StripProp(props[0])] + rest)[1..] == rest;
      hide Strip;
    }
  }

  lemma StripObject(w: Json)
    requires w.Obj?
    ensures Strip(w) == Obj(ObjectPrototype, w.symbolKeys, Strip(EMPTY.(props := w.props)).props)
  {
  }

  /** The properties of a printed object: every key but `__proto__`, with its printed value. */
  lemma PrintedTable(v: Json, path: Path)
    requires v.Obj? && Canon(v, path).Ok?
    ensures Printed(v, path).Obj? && Table(Printed(v, path).props).Keys == Table(v.props).Keys - {PROTO}
    ensures forall k | k in Table(v.props) && k != PROTO ::
      CanonAt(v, k, path) && Table(Printed(v, path).props)[k] == Data(Strip(CanonOf(v, k, path)))
  {
    var w := Canon(v, path).value;
    CanonFills(v, path);
    StripObject(w);
    StripTable(w.props);
    assert Table(EMPTY.props) == map[];
    hide Canon, Table, Strip, CanonAt, CanonOf;
  }

  /** Values that print alike are alike. */
  lemma {:induction false} PrintsSame(a: Json, b: Json, path: Path, path': Path)
    requires Canon(a, path).Ok? && Canon(b, path').Ok? && Printed(a, path) == Printed(b, path')
    ensures Alike(a, b)
    decreases a, 1
  {
    match a
    case Arr(items) =>
      PrintsSameItems(a, b, path, path');
    case Obj(_, _, props) =>
      CanonKeepsKind(b, path');
      hide Canon, Strip, Table, CanonAt, CanonOf;
      PrintedTable(a, path);
      assert b.Obj?;
      PrintedTable(b, path');
      hide Printed;
      forall k | k in Table(props) && k != PROTO
        ensures AlikeAt(a, b, k)
      {
        assert k in Table(Printed(a, path).props).Keys;
        assert k in Table(b.props);
        PrintsSameAt(a, b, k, path, path');
      }
    case _ =>
  }

  lemma {:induction false} PrintsSameItems(a: Json, b: Json, path: Path, path': Path)
    requires a.Arr? && Canon(a, path).Ok? && Canon(b, path').Ok? && Printed(a, path) == Printed(b, path')
    ensures Alike(a, b)
    decreases a, 0
  {
    CanonKeepsKind(b, path');
    CanonItemsAt(a, 0, path);
    CanonItemsAt(b, 0, path');
    forall i | 0 <= i < |a.items|
      ensures Alike(a.items[i], b.items[i])
    {
      assert Printed(a, path).items[i] == Printed(b, path').items[i];
      PrintsSame(a.items[i], b.items[i], path + [Index(i)], path' + [Index(i)]);
    }
  }

  lemma {:induction false} PrintsSameAt(a: Json, b: Json, k: Text, path: Path, path': Path)
    requires a.Obj? && b.Obj? && k in Table(a.props) && k in Table(b.props)
    requires CanonAt(a, k, path) && CanonAt(b, k, path') && Strip(CanonOf(a, k, path)) == Strip(CanonOf(b, k, path'))
    ensures AlikeAt(a, b, k)
    decreases a, 0
  {
    PrintsSame(Table(a.props)[k].value, Table(b.props)[k].value, path + [Key(k)], path' + [Key(k)]);
  }

  /** The loops over the keys of two objects print alike if the objects are alike; a `__proto__` key prints nothing. */
  lemma {:induction false} AlikeFill(a: Json, ka: seq<Text>, b: Json, kb: seq<Text>, path: Path, path': Path,
                                     ra: Json, rb: Json)
    requires a.Obj? && b.Obj? && ra.Obj? && rb.Obj? && Without(ka) == Without(kb) && Strip(ra) == Strip(rb)
    requires Members(ka) <= Table(a.props).Keys && Members(kb) <= Table(b.props).Keys
    requires forall k | k in Table(a.props) && k != PROTO :: AlikeAt(a, b, k)
    requires Fill(a, ka, path, ra).Ok? && Fill(b, kb, path', rb).Ok?
    ensures Strip(Fill(a, ka, path, ra).value) == Strip(Fill(b, kb, path', rb).value)
    decreases a, 0, |ka| + |kb|
  {
    hide Canon, Strip, Table, Assign, Alike;
    if ka != [] && ka[0] == PROTO {
      FillStep(a, ka, path, ra);
      AlikeFill(a, ka[1..], b, kb, path, path', Assign(ra, PROTO, CanonOf(a, PROTO, path)), rb);
    } else if kb != [] && kb[0] == PROTO {
      FillStep(b, kb, path', rb);
      AlikeFill(a, ka, b, kb[1..], path, path', ra, Assign(rb, PROTO, CanonOf(b, PROTO, path')));
    } else if ka != [] {
      var k := ka[0];
      SameFirst(ka, kb);
      FillStep(a, ka, path, ra);
      FillStep(b, kb, path', rb);
      AlikeValue(a, b, k, path, path');
      AlikeFill(a, ka[1..], b, kb[1..], path, path',
                Assign(ra, k, CanonOf(a, k, path)), Assign(rb, k, CanonOf(b, k, path')));
    }
  }

  lemma SameFirst(ka: seq<Text>, kb: seq<Text>)
    requires Without(ka) == Without(kb) && ka != [] && ka[0] != PROTO && (kb != [] ==> kb[0] != PROTO)
    ensures kb != [] && kb[0] == ka[0] && Without(ka[1..]) == Without(kb[1..])
  {
    assert Without(ka)[0] == ka[0] && Without(ka)[1..] == Without(ka[1..]);
    if kb != [] {
      assert Without(kb)[0] == kb[0] && Without(kb)[1..] == Without(kb[1..]);
    }
  }

  /** One round of the loop, and what it prints. */
  lemma FillStep(v: Json, keys: seq<Text>, path: Path, result: Json)
    requires v.Obj? && result.Obj? && Members(keys) <= Table(v.props).Keys && keys != []
    requires Fill(v, keys, path, result).Ok?
    ensures Members(keys[1..]) <= Table(v.props).Keys && keys[0] in Table(v.props) && CanonAt(v, keys[0], path)
    ensures Fill(v, keys, path, result) == Fill(v, keys[1..], path, Assign(result, keys[0], CanonOf(v, keys[0], path)))
    ensures keys[0] == PROTO ==> Without(keys) == Without(keys[1..])
    ensures Strip(Assign(result, keys[0], CanonOf(v, keys[0], path)))
         == if keys[0] == PROTO then Strip(result) else Assign(Strip(result), keys[0], Strip(CanonOf(v, keys[0], path)))
  {
    assert keys[0] in Members(keys);
    assert Members(keys[1..]) <= Members(keys);
    FillOne(v, keys, path, result);
    StripAssign(result, keys[0], CanonOf(v, keys[0], path));
    hide Canon, Strip, Assign, Table;
  }

  lemma {:induction false} AlikeValue(a: Json, b: Json, k: Text, path: Path, path': Path)
    requires a.Obj? && b.Obj? && k in Table(a.props) && AlikeAt(a, b, k)
    requires CanonAt(a, k, path) && CanonAt(b, k, path')
    ensures Strip(CanonOf(a, k, path)) == Strip(CanonOf(b, k, path'))
    decreases a, 0, 0
  {
    AlikePrints(Table(a.props)[k].value, Table(b.props)[k].value, path + [Key(k)], path' + [Key(k)]);
  }

  /** Alike values print alike. */
  lemma {:induction false} AlikePrints(a: Json, b: Json, path: Path, path': Path)
    requires Canon(a, path).Ok? && Canon(b, path').Ok? && Alike(a, b)
    ensures Printed(a, path) == Printed(b, path')
    decreases a, 1, 0
  {
    match a
    case Arr(items) => AlikeItems(a, b, path, path');
    case Obj(_, _, props) =>
      TableKeys(props);
      TableKeys(b.props);
      var ka, kb := Sort(Keys(props)), Sort(Keys(b.props));
      WithoutAscending(ka);
      WithoutAscending(kb);
      AscendingUnique(Without(ka), Without(kb));
      AlikeFill(a, ka, b, kb, path, path', EMPTY, EMPTY);
      hide Alike, AlikeAt, Table, Strip, Fill;
    case _ =>
  }

  lemma {:induction false} AlikeItems(a: Json, b: Json, path: Path, path': Path)
    requires a.Arr? && Canon(a, path).Ok? && Canon(b, path').Ok? && Alike(a, b)
    ensures Printed(a, path) == Printed(b, path')
    decreases a, 0, 0
  {
    CanonItemsAt(a, 0, path);
    CanonItemsAt(b, 0, path');
    forall i | 0 <= i < |a.items|
      ensures Printed(a, path).items[i] == Printed(b, path').items[i]
    {
      AlikePrints(a.items[i], b.items[i], path + [Index(i)], path' + [Index(i)]);
    }
    assert Printed(a, path).items == Printed(b, path').items;
  }

  /** What the printed canonical form decides, for all values that have one: equality up to the order of keys, the sign
      of zero, and own `__proto__` keys. */
  lemma PrintedFormDecides(a: Json, b: Json, path: Path)
    requires Canon(a, path).Ok? && Canon(b, path).Ok?
    ensures Printed(a, path) == Printed(b, path) <==> Alike(a, b)
  {
    if Alike(a, b) {
      AlikePrints(a, b, path, path);
    } else if Printed(a, path) == Printed(b, path) {
      PrintsSame(a, b, path, path);
    }
  }

  /** `{"__proto__": 1}` and `{}` are different values with one canonical form. */
  lemma DroppedKeyCollides(path: Path)
    ensures var v := Obj(ObjectPrototype, false, [Prop(PROTO, Data(Num(Finite(1.0))))]);
      Canon(v, path) == Canon(EMPTY, path) == Ok(EMPTY) && !Similar(v, EMPTY) && Alike(v, EMPTY)
  {
    var v := Obj(ObjectPrototype, false, [Prop(PROTO, Data(Num(Finite(1.0))))]);
    CanonOfEmpty(path);
    TableKeys(v.props);
    var keys := Sort(Keys(v.props));
    assert Keys(v.props) == [PROTO];
    assert keys == [PROTO] by {
      assert Members([PROTO]) == Members(keys);
      AscendingUnique(keys, [PROTO]);
    }
    assert keys[1..] == [];
    assert Fill(v, keys, path, EMPTY) == Fill(v, [], path, Assign(EMPTY, PROTO, Num(Finite(1.0))));
    assert Table(v.props) == map[PROTO := Data(Num(Finite(1.0)))] && Table(EMPTY.props) == map[];
  }
}
