/** What canonicalization accepts, why it refuses, and what it makes: exactly the plain JSON values have a canonical
    form, and it holds the same values with the keys of every object in order. */
module CanonicalMeaning {
  import opened CanonicalJson
  import opened CanonicalPrint
  import opened KeyOrder
  import opened Seqs

  /** A tree of null, booleans, strings, finite numbers, arrays, and plain objects with nothing but enumerable data
      properties. */
  predicate PlainJson(v: Json)
    decreases v, 1
  {
    match v
    case Num(n) => !n.NonFinite?
    case NotJson => false
    case Arr(items) => forall i | 0 <= i < |items| :: PlainJson(items[i])
    case Obj(proto, symbolKeys, props) =>
      proto != OtherPrototype && !symbolKeys && forall k | k in Table(props) :: PlainField(v, k)
    case _ => true
  }

  predicate PlainField(v: Json, k: Text)
    requires v.Obj? && k in Table(v.props)
    decreases v, 0
  {
    Table(v.props)[k].Data? && PlainJson(Table(v.props)[k].value)
  }

  /** The first flaw of a value, items being visited by index and properties by key: at this place below it there is
      what the failure names, and whatever is visited before is plain. */
  predicate FirstFlaw(v: Json, at: Path, f: Failure)
    decreases v
  {
    if at == [] then
      match f
      case NonFiniteNumber(_) => v == Num(NonFinite)
      case NonJsonValue(_) => v.NotJson?
      case NotPlain(_) => v.Obj? && v.proto == OtherPrototype
      case HasSymbolKey(_) => v.Obj? && v.proto != OtherPrototype && v.symbolKeys
      case NotEnumerableData(_) => false
    else
      match at[0]
      case Index(i) =>
        && v.Arr? && i < |v.items|
        && (forall j | 0 <= j < i :: PlainJson(v.items[j]))
        && FirstFlaw(v.items[i], at[1..], f)
      case Key(k) =>
        && v.Obj? && v.proto != OtherPrototype && !v.symbolKeys && k in Table(v.props)
        && (forall l | l in Table(v.props) && Less(l, k) :: PlainField(v, l))
        && match Table(v.props)[k] {
          case Special => at == [Key(k)] && f.NotEnumerableData?
          case Data(x) => FirstFlaw(x, at[1..], f)
        }
  }

  /** The result of canonicalizing a value, or the rest of one, at a path. */
  ghost predicate Reports<T>(v: Json, path: Path, r: Result<T, Failure>, plain: bool) {
    match r
    case Ok(_) => plain
    case Err(f) => !plain && path <= f.at && FirstFlaw(v, f.at[|path|..], f)
  }

  /** Canonicalization succeeds exactly on plain JSON, and otherwise reports the first flaw and where it is. */
  lemma {:induction false} CanonReports(v: Json, path: Path)
    ensures Reports(v, path, Canon(v, path), PlainJson(v))
    decreases v, 1, 0
  {
    match v
    case Arr(items) => ItemsReport(v, 0, path);
    case Obj(proto, symbolKeys, props) =>
      if proto != OtherPrototype && !symbolKeys {
        TableKeys(props);
        FieldsReport(v, Sort(Keys(props)), path, EMPTY);
      }
    case _ =>
  }

  lemma Below(path: Path, s: Step, at: Path)
    requires path + [s] <= at
    ensures path <= at && at[|path|..] != [] && at[|path|..][0] == s && at[|path|..][1..] == at[|path + [s]|..]
  {
    assert at[|path|] == (path + [s])[|path|];
    assert at[..|path|] == (path + [s])[..|path|] == path;
  }

  lemma {:induction false} ItemsReport(v: Json, i: nat, path: Path)
    requires v.Arr? && i <= |v.items| && forall j | 0 <= j < i :: PlainJson(v.items[j])
    ensures Reports(v, path, CanonItems(v, i, path), PlainJson(v))
    decreases v, 0, |v.items| - i
  {
    if i < |v.items| {
      var r := Canon(v.items[i], path + [Index(i)]);
      CanonReports(v.items[i], path + [Index(i)]);
      if r.Err? {
        Below(path, Index(i), r.error.at);
      } else {
        ItemsReport(v, i + 1, path);
      }
      hide Canon;
    }
  }

  /** The keys left to visit come after those that were visited, which are plain. */
  ghost predicate Visiting(v: Json, keys: seq<Text>)
    requires v.Obj?
  {
    && Ascending(keys) && Members(keys) <= Table(v.props).Keys
    && forall k | k in Table(v.props) && k !in Members(keys) ::
      PlainField(v, k) && forall l | l in Members(keys) :: Less(k, l)
  }

  lemma VisitNext(v: Json, keys: seq<Text>)
    requires v.Obj? && Visiting(v, keys) && keys != []
    ensures keys[0] in Table(v.props) && Members(keys[1..]) <= Table(v.props).Keys
    ensures forall l | l in Table(v.props) && Less(l, keys[0]) :: PlainField(v, l)
    ensures PlainField(v, keys[0]) ==> Visiting(v, keys[1..])
  {
    assert keys[0] in Members(keys);
    MembersOfTail(keys);
    hide Table, PlainField;
    forall l | l in Table(v.props) && Less(l, keys[0])
      ensures l !in Members(keys)
    {
      if l in Members(keys) {
        LessIrreflexive(l);
        LessTransitive(keys[0], l, keys[0]);
        LessIrreflexive(keys[0]);
      }
    }
    forall l | l in Members(keys[1..])
      ensures Less(keys[0], l)
    {
      var j :| 0 <= j < |keys[1..]| && keys[1..][j] == l;
      assert keys[j + 1] == l;
    }
  }

  lemma {:induction false} FieldsReport(v: Json, keys: seq<Text>, path: Path, result: Json)
    requires v.Obj? && v.proto != OtherPrototype && !v.symbolKeys && result.Obj? && Visiting(v, keys)
    ensures Reports(v, path, Fill(v, keys, path, result), PlainJson(v))
    decreases v, 0, |keys|
  {
    if keys == [] {
      assert Members(keys) == {};
    } else {
      var k := keys[0];
      VisitNext(v, keys);
      hide Visiting;
      if Table(v.props)[k].Data? {
        var x := Table(v.props)[k].value;
        var r := Canon(x, path + [Key(k)]);
        CanonReports(x, path + [Key(k)]);
        hide Canon;
        if r.Err? {
          Below(path, Key(k), r.error.at);
        } else {
          FieldsReport(v, keys[1..], path, Assign(result, k, r.value));
        }
      }
    }
  }

  /** The canonical form holds the values that were there, up to the sign of zero and own `__proto__` keys. */
  lemma {:induction false} CanonKeepsValues(v: Json, path: Path)
    requires Canon(v, path).Ok?
    ensures Alike(v, Printed(v, path))
    decreases v
  {
    match v
    case Arr(items) =>
      CanonItemsAt(v, 0, path);
      var w := Canon(v, path).value;
      forall i | 0 <= i < |items|
        ensures Alike(items[i], Strip(w).items[i])
      {
        CanonKeepsValues(items[i], path + [Index(i)]);
      }
    case Obj(_, _, props) =>
      PrintedTable(v, path);
      forall k | k in Table(props) && k != PROTO
        ensures AlikeAt(v, Printed(v, path), k)
      {
        assert CanonAt(v, k, path);
        CanonKeepsValues(Table(props)[k].value, path + [Key(k)]);
      }
      hide Canon, Strip, Printed;
    case _ =>
  }

  /** The order in which engines enumerate the properties of a canonical object: array indices first, by their
      numbers, and then the other keys by their code units. */
  predicate Before(a: Text, b: Text) {
    if IsIndex(b) then IsIndex(a) && NumericValue(a) <= NumericValue(b) else IsIndex(a) || Less(a, b)
  }

  predicate InOrder(props: seq<Prop>) {
    forall i, j | 0 <= i < j < |props| :: Before(props[i].key, props[j].key)
  }

  /** The properties of every object at any depth are in order, and there are only finite numbers and no -0. */
  predicate Canonical(v: Json) {
    match v
    case Num(n) => n.Finite?
    case Arr(items) => forall i | 0 <= i < |items| :: Canonical(items[i])
    case Obj(_, symbolKeys, props) =>
      && !symbolKeys && InOrder(props)
      && forall i | 0 <= i < |props| :: props[i].field.Data? && Canonical(props[i].field.value)
    case NotJson => false
    case _ => true
  }

  /** A key is filled in after all keys that come before it by their code units. */
  ghost predicate Follows(props: seq<Prop>, k: Text) {
    forall i | 0 <= i < |props| :: Less(props[i].key, k)
  }

  lemma {:induction false} PlaceIndexAdds(props: seq<Prop>, p: Prop)
    requires IsIndex(p.key)
    ensures multiset(PlaceIndex(props, p)) == multiset(props) + multiset{p}
  {
    hide IsIndex, NumericValue;
    if props == [] || !IsIndex(props[0].key) || NumericValue(p.key) < NumericValue(props[0].key) {
      assert multiset([p] + props) == multiset(props) + multiset{p};
    } else {
      PlaceIndexAdds(props[1..], p);
      assert props == [props[0]] + props[1..];
    }
  }

  lemma {:induction false} PlaceIndexOrders(props: seq<Prop>, p: Prop)
    requires InOrder(props) && IsIndex(p.key)
    ensures InOrder(PlaceIndex(props, p))
  {
    hide IsIndex, NumericValue, Less;
    if props != [] && IsIndex(props[0].key) && NumericValue(p.key) >= NumericValue(props[0].key) {
      PlaceIndexOrders(props[1..], p);
      PlaceIndexAdds(props[1..], p);
      var rest := PlaceIndex(props[1..], p);
      forall j | 0 <= j < |rest|
        ensures Before(props[0].key, rest[j].key)
      {
        assert rest[j] in multiset(rest);
        assert rest[j] == p || rest[j] in props[1..];
      }
    }
  }

  lemma AssignOrders(result: Json, k: Text, y: Json)
    requires result.Obj? && Canonical(result) && Follows(result.props, k) && Canonical(y)
    ensures Canonical(Assign(result, k, y))
    ensures forall p | p in Assign(result, k, y).props :: p in result.props || p == Prop(k, Data(y))
  {
    if k != PROTO && IsIndex(k) {
      PlaceIndexOrders(result.props, Prop(k, Data(y)));
      PlaceIndexAdds(result.props, Prop(k, Data(y)));
      var placed := PlaceIndex(result.props, Prop(k, Data(y)));
      forall i | 0 <= i < |placed|
        ensures placed[i].field.Data? && Canonical(placed[i].field.value)
        ensures placed[i] in result.props || placed[i] == Prop(k, Data(y))
      {
        assert placed[i] in multiset(placed);
      }
    }
  }

  /** The canonical form is in canonical order. */
  lemma {:induction false} CanonIsCanonical(v: Json, path: Path)
    requires Canon(v, path).Ok?
    ensures Canonical(Canon(v, path).value)
    decreases v, 1, 0
  {
    match v
    case Arr(items) =>
      CanonItemsAt(v, 0, path);
      var w := Canon(v, path).value;
      forall i | 0 <= i < |items|
        ensures Canonical(w.items[i])
      {
        CanonIsCanonical(items[i], path + [Index(i)]);
      }
    case Obj(_, _, props) =>
      TableKeys(props);
      FillIsCanonical(v, Sort(Keys(props)), path, EMPTY);
    case _ =>
  }

  lemma {:induction false} FillIsCanonical(v: Json, keys: seq<Text>, path: Path, result: Json)
    requires v.Obj? && result.Obj? && Members(keys) <= Table(v.props).Keys && Ascending(keys)
    requires Fill(v, keys, path, result).Ok? && Canonical(result) && forall k <- keys :: Follows(result.props, k)
    ensures Canonical(Fill(v, keys, path, result).value)
    decreases v, 0, |keys|
  {
    if keys != [] {
      var k := keys[0];
      assert k in Members(keys);
      assert Members(keys[1..]) <= Members(keys);
      CanonIsCanonical(Table(v.props)[k].value, path + [Key(k)]);
      hide Canonical, Assign, Follows;
      FillOne(v, keys, path, result);
      hide Canon, Fill;
      var y := CanonOf(v, k, path);
      AssignOrders(result, k, y);
      FollowsNext(result, keys, y);
      FillIsCanonical(v, keys[1..], path, Assign(result, k, y));
    }
  }

  lemma FollowsNext(result: Json, keys: seq<Text>, y: Json)
    requires result.Obj? && keys != [] && Ascending(keys) && forall k <- keys :: Follows(result.props, k)
    requires forall p | p in Assign(result, keys[0], y).props :: p in result.props || p == Prop(keys[0], Data(y))
    ensures forall k <- keys[1..] :: Follows(Assign(result, keys[0], y).props, k)
  {
    hide Less, Assign;
    forall k | k in keys[1..]
      ensures Follows(Assign(result, keys[0], y).props, k)
    {
      assert Follows(result.props, k) && Less(keys[0], k);
      var placed := Assign(result, keys[0], y).props;
      assert forall i | 0 <= i < |placed| :: placed[i] in placed;
    }
  }
}
