/** `isProtocolValue` of packages/protocol/src/codec.ts: a walk over an object graph that may share
    objects and may be cyclic, guarded by a mutable set of the objects being visited. */
module ProtocolValue {

  type ObjectId = nat

  /** A JavaScript value; `Ref` is an object with an identity, `Opaque` a function, symbol or bigint. */
  datatype Value = Undefined | Null | Bool(b: bool) | Number(n: int) | Str(s: string) | Opaque | Ref(id: ObjectId)

  /** An array, an object whose prototype is `Object.prototype` (with its own enumerable values), or any other
      object. */
  datatype Object = Array(items: seq<Value>) | Plain(values: seq<Value>) | Exotic(values: seq<Value>)

  type Graph = map<ObjectId, Object>

  function Children(o: Object): seq<Value> {
    match o
    case Array(items) => items
    case Plain(values) => values
    case Exotic(_) => []
  }

  ghost predicate Closed(g: Graph) {
    forall id, v | id in g && v in Children(g[id]) :: v.Ref? ==> v.id in g
  }

  ghost predicate Inside(g: Graph, v: Value) {
    v.Ref? ==> v.id in g
  }

  /** The answer of the walk when the objects in `ancestors` are being visited. */
  function Accepts(g: Graph, v: Value, optional: bool, ancestors: set<ObjectId>): bool
    requires Closed(g) && Inside(g, v)
    decreases g.Keys - ancestors, 1
  {
    match v
    case Undefined => optional
    case Opaque => false
    case Ref(id) =>
      && id !in ancestors
      && !g[id].Exotic?
      && forall c | c in Children(g[id]) :: AcceptsChild(g, id, c, ancestors)
    case _ => true
  }

  function AcceptsChild(g: Graph, id: ObjectId, c: Value, ancestors: set<ObjectId>): bool
    requires Closed(g) && id in g && id !in ancestors && c in Children(g[id])
    decreases g.Keys - ancestors, 0
  {
    Accepts(g, c, g[id].Plain?, ancestors + {id})
  }

  class AncestorSet {
    var members: set<ObjectId>

    constructor ()
      ensures members == {}
    {
      members := {};
    }
  }

  /** The walk terminates on every finite graph and leaves the ancestor set as it found it. */
  method IsProtocolValue(g: Graph, value: Value, optionalProperty: bool, ancestors: AncestorSet) returns (ok: bool)
    requires Closed(g) && Inside(g, value)
    modifies ancestors
    ensures ancestors.members == old(ancestors.members)
    ensures ok == Accepts(g, value, optionalProperty, old(ancestors.members))
    decreases g.Keys - ancestors.members
  {
    if value.Undefined? {
      return optionalProperty;
    }
    if value.Null? || value.Bool? || value.Number? || value.Str? {
      return true;
    }
    if value.Opaque? || value.id in ancestors.members {
      return false;
    }
    var id := value.id;
    ghost var above := ancestors.members;
    ancestors.members := ancestors.members + {id};
    if g[id].Exotic? {
      ok := false;
    } else {
      var children := Children(g[id]);
      ok := true;
      var i := 0;
      while i < |children| && ok
        invariant i <= |children| && ancestors.members == above + {id}
        invariant ok ==> forall k | 0 <= k < i :: AcceptsChild(g, id, children[k], above)
        invariant !ok ==> exists c :: c in children && !AcceptsChild(g, id, c, above)
      {
        ok := IsProtocolValue(g, children[i], g[id].Plain?, ancestors);
        assert ok == AcceptsChild(g, id, children[i], above);
        i := i + 1;
      }
    }
    ancestors.members := ancestors.members - {id};
  }

  /** A value that is allowed where it stands; only an object property may be undefined. */
  predicate AllowedHere(g: Graph, v: Value, optional: bool)
    requires Inside(g, v)
  {
    match v
    case Undefined => optional
    case Opaque => false
    case Ref(id) => !g[id].Exotic?
    case _ => true
  }

  /** A walk along references: each object holds the next. */
  ghost predicate Path(g: Graph, p: seq<ObjectId>) {
    && p != []
    && (forall i | 0 <= i < |p| :: p[i] in g)
    && (forall i | 0 <= i < |p| - 1 :: Ref(p[i + 1]) in Children(g[p[i]]))
  }

  ghost predicate Joins(g: Graph, p: seq<ObjectId>, a: ObjectId, b: ObjectId) {
    Path(g, p) && p[0] == a && p[|p| - 1] == b
  }

  /** b can be reached from a in any number of steps, none included. */
  ghost predicate Reaches(g: Graph, a: ObjectId, b: ObjectId) {
    exists p :: Joins(g, p, a, b)
  }

  /** The object reaches itself in at least one step. */
  ghost predicate OnCycle(g: Graph, a: ObjectId) {
    exists p :: |p| >= 2 && Joins(g, p, a, a)
  }

  /** Nothing reachable from `id` is a forbidden kind of object, holds a forbidden value, or lies on a cycle. */
  ghost predicate Sound(g: Graph, id: ObjectId)
    requires Closed(g) && id in g
  {
    forall b | b in g && Reaches(g, id, b) :: WellMade(g, b) && !OnCycle(g, b)
  }

  ghost predicate WellMade(g: Graph, b: ObjectId)
    requires Closed(g) && b in g
  {
    !g[b].Exotic? && forall c | c in Children(g[b]) :: AllowedHere(g, c, g[b].Plain?)
  }

  ghost predicate SoundValue(g: Graph, v: Value, optional: bool)
    requires Closed(g) && Inside(g, v)
  {
    AllowedHere(g, v, optional) && (v.Ref? ==> Sound(g, v.id))
  }

  lemma ReachesSelf(g: Graph, a: ObjectId)
    requires a in g
    ensures Reaches(g, a, a)
  {
    assert Joins(g, [a], a, a);
  }

  lemma ReachesThrough(g: Graph, p: seq<ObjectId>, q: seq<ObjectId>, a: ObjectId, b: ObjectId, c: ObjectId)
    requires Joins(g, p, a, b) && Joins(g, q, b, c)
    ensures Joins(g, p + q[1..], a, c) && |p + q[1..]| == |p| + |q| - 1
  {
    var r := p + q[1..];
    forall i | 0 <= i < |r| - 1
      ensures Ref(r[i + 1]) in Children(g[r[i]])
    {
      if i >= |p| - 1 {
        assert r[i] == q[i - (|p| - 1)] && r[i + 1] == q[i + 1 - (|p| - 1)];
      }
    }
  }

  lemma ReachesTransitive(g: Graph, a: ObjectId, b: ObjectId, c: ObjectId)
    requires Reaches(g, a, b) && Reaches(g, b, c)
    ensures Reaches(g, a, c)
  {
    var p, q :| Joins(g, p, a, b) && Joins(g, q, b, c);
    ReachesThrough(g, p, q, a, b, c);
  }

  lemma ChildReached(g: Graph, a: ObjectId, c: ObjectId)
    requires a in g && c in g && Ref(c) in Children(g[a])
    ensures Joins(g, [a, c], a, c)
  {
  }

  /** Every nonempty walk starts with a step to a child. */
  lemma FirstStep(g: Graph, p: seq<ObjectId>, a: ObjectId, b: ObjectId)
    requires Joins(g, p, a, b) && |p| >= 2
    ensures Ref(p[1]) in Children(g[a]) && p[1] in g && Joins(g, p[1..], p[1], b)
  {
  }

  /** A walk the guard lets through never comes back to an ancestor. */
  lemma {:induction false} AcceptedAvoidsAncestors(g: Graph, id: ObjectId, optional: bool, ancestors: set<ObjectId>,
      p: seq<ObjectId>, b: ObjectId)
    requires Closed(g) && id in g && Accepts(g, Ref(id), optional, ancestors)
    requires Joins(g, p, id, b)
    ensures b !in ancestors
    ensures |p| >= 2 ==> b != id
    ensures WellMade(g, b)
    decreases g.Keys - ancestors
  {
    forall c | c in Children(g[id])
      ensures AllowedHere(g, c, g[id].Plain?)
    {
      assert AcceptsChild(g, id, c, ancestors);
      assert Accepts(g, c, g[id].Plain?, ancestors + {id});
    }
    assert WellMade(g, id);
    if |p| >= 2 {
      FirstStep(g, p, id, b);
      assert AcceptsChild(g, id, Ref(p[1]), ancestors);
      assert Accepts(g, Ref(p[1]), g[id].Plain?, ancestors + {id});
      AcceptedAvoidsAncestors(g, p[1], g[id].Plain?, ancestors + {id}, p[1..], b);
    }
  }

  /** Sub-walks of an accepted object are accepted, with more ancestors. */
  lemma {:induction false} AcceptedHasNoCycle(g: Graph, id: ObjectId, optional: bool, ancestors: set<ObjectId>,
      p: seq<ObjectId>, b: ObjectId)
    requires Closed(g) && id in g && Accepts(g, Ref(id), optional, ancestors)
    requires Joins(g, p, id, b)
    ensures !OnCycle(g, b)
    decreases g.Keys - ancestors
  {
    if |p| >= 2 {
      FirstStep(g, p, id, b);
      assert AcceptsChild(g, id, Ref(p[1]), ancestors);
      assert Accepts(g, Ref(p[1]), g[id].Plain?, ancestors + {id});
      AcceptedHasNoCycle(g, p[1], g[id].Plain?, ancestors + {id}, p[1..], b);
    } else if OnCycle(g, b) {
      var q :| |q| >= 2 && Joins(g, q, b, b);
      AcceptedAvoidsAncestors(g, id, optional, ancestors, q, b);
    }
  }

  /** A child of a sound object is sound, and everything that reaches the object reaches the child. */
  lemma SoundChild(g: Graph, id: ObjectId, c: Value, ancestors: set<ObjectId>)
    requires Closed(g) && id in g && Sound(g, id) && c in Children(g[id])
    requires forall a | a in ancestors :: a in g && Reaches(g, a, id)
    ensures SoundValue(g, c, g[id].Plain?)
    ensures c.Ref? ==> forall a | a in ancestors + {id} :: Reaches(g, a, c.id)
  {
    ReachesSelf(g, id);
    assert WellMade(g, id);
    if c.Ref? {
      ChildReached(g, id, c.id);
      forall b | b in g && Reaches(g, c.id, b)
        ensures Reaches(g, id, b)
      {
        ReachesTransitive(g, id, c.id, b);
      }
      forall a | a in ancestors + {id}
        ensures Reaches(g, a, c.id)
      {
        ReachesTransitive(g, a, id, c.id);
      }
    }
  }

  /** A sound object is accepted whenever everything being visited reaches it: it is then not itself being
      visited with a way back, and neither is anything below it. */
  lemma {:induction false} SoundIsAccepted(g: Graph, v: Value, optional: bool, ancestors: set<ObjectId>)
    requires Closed(g) && Inside(g, v) && SoundValue(g, v, optional)
    requires forall a | a in ancestors :: a in g && (v.Ref? ==> a != v.id && Reaches(g, a, v.id))
    ensures Accepts(g, v, optional, ancestors)
    decreases g.Keys - ancestors
  {
    if v.Ref? {
      var id := v.id;
      ReachesSelf(g, id);
      forall c | c in Children(g[id])
        ensures AcceptsChild(g, id, c, ancestors)
      {
        SoundChild(g, id, c, ancestors);
        forall a | a in ancestors + {id} && c.Ref?
          ensures a != c.id
        {
          if a == c.id {
            ChildReached(g, id, a);
            NoWayBack(g, id, a);
          }
        }
        SoundIsAccepted(g, c, g[id].Plain?, ancestors + {id});
      }
    }
  }

  /** A child that reaches its holder puts the holder on a cycle. */
  lemma NoWayBack(g: Graph, id: ObjectId, a: ObjectId)
    requires id in g && a in g && Joins(g, [id, a], id, a) && Reaches(g, a, id)
    ensures OnCycle(g, id)
  {
    var q :| Joins(g, q, a, id);
    ReachesThrough(g, [id, a], q, id, a, id);
  }

  /** The walk accepts exactly the values from which everything reachable is allowed where it stands
      and no object reachable can reach itself. */
  lemma AcceptsIffSound(g: Graph, v: Value, optional: bool)
    requires Closed(g) && Inside(g, v)
    ensures Accepts(g, v, optional, {}) <==> SoundValue(g, v, optional)
  {
    if SoundValue(g, v, optional) {
      SoundIsAccepted(g, v, optional, {});
    } else if Accepts(g, v, optional, {}) && v.Ref? {
      forall b | b in g && Reaches(g, v.id, b)
        ensures WellMade(g, b) && !OnCycle(g, b)
      {
        var p :| Joins(g, p, v.id, b);
        AcceptedAvoidsAncestors(g, v.id, optional, {}, p, b);
        AcceptedHasNoCycle(g, v.id, optional, {}, p, b);
      }
    }
  }
}
