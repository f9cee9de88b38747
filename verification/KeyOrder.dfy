/** `Array.prototype.sort` on property keys: the order of their UTF-16 code units. */
module KeyOrder {

  newtype unit = x: int | 0 <= x < 0x1_0000

  type Text = seq<unit>

  predicate Less(a: Text, b: Text) {
    && b != []
    && (a == [] || a[0] < b[0] || (a[0] == b[0] && Less(a[1..], b[1..])))
  }

  /** The keys agree up to place n, where the first one ends or has the smaller code unit. */
  ghost predicate SmallerAt(a: Text, b: Text, n: nat) {
    n <= |a| && n < |b| && a[..n] == b[..n] && (n < |a| ==> a[n] < b[n])
  }

  /** The order is that of the first code units that differ, a proper prefix coming first. */
  lemma {:induction false} LessMeans(a: Text, b: Text)
    ensures Less(a, b) <==> exists n: nat :: SmallerAt(a, b, n)
  {
    if a == [] || b == [] || a[0] != b[0] {
      if b != [] && (a == [] || a[0] < b[0]) {
        assert SmallerAt(a, b, 0);
      }
    } else {
      LessMeans(a[1..], b[1..]);
      assert a == [a[0]] + a[1..] && b == [b[0]] + b[1..];
      if n: nat :| SmallerAt(a[1..], b[1..], n) {
        assert a[..n + 1] == [a[0]] + a[1..][..n] && b[..n + 1] == [b[0]] + b[1..][..n];
        assert SmallerAt(a, b, n + 1);
      }
      if n: nat :| SmallerAt(a, b, n) {
        assert a[1..][..n - 1] == a[..n][1..] && b[1..][..n - 1] == b[..n][1..];
        assert SmallerAt(a[1..], b[1..], n - 1);
      }
    }
  }

  lemma {:induction false} LessIrreflexive(a: Text)
    ensures !Less(a, a)
  {
    if a != [] {
      LessIrreflexive(a[1..]);
    }
  }

  lemma {:induction false} LessTransitive(a: Text, b: Text, c: Text)
    requires Less(a, b) && Less(b, c)
    ensures Less(a, c)
  {
    if a != [] && a[0] == b[0] && b[0] == c[0] {
      LessTransitive(a[1..], b[1..], c[1..]);
    }
  }

  lemma {:induction false} LessTotal(a: Text, b: Text)
    ensures a == b || Less(a, b) || Less(b, a)
  {
    if a != [] && b != [] && a[0] == b[0] {
      LessTotal(a[1..], b[1..]);
      assert a == [a[0]] + a[1..] && b == [b[0]] + b[1..];
    }
  }

  /** The members of a list of keys. */
  function Members(s: seq<Text>): set<Text> {
    set k | k in s
  }

  predicate Ascending(s: seq<Text>) {
    forall i, j | 0 <= i < j < |s| :: Less(s[i], s[j])
  }

  function Insert(k: Text, s: seq<Text>): (r: seq<Text>)
    requires Ascending(s)
    ensures Ascending(r) && Members(r) == Members(s) + {k}
  {
    if s == [] then [k]
    else if k == s[0] then s
    else if Less(k, s[0]) then (InsertFront(k, s); [k] + s)
    else
      LessTotal(k, s[0]);
      var rest := Insert(k, s[1..]);
      InsertRest(s[0], k, s[1..], rest);
      assert s == [s[0]] + s[1..];
      [s[0]] + rest
  }

  lemma InsertFront(k: Text, s: seq<Text>)
    requires s != [] && Ascending(s) && Less(k, s[0])
    ensures Ascending([k] + s) && Members([k] + s) == Members(s) + {k}
  {
    forall j | 0 <= j < |s|
      ensures Less(k, s[j])
    {
      if j > 0 {
        LessTransitive(k, s[0], s[j]);
      }
    }
  }

  lemma MembersCons(head: Text, tail: seq<Text>)
    ensures Members([head] + tail) == Members(tail) + {head}
  {
  }

  lemma AscendingCons(head: Text, tail: seq<Text>)
    ensures Ascending([head] + tail) <==> Ascending(tail) && forall x <- Members(tail) :: Less(head, x)
  {
    var s := [head] + tail;
    if Ascending(s) {
      forall i, j | 0 <= i < j < |tail|
        ensures Less(tail[i], tail[j])
      {
        assert s[i + 1] == tail[i] && s[j + 1] == tail[j];
      }
      forall j | 0 <= j < |tail|
        ensures Less(head, tail[j])
      {
        assert s[0] == head && s[j + 1] == tail[j];
      }
    }
    forall j | 0 <= j < |tail|
      ensures tail[j] in Members(tail)
    {
    }
  }

  lemma InsertRest(head: Text, k: Text, tail: seq<Text>, rest: seq<Text>)
    requires Less(head, k) && Ascending([head] + tail) && Ascending(rest) && Members(rest) == Members(tail) + {k}
    ensures Ascending([head] + rest) && Members([head] + rest) == Members([head] + tail) + {k}
  {
    AscendingCons(head, tail);
    AscendingCons(head, rest);
    MembersCons(head, tail);
    MembersCons(head, rest);
    hide Ascending, Members, Less;
  }

  function Sort(keys: seq<Text>): (r: seq<Text>)
    ensures Ascending(r) && Members(r) == Members(keys)
  {
    if keys == [] then []
    else
      assert Members(keys) == Members(keys[1..]) + {keys[0]};
      Insert(keys[0], Sort(keys[1..]))
  }

  lemma NoMembers(b: seq<Text>)
    ensures Members(b) == {} <==> b == []
  {
    if b != [] {
      assert b[0] in Members(b);
    }
  }

  /** Ascending lists with the same members are the same list. */
  lemma {:induction false} AscendingUnique(a: seq<Text>, b: seq<Text>)
    requires Ascending(a) && Ascending(b) && Members(a) == Members(b)
    ensures a == b
  {
    if a == [] {
      NoMembers(b);
    } else {
      assert a[0] in Members(b);
      SameHead(a, b);
      MembersOfTail(a);
      MembersOfTail(b);
      AscendingUnique(a[1..], b[1..]);
      assert a == [a[0]] + a[1..] && b == [b[0]] + b[1..];
    }
  }

  lemma SameHead(a: seq<Text>, b: seq<Text>)
    requires Ascending(a) && Ascending(b) && Members(a) == Members(b) && a != [] && b != []
    ensures a[0] == b[0]
  {
    assert a[0] in Members(b) && b[0] in Members(a);
    if a[0] != b[0] {
      LessTransitive(a[0], b[0], a[0]);
      LessIrreflexive(a[0]);
    }
  }

  lemma MembersOfTail(a: seq<Text>)
    requires Ascending(a) && a != []
    ensures Members(a[1..]) == Members(a) - {a[0]} && Ascending(a[1..])
  {
    if a[0] in a[1..] {
      LessIrreflexive(a[0]);
    }
  }
}
