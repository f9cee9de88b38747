/** What became of numbered promises, in the order they were settled. */
module Promises {

  datatype Settlement<+T> = Settlement(id: nat, outcome: T)

  ghost predicate SettledOnce<T>(settlements: seq<Settlement<T>>) {
    forall i, j | 0 <= i < j < |settlements| :: settlements[i].id != settlements[j].id
  }

  ghost predicate IsSettled<T>(settlements: seq<Settlement<T>>, id: nat) {
    exists i :: 0 <= i < |settlements| && settlements[i].id == id
  }

  lemma SettledBy<T>(settlements: seq<Settlement<T>>, s: Settlement<T>, id: nat)
    ensures IsSettled(settlements + [s], id) <==> id == s.id || IsSettled(settlements, id)
  {
    var more := settlements + [s];
    assert more[|settlements|] == s;
    if IsSettled(settlements, id) {
      var i :| 0 <= i < |settlements| && settlements[i].id == id;
      assert more[i].id == id;
    }
    if IsSettled(more, id) && id != s.id {
      var i :| 0 <= i < |more| && more[i].id == id;
      assert settlements[i].id == id;
    }
  }

  /** Settling a promise that was not settled. */
  lemma SettleMore<T>(settlements: seq<Settlement<T>>, s: Settlement<T>)
    requires SettledOnce(settlements) && !IsSettled(settlements, s.id)
    ensures SettledOnce(settlements + [s])
    ensures forall id: nat :: IsSettled(settlements + [s], id) <==> id == s.id || IsSettled(settlements, id)
  {
    forall id: nat
      ensures IsSettled(settlements + [s], id) <==> id == s.id || IsSettled(settlements, id)
    {
      SettledBy(settlements, s, id);
    }
  }
}
