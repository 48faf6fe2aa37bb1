/** Lists linked through next fields. */
module MissileChain {
  import opened MissileField

  /** The k-th address, or NULL behind the end. */
  function Nth(list: seq<nat>, k: nat): nat {
    if k < |list| then list[k] else 0
  }

  ghost predicate LinkedAt(next: map<nat, nat>, list: seq<nat>, k: nat) {
    k < |list| ==> list[k] in next && next[list[k]] == Nth(list, k + 1)
  }

  /** What has been freed: all that has gone from the list, once each. */
  ghost predicate FreedOnce(before: seq<nat>, after: seq<nat>, freed: seq<nat>) {
    Distinct(freed) && forall a: nat :: a in freed <==> a in before && a !in after
  }

  /** So far these have been freed, of those on the list before. */
  ghost predicate Freeing(before: seq<nat>, list: seq<nat>, freed: seq<nat>) {
    FreedOnce(before, list, freed) && forall a: nat :: a in list ==> a in before
  }

  lemma FreeingBegins(list: seq<nat>)
    ensures Freeing(list, list, [])
  {
  }

  lemma FreeingTurn(before: seq<nat>, f: Field, i: nat, freed: seq<nat>, removed: seq<nat>)
    requires Sound(f) && i < |f.list| && Freeing(before, f.list, freed)
    requires removed == if f.list[i] in Turn(f, i).list then [] else [f.list[i]]
    ensures Freeing(before, Turn(f, i).list, freed + removed)
  {
    TurnFrees(f, i);
    var a := f.list[i];
    assert a in f.list && a !in freed;
    if removed == [] {
      assert freed + removed == freed;
    }
  }

  lemma FirstMoves(s: seq<nat>, t: seq<nat>)
    requires t != []
    ensures t[..0] + t[1..] == t[1..] && s + t == s + [t[0]] + t[1..]
  {
  }

  /** The list is what is found by following the links. */
  ghost predicate Chained(head: nat, next: map<nat, nat>, list: seq<nat>) {
    head == Nth(list, 0) && forall k: nat :: LinkedAt(next, list, k)
  }

  lemma NextIs(head: nat, next: map<nat, nat>, list: seq<nat>, k: nat)
    requires Chained(head, next, list) && k < |list|
    ensures list[k] in next && next[list[k]] == Nth(list, k + 1)
  {
    assert LinkedAt(next, list, k);
  }

  /** Takes the address at place i out of the list. */
  lemma UnlinkChained(head: nat, next: map<nat, nat>, list: seq<nat>, i: nat)
    requires Chained(head, next, list) && Distinct(list) && i < |list|
    ensures list[i] in next && next[list[i]] == Nth(list, i + 1) && (list[i] == head <==> i == 0)
    ensures i > 0 ==> list[i - 1] in next && list[i - 1] != list[i]
    ensures var successor := next[list[i]];
            var linked := if i == 0 then next else next[list[i - 1] := successor];
            Chained(if i == 0 then successor else head, linked - {list[i]}, list[..i] + list[i + 1..])
  {
    assert LinkedAt(next, list, i) && (i > 0 ==> LinkedAt(next, list, i - 1));
    var a, fewer := list[i], list[..i] + list[i + 1..];
    var linked := (if i == 0 then next else next[list[i - 1] := next[a]]) - {a};
    forall k: nat
      ensures LinkedAt(linked, fewer, k)
    {
      if k < |fewer| {
        assert LinkedAt(next, list, if k < i then k else k + 1);
        assert fewer[k] == list[if k < i then k else k + 1];
      }
    }
  }

  lemma LinkChained(head: nat, next: map<nat, nat>, list: seq<nat>, a: nat)
    requires Chained(head, next, list) && a !in list
    ensures Chained(a, next[a := head], [a] + list)
  {
    var linked, longer := next[a := head], [a] + list;
    forall k: nat
      ensures LinkedAt(linked, longer, k)
    {
      if 0 < k <= |list| {
        assert LinkedAt(next, list, k - 1);
      }
    }
  }
}
