/** The missiles as the game keeps them: linked through their next fields. */
module MissileList {
  import opened Options
  import opened MissileField
  import opened MissileChain

  class MissileGame {
    var head: nat
    var next: map<nat, nat>
    var at: map<nat, Missile>
    var baseAlive: seq<bool>
    var score: int
    /** The addresses that have been passed to mp1_free, in order. */
    var freed: seq<nat>
    /** The addresses on the list, in order. */
    ghost var list: seq<nat>

    ghost function State(): Field
      reads this
    {
      Field(list, at, baseAlive, score)
    }

    ghost predicate Valid()
      reads this
    {
      Sound(State()) && next.Keys == at.Keys && Chained(head, next, list)
    }

    constructor StartGame()
      ensures Valid() && State() == Field([], map[], [true, true, true], 0) && freed == []
    {
      head, next, at, list, freed := 0, map[], map[], [], [];
      score, baseAlive := 0, [true, true, true];
    }

    method ExplodeBase(x: int, y: int) returns (basesKilled: int)
      requires |baseAlive| == 3
      modifies `baseAlive
      ensures baseAlive == if y >= 23 && BaseNear(x).Some? then old(baseAlive)[BaseNear(x).value := false] else old(baseAlive)
      ensures basesKilled == if baseAlive == old(baseAlive) then 0 else 1
    {
      basesKilled := 0;
      if y >= 23 {
        if 17 <= x && x <= 23 {
          if baseAlive[0] {
            basesKilled := basesKilled + 1;
          }
          baseAlive := baseAlive[0 := false];
        } else if 37 <= x && x <= 43 {
          if baseAlive[1] {
            basesKilled := basesKilled + 1;
          }
          baseAlive := baseAlive[1 := false];
        } else if 57 <= x && x <= 63 {
          if baseAlive[2] {
            basesKilled := basesKilled + 1;
          }
          baseAlive := baseAlive[2 := false];
        }
      }
    }

    /** What the explosion of the missile at m does to itself and to the bases. */
    method Ignite(m: nat) returns (killed: int)
      requires Valid() && m in at
      modifies `at, `baseAlive
      ensures Valid() && State() == SetOff(old(State()), m)
      ensures killed == if baseAlive == old(baseAlive) then 0 else 1
    {
      killed := 0;
      if at[m].exploded == 0 {
        at := at[m := at[m].(exploded := EXPLOSION_TIME)];
      }
      if at[m].c == 'e' {
        killed := ExplodeBase(Cell(at[m].x), Cell(at[m].y));
      }
    }

    /** The missile at m explodes, and takes others and bases with it.  Returns how many. */
    method MissileExplode(m: nat) returns (exploded: int)
      requires Valid() && m in at
      modifies `at, `score, `baseAlive
      ensures Valid() && State() == Explode(old(State()), m)
      ensures exploded == score - old(score) + if baseAlive == old(baseAlive) then 0 else 1
    {
      var killed := Ignite(m);
      ghost var f := State();
      var hit := StrikeOthers(m);
      exploded := killed + hit;
    }

    /** The missile at i is taken along by the explosion of the one at m, if it is in reach. */
    method Strike(m: nat, i: nat) returns (hit: int)
      requires Valid() && m in at && i in at
      modifies `at, `score
      ensures Valid() && list == old(list) && at.Keys == old(at).Keys && hit == score - old(score)
      ensures var f := old(State());
              State() == if i != m && Hits(f.at[m], f.at[i]) then f.(at := f.at[i := Struck(f.at[i])], score := f.score + 1) else f
    {
      hit := 0;
      if i != m && Hits(at[m], at[i]) {
        score := score + 1;
        hit := 1;
        at := at[i := at[i].(exploded := EXPLOSION_TIME)];
      }
    }

    method StrikeOthers(m: nat) returns (exploded: int)
      requires Valid() && m in at
      modifies `at, `score
      ensures Valid() && State() == Blast(old(State()), m, old(at).Keys) && exploded == score - old(score)
    {
      exploded := 0;
      ghost var f := State();
      var i := head;
      ghost var k := 0;
      BlastBegins(f, m);
      while i != 0
        invariant Valid() && k <= |list| && i == Nth(list, k)
        invariant list == f.list && at.Keys == f.at.Keys && BlastUnderway(f, m, k, State()) && exploded == score - f.score
        decreases |list| - k
      {
        NextIs(head, next, list, k);
        BlastGoesOn(f, m, k, State());
        var hit := Strike(m, i);
        exploded := exploded + hit;
        i, k := next[i], k + 1;
      }
      BlastEnds(f, m, State());
    }

    /** Takes the missile at a, which is behind prev if it is not the first, off the list and
        frees it.  Returns the one behind it. */
    method MissileRemove(a: nat, prev: nat, ghost i: nat) returns (successor: nat)
      requires Valid() && i < |list| && list[i] == a && (i > 0 ==> prev == list[i - 1])
      modifies `head, `next, `at, `list, `freed
      ensures Valid() && State() == Removed(old(State()), i)
      ensures successor == Nth(list, i) && freed == old(freed) + [a]
    {
      UnlinkChained(head, next, list, i);
      RemovedSound(State(), i);
      successor := next[a];
      if a != head {
        next := next[prev := successor];
      } else {
        head := successor;
      }
      next := next - {a};
      at := at - {a};
      freed := freed + [a];
      list := list[..i] + list[i + 1..];
    }

    /** A tick of an explosion.  True if it has come to its end. */
    method Burn(a: nat) returns (over: bool)
      requires Valid() && a in at
      modifies `at
      ensures Valid() && State() == Burnt(old(State()), a) && over == (at[a].exploded == 0)
    {
      at := at[a := at[a].(exploded := Wrap32(at[a].exploded - 1))];
      over := at[a].exploded == 0;
    }

    /** The turn of a missile that has exploded. */
    method ActExploded(a: nat) returns (gone: bool)
      requires Valid() && a in at && at[a].exploded != 0
      modifies `at, `score, `baseAlive
      ensures Valid() && (State(), gone) == Acted(old(State()), a)
    {
      at := at[a := at[a].(vx := 0, vy := 0)];
      var _ := MissileExplode(a);
      gone := Burn(a);
    }

    /** The turn of the missile at a.  True if it is to be taken off the list. */
    method Act(a: nat) returns (gone: bool)
      requires Valid() && a in at
      modifies `at, `score, `baseAlive
      ensures Valid() && (State(), gone) == Acted(old(State()), a)
    {
      if at[a].exploded != 0 {
        gone := ActExploded(a);
        return;
      }
      if at[a].x < UPPER_X_LIMIT || at[a].x < 0 || at[a].y < UPPER_Y_LIMIT || at[a].y < 0 {
        return true;
      }
      if Cell(at[a].x) == at[a].destX && Cell(at[a].y) == at[a].destY {
        var _ := MissileExplode(a);
      }
      if at[a].exploded == 0 {
        at := at[a := Moved(at[a])];
        return false;
      }
      gone := Burn(a);
    }

    /** The turn of the missile at cur, which is taken off the list if that is due.  Returns
        the one that is now at its place. */
    method TakeTurn(cur: nat, prev: nat, ghost i: nat) returns (here: nat, ghost removed: seq<nat>)
      requires Valid() && i < |list| && list[i] == cur && (i > 0 ==> prev == list[i - 1])
      modifies this
      ensures Valid() && State() == Turn(old(State()), i) && here == Nth(list, i)
      ensures freed == old(freed) + removed && removed == if cur in list then [] else [cur]
    {
      here, removed := cur, [];
      var gone := Act(cur);
      if gone {
        here := MissileRemove(cur, prev, i);
        removed := [cur];
      }
    }

    /** A turn in the course of a tick that began with f0, and the step to the next missile. */
    method Round(cur: nat, prev: nat, ghost f0: Field, ghost i: nat, ghost removed: seq<nat>)
        returns (cur': nat, prev': nat, ghost gone: seq<nat>)
      requires Valid() && i < |list| && list[i] == cur && (i > 0 ==> prev == list[i - 1])
      requires Underway(f0, State(), i) && Freeing(f0.list, list, removed)
      modifies this
      ensures Valid() && Underway(f0, State(), i + 1) && Freeing(f0.list, list, removed + gone)
      ensures cur' == Nth(list, i + 1) && (i < |list| ==> prev' == list[i]) && |list| <= old(|list|)
      ensures freed == old(freed) + gone
    {
      ghost var f := State();
      prev', gone := TakeTurn(cur, prev, i);
      TickGoesOn(f0, f, i);
      TurnFrees(f, i);
      FreeingTurn(f0.list, f, i, removed, gone);
      cur' := prev';
      if cur' != 0 {
        NextIs(head, next, list, i);
        cur' := next[cur'];
      }
    }

    /** One tick. */
    method UpdateMissiles() returns (ghost removed: seq<nat>)
      requires Valid()
      modifies this
      ensures Valid() && State() == TickFrom(old(State()), 0)
      ensures freed == old(freed) + removed && Freeing(old(list), list, removed)
    {
      ghost var f0, freed0, i := State(), freed, 0;
      var cur, prev := head, 0;
      removed := [];
      TickBegins(f0);
      FreeingBegins(list);
      while cur != 0
        invariant Valid() && cur == Nth(list, i) && (0 < i <= |list| ==> prev == list[i - 1])
        invariant Underway(f0, State(), i) && Freeing(f0.list, list, removed) && freed == freed0 + removed
        decreases |list| - i
      {
        ghost var gone;
        cur, prev, gone := Round(cur, prev, f0, i, removed);
        removed := removed + gone;
        i := i + 1;
      }
      TickEnds(f0, State(), i);
    }

    /** Adds a missile that has been copied to freshly allocated memory at a, or frees this if
        the copying has failed. */
    method AddMissile(a: nat, m: Missile, copied: bool) returns (r: int)
      requires Valid() && a != 0 && a !in at
      modifies this
      ensures Valid() && State() == if copied then Launched(old(State()), a, m) else old(State())
      ensures copied ==> list == [a] + old(list) && at == old(at)[a := m]
      ensures freed == if copied then old(freed) else old(freed) + [a]
      ensures copied ==> r == 0
    {
      r := 0;
      if copied {
        LaunchedSound(State(), a, m);
        LinkChained(head, next, list, a);
        at, next := at[a := m], next[a := head];
        head := a;
        list := [a] + list;
      } else {
        freed := freed + [a];
        r := -1;
      }
    }

    /** Frees all missiles that are left, one after the other. */
    method EndGame()
      requires Valid()
      modifies `head, `next, `at, `list, `freed
      ensures Valid() && list == [] && at.Keys == {} && freed == old(freed) + old(list)
    {
      ghost var all := freed + list;
      var cur := head;
      while cur != 0
        invariant Valid() && cur == head && freed + list == all
        decreases |list|
      {
        FirstMoves(freed, list);
        cur := MissileRemove(cur, 0, 0);
      }
    }
  }
}
