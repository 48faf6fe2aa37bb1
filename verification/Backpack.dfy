/** The places of the objects in the backpack. */
module Backpack {
  import opened Options
  import opened Scene
  import opened WorldData
  import opened WorldState

  /** The grid has three columns and four rows, 100 by 50 pixels each. */
  lemma GridIsThreeByFour(k: nat)
    requires k < 12
    ensures Slot(k) == (10 + 100 * (k % 3), 10 + 50 * (k / 3))
  {
  }

  /** The whole of the object is in the photo, and its upper left corner in a band that leaves it in the
      lowest quarter, or at any height if that is too low for it; at the edge if the photo is too small. */
  predicate MayLie(photo: Bitmap, image: Bitmap, x: int, y: int) {
    && (if photo.width <= image.width then x == 0 else 0 <= x < photo.width - image.width)
    && (if photo.height / 4 > image.height then 3 * photo.height / 4 <= y < 3 * photo.height / 4 + photo.height / 4 - image.height
        else if photo.height <= image.height then y == 0
        else 0 <= y < photo.height - image.height)
  }

  lemma SpotMayBe(photo: Bitmap, image: Bitmap, rnd: Rand)
    ensures MayLie(photo, image, RandomSpot(photo, image, rnd).0, RandomSpot(photo, image, rnd).1)
  {
  }

  /** Numbers that lead there. */
  function Luck(photo: Bitmap, image: Bitmap, x: int, y: int): Rand
    requires MayLie(photo, image, x, y)
  {
    Rand(x, if photo.height / 4 > image.height then y - 3 * photo.height / 4 else y, 0)
  }

  lemma LuckLeadsThere(photo: Bitmap, image: Bitmap, x: int, y: int)
    requires MayLie(photo, image, x, y)
    ensures RandomSpot(photo, image, Luck(photo, image, x, y)) == (x, y)
  {
    var rnd := Luck(photo, image, x, y);
    if photo.width > image.width {
      SmallRemainder(rnd.x, photo.width - image.width);
    }
    if photo.height / 4 > image.height {
      SmallRemainder(rnd.y, photo.height / 4 - image.height);
    } else if photo.height > image.height {
      SmallRemainder(rnd.y, photo.height - image.height);
    }
  }

  lemma SmallRemainder(a: nat, n: int)
    requires a < n
    ensures a % n == a
  {
  }

  /** These are just the places in which an object may come to lie at random. */
  lemma RandomSpotsAre(photo: Bitmap, image: Bitmap, x: int, y: int)
    ensures MayLie(photo, image, x, y) <==> exists rnd: Rand :: RandomSpot(photo, image, rnd) == (x, y)
  {
    if MayLie(photo, image, x, y) {
      LuckLeadsThere(photo, image, x, y);
    }
    if rnd: Rand :| RandomSpot(photo, image, rnd) == (x, y) {
      SpotMayBe(photo, image, rnd);
    }
  }

  /** Two places of the grid are never the same. */
  lemma SlotsDiffer(j: nat, k: nat)
    requires j < k < N_SLOTS
    ensures Slot(j) != Slot(k)
  {
  }

  /** Indices of the carried objects that take up the first n places. */
  function Takers(w: World, n: nat): (s: set<int>)
    ensures forall i :: i in s <==>
      0 <= i < |w.In(R_INVENTORY)| && exists k: nat :: k < n && w.Pos(w.In(R_INVENTORY)[i]) == Slot(k)
  {
    set i | 0 <= i < |w.In(R_INVENTORY)| && exists k: nat :: k < n && w.Pos(w.In(R_INVENTORY)[i]) == Slot(k)
  }

  /** One object takes up one place only, so places taken are objects carried. */
  lemma {:induction false} TakersAreMany(w: World, n: nat)
    requires n <= N_SLOTS && forall k: nat :: k < n ==> SlotTaken(w, k)
    ensures |Takers(w, n)| >= n
  {
    if n > 0 {
      TakersAreMany(w, n - 1);
      assert SlotTaken(w, n - 1);
      var list := w.In(R_INVENTORY);
      var i :| 0 <= i < |list| && w.Pos(list[i]) == Slot(n - 1);
      assert i in Takers(w, n);
      forall k: nat | k < n - 1
        ensures w.Pos(list[i]) != Slot(k)
      {
        SlotsDiffer(k, n - 1);
      }
      assert i !in Takers(w, n - 1);
      CardinalityGrows(Takers(w, n - 1), Takers(w, n), i);
    }
  }

  lemma CardinalityGrows(s: set<int>, t: set<int>, i: int)
    requires s <= t && i in t && i !in s
    ensures |t| > |s|
  {
    var rest := t - s - {i};
    assert t == s + {i} + rest;
    assert |s + {i}| == |s| + 1;
  }

  lemma {:induction false} IndicesAreFew(s: set<int>, n: nat)
    requires forall i :: i in s ==> 0 <= i < n
    ensures |s| <= n
  {
    if n == 0 {
      assert forall i :: i !in s;
      assert s == {};
    } else {
      IndicesAreFew(s - {n - 1}, n - 1);
      assert |s| <= |s - {n - 1}| + 1;
    }
  }

  /** An object is put down at random in the backpack only if at least twelve are there. */
  lemma FullBackpackHoldsTwelve(w: World)
    ensures FreeSlot(w, 0) == None ==> |w.In(R_INVENTORY)| >= N_SLOTS
  {
    if FreeSlot(w, 0) == None {
      FreeSlotIsFirst(w, 0);
      TakersAreMany(w, N_SLOTS);
      IndicesAreFew(Takers(w, N_SLOTS), |w.In(R_INVENTORY)|);
    }
  }

  /** Every carried object has a place of the grid to itself. */
  ghost predicate Tidy(w: World) {
    && (forall o: ObjId :: w.Carried(o) ==> exists k: nat :: k < N_SLOTS && w.Pos(o) == Slot(k))
    && (forall o: ObjId, p: ObjId :: w.Carried(o) && w.Carried(p) && o != p ==> w.Pos(o) != w.Pos(p))
  }

  lemma SlotFits(k: nat)
    requires k < N_SLOTS
    ensures (Trunc16(Slot(k).0), Trunc16(Slot(k).1)) == Slot(k)
  {
  }

  lemma OnlyOneIsPlaced(w: World, o: ObjId, r: RoomId, x: int, y: int)
    ensures var w' := InsertObjectAt(w, o, r, x, y);
            forall p: ObjId :: w'.Pos(p) == if p == o then (Trunc16(x), Trunc16(y)) else w.Pos(p)
  {
  }

  /** A place is stored as it is, if both coordinates fit into 16 bits. */
  lemma PlaceIsStored(w: World, o: ObjId, r: RoomId, x: int, y: int)
    requires 0 <= x < 65536 && 0 <= y < 65536
    ensures InsertObjectAt(w, o, r, x, y).Pos(o) == (x, y)
  {
  }

  /** While fewer than twelve objects are carried, a new one goes to the first free place, and
      all keep their own. */
  lemma BackpackStaysTidy(w: World, o: ObjId, rnd: Rand)
    requires WellFormed(w) && Tidy(w) && |w.In(R_INVENTORY)| < N_SLOTS
    ensures var w' := MoveToInventory(w, o, rnd);
            && Tidy(w')
            && exists k: nat :: k < N_SLOTS && w'.Pos(o) == Slot(k) && !SlotTaken(w, k) && forall j: nat :: j < k ==> SlotTaken(w, j)
  {
    FullBackpackHoldsTwelve(w);
    FreeSlotIsFirst(w, 0);
    var k := FreeSlot(w, 0).value;
    var w' := MoveToInventory(w, o, rnd);
    SlotFits(k);
    OnlyOneIsPlaced(w, o, R_INVENTORY, Slot(k).0, Slot(k).1);
    forall p: ObjId | p != o && w'.Carried(p)
      ensures w.Carried(p) && w'.Pos(p) == w.Pos(p) && w.Pos(p) != Slot(k)
    {
      var list := w.In(R_INVENTORY);
      assert p in list;
      var i :| 0 <= i < |list| && list[i] == p;
      assert !SlotTaken(w, k);
    }
  }

  /** The grid has places for all that is carried. */
  predicate Fitting(w: World) {
    |w.In(R_INVENTORY)| <= N_SLOTS
  }

  /** Nothing has come into the backpack, and what has stayed has kept its place. */
  ghost predicate CarriesLess(w: World, w': World) {
    forall o: ObjId :: w'.Carried(o) ==> w.Carried(o) && w'.Pos(o) == w.Pos(o)
  }

  /** The backpack is tidy if and only if the grid has places for all that is in it. */
  ghost predicate TidyIfFitting(w: World) {
    WellFormed(w) && (Tidy(w) <==> Fitting(w))
  }
}
