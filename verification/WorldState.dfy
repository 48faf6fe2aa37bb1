/** The adventure world on values: what each command does to the rooms, the objects and
    the player's accomplishments.  The classes of module WorldHeap refine these functions. */
module WorldState {
  import opened Options
  import opened Scene
  import opened WorldData

  /** A state of the world.  contents lists the objects of each room in list order; an
      object that loc does not mention is in limbo.  left, enter and right say which rooms
      connect; the program changes only two of the enter links. */
  datatype World = World(
    contents: map<RoomId, seq<ObjId>>,
    loc: map<ObjId, RoomId>,
    pos: map<ObjId, (nat, nat)>,
    view: map<RoomId, Bitmap>,
    swap: map<SwapId, Bitmap>,
    flags: set<Flag>,
    left: map<RoomId, RoomId>,
    enter: map<RoomId, RoomId>,
    right: map<RoomId, RoomId>,
    images: map<ObjId, Bitmap>)
  {
    function In(r: RoomId): seq<ObjId> {
      if r in contents then contents[r] else []
    }

    function Loc(o: ObjId): Option<RoomId> {
      if o in loc then Some(loc[o]) else None
    }

    function Pos(o: ObjId): (nat, nat) {
      if o in pos then pos[o] else (0, 0)
    }

    function View(r: RoomId): Bitmap {
      if r in view then view[r] else Bitmap(0, 0, [])
    }

    function Swapped(s: SwapId): Bitmap {
      if s in swap then swap[s] else Bitmap(0, 0, [])
    }

    function Image(o: ObjId): Bitmap {
      if o in images then images[o] else Bitmap(0, 0, [])
    }

    function Left(r: RoomId): Option<RoomId> {
      if r in left then Some(left[r]) else None
    }

    function Enter(r: RoomId): Option<RoomId> {
      if r in enter then Some(enter[r]) else None
    }

    function Right(r: RoomId): Option<RoomId> {
      if r in right then Some(right[r]) else None
    }

    /** Carried, or lying in room r. */
    predicate AtHand(o: ObjId, r: RoomId) {
      Loc(o) == Some(R_INVENTORY) || Loc(o) == Some(r)
    }

    predicate Carried(o: ObjId) {
      Loc(o) == Some(R_INVENTORY)
    }
  }

  /** Where the player really stands: the backpack is looked at from some other room. */
  function Standing(w: World, r: RoomId): Option<RoomId> {
    if r == R_INVENTORY then w.Enter(R_INVENTORY) else Some(r)
  }

  ghost predicate NoDuplicates(s: seq<ObjId>) {
    forall i, j :: 0 <= i < j < |s| ==> s[i] != s[j]
  }

  /** An object is in the list of room r, once, if and only if its location is r.  So an
      object is in one list at most, and in none while it is in limbo. */
  ghost predicate WellFormed(w: World) {
    && (forall r: RoomId :: NoDuplicates(w.In(r)))
    && (forall o: ObjId, r: RoomId :: o in w.In(r) <==> w.Loc(o) == Some(r))
  }

  // ------------------------------------------------------------------ moving objects

  function Without(s: seq<ObjId>, o: ObjId): seq<ObjId> {
    if s == [] then [] else if s[0] == o then s[1..] else [s[0]] + Without(s[1..], o)
  }

  lemma {:induction false} WithoutIsRemoval(s: seq<ObjId>, o: ObjId, k: nat)
    requires k < |s| && s[k] == o && o !in s[..k]
    ensures Without(s, o) == s[..k] + s[k + 1..]
  {
    if k > 0 {
      assert s[1..][..k - 1] == s[..k][1..];
      WithoutIsRemoval(s[1..], o, k - 1);
      assert [s[0]] + (s[1..][..k - 1] + s[1..][k..]) == s[..k] + s[k + 1..];
    }
  }

  lemma {:induction false} WithoutAbsent(s: seq<ObjId>, o: ObjId)
    requires o !in s
    ensures Without(s, o) == s
  {
    if s != [] {
      WithoutAbsent(s[1..], o);
    }
  }

  lemma {:induction false} WithoutDropsOne(s: seq<ObjId>, o: ObjId)
    requires NoDuplicates(s)
    ensures NoDuplicates(Without(s, o))
    ensures forall p: ObjId :: p in Without(s, o) <==> p in s && p != o
  {
    if s != [] {
      if s[0] == o {
        assert forall i :: 0 <= i < |s[1..]| ==> s[1..][i] == s[i + 1];
      } else {
        WithoutDropsOne(s[1..], o);
        assert s == [s[0]] + s[1..];
        assert s[0] !in Without(s[1..], o);
      }
    }
  }

  /** At most the lists, the locations and the positions of objects have changed. */
  predicate ObjectsMoved(w: World, w': World) {
    && w'.view == w.view && w'.swap == w.swap && w'.flags == w.flags && w'.images == w.images
    && SameLinks(w, w')
  }

  predicate SameLinks(w: World, w': World) {
    w'.left == w.left && w'.enter == w.enter && w'.right == w.right
  }

  function RemoveObject(w: World, o: ObjId): (w': World)
    ensures ObjectsMoved(w, w')
    ensures forall p: ObjId :: w'.Loc(p) == if p == o then None else w.Loc(p)
    ensures w.Loc(o) == None ==> w' == w
  {
    match w.Loc(o)
    case None => w
    case Some(r) => w.(contents := w.contents[r := Without(w.In(r), o)], loc := w.loc - {o})
  }

  /** Positions are stored in 16 bits. */
  function Trunc16(i: int): nat {
    i % 0x1_0000
  }

  function InsertObjectAt(w: World, o: ObjId, r: RoomId, x: int, y: int): (w': World)
    ensures ObjectsMoved(w, w')
    ensures forall p: ObjId :: w'.Loc(p) == if p == o then Some(r) else w.Loc(p)
  {
    var out := RemoveObject(w, o);
    out.(contents := out.contents[r := [o] + out.In(r)],
         loc := out.loc[o := r],
         pos := out.pos[o := (Trunc16(x), Trunc16(y))])
  }

  /** Removing and inserting objects keeps the lists and the locations in step. */
  lemma RemoveObjectWellFormed(w: World, o: ObjId)
    requires WellFormed(w)
    ensures WellFormed(RemoveObject(w, o))
    ensures forall r: RoomId :: o !in RemoveObject(w, o).In(r)
    ensures forall r: RoomId :: w.Loc(o) != Some(r) ==> RemoveObject(w, o).In(r) == w.In(r)
  {
    if w.Loc(o).Some? {
      var r := w.Loc(o).value;
      var w' := RemoveObject(w, o);
      WithoutDropsOne(w.In(r), o);
      forall q: RoomId
        ensures NoDuplicates(w'.In(q))
      {
        assert NoDuplicates(w.In(q));
      }
      forall p: ObjId, q: RoomId
        ensures p in w'.In(q) <==> w'.Loc(p) == Some(q)
      {
        assert p in w.In(q) <==> w.Loc(p) == Some(q);
      }
    }
  }

  lemma InsertObjectAtWellFormed(w: World, o: ObjId, r: RoomId, x: int, y: int)
    requires WellFormed(w)
    ensures WellFormed(InsertObjectAt(w, o, r, x, y))
  {
    var out, w' := RemoveObject(w, o), InsertObjectAt(w, o, r, x, y);
    RemoveObjectWellFormed(w, o);
    forall q: RoomId
      ensures NoDuplicates(w'.In(q))
    {
      assert NoDuplicates(out.In(q));
    }
    forall p: ObjId, q: RoomId
      ensures p in w'.In(q) <==> w'.Loc(p) == Some(q)
    {
      assert p in out.In(q) <==> out.Loc(p) == Some(q);
    }
  }

  /** Numbers drawn from rand() by one command. */
  datatype Rand = Rand(x: nat, y: nat, coin: nat)

  function RandomSpot(photo: Bitmap, image: Bitmap, rnd: Rand): (int, int) {
    var xRange := photo.width - image.width;
    var low, all := photo.height / 4 - image.height, photo.height - image.height;
    var x := if xRange <= 0 then 0 else rnd.x % xRange;
    var y := if low > 0 then rnd.y % low + 3 * photo.height / 4
             else if all <= 0 then 0 else rnd.y % all;
    (x, y)
  }

  /** An object dropped at random lies wholly inside the photo whenever it can, and in its
      lowest quarter whenever it fits there with room to spare. */
  lemma RandomSpotIsInside(photo: Bitmap, image: Bitmap, rnd: Rand)
    ensures var (x, y) := RandomSpot(photo, image, rnd);
            && 0 <= x && 0 <= y
            && (image.width <= photo.width ==> x + image.width <= photo.width)
            && (image.height <= photo.height ==> y + image.height <= photo.height)
            && (image.height < photo.height / 4 ==> 3 * photo.height / 4 <= y)
  {
  }

  function InsertObject(w: World, o: ObjId, r: RoomId, rnd: Rand): (w': World)
    ensures ObjectsMoved(w, w')
    ensures forall p: ObjId :: w'.Loc(p) == if p == o then Some(r) else w.Loc(p)
  {
    var (x, y) := RandomSpot(w.View(r), w.Image(o), rnd);
    InsertObjectAt(w, o, r, x, y)
  }

  /** The grid of the backpack: four rows of three places. */
  const N_SLOTS: nat := 12

  function SlotRow(k: nat): nat {
    if k < 3 then 0 else if k < 6 then 1 else if k < 9 then 2 else 3
  }

  function Slot(k: nat): (int, int) {
    (10 + 100 * (k - 3 * SlotRow(k)), 10 + 50 * SlotRow(k))
  }

  predicate SlotTaken(w: World, k: nat) {
    exists i :: 0 <= i < |w.In(R_INVENTORY)| && w.Pos(w.In(R_INVENTORY)[i]) == Slot(k)
  }

  /** The first free place from k on. */
  function FreeSlot(w: World, k: nat): (f: Option<nat>)
    requires k <= N_SLOTS
    ensures f.Some? ==> k <= f.value < N_SLOTS
    decreases N_SLOTS - k, w
  {
    if k == N_SLOTS then None
    else if SlotTaken(w, k) then FreeSlot(w, k + 1)
    else Some(k)
  }

  lemma {:induction false} FreeSlotIsFirst(w: World, k: nat)
    requires k <= N_SLOTS
    ensures FreeSlot(w, k).Some? ==> !SlotTaken(w, FreeSlot(w, k).value)
    ensures forall j: nat :: k <= j < (if FreeSlot(w, k).Some? then FreeSlot(w, k).value else N_SLOTS) ==> SlotTaken(w, j)
    decreases N_SLOTS - k, w
  {
    if k < N_SLOTS && SlotTaken(w, k) {
      FreeSlotIsFirst(w, k + 1);
    }
  }

  function MoveToInventory(w: World, o: ObjId, rnd: Rand): (w': World)
    ensures ObjectsMoved(w, w')
    ensures forall p: ObjId :: w'.Loc(p) == if p == o then Some(R_INVENTORY) else w.Loc(p)
  {
    match FreeSlot(w, 0)
    case Some(k) => InsertObjectAt(w, o, R_INVENTORY, Slot(k).0, Slot(k).1)
    case None => InsertObject(w, o, R_INVENTORY, rnd)
  }

  // ------------------------------------------------------------------ finding objects

  function LowerChar(c: char): char {
    if 'A' <= c <= 'Z' then c - 'A' + 'a' else c
  }

  function Lower(s: string): (t: string)
    ensures |t| == |s| && forall i :: 0 <= i < |s| ==> t[i] == LowerChar(s[i])
  {
    seq(|s|, i requires 0 <= i < |s| => LowerChar(s[i]))
  }

  predicate SameWord(a: string, b: string) {
    Lower(a) == Lower(b)
  }

  /** The first object of a list that has the given name. */
  function FindByName(s: seq<ObjId>, arg: string): (f: Option<ObjId>)
    ensures f.Some? ==> f.value in s && SameWord(arg, NameOf(f.value))
    ensures f == None ==> forall o :: o in s ==> !SameWord(arg, NameOf(o))
  {
    if s == [] then None
    else if SameWord(arg, NameOf(s[0])) then Some(s[0])
    else FindByName(s[1..], arg)
  }

  // ------------------------------------------------------------------ commands

  datatype Action = AllowEdit | DiscardText | RedrawRoom | ChangeRoom

  /** The result of a command: the new world, the room the player now views (None after a
      win), and what the caller must do about the display. */
  datatype Outcome = Outcome(world: World, where: Option<RoomId>, action: Action)

  /** A command that does not ask for the room to be drawn leaves the player in the same
      room and changes nothing but accomplishments, and without discarding the typed text
      not even those; one that asks only for drawing leaves all photos as they are. */
  predicate Candid(w: World, r: RoomId, out: Outcome) {
    && (out.action == AllowEdit ==> out.where == Some(r) && out.world == w)
    && (out.action == DiscardText ==> out.where == Some(r) && out.world == w.(flags := out.world.flags))
    && (out.action == RedrawRoom ==> out.where == Some(r) && out.world.view == w.view && out.world.swap == w.swap)
  }

  predicate PhotosSwapped(w: World, w': World, r: RoomId, s: SwapId) {
    w'.view == w.view[r := w.Swapped(s)] && w'.swap == w.swap[s := w.View(r)]
  }

  /** No picture is lost: at most one of the two rooms with a spare photo has changed over to it. */
  predicate PicturesKept(w: World, w': World) {
    && w'.images == w.images
    && (|| (w'.view == w.view && w'.swap == w.swap)
        || PhotosSwapped(w, w', R_CIRCLE_N, SwapCircle)
        || PhotosSwapped(w, w', R_CAR_SITE, SwapCar))
  }

  function Refuse(w: World, r: RoomId): Outcome {
    Outcome(w, Some(r), AllowEdit)
  }

  function Discard(w: World, r: RoomId): Outcome {
    Outcome(w, Some(r), DiscardText)
  }

  function Redraw(w: World, r: RoomId): Outcome {
    Outcome(w, Some(r), RedrawRoom)
  }

  function Go(w: World, r: RoomId): Outcome {
    Outcome(w, Some(r), ChangeRoom)
  }

  function PhotoSwap(w: World, r: RoomId, s: SwapId): World {
    w.(view := w.view[r := w.Swapped(s)], swap := w.swap[s := w.View(r)])
  }

  function SetFlag(w: World, f: Flag): World {
    w.(flags := w.flags + {f})
  }

  /** Walking into a room; the view of the bridge changes at the toss of a coin. */
  function Arrive(w: World, r: RoomId, rnd: Rand): (out: Outcome)
    ensures SameLinks(w, out.world) && Candid(w, r, out) && PicturesKept(w, out.world)
  {
    Go(if r == R_CIRCLE_N && rnd.coin % 2 == 0 then PhotoSwap(w, r, SwapCircle) else w, r)
  }

  function MoveLeft(w: World, r: RoomId, rnd: Rand): (out: Outcome)
    ensures SameLinks(w, out.world) && Candid(w, r, out) && PicturesKept(w, out.world)
  {
    match w.Left(r)
    case Some(dest) => Arrive(w, dest, rnd)
    case None => Refuse(w, r)
  }

  function MoveRight(w: World, r: RoomId, rnd: Rand): (out: Outcome)
    ensures SameLinks(w, out.world) && Candid(w, r, out) && PicturesKept(w, out.world)
  {
    match w.Right(r)
    case Some(dest) => Arrive(w, dest, rnd)
    case None => Refuse(w, r)
  }

  function Enter(w: World, r: RoomId, rnd: Rand): (out: Outcome)
    ensures SameLinks(w, out.world) && PicturesKept(w, out.world)
  {
    match w.Enter(r)
    case Some(dest) => Arrive(w, dest, rnd)
    case None =>
      if r == R_BY_CLEANR && WearingSuit in w.flags then Go(w, R_IN_CLEANR)
      else if r == R_BY_395LAB && w.Carried(O_ICARD) then Go(w, R_IN_395LAB)
      else if r == R_CSL_DOOR && w.Carried(O_ICARD) then Go(w, R_CSL_LOBBY)
      else if r == R_BECK_DOOR && w.Carried(O_ROBOT_LIVE) then Go(w, R_BECKLOBBY)
      else Refuse(w, r)
  }

  function Buy(w: World, r: RoomId, arg: string, rnd: Rand): (out: Outcome)
    ensures SameLinks(w, out.world) && Candid(w, r, out) && PicturesKept(w, out.world)
  {
    if SameWord("dew", arg) then
      if r != R_EVRT_VEND || w.AtHand(O_MTN_DEW, r) then Discard(w, r)
      else Redraw(MoveToInventory(w, O_MTN_DEW, rnd), r)
    else if SameWord("yogurt", arg) then
      Discard(if r == R_IN_COCOMR && HasEaten !in w.flags then SetFlag(w, HasEaten) else w, r)
    else Refuse(w, r)
  }

  function Charge(w: World, r: RoomId, arg: string, rnd: Rand): (out: Outcome)
    ensures SameLinks(w, out.world) && Candid(w, r, out) && PicturesKept(w, out.world)
  {
    if !SameWord("battery", arg) then Refuse(w, r)
    else if !w.AtHand(O_BATT_EMPTY, r) && !w.AtHand(O_BATT_FULL, r) then Discard(w, r)
    else if r != R_BECK_MRI || w.AtHand(O_BATT_FULL, r) then Discard(w, r)
    else Redraw(MoveToInventory(RemoveObject(w, O_BATT_EMPTY), O_BATT_FULL, rnd), r)
  }

  function Do(w: World, r: RoomId, arg: string): (out: Outcome)
    ensures SameLinks(w, out.world) && Candid(w, r, out) && PicturesKept(w, out.world)
  {
    if r != R_IN_391LAB then Refuse(w, r)
    else if !SameWord("391", arg) && !SameWord("mp2", arg) then Refuse(w, r)
    else if !w.Carried(O_BOOK_C) || !w.Carried(O_MP2) || w.Loc(O_TUX) != Some(R_IN_391LAB) then Discard(w, r)
    else Outcome(w, None, ChangeRoom)
  }

  function Drink(w: World, r: RoomId, arg: string): (out: Outcome)
    ensures SameLinks(w, out.world) && Candid(w, r, out) && PicturesKept(w, out.world)
  {
    if !SameWord("dew", arg) then Refuse(w, r)
    else if !w.AtHand(O_MTN_DEW, r) then Discard(w, r)
    else Redraw(RemoveObject(w, O_MTN_DEW), r)
  }

  function Drop(w: World, r: RoomId, arg: string, rnd: Rand): (out: Outcome)
    requires Standing(w, r).Some?
    ensures SameLinks(w, out.world) && Candid(w, r, out) && PicturesKept(w, out.world)
  {
    match FindByName(w.In(R_INVENTORY), arg)
    case None => Refuse(w, r)
    case Some(o) => Redraw(InsertObject(w, o, Standing(w, r).value, rnd), r)
  }

  function Fix(w: World, r: RoomId, arg: string, rnd: Rand): (out: Outcome)
    ensures SameLinks(w, out.world) && Candid(w, r, out) && PicturesKept(w, out.world)
  {
    if !SameWord("gps", arg) then Refuse(w, r)
    else if w.AtHand(O_GPS_GOOD, r) || !w.AtHand(O_GPS_BAD, r) then Discard(w, r)
    else if r != R_IN_CLEANR || !w.AtHand(O_GPS_SPEC, r) then Discard(w, r)
    else Go(MoveToInventory(RemoveObject(RemoveObject(w, O_GPS_BAD), O_GPS_SPEC), O_GPS_GOOD, rnd), r)
  }

  function Flash(w: World, r: RoomId, arg: string, rnd: Rand): (out: Outcome)
    ensures SameLinks(w, out.world) && Candid(w, r, out) && PicturesKept(w, out.world)
  {
    if !SameWord("robot", arg) then Refuse(w, r)
    else if !w.AtHand(O_ROBOT_DEAD, r) && !w.AtHand(O_ROBOT_LIVE, r) then Discard(w, r)
    else if r != R_IN_395LAB || w.AtHand(O_ROBOT_LIVE, r) then Discard(w, r)
    else Redraw(MoveToInventory(RemoveObject(w, O_ROBOT_DEAD), O_ROBOT_LIVE, rnd), r)
  }

  /** Objects handed out on request: books at the library desk, and the battery that is
      taken out of the car. */
  function SpecialGet(w: World, src: RoomId, arg: string): (World, Option<ObjId>) {
    if src == R_RESERVE && SameWord("book", arg) && HasEaten in w.flags && w.Loc(O_BOOK_C) == None then
      (w, Some(O_BOOK_C))
    else if src == R_RESERVE && SameWord("book", arg) && HasEaten !in w.flags && w.Loc(O_BOOK_WODE) == None then
      (w, Some(O_BOOK_WODE))
    else if src == R_CAR_SITE && w.Loc(O_BATT_CAR) == Some(R_CAR_SITE) then
      (RemoveObject(w, O_BATT_CAR), Some(O_BATT_EMPTY))
    else
      (w, None)
  }

  function Get(w: World, r: RoomId, arg: string, rnd: Rand): (out: Outcome)
    requires Standing(w, r).Some?
    ensures SameLinks(w, out.world) && Candid(w, r, out) && PicturesKept(w, out.world)
  {
    var src := Standing(w, r).value;
    var (w1, special) := SpecialGet(w, src, arg);
    match (if special.Some? then special else FindByName(w1.In(src), arg))
    case None => Refuse(w1, r)
    case Some(o) =>
      if o == O_TUX && LuredTux !in w1.flags then Discard(w1, r)
      else Redraw(MoveToInventory(w1, o, rnd), r)
  }

  function GoTo(w: World, r: RoomId, arg: string): (out: Outcome)
    ensures SameLinks(w, out.world) && Candid(w, r, out) && PicturesKept(w, out.world)
  {
    if SameWord("allerton", arg) then
      if r != R_WILLARD && r != R_CAR_SITE then Discard(w, r)
      else if CarFixed !in w.flags || !w.Carried(O_GPS_GOOD) then Discard(w, r)
      else Go(w, R_ALLERTON)
    else if SameWord("willard", arg) || SameWord("airport", arg) then
      if r != R_ALLERTON && r != R_CAR_SITE then Discard(w, r)
      else if CarFixed !in w.flags then Discard(w, r)
      else Go(w, R_WILLARD)
    else if SameWord("campus", arg) then
      if r != R_ALLERTON && r != R_WILLARD then Discard(w, r)
      else Go(w, R_CAR_SITE)
    else Refuse(w, r)
  }

  function Install(w: World, r: RoomId, arg: string): (out: Outcome)
    ensures Candid(w, r, out) && PicturesKept(w, out.world)
  {
    if SameWord("battery", arg) then
      if !w.AtHand(O_BATT_EMPTY, r) && !w.AtHand(O_BATT_FULL, r) then Discard(w, r)
      else if r != R_CAR_SITE || w.AtHand(O_BATT_EMPTY, r) then Discard(w, r)
      else Go(PhotoSwap(SetFlag(RemoveObject(w, O_BATT_FULL), CarFixed), r, SwapCar), r)
    else if SameWord("mimo", arg) || SameWord("card", arg) || SameWord("transmitter", arg) then
      if !w.AtHand(O_MIMO_CARD, r) || r != R_COCKPIT then Discard(w, r)
      else Redraw(RemoveObject(w, O_MIMO_CARD).(enter := w.enter[R_COCKPIT := R_OVER_WILL]), r)
    else Refuse(w, r)
  }

  function ToggleInventory(w: World, r: RoomId): Outcome {
    if r == R_INVENTORY then Outcome(w, w.Enter(R_INVENTORY), ChangeRoom)
    else Go(w.(enter := w.enter[R_INVENTORY := r]), R_INVENTORY)
  }

  function Sigh(w: World, r: RoomId): (out: Outcome)
    ensures SameLinks(w, out.world) && Candid(w, r, out) && PicturesKept(w, out.world)
  {
    Discard(if r == R_BY_ZAS then SetFlag(w, HasEaten) else w, r)
  }

  function Use(w: World, r: RoomId, arg: string, rnd: Rand): (out: Outcome)
    ensures SameLinks(w, out.world) && Candid(w, r, out) && PicturesKept(w, out.world)
  {
    if SameWord("car", arg) then
      if r != R_CAR_SITE || CarFixed in w.flags || CarOpen in w.flags || !w.Carried(O_CAR_KEY) then Discard(w, r)
      else Go(SetFlag(InsertObjectAt(RemoveObject(PhotoSwap(w, r, SwapCar), O_CAR_KEY), O_BATT_CAR, r, 265, 122), CarOpen), r)
    else if SameWord("fish", arg) then
      if !w.AtHand(O_FISH, r) || r != R_REM_LAB then Discard(w, r)
      else Redraw(SetFlag(MoveToInventory(RemoveObject(w, O_FISH), O_TUX, rnd), LuredTux), r)
    else Refuse(w, r)
  }

  function Wear(w: World, r: RoomId, arg: string): (out: Outcome)
    ensures SameLinks(w, out.world) && Candid(w, r, out) && PicturesKept(w, out.world)
  {
    if !SameWord("bunnysuit", arg) then Refuse(w, r)
    else if !w.AtHand(O_BUNNYSUIT, r) then Discard(w, r)
    else Redraw(SetFlag(RemoveObject(w, O_BUNNYSUIT), WearingSuit), r)
  }

  // ------------------------------------------------------------------ runs

  datatype Command =
    | GoLeft | GoEnter | GoRight
    | CmdBuy(arg: string) | CmdCharge(arg: string) | CmdDo(arg: string) | CmdDrink(arg: string)
    | CmdDrop(arg: string) | CmdFix(arg: string) | CmdFlash(arg: string) | CmdGet(arg: string)
    | CmdGo(arg: string) | CmdInstall(arg: string) | CmdInventory | CmdSigh | CmdUse(arg: string)
    | CmdWear(arg: string)

  /** One command given by a player who views room r. */
  function Perform(w: World, r: RoomId, c: Command, rnd: Rand): Outcome
    requires Standing(w, r).Some?
  {
    match c
    case GoLeft => MoveLeft(w, r, rnd)
    case GoEnter => Enter(w, r, rnd)
    case GoRight => MoveRight(w, r, rnd)
    case CmdBuy(arg) => Buy(w, r, arg, rnd)
    case CmdCharge(arg) => Charge(w, r, arg, rnd)
    case CmdDo(arg) => Do(w, r, arg)
    case CmdDrink(arg) => Drink(w, r, arg)
    case CmdDrop(arg) => Drop(w, r, arg, rnd)
    case CmdFix(arg) => Fix(w, r, arg, rnd)
    case CmdFlash(arg) => Flash(w, r, arg, rnd)
    case CmdGet(arg) => Get(w, r, arg, rnd)
    case CmdGo(arg) => GoTo(w, r, arg)
    case CmdInstall(arg) => Install(w, r, arg)
    case CmdInventory => ToggleInventory(w, r)
    case CmdSigh => Sigh(w, r)
    case CmdUse(arg) => Use(w, r, arg, rnd)
    case CmdWear(arg) => Wear(w, r, arg)
  }

  /** The world before any object is placed, with the given pictures. */
  function EmptyWorld(photos: map<RoomId, Bitmap>, swaps: map<SwapId, Bitmap>, images: map<ObjId, Bitmap>): World {
    World(map[], map[], map[], photos, swaps, {},
          map r: RoomId | LeftOf(r).Some? :: LeftOf(r).value,
          map r: RoomId | EnterOf(r).Some? :: EnterOf(r).value,
          map r: RoomId | RightOf(r).Some? :: RightOf(r).value,
          images)
  }

  function Place(w: World, o: ObjId, rnd: Rand): World {
    match StartRoom(o)
    case None => w
    case Some(r) =>
      match StartPos(o)
      case Some(p) => InsertObjectAt(w, o, r, p.0, p.1)
      case None => InsertObject(w, o, r, rnd)
  }

  /** The world after the first n objects of the table have been placed. */
  function PlaceFirst(w: World, n: nat, rnds: seq<Rand>): World
    requires n <= N_OBJECTS <= |rnds|
  {
    if n == 0 then w else Place(PlaceFirst(w, n - 1, rnds), n - 1, rnds[n - 1])
  }

  function InitialWorld(photos: map<RoomId, Bitmap>, swaps: map<SwapId, Bitmap>, images: map<ObjId, Bitmap>,
                        rnds: seq<Rand>): World
    requires |rnds| == N_OBJECTS
  {
    PlaceFirst(EmptyWorld(photos, swaps, images), N_OBJECTS, rnds)
  }
}
