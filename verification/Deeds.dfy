/** What the player can do, told by words, rooms, objects and accomplishments. */
module Deeds {
  import opened Options
  import opened Scene
  import opened WorldData
  import opened WorldState
  import opened Words

  /** Carried, or lying in the room that the player views. */
  predicate Here(w: World, r: RoomId, o: ObjId) {
    w.Loc(o) == Some(R_INVENTORY) || w.Loc(o) == Some(r)
  }

  // ------------------------------------------------------------------ deeds

  predicate Drinks(w: World, r: RoomId, c: Command) {
    c.CmdDrink? && Says(c.arg, "dew") && Here(w, r, O_MTN_DEW)
  }

  predicate Dresses(w: World, r: RoomId, c: Command) {
    c.CmdWear? && Says(c.arg, "bunnysuit") && Here(w, r, O_BUNNYSUIT)
  }

  predicate Charges(w: World, r: RoomId, c: Command) {
    && c.CmdCharge? && Says(c.arg, "battery") && r == R_BECK_MRI
    && Here(w, r, O_BATT_EMPTY) && !Here(w, r, O_BATT_FULL)
  }

  predicate WakesRobot(w: World, r: RoomId, c: Command) {
    && c.CmdFlash? && Says(c.arg, "robot") && r == R_IN_395LAB
    && Here(w, r, O_ROBOT_DEAD) && !Here(w, r, O_ROBOT_LIVE)
  }

  predicate RepairsGps(w: World, r: RoomId, c: Command) {
    && c.CmdFix? && Says(c.arg, "gps") && r == R_IN_CLEANR
    && Here(w, r, O_GPS_BAD) && Here(w, r, O_GPS_SPEC) && !Here(w, r, O_GPS_GOOD)
  }

  predicate RepairsCar(w: World, r: RoomId, c: Command) {
    && c.CmdInstall? && Says(c.arg, "battery") && r == R_CAR_SITE
    && Here(w, r, O_BATT_FULL) && !Here(w, r, O_BATT_EMPTY)
  }

  predicate SaysCard(arg: string) {
    Says(arg, "mimo") || Says(arg, "card") || Says(arg, "transmitter")
  }

  predicate EquipsPlane(w: World, r: RoomId, c: Command) {
    c.CmdInstall? && SaysCard(c.arg) && r == R_COCKPIT && Here(w, r, O_MIMO_CARD)
  }

  predicate OpensCar(w: World, r: RoomId, c: Command) {
    && c.CmdUse? && Says(c.arg, "car") && r == R_CAR_SITE
    && CarOpen !in w.flags && CarFixed !in w.flags && w.Loc(O_CAR_KEY) == Some(R_INVENTORY)
  }

  predicate LuresTux(w: World, r: RoomId, c: Command) {
    c.CmdUse? && Says(c.arg, "fish") && r == R_REM_LAB && Here(w, r, O_FISH)
  }

  predicate BuysDew(w: World, r: RoomId, c: Command) {
    c.CmdBuy? && Says(c.arg, "dew") && r == R_EVRT_VEND && !Here(w, r, O_MTN_DEW)
  }

  predicate Eats(w: World, r: RoomId, c: Command) {
    (c.CmdBuy? && Says(c.arg, "yogurt") && r == R_IN_COCOMR) || (c.CmdSigh? && r == R_BY_ZAS)
  }

  predicate Borrows(w: World, r: RoomId, c: Command, book: ObjId) {
    && c.CmdGet? && Says(c.arg, "book") && Standing(w, r) == Some(R_RESERVE) && w.Loc(book) == None
    && book == if HasEaten in w.flags then O_BOOK_C else O_BOOK_WODE
  }

  predicate TakesBattery(w: World, r: RoomId, c: Command) {
    c.CmdGet? && Standing(w, r) == Some(R_CAR_SITE) && w.Loc(O_BATT_CAR) == Some(R_CAR_SITE)
  }

  /** Something in the room is meant, and it is not Tux before he is lured. */
  ghost predicate PicksUp(w: World, r: RoomId, c: Command, o: ObjId) {
    && c.CmdGet? && Standing(w, r).Some? && FirstNamed(w.In(Standing(w, r).value), c.arg, o)
    && !Borrows(w, r, c, O_BOOK_C) && !Borrows(w, r, c, O_BOOK_WODE) && !TakesBattery(w, r, c)
    && (o == O_TUX ==> LuredTux in w.flags)
  }

  ghost predicate PutsDown(w: World, r: RoomId, c: Command, o: ObjId) {
    c.CmdDrop? && FirstNamed(w.In(R_INVENTORY), c.arg, o)
  }

  // ------------------------------------------------------------------ what comes of them

  /** The object leaves the world. */
  predicate Goes(w: World, r: RoomId, c: Command, o: ObjId) {
    || (o == O_MTN_DEW && Drinks(w, r, c))
    || (o == O_BUNNYSUIT && Dresses(w, r, c))
    || (o == O_BATT_EMPTY && Charges(w, r, c))
    || (o == O_ROBOT_DEAD && WakesRobot(w, r, c))
    || ((o == O_GPS_BAD || o == O_GPS_SPEC) && RepairsGps(w, r, c))
    || (o == O_BATT_FULL && RepairsCar(w, r, c))
    || (o == O_MIMO_CARD && EquipsPlane(w, r, c))
    || (o == O_CAR_KEY && OpensCar(w, r, c))
    || (o == O_BATT_CAR && TakesBattery(w, r, c))
    || (o == O_FISH && LuresTux(w, r, c))
  }

  /** The object comes into the backpack. */
  ghost predicate Comes(w: World, r: RoomId, c: Command, o: ObjId) {
    || (o == O_MTN_DEW && BuysDew(w, r, c))
    || (o == O_BATT_FULL && Charges(w, r, c))
    || (o == O_ROBOT_LIVE && WakesRobot(w, r, c))
    || (o == O_GPS_GOOD && RepairsGps(w, r, c))
    || (o == O_BATT_EMPTY && TakesBattery(w, r, c))
    || (o == O_TUX && LuresTux(w, r, c))
    || Borrows(w, r, c, o)
    || PicksUp(w, r, c, o)
  }

  /** The object comes into the room. */
  ghost predicate Lands(w: World, r: RoomId, c: Command, o: ObjId) {
    (o == O_BATT_CAR && OpensCar(w, r, c)) || PutsDown(w, r, c, o)
  }

  predicate Achieves(w: World, r: RoomId, c: Command, f: Flag) {
    match f
    case HasEaten => Eats(w, r, c)
    case WearingSuit => Dresses(w, r, c)
    case CarOpen => OpensCar(w, r, c)
    case CarFixed => RepairsCar(w, r, c)
    case LuredTux => LuresTux(w, r, c)
  }

  /** Objects go, come and are put down just so, and stay where they are otherwise. */
  ghost predicate Placed(w: World, r: RoomId, c: Command, w': World) {
    forall o: ObjId ::
      w'.Loc(o) == if Goes(w, r, c, o) then None
                   else if Comes(w, r, c, o) then Some(R_INVENTORY)
                   else if Lands(w, r, c, o) then Standing(w, r)
                   else w.Loc(o)
  }

  /** The place is in the room's photo, with room for the object if the photo is large enough. */
  predicate InPhoto(photo: Bitmap, image: Bitmap, x: nat, y: nat) {
    && (image.width <= photo.width ==> x + image.width <= photo.width)
    && (image.height <= photo.height ==> y + image.height <= photo.height)
  }

  /** What has neither come nor been put down keeps its place in the room; the battery of the car
      is shown under its hood, and what is put down lies in the photo. */
  ghost predicate LaidOut(w: World, r: RoomId, c: Command, w': World) {
    forall o: ObjId ::
      && (!Comes(w, r, c, o) && !Lands(w, r, c, o) ==> w'.Pos(o) == w.Pos(o))
      && (OpensCar(w, r, c) ==> w'.Pos(O_BATT_CAR) == (265, 122))
      && (PutsDown(w, r, c, o) && Standing(w, r).Some? ==>
            var photo := w.View(Standing(w, r).value);
            photo.width < 0x1_0000 && photo.height < 0x1_0000 ==> InPhoto(photo, w.Image(o), w'.Pos(o).0, w'.Pos(o).1))
  }

  ghost predicate Accomplished(w: World, r: RoomId, c: Command, w': World) {
    forall f: Flag :: f in w'.flags <==> f in w.flags || Achieves(w, r, c, f)
  }

  // ------------------------------------------------------------------ where the player goes

  /** The doors that open to whoever may pass. */
  predicate DoorOpens(w: World, r: RoomId, q: RoomId) {
    || (r == R_BY_CLEANR && q == R_IN_CLEANR && WearingSuit in w.flags)
    || (r == R_BY_395LAB && q == R_IN_395LAB && w.Loc(O_ICARD) == Some(R_INVENTORY))
    || (r == R_CSL_DOOR && q == R_CSL_LOBBY && w.Loc(O_ICARD) == Some(R_INVENTORY))
    || (r == R_BECK_DOOR && q == R_BECKLOBBY && w.Loc(O_ROBOT_LIVE) == Some(R_INVENTORY))
  }

  /** A link of the room leads there. */
  predicate WalksTo(w: World, r: RoomId, c: Command, q: RoomId) {
    || (c.GoLeft? && w.Left(r) == Some(q))
    || (c.GoRight? && w.Right(r) == Some(q))
    || (c.GoEnter? && w.Enter(r) == Some(q))
  }

  predicate DrivesTo(w: World, r: RoomId, c: Command, q: RoomId) {
    && c.CmdGo?
    && (|| (q == R_ALLERTON && Says(c.arg, "allerton") && (r == R_WILLARD || r == R_CAR_SITE)
            && CarFixed in w.flags && w.Loc(O_GPS_GOOD) == Some(R_INVENTORY))
        || (q == R_WILLARD && (Says(c.arg, "willard") || Says(c.arg, "airport")) && (r == R_ALLERTON || r == R_CAR_SITE)
            && CarFixed in w.flags)
        || (q == R_CAR_SITE && Says(c.arg, "campus") && (r == R_ALLERTON || r == R_WILLARD)))
  }

  predicate LooksTo(w: World, r: RoomId, c: Command, q: RoomId) {
    c.CmdInventory? && if r == R_INVENTORY then w.Enter(R_INVENTORY) == Some(q) else q == R_INVENTORY
  }

  predicate MovesTo(w: World, r: RoomId, c: Command, q: RoomId) {
    || WalksTo(w, r, c, q) || DrivesTo(w, r, c, q) || LooksTo(w, r, c, q)
    || (c.GoEnter? && w.Enter(r) == None && DoorOpens(w, r, q))
  }

  predicate Wins(w: World, r: RoomId, c: Command) {
    && c.CmdDo? && (Says(c.arg, "mp2") || Says(c.arg, "391")) && r == R_IN_391LAB
    && w.Loc(O_BOOK_C) == Some(R_INVENTORY) && w.Loc(O_MP2) == Some(R_INVENTORY) && w.Loc(O_TUX) == Some(R_IN_391LAB)
  }

  /** The player moves just so, or wins, and stays otherwise. */
  ghost predicate Led(w: World, r: RoomId, c: Command, where: Option<RoomId>) {
    && (where == None <==> Wins(w, r, c))
    && (forall q: RoomId :: MovesTo(w, r, c, q) ==> where == Some(q))
    && (where == None || where == Some(r) || MovesTo(w, r, c, where.value))
  }

  /** The ways between the rooms stay, but for the flight once the plane is equipped, and the way
      out of the backpack, which leads back to where the player looked into it. */
  ghost predicate Connected(w: World, r: RoomId, c: Command, w': World) {
    && (forall p: RoomId :: w'.Left(p) == w.Left(p) && w'.Right(p) == w.Right(p))
    && (forall p: RoomId :: w'.Enter(p) ==
          if p == R_COCKPIT && EquipsPlane(w, r, c) then Some(R_OVER_WILL)
          else if p == R_INVENTORY && c.CmdInventory? && r != R_INVENTORY then Some(r)
          else w.Enter(p))
  }

  /** The bridge changes its looks at the toss of a coin when the player walks to it, the car when
      it is opened or repaired: then photo and spare photo have changed places, and otherwise all stay. */
  ghost predicate Pictured(w: World, r: RoomId, c: Command, rnd: Rand, w': World) {
    var bridge, car := WalksTo(w, r, c, R_CIRCLE_N) && rnd.coin % 2 == 0, OpensCar(w, r, c) || RepairsCar(w, r, c);
    && w'.images == w.images
    && (forall p: RoomId :: w'.View(p) ==
          if p == R_CIRCLE_N && bridge then w.Swapped(SwapCircle)
          else if p == R_CAR_SITE && car then w.Swapped(SwapCar)
          else w.View(p))
    && w'.Swapped(SwapCircle) == (if bridge then w.View(R_CIRCLE_N) else w.Swapped(SwapCircle))
    && w'.Swapped(SwapCar) == (if car then w.View(R_CAR_SITE) else w.Swapped(SwapCar))
  }

  // ------------------------------------------------------------------ what the caller is told

  /** The command makes sense there, although nothing may come of it. */
  ghost predicate Understood(w: World, r: RoomId, c: Command) {
    match c
    case GoLeft => w.Left(r).Some?
    case GoRight => w.Right(r).Some?
    case GoEnter => w.Enter(r).Some? || exists q: RoomId :: DoorOpens(w, r, q)
    case CmdBuy(arg) => Says(arg, "dew") || Says(arg, "yogurt")
    case CmdCharge(arg) => Says(arg, "battery")
    case CmdDo(arg) => r == R_IN_391LAB && (Says(arg, "391") || Says(arg, "mp2"))
    case CmdDrink(arg) => Says(arg, "dew")
    case CmdDrop(arg) => exists o: ObjId :: PutsDown(w, r, c, o)
    case CmdFix(arg) => Says(arg, "gps")
    case CmdFlash(arg) => Says(arg, "robot")
    case CmdGet(arg) =>
      || TakesBattery(w, r, c) || Borrows(w, r, c, O_BOOK_C) || Borrows(w, r, c, O_BOOK_WODE)
      || (Standing(w, r).Some? && exists o: ObjId :: FirstNamed(w.In(Standing(w, r).value), arg, o))
    case CmdGo(arg) => Says(arg, "allerton") || Says(arg, "willard") || Says(arg, "airport") || Says(arg, "campus")
    case CmdInstall(arg) => Says(arg, "battery") || SaysCard(arg)
    case CmdInventory => true
    case CmdSigh => true
    case CmdUse(arg) => Says(arg, "car") || Says(arg, "fish")
    case CmdWear(arg) => Says(arg, "bunnysuit")
  }

  /** The room is to be entered: it is another one, or looks different. */
  ghost predicate Changes(w: World, r: RoomId, c: Command) {
    || Wins(w, r, c) || OpensCar(w, r, c) || RepairsCar(w, r, c) || RepairsGps(w, r, c)
    || c.CmdInventory? || exists q: RoomId :: MovesTo(w, r, c, q)
  }

  /** Some object has gone, come or been put down. */
  ghost predicate Moves(w: World, r: RoomId, c: Command) {
    exists o: ObjId :: Goes(w, r, c, o) || Comes(w, r, c, o) || Lands(w, r, c, o)
  }

  ghost predicate Reported(w: World, r: RoomId, c: Command, action: Action) {
    action == if !Understood(w, r, c) then AllowEdit
              else if Changes(w, r, c) then ChangeRoom
              else if Moves(w, r, c) then RedrawRoom
              else DiscardText
  }
}
