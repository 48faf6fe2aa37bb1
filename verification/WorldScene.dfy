/** What the rooms of a world look like, and what a command tells the display about it. */
module WorldScene {
  import opened Options
  import opened Geometry
  import opened Scene
  import opened WorldData
  import opened WorldState
  import opened WorldFacts
  import opened WorldInvariants
  import opened WorldRuns
  import opened Deeds
  import opened DeedsDone

  function SpriteOf(w: World, o: ObjId): Sprite {
    Sprite(w.Pos(o).0, w.Pos(o).1, w.Image(o))
  }

  /** The picture of a room: its photo and the objects of its list, in list order. */
  function SceneOf(w: World, r: RoomId): Scene {
    Scene(w.View(r), seq(|w.In(r)|, i requires 0 <= i < |w.In(r)| => SpriteOf(w, w.In(r)[i])))
  }

  lemma CommandsAreCandid(w: World, r: RoomId, c: Command, rnd: Rand)
    requires Standing(w, r).Some?
    ensures Candid(w, r, Perform(w, r, c, rnd))
  {
  }

  lemma FlagsAreInvisible(w: World, flags: set<Flag>, r: RoomId)
    ensures SceneOf(w.(flags := flags), r) == SceneOf(w, r)
  {
    var w' := w.(flags := flags);
    assert w'.In(r) == w.In(r);
    assert forall o: ObjId :: SpriteOf(w', o) == SpriteOf(w, o);
  }

  /** So the picture of the viewed room is not out of date after a command that does not
      ask for it to be drawn. */
  lemma NoStalePicture(w: World, r: RoomId, c: Command, rnd: Rand)
    requires Standing(w, r).Some?
    ensures var out := Perform(w, r, c, rnd);
            out.action == AllowEdit || out.action == DiscardText ==>
              out.where == Some(r) && SceneOf(out.world, r) == SceneOf(w, r)
  {
    CommandsAreCandid(w, r, c, rnd);
    FlagsAreInvisible(w, Perform(w, r, c, rnd).world.flags, r);
  }

  /** Unless a command asks for a room to be entered, the viewed room stays, and so does its
      photo; and unless it asks for drawing, the whole picture does. */
  lemma PictureAfter(w: World, r: RoomId, c: Command, rnd: Rand)
    requires Standing(w, r).Some?
    ensures var out := Perform(w, r, c, rnd);
            out.action != ChangeRoom ==>
              && out.where == Some(r) && SceneOf(out.world, r).photo == SceneOf(w, r).photo
              && (out.action != RedrawRoom ==> SceneOf(out.world, r) == SceneOf(w, r))
  {
    CommandsAreCandid(w, r, c, rnd);
    NoStalePicture(w, r, c, rnd);
  }

  /** A photo that fills the view window. */
  ghost predicate FillsWindow(b: Bitmap) {
    b.Valid() && SCROLL_X_DIM <= b.width && SCROLL_Y_DIM <= b.height
  }

  /** All pictures are sound, and all photos large enough. */
  ghost predicate PicturesFit(w: World) {
    && (forall r: RoomId :: FillsWindow(w.View(r)))
    && (forall s :: FillsWindow(w.Swapped(s)))
    && (forall o: ObjId :: w.Image(o).Valid())
  }

  lemma PicturesStayFit(w: World, w': World)
    requires PicturesFit(w) && PicturesKept(w, w')
    ensures PicturesFit(w')
  {
    forall r: RoomId
      ensures FillsWindow(w'.View(r))
    {
      assert FillsWindow(w.View(r)) && FillsWindow(w.Swapped(SwapCircle)) && FillsWindow(w.Swapped(SwapCar));
    }
    forall s
      ensures FillsWindow(w'.Swapped(s))
    {
      assert FillsWindow(w.Swapped(s)) && FillsWindow(w.View(R_CIRCLE_N)) && FillsWindow(w.View(R_CAR_SITE));
    }
    forall o: ObjId
      ensures w'.Image(o).Valid()
    {
      assert w.Image(o).Valid() && w'.Image(o) == w.Image(o);
    }
  }

  lemma FitPicturesMakeScenes(w: World, r: RoomId)
    requires PicturesFit(w)
    ensures SceneOf(w, r).Valid() && FillsWindow(SceneOf(w, r).photo)
  {
    assert FillsWindow(w.View(r));
    forall k | 0 <= k < |SceneOf(w, r).sprites|
      ensures SceneOf(w, r).sprites[k].image.Valid()
    {
      assert w.Image(w.In(r)[k]).Valid();
    }
  }

  lemma PerformKeepsPictures(w: World, r: RoomId, c: Command, rnd: Rand)
    requires Standing(w, r).Some?
    ensures PicturesKept(w, Perform(w, r, c, rnd).world)
  {
  }

  /** Things that make the player faster. */
  predicate IsGear(o: ObjId) {
    o == O_BOARD || o == O_JETPACK
  }

  /** Gear comes into the backpack only by "get" and leaves it only by "drop". */
  lemma GearMovesByGetAndDrop(w: World, r: RoomId, c: Command, rnd: Rand, o: ObjId)
    requires Standing(w, r).Some? && Standing(w, r) != Some(R_INVENTORY) && IsGear(o)
    ensures var w' := Perform(w, r, c, rnd).world;
            && (w.Carried(o) && !c.CmdDrop? ==> w'.Carried(o))
            && (w'.Carried(o) && !c.CmdGet? ==> w.Carried(o))
  {
    PerformPlaces(w, r, c, rnd);
    GearIsNotUsedUp(w, r, c, o);
  }

  lemma GearIsNotUsedUp(w: World, r: RoomId, c: Command, o: ObjId)
    requires IsGear(o)
    ensures !Goes(w, r, c, o) && (Comes(w, r, c, o) ==> c.CmdGet?) && (Lands(w, r, c, o) ==> c.CmdDrop?)
  {
  }

  // ------------------------------------------------------------------ worlds in play

  /** A world of the game, with pictures that can be shown. */
  ghost predicate InPlay(w: World, where: Option<RoomId>, closed: Bitmap, open: Bitmap) {
    forall v: World :: Same(v, w) ==> PicturesFit(v) && Inv(v, where, closed, open)
  }

  lemma InPlayMeans(w: World, where: Option<RoomId>, closed: Bitmap, open: Bitmap)
    ensures InPlay(w, where, closed, open) <==> PicturesFit(w) && Inv(w, where, closed, open)
  {
    assert Same(w, w);
  }

  lemma StartIsInPlay(s: Setup)
    requires s.Valid() && PicturesFit(s.Start())
    ensures InPlay(s.Start(), Some(START_ROOM), s.photos[R_CAR_SITE], s.swaps[SwapCar])
  {
    StartIsSound(s);
  }

  /** The player can always act, and goes on playing until the game is won. */
  lemma InPlayStays(w: World, r: RoomId, c: Command, rnd: Rand, closed: Bitmap, open: Bitmap)
    requires InPlay(w, Some(r), closed, open)
    ensures Standing(w, r).Some? && Standing(w, r) != Some(R_INVENTORY)
    ensures var out := Perform(w, r, c, rnd); InPlay(out.world, out.where, closed, open)
  {
    InPlayMeans(w, Some(r), closed, open);
    PerformKeeps(w, r, c, rnd, closed, open);
    PerformKeepsPictures(w, r, c, rnd);
    var out := Perform(w, r, c, rnd);
    PicturesStayFit(w, out.world);
    InPlayMeans(out.world, out.where, closed, open);
  }

  lemma InPlayCanAct(w: World, r: RoomId, closed: Bitmap, open: Bitmap)
    requires InPlay(w, Some(r), closed, open)
    ensures Standing(w, r).Some?
  {
    InPlayMeans(w, Some(r), closed, open);
  }

  lemma InPlayScene(w: World, where: Option<RoomId>, closed: Bitmap, open: Bitmap, r: RoomId)
    requires InPlay(w, where, closed, open)
    ensures SceneOf(w, r).Valid() && FillsWindow(SceneOf(w, r).photo)
  {
    InPlayMeans(w, where, closed, open);
    FitPicturesMakeScenes(w, r);
  }
}
