# MP2 adventure and MP1 missile command, modelled and proved in Dafny

This project models the hard parts of a small game repository written in C and assembly:

* **The adventure's display** (`Geometry`, `Scene`, `Appearance`, `PhotoLines`, `Modex`, `Viewing`). A build buffer of
  four interleaved planes follows the view window. Scrolling redraws only the lines that come into view, and relocates
  the buffer with an overlapping copy when the window leaves it. The independent reference is `Scene.Composite`: the
  room photo painted over by its objects; `Appearance` tells its bytes by positions and image bytes alone.
* **The adventure's world** (`WorldData`, `WorldState`, `WorldTables`, `WorldHeap`, `PlayerFlags`, `Backpack`). Class
  `GameWorld` holds the tables of rooms and objects, whose lists are linked through `next` fields; each of its methods
  is proved against a function on abstract worlds. `Words`, `Deeds`, `Shifts` and `DeedsDone` tell in one law, by words,
  rooms and objects, all that a command does. `Passages` checks the room tables. `WorldFacts`, `WorldInvariants`,
  `WorldRuns` and `WorldScene` prove what every run keeps, and `Twinned` and `Chance` that its commands alone decide it.
* **Winning it.** `Itinerary` and `Walkthrough` lead through a run that wins. `Areas` divides the rooms by the doors
  between them, and `Prospects` computes from a state all objects that can still be got hold of. `Likeness`, `Losses`
  and `LostWins` prove that no command makes them more; `Ventures`, `Measures`, `Progress` and `WaysToWin` that all of
  them can be got, so that a win is within reach exactly if all it takes is among them; `DeadEnds` says so of runs, and
  gives one that has lost it. `TidyRuns` says when the backpack stays in order; `Hoarding` and `Overflowing` give a run
  in which it does not.
* **The game loop** (`Keyboard`, `Verbs`, `Orders`, `Sessions`, `Steering`, `Speech`, `Keystrokes`, `Adventure`,
  `Ticks`). `Sessions` describes a whole session in its simplest form, in which every picture is composed afresh; class
  `Game` is proved to come to the same end, and its display to go through screens with just those pictures:
  `ModeX.shown` logs what video memory displays each time a page is shown. `Speech` and `Keystrokes` type commands on
  the keyboard, so that every run of the world is a session.
* **The colour quantiser** (`Colours`, `Tallies`, `Quantiser`).
* **The Tux controller's line discipline** (`TuxPackets`, `TuxLdisc`).
* **The missile list of MP1** (`MissileField`, `MissileTurns`, `MissileGuards`, `MissileFlight`, `MissileChain`,
  `MissileList`).

Run `dafny verify dfyconfig.toml` to check all of it.

Conventions: a pointer that may be NULL is an `Option` or, for missiles, the address 0; random numbers, the contents of
image files, the order in which `qsort` leaves its elements, the bytes that arrive in a tick and the clock are parameters.
Rooms and objects are numbers with the names of the C enumerations. A few predicates are stated "for all values that are the
same as the one given" (`Options.Same`), which means the same and keeps proofs short.

## Findings

Where the code does not do what is expected of it, the model follows the code, and the exact condition is proved:

* An arrow key or a key for moving between rooms is recognised if and only if no other key has been begun; right after a
  lone escape its last letter is typed (`Keyboard.ArrowKeyRecognised`, `Keyboard.RoomKeyRecognised`), although the
  comment says that a discarded escape does no harm. Failing input: `Keyboard.EscapeSpoilsArrow`.
* A missile has no turn in a tick if and only if the one in front of it is taken off the list in that tick
  (`MissileTurns.MissesTurn`). Told before the tick: all have their turn if and only if each missile but the last that
  burns out or fails the off-screen test is hit by an explosion in front of it (`MissileGuards.NobodyMissesTurn`).
  Failing input: `MissileTurns.SecondMissesTurn`.
* The off-screen test of MP1 compares raw fixed-point coordinates with the bounds of the right and lower edges, with the
  sense reversed. `MissileTurns.GoneExactly` says for which positions it is right, `MissileTurns.TestedInTick` which
  missiles a tick wrongly takes off or leaves. Failing inputs of both kinds: `MissileTurns.GoneFails`.
* `write_wakeup` takes up to one byte more than the driver has room for: it takes no more if and only if all that is
  queued fits (`TuxLdisc.LineDiscipline.WriteWakeup`). Failing input: `TuxLdisc.HandedOverFits`.
* `rcv_buf` reads at most 12 bytes in one call; a complete packet stays in the ring until more bytes arrive if and only
  if it ends behind the first twelve bytes at hand (`TuxLdisc.LineDiscipline.RcvBuf`). Failing input:
  `TuxLdisc.DozenIsSafe`.
* A tick time is kept with 1000000 microseconds exactly if it is a whole number of seconds, and this happens if and only
  if the game starts on a multiple of the tick length (`Ticks.FullMillionAt`, `Ticks.FullMillionOccurs`); comparisons
  with the clock are right all the same (`Ticks.TimeIsAfter`).
* The random fallback for a full backpack breaks its grid: this stays in order throughout a run if and only if never
  more than twelve objects are carried (`TidyRuns.TidyThroughout`). Failing input: `Overflowing.BackpackCanOverflow`, a
  run that collects thirteen.
* A win does not stay within reach. It is so in a state if and only if the book, the assignment and Tux are among the
  objects that can still be got hold of (`Prospects.CanStillWin`), which are computed from the state by opening areas
  and making objects from others (`WaysToWin.WinIsWithinReach`, `DeadEnds.RunsCanBeForced`). Failing input:
  `DeadEnds.AdventureCanBeLost`, a run that leaves the card behind its own door.

## Model

The first rows are the main results; the others follow in the order of the modules.

| member | source | states |
|---|---|---|
| `Adventure.PlayGame` | mp2/adventure.c:789-841 | From key bytes to video memory: a whole game has the outcome of the simple model `Sessions.Run`; every screen in the log of its display, which grows only as pages are shown, is the composed picture that `Sessions.Pictures` gives, the last one is still displayed, and if the game is won the world has all five accomplishments |
| `Adventure.Game.GameLoop` | mp2/adventure.c:213-370 | For any ticks, the loop ends in the state and with the result of the simple model; each screen that the display has gone through in the meantime is, pixel by pixel, the room photo painted over by its objects, although only exposed lines were redrawn; and the last of them is what video memory displays |
| `WaysToWin.WinIsWithinReach` | mp2/world.c:1039-1914 | From any state that satisfies the invariant, some commands win if and only if book, assignment and Tux are in the least set of objects closed under what can still be got hold of: carried, lying in the own area or one that keys and flags open, or made from such objects |
| `DeadEnds.RunsCanBeForced` | mp2/world.c:1039-1914 | After every run not yet won there are commands that win whatever random numbers they draw, if and only if the state it has led to has all that a win takes within reach |
| `Chance.CommandsDecide` | mp2/world.c:540-609 | The outcome of a run is decided by its commands alone: with any other pictures and random numbers the player comes to the same room or wins as well, and all lists, locations, accomplishments and links are the same |
| `WorldRuns.WinsAreEarned` | mp2/world.c:1324-1348 | Whoever wins has all five accomplishments, has used up what they need and has the car repaired, although the program looks only for book, assignment and Tux |
| `Walkthrough.AdventureCanBeWon` | mp2/world.c:1316-1349 | There is one list of commands, all of which can be typed, that wins the adventure for all pictures and whatever random numbers each command draws: so what is proved of wins is not empty |
| `Keystrokes.RunsAreSessions` | mp2/adventure.c:213-370 | Conversely to `Sessions.SessionIsRun`: any run of commands that can be typed is a session, which reaches the same world and room, and is won if and only if the run is |
| `DeedsDone.CommandsDoNoMore` | mp2/world.c:1039-1914 | For every command, object and flag: the object leaves the world, comes into the backpack or lands in the room, and the flag is set, if and only if the command does one of the deeds that are told by its words, the room, what is at hand and the flags before; otherwise all stays |
| `Appearance.ObjectIsSeen` | mp2/photo.c:130-164 | Told by positions and bytes: where an object has a byte other than 0x40 in column i and row j of its image, and no object behind it in the list has one at the same place, the picture of the room has that byte at the place of the object plus (i, j) |
| `Viewing.Viewer.MovePhotoLeft` | mp2/adventure.c:558-577 | The window moves right by the speed but not past the edge of the photo, and the build buffer, of which only the columns that have come into view were drawn, still agrees with the picture on all of the window |
| `Modex.ModeX.SetViewWindow` | mp2/modex.c:407-503 | For every old and new window, each pixel visible in both keeps its value, at its new address if the buffer was relocated; the window fits the buffer again and the fences stay intact |
| `PhotoLines.Painter.FillHorizBuffer` | mp2/photo.c:105-165 | buf[i] is the composed pixel (x+i, y), for any list of objects, with clipping and transparency; `Appearance.ObjectIsSeen` and `Appearance.PhotoIsSeen` tell which byte that is |
| `PhotoLines.Painter.FillVertBuffer` | mp2/photo.c:183-243 | buf[j] is the composed pixel (x, y+j): both renderers agree with one picture |
| `Modex.ModeX.ShowScreen` | mp2/modex.c:515-548 | Every displayed pixel is the window's pixel, in the page that was not displayed before; the other page is untouched; the log grows by what is displayed |
| `WorldScene.NoStalePicture` | mp2/world.c:1039-1914 | A command whose result asks for no drawing has changed nothing that is to be seen in the viewed room, nor the room itself |
| `WorldRuns.EveryRunIsSound` | mp2/world.c:1039-1914 | Every state that any commands lead to, with any random numbers, satisfies the invariant of accomplishments, objects, links and pictures |
| `WorldRuns.PairedObjectsConserved` | mp2/world.c:1692-1714 | In every reachable state one battery is located exactly while the car is open and not fixed, the hood is up in the picture exactly then, and of each pair of objects exactly one is located |
| `TidyRuns.TidyThroughout` | mp2/world.c:581-609 | In any run, all objects in the backpack keep to the grid, each in a place of its own, if and only if never more than twelve are carried |
| `Sessions.WonSessionsAreEarned` | mp2/adventure.c:365-367 | Whatever bytes arrive in whatever ticks, a session that is won has set all five flags |
| `Quantiser.ColourTable.Quantise` | mp2/photo.c:478-537 | Each pixel gets value 64 + its colour's number, each colour is the mean of exactly the pixels drawn with it, and each large cell is left with exactly its pixels whose small cell was not chosen |
| `Quantiser.ChosenColourIsNear` | mp2/photo.c:648-730 | Every pixel's colour differs from its own by at most 1/3/1 if its small cell was chosen, else by at most 7/15/7 |
| `TuxLdisc.LineDiscipline.RcvBuf` | mp2/module/tuxctl-ld.c:160-185 | Accepted bytes are those that fit; of all received, exactly a prefix has been taken out; all complete packets in the bytes that the callback has read have been handed up, in order, and at most two of these are saved. A complete packet is left waiting if and only if one among the bytes saved, those in the ring and those accepted ends behind the first twelve |
| `MissileList.MissileGame.UpdateMissiles` | mp1/mp1.S:172-381 | One tick: the linked list is that of the specification, and exactly the missiles gone from it are freed, each once |
| `MissileTurns.MissesTurn` | mp1/mp1.S:370-378 | In a tick a missile misses its turn if and only if the tick takes the one in front of it off the list; the first never does |
| `MissileGuards.NobodyMissesTurn` | mp1/mp1.S:172-381 | Read off the field before the tick: all missiles have their turn if and only if each of them but the last that burns out or fails the off-screen test is hit by an explosion in front of it |
| `MissileTurns.TestedInTick` | mp1/mp1.S:172-381 | Of the missiles not exploded a tick takes off just those that have their turn unstruck and fail the test: so it wrongly takes off those in the strip, wrongly leaves those beyond, and is right about the others |
| `MissileField.EnemiesScoreOnce` | mp1/mp1-given.c:51-68 | Over any game, the score grows by at most one for each enemy that was there or came, less those still alive |
| `MissileFlight.FreeFlight` | mp1/mp1.S:350-353 | A missile alone on the list, that on its way neither fails the off-screen test nor arrives, is after n ticks at x + n * vx, y + n * vy in 32 bits, and nothing else has changed |
| `TuxPackets.PacketsRoundTrip` | mp2/module/tuxctl-ld.c:303-313 | Packets of a byte below 128 and two that are not, laid end to end behind any bytes that are not, are read as just these packets |
| `Quantiser.FlatPhotoIsExact` | mp2/photo.c:478-537 | A photo of one colour is drawn and shown in just this colour |
| `Steering.ArrowsSteer` | mp2/adventure.c:332-336 | From the bytes of an arrow key to the window: it moves by 2 pixels, or by 6 with the gear for that direction, within a photo of which it shows 320 by 182, and nothing else happens |
| `Orders.LineOrders` | mp2/adventure.c:392-413 | A line of a word and an argument, with spaces anywhere before them, is parsed as a command if and only if the word, spelled out, is one of those for it |
| `Keyboard.PiecesMakeNoDifference` | mp2/input.c:321-402 | The line is the same however the input is split over readings |
| `Verbs.MatchIsUnambiguous` | mp2/adventure.c:116-133 | No word matches two entries of different commands |
| `Ticks.Clock.Advance` | mp2/adventure.c:310-318 | The catch-up loop ends at the first tick strictly after the current time, a whole number of ticks after the start |
| `Adventure.Game.DoTick` | mp2/adventure.c:239-369 | One round: one more screen has been displayed, the picture of the state before the round, and it still is at its end; the new state is that of the simple model after one tick |
| `Adventure.Game.Dispatch` | mp2/adventure.c:332-359 | Each input command changes the whole game state as the simple model says, and leaves a build buffer that agrees with the room unless the room is to be entered |
| `Adventure.Game.Command` | mp2/adventure.c:418-487 | A command never leaves a stale picture: afterwards the build buffer holds the picture of the room, or the room is to be entered anew; the typed line is kept or dropped as the result asks |
| `Adventure.Game.HandleTyping` | mp2/adventure.c:381-493 | A typed line does what the command parsed from it does, and nothing if there is none |
| `Adventure.Game.EnterRoom` | mp2/adventure.c:248-266 | Entering a room resets the window to (0,0), drops the typed line and leaves the whole window drawn |
| `Adventure.Game.ShowFrame` | mp2/adventure.c:248-268 | What video memory displays is the composed picture of the room the player is in, at the window position, and the log of the display has grown by it |
| `Adventure.Game.AdjustSpeeds` | mp2/adventure.c:432-456 | The scroll speeds are always three times as large with the board and the jetpack as without, in x and y respectively |
| `Adventure.Game.Refresh` | mp2/adventure.c:477-487 | A build buffer that holds the picture from before a command holds the one after it, if it is redrawn whenever the command asks for it |
| `Sessions.SessionIsRun` | mp2/adventure.c:239-369 | Every session is a run of the world's commands, with no more of them than ticks; its window never leaves the photo, and it is won exactly if the player's room becomes NULL |
| `Sessions.TickKeeps` | mp2/adventure.c:332-359 | One tick keeps the window inside the photo of the player's room and extends the run by at most one command, at its end |
| `Viewing.Viewer.MovePhotoDown` | mp2/adventure.c:527-545 | The window moves up by the speed but not past the edge, and the build buffer still agrees with the picture on all of the window |
| `Viewing.Viewer.MovePhotoUp` | mp2/adventure.c:621-640 | The same for the lower edge of the photo |
| `Viewing.Viewer.MovePhotoRight` | mp2/adventure.c:590-608 | The same for the left edge of the photo |
| `Viewing.Viewer.RedrawRoom` | mp2/adventure.c:651-660 | After it the whole window in the build buffer is the room's picture, whatever was there before |
| `Viewing.Viewer.EnterRoom` | mp2/adventure.c:248-266 | From any window and any buffer contents, the new room is completely drawn at (0,0) |
| `Viewing.Viewer.Show` | mp2/modex.c:515-548 | If the build buffer agrees with the picture, so does every displayed pixel, and the log of the display grows by that screen |
| `Viewing.Viewer.Scroll` | mp2/adventure.c:332-336 | Each direction key moves the window its own way, clamped to the photo, and keeps the buffer in agreement |
| `Steering.ScreenShows` | mp2/adventure.c:248-268 | Pixel (sx, sy) of the screen is that of the room's picture at the window plus (sx, sy) |
| `Steering.PictureOfTick` | mp2/adventure.c:213-370 | The k-th picture of a session is the view of what the k ticks before it have led to, and there are no more pictures than ticks |
| `Steering.QuitsExactly` | mp2/input.c:254-333 | The game is quit by a backquote or a new press of Start alone, and by nothing else |
| `Steering.LineIsErased` | mp2/adventure.c:455-487 | The typed line stays exactly if its command is not understood |
| `Modex.ModeX.constructor` | mp2/modex.c:308-320 | The initial window, offsets and fences make a valid build buffer |
| `Modex.ModeX.KeepShared` | mp2/modex.c:432-502 | The relocation itself: the stretch that holds the shared pixels is moved as a whole to its place in the new layout |
| `Modex.ModeX.CopyBytes` | mp2/modex.c:491-502 | The copy in the chosen direction equals a simultaneous one, however source and target overlap, and touches nothing else |
| `Modex.ModeX.SharedSpan` | mp2/modex.c:443-470 | The computed start and length are those of the stretch between the first and the last shared pixel |
| `Modex.ModeX.DrawVertLine` | mp2/modex.c:614-649 | Column x of the window becomes that of the room's picture; all other pixels of the window and the fences stay; an x outside the window is refused |
| `Modex.ModeX.DrawHorizLine` | mp2/modex.c:665-701 | Row y of the window becomes that of the room's picture; all other pixels of the window and the fences stay; a y outside the window is refused |
| `Modex.ModeX.PlaneBytesArePixels` | mp2/modex.c:521-541 | The byte that is copied for a screen pixel is the byte at which that pixel was drawn |
| `Modex.ModeX.VideoBytesArePixels` | mp2/modex.c:515-548 | Told by bytes: byte k of plane p of the displayed image, which begins at 0x05A0 or 0x45A0, is the window's pixel in column 4 * (k % 80) + p and row k / 80 |
| `Modex.TargetsApart` | mp2/modex.c:523-527 | The two pages never overlap, and swapping them twice is no change |
| `Geometry.PixelsDoNotCollide` | mp2/modex.c:55-75 | Plane addressing is injective on any window, also if its left edge is no multiple of 4 |
| `Geometry.FitsCoversWindow` | mp2/modex.c:431-435 | The test that set_view_window makes guarantees that every pixel of the window has its byte in the buffer |
| `Geometry.ShownWhereStored` | mp2/modex.c:521-541 | The plane and shift that show_screen computes are those of the address map |
| `Geometry.SharedPixelInSpan` | mp2/modex.c:443-470 | Every pixel that two windows share lies in the stretch that is moved |
| `PhotoLines.PaintHoriz` | mp2/photo.c:132-164 | One object painted over a row, clipped at both ends and at top and bottom |
| `PhotoLines.PaintVert` | mp2/photo.c:210-242 | One object painted over a column |
| `Scene.LastCoveringSpriteWins` | mp2/photo.c:132-164 | Of all objects that cover a pixel opaquely, the last one of the list is seen |
| `Scene.PhotoShowsThrough` | mp2/photo.c:120-130 | Where no object covers, the photo is seen, or 0 outside of it |
| `Appearance.PhotoIsSeen` | mp2/photo.c:120-130 | Where no object has one, the picture has the photo's byte at width * y + x |
| `Appearance.BeyondThePhoto` | mp2/photo.c:120-130 | Beyond the edges of the photo it has 0 there |
| `WorldHeap.GameWorld.constructor` | mp2/world.c:864-982 | The tables built and the objects placed represent the initial world |
| `WorldHeap.GameWorld.Unlink` | mp2/world.c:698-707 | The pointer walk removes just the object from just the list that it is on |
| `WorldHeap.GameWorld.RemoveObject` | mp2/world.c:693-713 | Refines taking the object out of its list and location; an object in limbo stays there |
| `WorldHeap.GameWorld.InsertObjectAt` | mp2/world.c:512-526 | Refines moving the object to the front of the room's list, with its position cut to 16 bits |
| `WorldHeap.GameWorld.InsertObject` | mp2/world.c:540-568 | Refines insertion at the random place computed from the sizes |
| `WorldHeap.GameWorld.MoveObjectToInventory` | mp2/world.c:581-609 | Refines placement in the first free place of the grid, or else at random |
| `WorldHeap.GameWorld.FindInRoom` | mp2/world.c:480-496 | Finds the first object of the list with that name, regardless of case |
| `WorldHeap.GameWorld.DoPhotoSwap` | mp2/world.c:458-467 | Exchanges the room's photo with the spare one |
| `WorldHeap.GameWorld.PlayerSetFlag` | mp2/world.c:677-681 | Sets one accomplishment and no other |
| `WorldHeap.GameWorld.ObjSpecialGet` | mp2/world.c:623-650 | Hands out the book that is due, or takes the battery out of the car |
| `WorldHeap.GameWorld.TryToMoveLeft` | mp2/world.c:1039-1066 | The linked records after it represent the abstract world after a move to the left, with the doors and conditions of the room; room and result are the abstract ones |
| `WorldHeap.GameWorld.TryToEnter` | mp2/world.c:1077-1163 | The linked records after it represent the abstract world after entering, with its locked doors; room and result are the abstract ones |
| `WorldHeap.GameWorld.TryToMoveRight` | mp2/world.c:1174-1201 | The linked records after it represent the abstract world after a move to the right; room and result are the abstract ones |
| `WorldHeap.GameWorld.TypedCmdBuy` | mp2/world.c:1215-1259 | The linked records after it represent the abstract world after buy; room and result are the abstract ones |
| `WorldHeap.GameWorld.TypedCmdCharge` | mp2/world.c:1271-1304 | The linked records after it represent the abstract world after charge; room and result are the abstract ones |
| `WorldHeap.GameWorld.TypedCmdDo` | mp2/world.c:1316-1349 | The linked records after it represent the abstract world after do, which alone can win; room and result are the abstract ones |
| `WorldHeap.GameWorld.TypedCmdDrink` | mp2/world.c:1362-1384 | The linked records after it represent the abstract world after drink; room and result are the abstract ones |
| `WorldHeap.GameWorld.TypedCmdDrop` | mp2/world.c:1398-1433 | The linked records after it represent the abstract world after drop; room and result are the abstract ones |
| `WorldHeap.GameWorld.TypedCmdFix` | mp2/world.c:1446-1483 | The linked records after it represent the abstract world after fix; room and result are the abstract ones |
| `WorldHeap.GameWorld.TypedCmdFlash` | mp2/world.c:1496-1529 | The linked records after it represent the abstract world after flash; room and result are the abstract ones |
| `WorldHeap.GameWorld.TypedCmdGet` | mp2/world.c:1542-1576 | The linked records after it represent the abstract world after get; room and result are the abstract ones |
| `WorldHeap.GameWorld.TypedCmdGo` | mp2/world.c:1589-1670 | The linked records after it represent the abstract world after go; room and result are the abstract ones |
| `WorldHeap.GameWorld.TypedCmdInstall` | mp2/world.c:1683-1737 | The linked records after it represent the abstract world after install; room and result are the abstract ones |
| `WorldHeap.GameWorld.TypedCmdInventory` | mp2/world.c:1757-1774 | The linked records after it represent the abstract world after inventory; room and result are the abstract ones |
| `WorldHeap.GameWorld.TypedCmdSigh` | mp2/world.c:1789-1803 | The linked records after it represent the abstract world after sigh; room and result are the abstract ones |
| `WorldHeap.GameWorld.TypedCmdUse` | mp2/world.c:1816-1879 | The linked records after it represent the abstract world after use; room and result are the abstract ones |
| `WorldHeap.GameWorld.TypedCmdWear` | mp2/world.c:1892-1914 | The linked records after it represent the abstract world after wear; room and result are the abstract ones |
| `WorldState.RemoveObjectWellFormed` | mp2/world.c:693-713 | Removal keeps: each object is on the list of room r, once, exactly if its location is r |
| `DeedsDone.PerformIsTold` | mp2/world.c:1039-1914 | So are the room the player comes to, the links, the photos, where things lie, and what the caller is to do about the display |
| `Words.FoundExactly` | mp2/world.c:480-496 | The object found is the first of the list whose name, spelled out, the word is, in letters of either case |
| `Words.NamesExactly` | mp2/world.c:383-404 | The names of the objects, spelled out |
| `WorldRuns.StartInFull` | mp2/world.c:383-404 | Where each object is when the game starts |
| `WorldRuns.StartPlaces` | mp2/world.c:942-950 | The places of those that are not put at random |
| `Passages.LeftLeadsBack` | mp2/world.c:224-362 | Left and right undo each other, but for these pairs of rooms |
| `Passages.RightLeadsBack` | mp2/world.c:224-362 | And the other way round, but for these |
| `Passages.EnteringLeadsBack` | mp2/world.c:224-362 | Entering twice leads back, but for these |
| `WorldState.InsertObjectAtWellFormed` | mp2/world.c:512-526 | So does insertion |
| `WorldState.RandomSpotIsInside` | mp2/world.c:540-568 | A random place is inside the photo whenever the object fits, and in its lowest quarter if it fits there with room to spare |
| `Backpack.RandomSpotsAre` | mp2/world.c:540-568 | The places that some random numbers lead to are just those in the band of the photo told by the sizes |
| `Backpack.PlaceIsStored` | mp2/world.c:512-526 | A place of two 16-bit coordinates is stored as it is |
| `Backpack.GridIsThreeByFour` | mp2/world.c:590-604 | The grid of the backpack has places 100 pixels apart in three columns and 50 apart in four rows |
| `WorldState.FreeSlotIsFirst` | mp2/world.c:590-604 | The place found is free and all places before it are taken |
| `Backpack.FullBackpackHoldsTwelve` | mp2/world.c:590-608 | The random fallback is reached only if at least twelve objects are carried |
| `Backpack.BackpackStaysTidy` | mp2/world.c:581-609 | While fewer than twelve are carried, a new object gets the first free place, and no two objects ever share one |
| `Overflowing.BackpackCanOverflow` | mp2/world.c:581-609 | A failing input: one list of commands after which thirteen objects are carried, more than the grid has places for, for all pictures and random numbers |
| `Hoarding.WayOfHoarder` | mp2/world.c:224-402 | A way on which all thirteen are collected |
| `TidyRuns.PerformTidy` | mp2/world.c:1039-1914 | Every command leaves a tidy backpack tidy exactly if it does not bring a thirteenth object |
| `TidyRuns.TidyIsFew` | mp2/world.c:590-604 | No more than twelve objects can be tidy |
| `WorldInvariants.PerformWellFormed` | mp2/world.c:1039-1914 | Every command keeps lists and locations in step |
| `WorldInvariants.PerformFacts` | mp2/world.c:1039-1914 | Every command keeps what accomplishments, objects and guarded rooms say of each other |
| `WorldInvariants.PerformKeeps` | mp2/world.c:1039-1914 | The whole invariant is inductive over all commands |
| `WorldInvariants.SafeLinksKeepGuards` | mp2/world.c:1324-1348 | Following such a link, or the way that the card opens out of the cockpit, keeps what the guard of each group of rooms has checked |
| `WorldInvariants.InstallLinks` | mp2/world.c:1717-1732 | Installing keeps the way out of the backpack and every other link but the way out of the cockpit, which can only become the flight |
| `WorldRuns.ListsSoundInEveryRun` | mp2/world.c:512-526 | In every reachable state the lists agree with the locations |
| `WorldRuns.BackpackHasAnExit` | mp2/world.c:1757-1774 | Whoever looks into the backpack can leave it again |
| `DeadEnds.RunsCanBeWon` | mp2/world.c:1039-1914 | And so it is for going on to win with luck: luck makes no difference |
| `LostWins.WinsAreHopeful` | mp2/world.c:1039-1914 | No win without all of it within reach: what is out of reach once stays so whatever is done |
| `LostWins.PerformStays` | mp2/world.c:1039-1914 | No command makes more objects obtainable: a set that holds all there is to get hold of still does after it |
| `WaysToWin.HopefulWins` | mp2/world.c:1039-1914 | Whatever is within reach is got: from each such state a step leads to a better one, until the game is won |
| `Progress.UsefulIsBetter` | mp2/world.c:1271-1914 | Waking the robot, charging, repairing, luring, dressing, eating and so on lose nothing that is within reach, and leave less to be done |
| `Prospects.ObtainableIsLeast` | mp2/world.c:1039-1914 | What is computed by growing is the least set closed under getting hold of objects |
| `Ventures.WalkWins` | mp2/world.c:224-402 | Within an area every room can be reached from every other |
| `Ventures.HomeWins` | mp2/world.c:224-402 | From every area there is a way back to the campus, whatever has been lost |
| `Ventures.EnterWins` | mp2/world.c:1077-1163 | Every other area can be entered from the campus with what opens it |
| `DeadEnds.AdventureCanBeLost` | mp2/world.c:1077-1163 | A failing input: one list of commands after which no further commands whatever win, for all pictures and random numbers |
| `DeadEnds.LockedIsLost` | mp2/world.c:1077-1163 | With the card behind its own door, assignment and robot can no longer be got hold of |
| `Chance.PerformTwins` | mp2/world.c:1039-1914 | Each command does the same to worlds that differ in positions and pictures only |
| `Keystrokes.GameCanBeWon` | mp2/adventure.c:213-370 | There are keys that win a session, for all pictures and random numbers |
| `Keystrokes.TickObeys` | mp2/adventure.c:332-359 | One tick of keys has the command carried out that they spell, whatever was on the line |
| `Speech.SpokenParses` | mp2/adventure.c:392-413 | What is typed for a command is parsed as that command |
| `Walkthrough.StepWorks` | mp2/world.c:1039-1914 | Each step of the way has its effect in every world that fits the sketch of where things are |
| `Itinerary.WholeWay` | mp2/world.c:224-402 | On the map of the rooms, the way leads from the start past all locked doors to the laboratory, with book, assignment and Tux |
| `WorldScene.PictureAfter` | mp2/world.c:1039-1914 | Unless the room changes the photo stays, and unless drawing is asked for so does the whole picture |
| `WorldScene.GearMovesByGetAndDrop` | mp2/adventure.c:432-456 | Only get and drop can move the board or the jetpack into or out of the backpack, so it is enough to set the speeds there |
| `Verbs.ListIsUnambiguous` | mp2/adventure.c:116-133 | Entries of different commands differ within the letters that both need |
| `Verbs.FirstMatchIsTheMatch` | mp2/adventure.c:407-413 | So the first entry found gives the command of every entry that matches |
| `Verbs.EveryVerbWorks` | mp2/adventure.c:888-893 | No entry is shadowed: each command is issued by its own verb, a check that the program leaves out |
| `Orders.WordsOrder` | mp2/adventure.c:116-133 | The words for each command, by name and least number of letters |
| `Verbs.Parse` | mp2/adventure.c:392-413 | The walk over the line's characters finds the verb and the argument that the specification gives |
| `Keyboard.Keys.GetCommand` | mp2/input.c:309-449 | Line, key state and command after any input are the folds of the specification over the characters up to a backquote, with the controller's buttons last |
| `Keyboard.Keys.ReadKey` | mp2/input.c:335-401 | One character of the escape sequence machine |
| `Keyboard.Keys.GetTuxCommand` | mp2/input.c:254-293 | Held buttons repeat, the others count once a press |
| `Keyboard.PushedJoin` | mp2/input.c:321-402 | So is the command asked for |
| `Keyboard.LineStaysValid` | mp2/input.c:183-196 | The line has at most 20 characters, all letters, digits or spaces |
| `Keyboard.ArrowKeyRecognised` | mp2/input.c:335-379 | An arrow key adds nothing to the line and gives its command if and only if no other key had been begun; otherwise its last letter is typed |
| `Keyboard.EscapeSpoilsArrow` | mp2/input.c:353-360 | A failing input: after a lone escape the upward arrow key asks for nothing and types an A |
| `Keyboard.RoomKeyRecognised` | mp2/input.c:361-401 | The three other keys, with their tilde, are recognised and add nothing if and only if no other key had been begun; otherwise their digit is typed |
| `Keyboard.KeysInBytes` | mp2/input.c:335-401 | The seven keys byte by byte, and what each asks for |
| `Keyboard.OneCharacter` | mp2/input.c:178-196 | What each other character code does to the line, of at most twenty characters, and which ask for the line to be read |
| `Keyboard.ButtonsInBits` | mp2/input.c:254-293 | What the buttons of the controller ask for, bit by bit |
| `Keyboard.LettersAppend` | mp2/input.c:183-196 | What does not fit is lost, and only that |
| `Keyboard.ErasingUndoes` | mp2/input.c:183-196 | Erasing as many characters as were typed gives the old line back exactly if all had fitted or it was empty |
| `Quantiser.ColourTable.InsertValues` | mp2/photo.c:603-629 | Both cells of the pixel count it, and no sum overflows 32 bits for photos of the permitted size |
| `Quantiser.ColourTable.SortLeaves` | mp2/photo.c:651-651 | The small cells come out in the given order with their sums |
| `Quantiser.ColourTable.TakeOut` | mp2/photo.c:664-675 | Subtraction leaves each large cell with its pixels in no small cell chosen so far; nothing becomes negative |
| `Quantiser.ColourTable.SetPltValues` | mp2/photo.c:648-693 | Every colour becomes the mean of the pixels that will be drawn with it, or stays as it was |
| `Quantiser.ColourTable.CalculateVga` | mp2/photo.c:705-730 | The value found is 64 + the number of the pixel's colour |
| `Quantiser.LoadPalette` | mp2/photo.c:321-323 | Register 64 + e holds colour e, the first 64 registers stay |
| `Quantiser.ShownColourIsNear` | mp2/photo.c:321-323 | With six bits each, the colour in the register differs by at most 2/3/2 or 14/15/14 from the components r, g and b of which the pixel is r * 2048 + g * 32 + b |
| `Quantiser.MeanRoundsDown` | mp2/photo.c:648-693 | Count times average is at most the sum, and less than a count below it |
| `Tallies.ColoursAreNumbered` | mp2/photo.c:705-730 | Colours 0 to 63 are those of the large cells, and 64 + k that of the k-th small cell chosen |
| `Quantiser.PixelsConserved` | mp2/photo.c:648-693 | The 192 colours share out the sums of all pixels: none is lost or counted twice |
| `Quantiser.ColourSetIffDrawn` | mp2/photo.c:655-691 | A colour is set exactly if a pixel of the photo is drawn with it |
| `Tallies.SamplesConserved` | mp2/photo.c:648-693 | The tallies of all colours add up to that of all pixels |
| `Tallies.LeftAreDrawn` | mp2/photo.c:705-730 | The pixels left in a large cell are those that calculate_vga sends there |
| `Colours.NestedCells` | mp2/photo.c:664-668 | The large cell computed from a small cell's index is the one in which its pixels were counted |
| `Colours.DecodingIsExact` | mp2/photo.c:603-623 | Decoding a pixel r * 2048 + g * 32 + b gives r, g and b back, and the cells of their upper bits |
| `Colours.PixelsAreAlike` | mp2/photo.c:603-623 | Pixels of one cell differ by at most 1/3/1 or 7/15/7 |
| `TuxLdisc.Ring.Push` | mp2/module/tuxctl-ld.c:106-108 | Appends to a queue of at most 63 bytes, across the wrap-around |
| `TuxLdisc.Ring.Pop` | mp2/module/tuxctl-ld.c:106-108 | Takes the oldest byte |
| `TuxLdisc.Ring.Fill` | mp2/module/tuxctl-ld.c:172-176 | Accepts as many bytes as there is room for, in order |
| `TuxLdisc.Ring.Drain` | mp2/module/tuxctl-ld.c:229-233 | Delivers the oldest bytes, in order |
| `TuxLdisc.LineDiscipline.DataCallback` | mp2/module/tuxctl-ld.c:287-319 | Reads up to 12 bytes together with those saved, hands up all packets in what it has read so far, and leaves one waiting exactly if it ends behind the first twelve bytes at hand |
| `TuxLdisc.LineDiscipline.Scan` | mp2/module/tuxctl-ld.c:303-313 | The greedy loop over the buffer hands up exactly the packets at all positions of the stream, in order |
| `TuxLdisc.LineDiscipline.Get` | mp2/module/tuxctl-ld.c:219-238 | Whoever takes bytes out gets the oldest; the framing of what the callback reads is not disturbed, so all operations may follow each other in any order |
| `TuxLdisc.LineDiscipline.Put` | mp2/module/tuxctl-ld.c:245-273 | Returns exactly the number of bytes not accepted; bytes accepted are bytes sent followed by bytes queued |
| `TuxLdisc.LineDiscipline.WriteWakeup` | mp2/module/tuxctl-ld.c:190-213 | Hands over room + 1 bytes if there are so many, so no more than there is room for if and only if all that is queued fits |
| `TuxLdisc.HandedOverFits` | mp2/module/tuxctl-ld.c:204-207 | The count handed over fits exactly if the count queued does; one byte queued for no room is handed over |
| `TuxLdisc.DozenIsSafe` | mp2/module/tuxctl-ld.c:287-299 | Twelve bytes at hand leave no packet waiting; a chunk of five packets does |
| `TuxLdisc.BeyondInNumbers` | mp2/module/tuxctl-ld.c:287-299 | What it is for a packet to end behind the first twelve bytes, in numbers |
| `TuxPackets.PacketsArePositions` | mp2/module/tuxctl-ld.c:304-312 | The packets are those at all positions with a clear first and two set top bits, in order |
| `TuxPackets.AllPositions` | mp2/module/tuxctl-ld.c:304-312 | The positions listed are all such positions |
| `TuxPackets.PacketsAreBytes` | mp2/module/tuxctl-ld.c:303-313 | And what is read as a packet is three such bytes, one behind the other |
| `TuxPackets.SettledLater` | mp2/module/tuxctl-ld.c:315-318 | Bytes that arrive later change nothing about what has been handed up, whatever the chunks |
| `TuxPackets.NoneBehind` | mp2/module/tuxctl-ld.c:299-318 | A reader has missed no packet exactly if none begins at or behind its position |
| `MissileList.MissileGame.MissileRemove` | mp1/mp1.S:463-536 | Unlinks and frees one missile, first or not, and returns the one behind it |
| `MissileList.MissileGame.Act` | mp1/mp1.S:186-352 | One missile's turn: explosion, disappearance, arrival or move |
| `MissileList.MissileGame.MissileExplode` | mp1/mp1-given.c:37-70 | Sets off the missile, kills a base near an enemy, and takes along exactly the enemies in reach, each for one point |
| `MissileList.MissileGame.ExplodeBase` | mp1/mp1-given.c:13-35 | Kills the base at that place if it is alive |
| `MissileList.MissileGame.AddMissile` | mp1/mp1.S:562-629 | A missile copied is put in front; if copying fails its memory is freed and the list stays |
| `MissileList.MissileGame.EndGame` | mp1/mp1.S:780-809 | Empties the list and frees all that was on it, in order |
| `MissileField.TickKeepsOrder` | mp1/mp1.S:172-381 | After a tick the list is the old one without the removed missiles, in the same order |
| `MissileGuards.TakenOffIfLeaves` | mp1/mp1.S:186-242 | In its turn a missile is taken off exactly if its explosion burns out or it is unexploded and fails the off-screen test |
| `MissileGuards.TurnHits` | mp1/mp1-given.c:51-68 | A turn strikes just those that its explosion, new or old, reaches |
| `MissileFlight.FliesInTick` | mp1/mp1.S:350-353 | In a tick of any field, what has its turn before it is struck and neither leaves nor arrives moves by exactly its speed |
| `MissileFlight.OwnTurn` | mp1/mp1.S:186-381 | What a turn does to its own missile, by numbers: burning out, burning on, leaving, arriving or moving |
| `MissileFlight.OthersInTurn` | mp1/mp1-given.c:51-68 | And to the others: enemies within two columns and one row of an exploding missile of the player start to explode |
| `MissileFlight.TollOfTurn` | mp1/mp1-given.c:13-70 | And to bases and score: a base in columns 17-23, 37-43 or 57-63 dies by an enemy that explodes in row 23 or below, and each enemy taken along is one point |
| `MissileFlight.ExplosionLasts` | mp1/mp1.S:186-228 | An explosion lasts fifty ticks |
| `MissileTurns.TurnsInOrder` | mp1/mp1.S:172-381 | The same from any place in the list on, in terms of what each missile does in its own turn |
| `MissileTurns.TurnsAct` | mp1/mp1.S:186-352 | What has its turn acts once, from the state it then has; before and after that it can only be struck |
| `MissileTurns.MissedOnlyStruck` | mp1/mp1.S:370-378 | What misses its turn can only be struck, and stays on the list |
| `MissileTurns.StaysUnlessTakenOff` | mp1/mp1.S:172-381 | The tick takes off just the missiles that are taken off in their own turn |
| `MissileTurns.SecondMissesTurn` | mp1/mp1.S:370-378 | A failing input: of two missiles the first has left the screen, and the second does not move in that tick |
| `MissileTurns.GoneExactly` | mp1/mp1.S:229-242 | The off-screen test is right exactly for positions left of or above the screen, inside but for a strip along its left and upper edge, or beyond the other edges in such a strip; it fails both ways for the others |
| `MissileTurns.GoneFails` | mp1/mp1.S:229-242 | Failing inputs: a missile in the top row is taken for gone, and missiles right of the screen or below it are not |
| `MissileField.PassedOnlyStruck` | mp1/mp1.S:172-381 | A missile that has had its turn stays as it is for the rest of the tick, unless it is struck |
| `MissileField.ExplodedForGood` | mp1/mp1-given.c:51-68 | A missile that has exploded stays so until it is removed, and so is never scored again |
| `MissileChain.UnlinkChained` | mp1/mp1.S:470-523 | Relinking around one missile leaves a list linked in the old order |
| `Ticks.Clock.Due` | mp2/adventure.c:300-303 | A tick is due exactly if the clock's total microseconds have reached its own |
| `Ticks.TimeIsAfter` | mp2/adventure.c:741-749 | For a clock time against a tick time it compares total microseconds; for two times that may both be kept with a full million it does so in all cases but one |
| `Ticks.ComparedByTotals` | mp2/adventure.c:741-749 | For a clock time this agrees with total microseconds, although a tick time may be written with 1000000 of them |
| `Ticks.ComparedExactly` | mp2/adventure.c:741-749 | For two times that may both be written so it agrees in all cases but one |
| `Ticks.FullMillionOccurs` | mp2/adventure.c:314-317 | Advancing the tick time from the start ever leads to one with 1000000 microseconds if and only if the game starts on a multiple of the tick length |
| `Ticks.FullMillionAt` | mp2/adventure.c:314-317 | It does so at the k-th tick exactly if that is a whole number of seconds |
| `Ticks.Clock.HoldsFullMillion` | mp2/adventure.c:310-318 | And the clock holds such a time exactly then |
| `Ticks.TickIsKept` | mp2/adventure.c:314-317 | The k-th tick time is the moment k tick lengths after the start, with 1 to 1000000 microseconds |
| `Ticks.TwentyASecond` | mp2/adventure.c:314-317 | The twentieth tick time is the start, one second later |

## Left out

- Modex.ModeX.CopyImage: copies the 14560 bytes of a plane that are visible; the original moves 16000, and what the further ones overwrite in video memory is not modelled.
- Modex.ModeX.ShowScreen: that all else in video memory stays holds for the visible bytes only, for the same reason.
- Viewing.Viewer.MovePhotoLeft: photos smaller than the window are not covered, as the movers compute negative distances for them; all photos are required to fill it.
- WorldHeap.GameWorld.constructor: the records are filled by one loop each and the checks for duplicate ids are left out; a pointer between records is modelled as an index, so only aliasing through the tables is captured.
- PlayerFlags.SettingOneFlag: the flag word is a sequence of 32 bits.
- Quantiser.ColourTable.SortLeaves: the sort is any permutation, since its comparison is not an order; nothing is claimed about which 128 cells are chosen.
- Quantiser.ColourTable.Quantise: works on one sequence of pixels; the original rewinds the file to its start and so reads the header as pixels in the second pass.
- TuxLdisc.LineDiscipline.Get: bytes are returned as a sequence instead of being written through a pointer, and locking and re-entrance of the callback are not modelled: each operation is taken as a whole.
- TuxLdisc.LineDiscipline.WriteWakeup: says what is handed to the driver, not what the driver delivers.
- MissileList.MissileGame.AddMissile: the value returned after a failed copy is not specified, as the register that should hold it has been overwritten; allocation is taken to succeed.
- MissileList.MissileGame.Act: drawing on the screen and the notification of the user are left out, and each field of a missile is a field of a record in a map from addresses.
- MissileList.MissileGame.StartGame: forgets a list that is still there in the original; here a game starts anew.
- Adventure.Game.GameLoop: runs over a given sequence of ticks; waiting for the clock is modelled apart, in `Ticks.Clock`, and the callbacks passed to `set_mode_X` are fixed to the two line renderers.
- Keyboard.Keys.GetCommand: the keyboard variant of the program is modelled, and reading stops for good at a backquote.
- Status messages and their thread, the status bar and `text_to_graphics`.
- Reading of image files, BMP conversion, allocation failures.
- VGA registers other than the palette, fonts, mode setting, `mmap`.
- LED and button packing in the Tux driver's ioctls.
- Register and stack discipline of the assembly code, crosshairs, bases' pictures.
