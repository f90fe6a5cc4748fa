# Walk the Dog: the gameplay core in Dafny

This project models the integer gameplay logic of the "Walk the Dog"
endless runner. The character runs right. The world scrolls left under it,
at the negated walking speed. Two background tiles scroll at a third of
that speed and leapfrog each other. Obstacles (floating platforms and
stone barriers) scroll at the full speed. An obstacle whose right edge has
left the screen is dropped. Each remaining obstacle resolves its collision
with the character. When the `timeline`, the right edge of the obstacles
generated so far, falls below 1000, the next segment is generated 20 units
beyond it.

Modules:

- `Engine`: the engine values the core uses, with assumed definitions; `engine.rs` is not part of this model. Points, rectangles and images are integer records:
  - `right = x + width`;
  - `Intersects` is the strict axis-aligned overlap test;
  - `Image::move_horizontally` shifts the image's position;
  - a sprite sheet is a map from names to cells.

  `TruncDiv` is Rust's integer division, which rounds toward zero, written out by hand because Dafny's `/` is Euclidean.
- `Rhb`: the character as far as the core sees it. That is the four values read from it and the calls made on it. How the character answers a call is a parameter, `Character = (Boy, Call) -> Boy`.
- `Obstacles`: `Platform` and `Barrier` as one datatype. Covers construction, moving, `right()`, the collision decision procedure, and the assumed `rightmost`.
- `Segments`: the floating-platform box table and the `stone_and_platform` template.
- `Game`:
  - one tick as a function `Tick` on a `World` value, built from the phases the source runs in order: input, scroll, prune, move and check, timeline;
  - the class `Walk`, whose methods update its fields as `Walk` and `WalkTheDog::update` do. `Walk.Update` is proved to compute `Tick`;
  - the `Loading`/`Loaded` lifecycle with `initalize`'s error.

Each collision check is modelled as the list of calls the obstacle makes on
the character. The world logs every call made on the character, in order.
Collision outcomes can therefore be stated without knowing the character's
internals.

Two points of the code shape the model:

- `src/game.rs:144` prunes before the move, on the right edges left by the previous tick. A survivor moved to a right edge at or below 0 therefore stays until the next tick. `Game.AdvanceObstacles` states this.
- A platform's `right()` is its last box's right edge, or the default rectangle's right edge (0) when it has no box.

## Model

| member | source | states |
|---|---|---|
| Engine.TruncDiv | src/game.rs:134-135 | `velocity / 3` rounds toward zero, so the remainder has the sign of the dividend and is smaller than the divisor |
| Engine.TruncDivVsEuclid | src/game.rs:134-135 | for every negative dividend, the step `velocity / 3` rounded toward zero equals Dafny's Euclidean quotient when 3 divides the dividend and is one more otherwise |
| Rhb.PerformSnoc | src/game.rs:116-129 | answering calls one at a time, in order, is the character's answer to the whole sequence |
| Rhb.PerformAppend | src/game.rs:116-129 | answering two call sequences one after the other is answering their concatenation |
| Obstacles.Translated | src/game/obstacles.rs:29-39 | exactly one box per input box, in order, each moved by the anchor in x and y, with width and height unchanged |
| Obstacles.TranslatedTwice | src/game/obstacles.rs:29-39 | translating by one point and then another is translating once by their sum |
| Obstacles.ResolveSprites | src/game/obstacles.rs:25-28 | no more sprites than names; every sprite is the cell of a name the sheet knows; when the sheet knows every name, sprite i is the cell of name i |
| Obstacles.ResolveSpritesAppend | src/game/obstacles.rs:25-28 | the names are resolved in order, so the kept cells keep the order of their names |
| Obstacles.NewPlatformMoved | src/game/obstacles.rs:19-46 | building a platform and moving it by d is building it with its anchor d further right |
| Obstacles.MoveHorizontally | src/game/obstacles.rs:89-94 | the loop that shifts the platform's boxes element by element, in a copy of the box list, yields the obstacle `Moved` describes; the caller stores the result back in the obstacle list |
| Obstacles.MovedTranslates | src/game/obstacles.rs:89-129 | moving a platform adds d to its anchor's x and to every box's x, with y, sizes, sheet and sprites unchanged; moving a barrier moves its image by d in x and changes nothing else; the kind is kept |
| Obstacles.MovedTwice | src/game/obstacles.rs:89-94 | moving by a and then by b is moving by a + b |
| Obstacles.MovedRight | src/game/obstacles.rs:100-105 | for a barrier, or a platform with a box, `right()` after a move by d is larger by exactly d |
| Obstacles.MovedRightWithoutBoxes | src/game/obstacles.rs:100-105 | a platform without boxes reports the default rectangle's right edge, 0, before and after any move |
| Obstacles.MoveAllAt | src/game.rs:146-147 | every obstacle of the list is moved by the same amount and keeps its position in the list |
| Obstacles.FirstIntersecting | src/game/obstacles.rs:53-56 | no index exactly when no box intersects the target; otherwise the index of the first intersecting box in list order |
| Obstacles.CheckIntersectionOutcomes | src/game/obstacles.rs:52-121 | a platform makes no call without a hit; when the character descends from above, it makes exactly one `land_on`, at the y of the first box hit, and no knock-out; on any other hit it knocks out, preceded by `hit_ceiling` exactly when the character is rising from below; a barrier knocks out exactly when the boxes intersect, whatever the velocity, and makes no other call |
| Obstacles.NewPlatform | src/game/obstacles.rs:19-46 | definition of `Platform::new`: the sheet and anchor kept, the boxes translated by the anchor, the sprites resolved from the names; what that gives is stated by `Translated` and `ResolveSprites` |
| Obstacles.NewBarrier | src/game/obstacles.rs:112-114 | definition of `Barrier::new`: a barrier wrapping the image |
| Obstacles.Moved | src/game/obstacles.rs:89-129 | definition of `move_horizontally` on values: a platform's anchor x shifted and its boxes translated by (d, 0); a barrier's image moved; its meaning is stated by `MovedTranslates`, `MovedTwice` and `MovedRight` |
| Obstacles.Right | src/game/obstacles.rs:100-137 | definition of `right()`: a platform's last box's right edge, or the default rectangle's (0) with no box; a barrier's image's right edge; its behaviour under a move is stated by `MovedRight` and `MovedRightWithoutBoxes` |
| Obstacles.MoveAll | src/game.rs:146-147 | the moved list has the length of the list; `MoveAllAt` states each element |
| Obstacles.CheckIntersection | src/game/obstacles.rs:52-121 | at most two calls, each a landing, a ceiling hit or a knock-out; the full decision is stated by `CheckIntersectionOutcomes` |
| Segments.CreateFloatingPlatform | src/game/segments.rs:54-61 | definition: the platform built from the three sprite names and the three box table entries at the anchor; stated by `FloatingPlatformTiles` and `FloatingPlatformSpritesResolved` |
| Obstacles.Rightmost | src/game.rs:63 | the assumed `rightmost`: 0 for no obstacle, otherwise the right edge of one of them, at least every obstacle's right edge |
| Segments.FloatingPlatformBoundingBoxes | src/game/segments.rs:12-28 | three boxes at y 0 starting at x 0, 60 and 324 that tile [0, 384) with no gap or overlap ([0,60), [60,324), [324,384)), with positive widths and heights 54, 93 and 54 |
| Segments.FloatingPlatformTiles | src/game/segments.rs:54-61 | the created platform's world boxes tile [x, x + 384) at the anchor's height |
| Segments.FloatingPlatformSpritesResolved | src/game/segments.rs:54-61 | at most three sprites; exactly the cells of 13.png, 14.png and 15.png, in that order, when the sheet knows them |
| Segments.StoneAndPlatform | src/game/segments.rs:30-52 | two obstacles: first a barrier whose image is at (offset + 150, 546), then a platform on the given sheet, anchored at (offset + 400, 420), with three boxes and right edge offset + 400 + 384 |
| Segments.StoneAndPlatformRightmost | src/game/segments.rs:36-51 | the template's extent is the stone's or the platform's right edge, whichever is further right |
| Segments.StoneAndPlatformShift | src/game/segments.rs:40-50 | generating at offset + d is generating at offset and moving every obstacle by d |
| Segments.FirstPlatformScenario | src/game/segments.rs:44-50 | at offset 0 the platform's boxes start at x 400, 460 and 724; after a move by -5 they start at 395, 455 and 719, with widths 60, 264, 60 and heights 54, 93, 54 |
| Game.NextSegment | src/game.rs:45-62 | definition of the catalogue choice: index 0 is `stone_and_platform`, 1 and 2 the other templates, any other index no obstacle |
| Game.Wrap | src/game.rs:137-142 | definition of the wrap: a tile whose right edge is below 0 goes to the other tile's right edge, the second check seeing the first tile's result; stated by `WrapOrder` and `ScrollKeepsAdjacent` |
| Game.Scroll | src/game.rs:133-142 | definition: both tiles moved by the velocity divided by 3, rounded toward zero, then wrapped; stated by `ScrollKeepsCovering` |
| Game.Sweep | src/game.rs:146-149 | the in-order checks make at most two calls per obstacle, and only landings, ceiling hits and knock-outs |
| Game.AfterInput | src/game.rs:116-129 | definition of the input phase: the character answers the key calls and its update, which are logged |
| Game.AfterScroll | src/game.rs:133-142 | definition of the scroll phase on the world |
| Game.AfterPrune | src/game.rs:144 | definition of the prune phase on the world |
| Game.AfterMove | src/game.rs:146-149 | definition of the move-and-check phase: the moved list, and the character and log after the sweep over it |
| Game.AfterTimeline | src/game.rs:151-155 | definition of the timeline phase: the generated segment appended and the timeline advanced |
| Game.Advance | src/game.rs:131-155 | definition of a tick after the input: scroll, prune, move and check, timeline, with one velocity; stated by `AdvanceParts` and the `Advance*` lemmas |
| Game.Tick | src/game.rs:112-156 | definition of one tick: the input phase, then `Advance` with the velocity read after it; `Walk.Update` is proved to compute it |
| Game.AdvanceObstacleList | src/game.rs:144-155 | after a tick, the obstacles are the moved survivors followed by the generated segment, and the timeline is advanced |
| Game.InitialWorld | src/game.rs:87-107 | definition of the walk `initalize` builds; stated by `InitialWorldFacts` |
| Game.Walk.Velocity | src/game.rs:38-40 | definition of `velocity()`: the negated walking speed; `Walk.Update` reads it once, after the input |
| Game.NewGame | src/game.rs:24-26 | definition of `WalkTheDog::new`: the `Loading` game |
| Game.Retained | src/game.rs:144 | pruning never lengthens the list |
| Game.RetainedMembers | src/game.rs:144 | an obstacle survives pruning exactly when it was in the list with a right edge above 0 |
| Game.RetainedAppend | src/game.rs:144 | pruning splits over concatenation, so survivors keep their relative order |
| Game.Retain | src/game.rs:144 | the `retain` loop, going over the list element by element, builds exactly the pruned list; `Walk.Update` assigns it back to the walk's obstacles |
| Game.SweepStep | src/game.rs:146-149 | each obstacle is checked against the character as the earlier obstacles' checks left it |
| Game.SweepPrefix | src/game.rs:146-149 | the calls of the earlier obstacles come first in the log |
| Game.SweepWithoutHits | src/game.rs:146-149 | when no obstacle touches the character, the sweep makes no call and leaves the character unchanged |
| Game.SweepBarrierKnocksOut | src/game.rs:146-149 | a barrier that touches the character, as the earlier checks left it, puts a knock-out in the tick's log |
| Game.AdvanceParts | src/game.rs:131-155 | after the input, a tick leaves the character and the log as the in-order sweep over the moved survivors left them; the tiles are scrolled; the obstacles are the moved survivors followed by the generated segment; the timeline is advanced |
| Game.AdvanceObstacles | src/game.rs:144-149 | the obstacles start with every survivor, in order, each moved by the velocity, and a survivor moved to a right edge at or below 0 is still there; with no generation, nothing else is there |
| Game.AdvanceMovesTimeline | src/game.rs:151-155 | below 1000, the segment generated at timeline + 20 is appended after the moved survivors and the timeline becomes its extent; otherwise nothing is appended and the timeline changes by the velocity |
| Game.AdvanceGeneratesStoneAndPlatform | src/game.rs:41-65 | generating template 0 appends the stone and then the platform, and the timeline becomes the further right of their right edges |
| Game.AdvanceCalls | src/game.rs:146-149 | the tick only appends to the call log; if no moved survivor touches the character, it makes no call and leaves the character unchanged |
| Game.WrapOrder | src/game.rs:137-142 | tiles on screen stay where they are; when both tiles have passed x = 0, the second is placed after the first tile's new position |
| Game.ScrollKeepsAdjacent | src/game.rs:133-142 | two adjacent tiles of the same width stay adjacent after the scroll and wrap, whatever the velocity |
| Game.ScrollKeepsCovering | src/game.rs:133-142 | when the world scrolls left by less than three tile widths, at most one tile passes x = 0 before the wrap, and afterwards the tiles still cover x = 0 |
| Game.AdvanceKeepsCovering | src/game.rs:133-142 | a whole tick keeps the two tiles covering x = 0 under the same bound on the velocity |
| Game.InitialWorldFacts | src/game.rs:87-107 | the initial walk has its tiles at x 0 and at the background's width, covering x = 0; it holds the stone and the platform; its timeline is the further right of 150 + stone width and 784 |
| Game.Walk.constructor | src/game.rs:91-107 | the loaded walk's state is the initial world built from the loaded assets |
| Game.Walk.Invoke | src/game.rs:118-129 | one call on the character, which is logged |
| Game.Walk.HandleInput | src/game.rs:116-129 | `run_right`, `slide` and `jump` for the pressed keys, in that order, then the character's `update`; the character is the answer to exactly those calls, and they are logged |
| Game.Walk.GenerateNextSegment | src/game.rs:41-65 | the segment chosen by the given index (the catalogue's 0, 1 or 2, none otherwise) is placed at timeline + 20 and appended, and the timeline becomes its extent |
| Game.Walk.ScrollBackgrounds | src/game.rs:133-142 | both tiles move by the velocity divided by 3, rounded toward zero; a tile whose right edge is below 0 goes to the other's right edge, the first tile first |
| Game.Walk.MoveAndCheck | src/game.rs:146-149 | the loop moves each obstacle in place by the velocity and then checks it against the character, first to last; the result is the list moved and the in-order sweep |
| Game.Walk.AdvanceTimeline | src/game.rs:151-155 | below 1000 the next segment is generated; otherwise the timeline changes by the velocity |
| Game.Walk.Update | src/game.rs:112-156 | on a loaded game, one tick is exactly `Tick`: input first, then the velocity, read once as the negated walking speed, drives the scroll, the prune, the move and check, and the timeline |
| Game.Initialize | src/game.rs:70-110 | a `Loaded` game gives the already-initialised error; a `Loading` game gives a fresh loaded walk in the initial state |
| Game.UpdateGame | src/game.rs:112-157 | a loaded game takes one tick; a `Loading` game is left untouched, since nothing may be modified |

## Left out

- Rendering is not modelled. That covers every `draw` and `draw_bounding_box` and `renderer.clear`. It happens through a renderer that is not part of this model.
- `src/lib.rs` is not modelled. It is canvas bootstrap, floating-point drawing and random colours.
- Asset loading inside `initalize` (`fetch_json`, `load_image`, deserialisation) is I/O. `Game.Initialize` takes the loaded character, background size, stone size and tile sheet as `Assets`. Loading failures are not modelled.
- `thread_rng().gen_range(0..3)` is foreign randomness. The drawn index is a parameter of `Tick`, `Walk.Update` and `Walk.GenerateNextSegment`. Any integer is accepted, and an index outside 0..2 yields no obstacle, as the source's `_` arm does.
- `RedHatBoy`'s state machine (src/game/rhb.rs) is not part of this model. The model keeps the four values the core reads, the calls made on the character, and a `Character` function parameter for how it answers them. The character's answer to a call is therefore a function of those four values alone; the real character also answers `update`, `jump` and `slide` from its hidden animation state and frame counter, which the model does not carry. No stated property depends on how a call is answered.
- `platform_and_stone` and `stone_on_low_platform` are absent from src/game/segments.rs. They are parameters of the model (`Templates`): functions from the offset to the obstacles produced. `HighPlatform` is declared for them and used nowhere else.
- `rightmost` is not part of the given obstacle file. `Obstacles.Rightmost` is an assumed definition: the greatest `right()` of the list, 0 for an empty list.
- The engine's `Rect`, `Image`, `SpriteSheet::cell` and `Rect::default` are assumed definitions in `Engine`. Images are reduced to a position and a size.
- i16 arithmetic is not modelled: all coordinates are unbounded integers, so overflow and wrap-around of positions, offsets and the timeline are absent.
- The dead local velocity `Point` at src/game.rs:113-117 is not modelled. It is shadowed at line 131 and has no effect.
- Obstacles are `Box<dyn Obstacle>` trait objects mutated in place in the source. Here they are values of one datatype, and an in-place mutation is the replacement of the list element. Aliasing cannot arise: each obstacle is owned by the list.
- The sprite sheet is shared through `Rc` in the source; here it is a map value copied into each platform.
- Obstacles.MovedRight: requires the obstacle to have a box. A platform without boxes reports 0 wherever it is, as `Obstacles.MovedRightWithoutBoxes` states.
- Game.ScrollKeepsCovering: covering x = 0 is proved only for a world scrolling left, or not at all, by less than three tile widths per tick. Adjacency alone holds for any velocity.
