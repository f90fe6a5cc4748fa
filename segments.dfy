/** The segment catalogue's first template, "stone then platform", and the
    floating platform it places (src/game/segments.rs). */
module Segments {
  import opened Engine
  import opened Obstacles

  /** Anchor heights and offsets of the layouts. */
  const LowPlatform := 420
  const HighPlatform := 375
  const FirstPlatform := 400
  const StoneOnGround := 546
  const InitialStoneOffset := 150

  /** The floating platform's total width. */
  const FloatingPlatformWidth := 384

  const FloatingPlatformSprites: seq<string> := ["13.png", "14.png", "15.png"]

  /** The floating platform's boxes, relative to its anchor: a left cap, a
      middle and a right cap that tile [0, 384) without gap or overlap. */
  function FloatingPlatformBoundingBoxes(): (boxes: seq<Rect>)
    ensures |boxes| == 3
    ensures boxes[0].X() == 0 && boxes[1].X() == 60 && boxes[2].X() == 324
    ensures boxes[2].Right() == FloatingPlatformWidth
    ensures forall i :: 0 <= i < 2 ==> boxes[i].Right() == boxes[i + 1].X()
    ensures forall i :: 0 <= i < 3 ==> boxes[i].Y() == 0 && boxes[i].width > 0
    ensures boxes[0].height == 54 && boxes[1].height == 93 && boxes[2].height == 54
  {
    [ Rect(Point(0, 0), 60, 54),
      Rect(Point(60, 0), 384 - 60 * 2, 93),
      Rect(Point(384 - 60, 0), 60, 54) ]
  }

  /** `create_floating_platform`. */
  function CreateFloatingPlatform(sheet: Sheet, position: Point): Obstacle {
    NewPlatform(sheet, position, FloatingPlatformSprites, FloatingPlatformBoundingBoxes())
  }

  /** `stone_and_platform`: a stone on the ground, then a low floating platform. */
  function StoneAndPlatform(stone: Element, sheet: Sheet, offsetX: int): (os: seq<Obstacle>)
    ensures |os| == 2 && os[0].Barrier? && os[1].Platform?
    ensures os[0].image == NewImage(stone, Point(offsetX + 150, 546))
    ensures os[1].position == Point(offsetX + 400, 420) && os[1].sheet == sheet
    ensures |os[1].boundingBoxes| == 3
    ensures Right(os[1]) == offsetX + 400 + 384
  {
    [ NewBarrier(NewImage(stone, Point(offsetX + InitialStoneOffset, StoneOnGround))),
      CreateFloatingPlatform(sheet, Point(offsetX + FirstPlatform, LowPlatform)) ]
  }

  /** The floating platform's boxes in world coordinates cover
      [x, x + 384) without gap or overlap, all at the anchor's height. */
  lemma FloatingPlatformTiles(sheet: Sheet, position: Point)
    ensures var boxes := CreateFloatingPlatform(sheet, position).boundingBoxes;
      |boxes| == 3 && boxes[0].X() == position.x &&
      boxes[0].Right() == boxes[1].X() && boxes[1].Right() == boxes[2].X() &&
      boxes[2].Right() == position.x + FloatingPlatformWidth &&
      boxes[0].Y() == boxes[1].Y() == boxes[2].Y() == position.y
  {
  }

  /** The platform's sprites are those of the three names the sheet knows;
      when it knows all three there is one sprite per box. */
  lemma FloatingPlatformSpritesResolved(sheet: Sheet, position: Point)
    ensures |CreateFloatingPlatform(sheet, position).sprites| <= 3
    ensures (forall n :: n in FloatingPlatformSprites ==> n in sheet) ==>
      CreateFloatingPlatform(sheet, position).sprites
        == [sheet["13.png"], sheet["14.png"], sheet["15.png"]]
  {
  }

  /** The segment's right edge is that of its stone or of its platform,
      whichever is further right. */
  lemma StoneAndPlatformRightmost(stone: Element, sheet: Sheet, offsetX: int)
    ensures Rightmost(StoneAndPlatform(stone, sheet, offsetX))
         == Max(offsetX + 150 + stone.width, offsetX + 784)
  {
    var os := StoneAndPlatform(stone, sheet, offsetX);
    assert os[1..] == [os[1]];
  }

  /** Generating the segment further right is generating it and moving it. */
  lemma StoneAndPlatformShift(stone: Element, sheet: Sheet, offsetX: int, d: int)
    ensures MoveAll(StoneAndPlatform(stone, sheet, offsetX), d) == StoneAndPlatform(stone, sheet, offsetX + d)
  {
    NewPlatformMoved(sheet, Point(offsetX + FirstPlatform, LowPlatform),
                     FloatingPlatformSprites, FloatingPlatformBoundingBoxes(), d);
  }

  /** At offset 0 the platform's boxes start at 400, 460 and 724; moved 5 to
      the left they start at 395, 455 and 719, with unchanged sizes. */
  lemma FirstPlatformScenario(stone: Element, sheet: Sheet)
    ensures var p := StoneAndPlatform(stone, sheet, 0)[1];
      var q := Moved(p, -5);
      [p.boundingBoxes[0].X(), p.boundingBoxes[1].X(), p.boundingBoxes[2].X()] == [400, 460, 724] &&
      [q.boundingBoxes[0].X(), q.boundingBoxes[1].X(), q.boundingBoxes[2].X()] == [395, 455, 719] &&
      [q.boundingBoxes[0].width, q.boundingBoxes[1].width, q.boundingBoxes[2].width] == [60, 264, 60] &&
      [q.boundingBoxes[0].height, q.boundingBoxes[1].height, q.boundingBoxes[2].height] == [54, 93, 54]
  {
  }
}
