/** The obstacle model: platforms made of several boxes, and barriers made of
    one image, each able to move, to report its right edge and to resolve a
    collision with the character (src/game/obstacles.rs). */
module Obstacles {
  import opened Engine
  import opened Rhb

  datatype Option<T> = None | Some(value: T)

  /** The two kinds of obstacle behind the `Obstacle` interface.  A platform
      shares the sprite sheet it was built from; its bounding boxes are in
      world coordinates. */
  datatype Obstacle =
    | Platform(sheet: Sheet, position: Point, boundingBoxes: seq<Rect>, sprites: seq<Cell>)
    | Barrier(image: Image)

  /** Every box moved by `offset`, in order, keeping its size. */
  function Translated(boxes: seq<Rect>, offset: Point): (r: seq<Rect>)
    ensures |r| == |boxes|
    ensures forall i :: 0 <= i < |boxes| ==>
      r[i].position == Point(boxes[i].X() + offset.x, boxes[i].Y() + offset.y) &&
      r[i].width == boxes[i].width && r[i].height == boxes[i].height
    decreases |boxes|
  {
    if boxes == [] then []
    else
      [Rect(Point(boxes[0].X() + offset.x, boxes[0].Y() + offset.y), boxes[0].width, boxes[0].height)]
      + Translated(boxes[1..], offset)
  }

  /** Translating twice is translating once by the sum. */
  lemma TranslatedTwice(boxes: seq<Rect>, p: Point, q: Point)
    ensures Translated(Translated(boxes, p), q) == Translated(boxes, Point(p.x + q.x, p.y + q.y))
  {
  }

  /** The cells of the names the sheet knows, in the order of the names; the
      names it does not know are skipped. */
  function ResolveSprites(sheet: Sheet, names: seq<string>): (cells: seq<Cell>)
    ensures |cells| <= |names|
    ensures forall c :: c in cells ==> exists n :: n in names && n in sheet && sheet[n] == c
    ensures (forall n :: n in names ==> n in sheet) ==>
      |cells| == |names| && forall i :: 0 <= i < |names| ==> cells[i] == sheet[names[i]]
    decreases |names|
  {
    if names == [] then []
    else
      (if names[0] in sheet then [sheet[names[0]]] else []) + ResolveSprites(sheet, names[1..])
  }

  /** Resolving splits over a concatenation of the names, so the kept cells
      keep the order of their names. */
  lemma {:induction false} ResolveSpritesAppend(sheet: Sheet, a: seq<string>, b: seq<string>)
    ensures ResolveSprites(sheet, a + b) == ResolveSprites(sheet, a) + ResolveSprites(sheet, b)
    decreases |a|
  {
    if a == [] {
      assert a + b == b;
    } else {
      assert (a + b)[0] == a[0];
      assert (a + b)[1..] == a[1..] + b;
      ResolveSpritesAppend(sheet, a[1..], b);
    }
  }

  /** `Platform::new`: boxes given relative to `position` become world boxes. */
  function NewPlatform(sheet: Sheet, position: Point, names: seq<string>, boxes: seq<Rect>): Obstacle {
    Platform(sheet, position, Translated(boxes, position), ResolveSprites(sheet, names))
  }

  /** `Barrier::new`. */
  function NewBarrier(image: Image): Obstacle {
    Barrier(image)
  }

  /** `move_horizontally`, as a value: the obstacle `d` further right. */
  function Moved(o: Obstacle, d: int): Obstacle {
    match o
    case Platform(sheet, position, boxes, sprites) =>
      Platform(sheet, Point(position.x + d, position.y), Translated(boxes, Point(d, 0)), sprites)
    case Barrier(image) => Barrier(image.MoveHorizontally(d))
  }

  /** `move_horizontally`: shifts the anchor and, one by one in place, every
      bounding box of a platform; a barrier moves its image. */
  method MoveHorizontally(o: Obstacle, d: int) returns (moved: Obstacle)
    ensures moved == Moved(o, d)
  {
    match o
    case Barrier(image) =>
      moved := Barrier(image.MoveHorizontally(d));
    case Platform(sheet, position, boxes, sprites) =>
      var shifted := boxes;
      var i := 0;
      while i < |shifted|
        invariant 0 <= i <= |shifted| == |boxes|
        invariant forall j :: 0 <= j < i ==> shifted[j] == boxes[j].SetX(boxes[j].X() + d)
        invariant forall j :: i <= j < |shifted| ==> shifted[j] == boxes[j]
      {
        shifted := shifted[i := shifted[i].SetX(shifted[i].X() + d)];
        i := i + 1;
      }
      moved := Platform(sheet, Point(position.x + d, position.y), shifted, sprites);
  }

  /** Moving keeps the shape of the obstacle: only the anchor's and every
      box's x change, by `d`. */
  lemma MovedTranslates(o: Obstacle, d: int)
    ensures Moved(o, d).Platform? == o.Platform?
    ensures o.Barrier? ==>
      Moved(o, d).image.position == Point(o.image.position.x + d, o.image.position.y) &&
      Moved(o, d).image.width == o.image.width && Moved(o, d).image.height == o.image.height
    ensures o.Platform? ==>
      var moved := Moved(o, d);
      moved.sheet == o.sheet && moved.sprites == o.sprites &&
      moved.position == Point(o.position.x + d, o.position.y) &&
      |moved.boundingBoxes| == |o.boundingBoxes| &&
      forall i :: 0 <= i < |o.boundingBoxes| ==>
        moved.boundingBoxes[i] == o.boundingBoxes[i].SetX(o.boundingBoxes[i].X() + d)
  {
  }

  /** `right()`: a platform's right edge is its last box's, or that of the
      default rectangle when it has no box; a barrier's is its image's. */
  function Right(o: Obstacle): int {
    match o
    case Platform(_, _, boxes, _) =>
      if boxes == [] then DefaultRect.Right() else boxes[|boxes| - 1].Right()
    case Barrier(image) => image.Right()
  }

  /** The obstacle has some geometry of its own: a barrier, or a platform
      with at least one box. */
  predicate HasBoxes(o: Obstacle) {
    o.Barrier? || o.boundingBoxes != []
  }

  /** Moving by `d` moves the right edge by `d`. */
  lemma MovedRight(o: Obstacle, d: int)
    requires HasBoxes(o)
    ensures Right(Moved(o, d)) == Right(o) + d
  {
  }

  /** A platform without boxes reports the default right edge, 0, wherever it is moved. */
  lemma MovedRightWithoutBoxes(o: Obstacle, d: int)
    requires o.Platform? && o.boundingBoxes == []
    ensures Right(o) == 0 && Right(Moved(o, d)) == 0
  {
  }

  /** Moving twice is moving once by the sum. */
  lemma MovedTwice(o: Obstacle, a: int, b: int)
    ensures Moved(Moved(o, a), b) == Moved(o, a + b)
  {
    if o.Platform? {
      TranslatedTwice(o.boundingBoxes, Point(a, 0), Point(b, 0));
    }
  }

  /** Building a platform and moving it is building it `d` further right. */
  lemma NewPlatformMoved(sheet: Sheet, position: Point, names: seq<string>, boxes: seq<Rect>, d: int)
    ensures Moved(NewPlatform(sheet, position, names, boxes), d)
         == NewPlatform(sheet, Point(position.x + d, position.y), names, boxes)
  {
    TranslatedTwice(boxes, position, Point(d, 0));
  }

  /** Every obstacle of the list moved by `d`, in order. */
  function MoveAll(os: seq<Obstacle>, d: int): (r: seq<Obstacle>)
    ensures |r| == |os|
    decreases |os|
  {
    if os == [] then [] else [Moved(os[0], d)] + MoveAll(os[1..], d)
  }

  /** The i-th obstacle of the moved list is the i-th obstacle moved. */
  lemma {:induction false} MoveAllAt(os: seq<Obstacle>, d: int)
    ensures forall i :: 0 <= i < |os| ==> MoveAll(os, d)[i] == Moved(os[i], d)
    decreases |os|
  {
    if os != [] {
      MoveAllAt(os[1..], d);
    }
  }

  /** `k` is the first box, in list order, that `target` intersects. */
  predicate IsFirstHit(boxes: seq<Rect>, target: Rect, k: int) {
    0 <= k < |boxes| && target.Intersects(boxes[k]) &&
    forall j :: 0 <= j < k ==> !target.Intersects(boxes[j])
  }

  /** The index of the first box `target` intersects (`Iterator::find`). */
  function FirstIntersecting(boxes: seq<Rect>, target: Rect): (r: Option<nat>)
    ensures r.None? <==> forall j :: 0 <= j < |boxes| ==> !target.Intersects(boxes[j])
    ensures r.Some? ==> IsFirstHit(boxes, target, r.value)
    decreases |boxes|
  {
    if boxes == [] then None
    else if target.Intersects(boxes[0]) then Some(0)
    else match FirstIntersecting(boxes[1..], target)
      case None => None
      case Some(k) => Some(k + 1)
  }

  /** Some bounding box of the obstacle intersects `target`. */
  predicate Hits(o: Obstacle, target: Rect) {
    match o
    case Platform(_, _, boxes, _) => exists j :: 0 <= j < |boxes| && target.Intersects(boxes[j])
    case Barrier(image) => target.Intersects(image.BoundingBox())
  }

  /** The character comes down onto the platform from above. */
  predicate Descending(boy: Boy, anchor: Point) {
    boy.velocityY > 0 && boy.posY < anchor.y
  }

  /** The character goes up into the platform from below. */
  predicate Rising(boy: Boy, anchor: Point) {
    boy.velocityY < 0 && boy.posY > anchor.y
  }

  /** The calls an obstacle may make on the character. */
  predicate CollisionCall(c: Call) {
    c.LandOn? || c == HitCeiling || c == KnockOut
  }

  /** `check_intersection`: the calls the obstacle makes on the character, in
      the order it makes them. */
  function CheckIntersection(o: Obstacle, boy: Boy): (calls: seq<Call>)
    ensures |calls| <= 2
    ensures forall c :: c in calls ==> CollisionCall(c)
  {
    match o
    case Platform(_, position, boxes, _) =>
      (match FirstIntersecting(boxes, boy.boundingBox)
       case None => []
       case Some(k) =>
         if boy.velocityY > 0 && boy.posY < position.y then [LandOn(boxes[k].Y())]
         else (if boy.velocityY < 0 && boy.posY > position.y then [HitCeiling] else []) + [KnockOut])
    case Barrier(image) =>
      if boy.boundingBox.Intersects(image.BoundingBox()) then [KnockOut] else []
  }

  /** What `check_intersection` does: nothing without a hit; a barrier hit
      knocks out; a platform hit from above lands on the first box hit, in
      list order, and any other platform hit knocks out, after hitting the
      ceiling when coming up from below. */
  lemma CheckIntersectionOutcomes(o: Obstacle, boy: Boy)
    ensures CheckIntersection(o, boy) == [] <==> !Hits(o, boy.boundingBox)
    ensures o.Barrier? ==> CheckIntersection(o, boy) == if Hits(o, boy.boundingBox) then [KnockOut] else []
    ensures o.Platform? && Hits(o, boy.boundingBox) && Descending(boy, o.position) ==>
      |CheckIntersection(o, boy)| == 1 && CheckIntersection(o, boy)[0].LandOn? &&
      exists k :: IsFirstHit(o.boundingBoxes, boy.boundingBox, k) && CheckIntersection(o, boy)[0].y == o.boundingBoxes[k].Y()
    ensures o.Platform? && Hits(o, boy.boundingBox) && !Descending(boy, o.position) ==>
      CheckIntersection(o, boy) == if Rising(boy, o.position) then [HitCeiling, KnockOut] else [KnockOut]
    ensures KnockOut in CheckIntersection(o, boy) <==> Hits(o, boy.boundingBox) && !(o.Platform? && Descending(boy, o.position))
  {
    if o.Platform? {
      var r := FirstIntersecting(o.boundingBoxes, boy.boundingBox);
    }
  }

  /** `rightmost`: the greatest right edge of the list, 0 for an empty list.
      The function is not part of src/game/obstacles.rs; this is its assumed
      definition. */
  function Rightmost(os: seq<Obstacle>): (r: int)
    ensures os == [] ==> r == 0
    ensures forall i :: 0 <= i < |os| ==> Right(os[i]) <= r
    ensures os != [] ==> exists i :: 0 <= i < |os| && r == Right(os[i])
    decreases |os|
  {
    if os == [] then 0
    else if |os| == 1 then Right(os[0])
    else Max(Right(os[0]), Rightmost(os[1..]))
  }
}
