/** Integer geometry and images of the game engine.  The engine module itself
    (src/engine.rs) is not part of this model: these are the assumed
    definitions the gameplay core relies on, with `right = x + width` and the
    usual strict axis-aligned overlap test. */
module Engine {

  datatype Point = Point(x: int, y: int)

  /** An axis-aligned rectangle anchored at its top-left corner. */
  datatype Rect = Rect(position: Point, width: int, height: int) {

    function X(): int { position.x }

    function Y(): int { position.y }

    function Right(): int { position.x + width }

    function Bottom(): int { position.y + height }

    /** Moves the rectangle to a new left edge, keeping everything else. */
    function SetX(x: int): Rect { Rect(Point(x, position.y), width, height) }

    /** The two rectangles overlap in an area of positive size. */
    predicate Intersects(other: Rect) {
      X() < other.Right() && Right() > other.X() &&
      Y() < other.Bottom() && Bottom() > other.Y()
    }
  }

  /** `Rect::default()`: everything zero. */
  const DefaultRect := Rect(Point(0, 0), 0, 0)

  /** A loaded image element; only its size matters to the core. */
  datatype Element = Element(width: int, height: int)

  /** An element placed at a position; its bounding box is its placed rectangle. */
  datatype Image = Image(position: Point, width: int, height: int) {

    function BoundingBox(): Rect { Rect(position, width, height) }

    function Right(): int { BoundingBox().Right() }

    function MoveHorizontally(d: int): Image {
      Image(Point(position.x + d, position.y), width, height)
    }

    function SetX(x: int): Image { Image(Point(x, position.y), width, height) }
  }

  /** `Image::new`: the element drawn at `position`, at its own size. */
  function NewImage(element: Element, position: Point): Image {
    Image(position, element.width, element.height)
  }

  /** A named frame of a sprite sheet. */
  datatype Cell = Cell(frame: Rect)

  /** A sprite sheet's metadata: frame name to cell. */
  type Sheet = map<string, Cell>

  /** Integer division as Rust's `/` does it on signed integers: the quotient
      is rounded toward zero, so the remainder takes the sign of the dividend. */
  function TruncDiv(a: int, b: int): (q: int)
    requires b > 0
    ensures 0 <= a ==> 0 <= a - q * b < b
    ensures a < 0 ==> -b < a - q * b <= 0
  {
    if a >= 0 then a / b else -((-a) / b)
  }

  /** On a negative dividend, the background step's division by 3 rounded
      toward zero agrees with Dafny's Euclidean `/` exactly when 3 divides
      the dividend, and is one more otherwise. */
  lemma TruncDivVsEuclid(a: int)
    requires a < 0
    ensures TruncDiv(a, 3) == if a % 3 == 0 then a / 3 else a / 3 + 1
  {
    var q := TruncDiv(a, 3);
    assert -3 < a - q * 3 <= 0;
    assert a == (a / 3) * 3 + a % 3;
  }

  function Max(a: int, b: int): int { if a >= b then a else b }
}
