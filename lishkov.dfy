/** The substitution demo: a mutable rectangle, a square that inherits
    from it and overrides both setters, a factory, and the client `useIt`
    whose expectation the square breaks.
    Java's dynamic dispatch is modelled by a `kind` fixed at construction:
    the setters behave as the class the object was created as. */
module Lishkov {

  /** Java's 32-bit `int`. */
  type Int32 = x: int | -0x8000_0000 <= x < 0x8000_0000

  /** Java's `int` arithmetic: the value in range that is congruent to
      `x` modulo 2^32 (two's-complement wrap-around). */
  function Wrap(x: int): (r: Int32)
    ensures (r - x) % 0x1_0000_0000 == 0
    ensures -0x8000_0000 <= x < 0x8000_0000 ==> r == x
  {
    (x + 0x8000_0000) % 0x1_0000_0000 - 0x8000_0000
  }

  /** The run-time class of an object: `new Rectangle(..)` or `new Square(..)`. */
  datatype Kind = RectangleClass | SquareClass

  class Rectangle {
    const kind: Kind
    var width: Int32
    var height: Int32

    /** What a Square promises: its two sides are equal. */
    ghost predicate Valid()
      reads this
    {
      kind == SquareClass ==> width == height
    }

    /** `new Rectangle()`: both fields keep Java's default 0. */
    constructor ()
      ensures Valid() && kind == RectangleClass
      ensures width == 0 && height == 0
    {
      kind := RectangleClass;
      width, height := 0, 0;
    }

    /** `new Rectangle(width, height)`. */
    constructor Sized(width: Int32, height: Int32)
      ensures Valid() && kind == RectangleClass
      ensures this.width == width && this.height == height
    {
      kind := RectangleClass;
      this.width, this.height := width, height;
    }

    /** `new Square()`: both fields keep Java's default 0. */
    constructor EmptySquare()
      ensures Valid() && kind == SquareClass
      ensures width == 0 && height == 0
    {
      kind := SquareClass;
      width, height := 0, 0;
    }

    /** `new Square(size)`. */
    constructor Square(size: Int32)
      ensures Valid() && kind == SquareClass
      ensures width == size && height == size
    {
      kind := SquareClass;
      width, height := size, size;
    }

    /** `getArea`: `width * height` in Java's 32-bit arithmetic. */
    function Area(): (a: Int32)
      reads this
      ensures (a - width * height) % 0x1_0000_0000 == 0
      ensures -0x8000_0000 <= width * height < 0x8000_0000 ==> a == width * height
    {
      Wrap(width * height)
    }

    /** `isSquare`: true exactly when the sides are equal, so always for
        an object created as a Square. */
    predicate IsSquare(): (b: bool)
      reads this
      ensures b <==> width == height
      ensures Valid() && kind == SquareClass ==> b
    {
      width == height
    }

    /** `setWidth`. A Rectangle leaves its height alone; a Square's
        override writes the new width into both fields. */
    method SetWidth(width: Int32)
      modifies this
      ensures Valid()
      ensures this.width == width
      ensures kind == RectangleClass ==> height == old(height)
      ensures kind == SquareClass ==> height == width
    {
      if kind == SquareClass {
        this.width := width;
        this.height := width;
      } else {
        this.width := width;
      }
    }

    /** `setHeight`. Only a Rectangle can promise that the width is kept:
        a Square's override writes the new height into both fields. */
    method SetHeight(height: Int32)
      modifies this
      ensures Valid()
      ensures this.height == height
      ensures kind == RectangleClass ==> width == old(width)
      ensures kind == SquareClass ==> width == height
    {
      if kind == SquareClass {
        this.height := height;
        this.width := height;
      } else {
        this.height := height;
      }
    }
  }

  /** `RectangleFactory.newRectangle`. */
  method NewRectangle(width: Int32, height: Int32) returns (r: Rectangle)
    ensures fresh(r) && r.Valid() && r.kind == RectangleClass
    ensures r.width == width && r.height == height
  {
    r := new Rectangle.Sized(width, height);
  }

  /** `RectangleFactory.newSquare`: a plain Rectangle whose sides are
      equal, so it is square without being a Square. */
  method NewSquare(side: Int32) returns (r: Rectangle)
    ensures fresh(r) && r.Valid() && r.kind == RectangleClass
    ensures r.width == side && r.height == side
    ensures r.IsSquare() && r.Area() == Wrap(side * side)
  {
    r := new Rectangle.Sized(side, side);
  }

  /** `DemoIII.useIt` without its output: the area the client expects
      after `setHeight(10)` and the area it gets. For a Rectangle the two
      agree; for a Square the width follows the height, and they agree
      only when the old width was already 10. */
  method UseIt(r: Rectangle) returns (expected: Int32, actual: Int32)
    modifies r
    ensures r.Valid() && r.height == 10
    ensures expected == Wrap(old(r.width) * 10)
    ensures actual == r.Area()
    ensures r.kind == RectangleClass ==> r.width == old(r.width) && actual == expected
    ensures r.kind == SquareClass ==> r.width == 10 && actual == 100
    ensures r.kind == SquareClass && -0x0CCC_CCCC <= old(r.width) <= 0x0CCC_CCCC ==>
              (actual == expected <==> old(r.width) == 10)
  {
    var width: int := r.width;
    r.SetHeight(10);
    expected := Wrap(width * 10);
    actual := r.Area();
  }

  /** `DemoIII.main` without its output: a 2x3 Rectangle gets the expected
      area 20, while a Square of width 5 is expected to give 50 and gives 100. */
  method SubstitutionDemo() returns (rectExpected: int, rectActual: int, squareExpected: int, squareActual: int)
    ensures rectExpected == rectActual == 20
    ensures squareExpected == 50 && squareActual == 100
  {
    var rc := new Rectangle.Sized(2, 3);
    rectExpected, rectActual := UseIt(rc);
    var sq := new Rectangle.EmptySquare();
    sq.SetWidth(5);
    squareExpected, squareActual := UseIt(sq);
  }
}
