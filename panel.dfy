/** nanoleafapi.Panel (with the fields it inherits from Position): one light panel of a
    layout, with its position and a mutable RGBW colour. */
module Panels {
  import opened JavaText

  /** floor(sqrt(d)) == 86 for a sum of squares d, in exact integer form. */
  predicate AtNeighborDistance(d: nat)
  {
    86 * 86 <= d < 87 * 87
  }

  /** (p1x - p2x)^2 + (p1y - p2y)^2 with the differences taken in Java `int`. */
  function SquaredDistance(x1: Int32, y1: Int32, x2: Int32, y2: Int32): nat
  {
    var dx := Wrap32(x1 - x2);
    var dy := Wrap32(y1 - y2);
    dx * dx + dy * dy
  }

  /** An `int` difference has the same square whichever way round it is taken. */
  lemma WrappedDifferenceSquare(a: Int32, b: Int32)
    ensures Wrap32(a - b) * Wrap32(a - b) == Wrap32(b - a) * Wrap32(b - a)
  {
    var u := Wrap32(a - b);
    var v := Wrap32(b - a);
    if a - b == -INT_MIN {
      Wrap32OnePeriod(a - b);
      assert u == INT_MIN && v == INT_MIN;
    } else if a - b > INT_MAX {
      Wrap32OnePeriod(a - b);
      Wrap32OnePeriod(b - a);
      assert v == -u;
    } else if a - b < INT_MIN {
      Wrap32OnePeriod(a - b);
      Wrap32OnePeriod(b - a);
      assert v == -u;
    } else if a - b == INT_MIN {
      Wrap32OnePeriod(b - a);
      assert v == INT_MIN;
    } else {
      assert v == -u;
    }
  }

  lemma SquaredDistanceSymmetric(x1: Int32, y1: Int32, x2: Int32, y2: Int32)
    ensures SquaredDistance(x1, y1, x2, y2) == SquaredDistance(x2, y2, x1, y1)
  {
    WrappedDifferenceSquare(x1, x2);
    WrappedDifferenceSquare(y1, y2);
  }

  class Panel {
    const id: Int32
    const shapeType: Int32
    var x: Int32
    var y: Int32
    var orientation: Int32
    var red: Int32
    var green: Int32
    var blue: Int32
    var white: Int32

    /** Panel(id, x, y, orientation): the colour starts at 0 and shapeType stays 0. */
    constructor(id: Int32, x: Int32, y: Int32, orientation: Int32)
      ensures this.id == id && this.x == x && this.y == y && this.orientation == orientation
      ensures shapeType == 0
      ensures red == 0 && green == 0 && blue == 0 && white == 0
    {
      this.id := id;
      this.shapeType := 0;
      this.x := x;
      this.y := y;
      this.orientation := orientation;
      this.red := 0;
      this.green := 0;
      this.blue := 0;
      this.white := 0;
    }

    /** Panel(id, x, y, orientation, shapeType). */
    constructor WithShape(id: Int32, x: Int32, y: Int32, orientation: Int32, shapeType: Int32)
      ensures this.id == id && this.x == x && this.y == y && this.orientation == orientation
      ensures this.shapeType == shapeType
      ensures red == 0 && green == 0 && blue == 0 && white == 0
    {
      this.id := id;
      this.shapeType := shapeType;
      this.x := x;
      this.y := y;
      this.orientation := orientation;
      this.red := 0;
      this.green := 0;
      this.blue := 0;
      this.white := 0;
    }

    method SetX(value: Int32)
      modifies this
      ensures x == value
      ensures y == old(y) && orientation == old(orientation)
      ensures red == old(red) && green == old(green) && blue == old(blue) && white == old(white)
    {
      x := value;
    }

    method SetY(value: Int32)
      modifies this
      ensures y == value
      ensures x == old(x) && orientation == old(orientation)
      ensures red == old(red) && green == old(green) && blue == old(blue) && white == old(white)
    {
      y := value;
    }

    method SetOrientation(value: Int32)
      modifies this
      ensures orientation == value
      ensures x == old(x) && y == old(y)
      ensures red == old(red) && green == old(green) && blue == old(blue) && white == old(white)
    {
      orientation := value;
    }

    method SetRed(value: Int32)
      modifies this
      ensures red == value
      ensures green == old(green) && blue == old(blue) && white == old(white)
      ensures x == old(x) && y == old(y) && orientation == old(orientation)
    {
      red := value;
    }

    method SetGreen(value: Int32)
      modifies this
      ensures green == value
      ensures red == old(red) && blue == old(blue) && white == old(white)
      ensures x == old(x) && y == old(y) && orientation == old(orientation)
    {
      green := value;
    }

    method SetBlue(value: Int32)
      modifies this
      ensures blue == value
      ensures red == old(red) && green == old(green) && white == old(white)
      ensures x == old(x) && y == old(y) && orientation == old(orientation)
    {
      blue := value;
    }

    method SetWhite(value: Int32)
      modifies this
      ensures white == value
      ensures red == old(red) && green == old(green) && blue == old(blue)
      ensures x == old(x) && y == old(y) && orientation == old(orientation)
    {
      white := value;
    }

    /** setRGB changes the three colour channels and nothing else. */
    method SetRGB(r: Int32, g: Int32, b: Int32)
      modifies this
      ensures red == r && green == g && blue == b
      ensures white == old(white)
      ensures x == old(x) && y == old(y) && orientation == old(orientation)
    {
      red := r;
      green := g;
      blue := b;
    }

    /** setRGBW: setRGB, then the white channel. */
    method SetRGBW(r: Int32, g: Int32, b: Int32, w: Int32)
      modifies this
      ensures red == r && green == g && blue == b && white == w
      ensures x == old(x) && y == old(y) && orientation == old(orientation)
    {
      SetRGB(r, g, b);
      white := w;
    }

    /** Whether p's centre lies at the neighbour distance from this panel's centre. */
    predicate IsNeighbor(p: Panel)
      reads this, p
    {
      AtNeighborDistance(SquaredDistance(x, y, p.x, p.y))
    }

    /** The panels of ps that are neighbours of this one, in the order of ps. */
    function NeighborsIn(ps: seq<Panel>): seq<Panel>
      reads this, set p | p in ps
    {
      if ps == [] then []
      else NeighborsIn(ps[..|ps| - 1]) + (if IsNeighbor(ps[|ps| - 1]) then [ps[|ps| - 1]] else [])
    }

    /** getNeighbors(Panel[]): one pass over the array, keeping each panel at the
        neighbour distance. */
    method GetNeighbors(panels: array<Panel>) returns (neighbors: seq<Panel>)
      ensures neighbors == NeighborsIn(panels[..])
    {
      neighbors := [];
      for i := 0 to panels.Length
        invariant neighbors == NeighborsIn(panels[..i])
      {
        var p2 := panels[i];
        if AtNeighborDistance(SquaredDistance(x, y, p2.x, p2.y)) {
          neighbors := neighbors + [p2];
        }
        assert panels[..i + 1][..i] == panels[..i];
      }
      assert panels[..panels.Length] == panels[..];
    }

    /** The neighbours keep the input order and are never more than the input. */
    lemma {:induction false} NeighborsInBounded(ps: seq<Panel>)
      ensures |NeighborsIn(ps)| <= |ps|
      ensures forall q :: q in NeighborsIn(ps) <==> q in ps && IsNeighbor(q)
    {
      if ps != [] {
        NeighborsInBounded(ps[..|ps| - 1]);
        assert ps == ps[..|ps| - 1] + [ps[|ps| - 1]];
      }
    }

    /** A panel at this panel's own position, including this panel, is not a neighbour. */
    lemma NotOwnNeighbor(p: Panel)
      requires p.x == x && p.y == y
      ensures !IsNeighbor(p)
    {
      assert Wrap32(x - p.x) == 0 && Wrap32(y - p.y) == 0;
    }

    /** Being a neighbour is symmetric. */
    lemma NeighborSymmetric(p: Panel)
      ensures IsNeighbor(p) <==> p.IsNeighbor(this)
    {
      SquaredDistanceSymmetric(x, y, p.x, p.y);
    }
  }
}
