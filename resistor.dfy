/**
 * A placed resistor on the canvas: its position, its size, and its rotation,
 * which the user advances a quarter turn at a time. The rotation is drawn
 * about the centre of the symbol's box.
 */
module ResistorShape {
  import opened Wrappers

  /**
   * One quarter turn, wrapped into [0, 360). The angle is never negative, so
   * JavaScript's truncating `%` and Dafny's `%` agree here.
   */
  function Turn(angle: nat): (r: nat)
    ensures r < 360
    ensures (angle + 90 - r) % 360 == 0
  {
    (angle + 90) % 360
  }

  /** The angle after `n` quarter turns from `angle`. */
  function Turns(angle: nat, n: nat): nat {
    if n == 0 then angle else Turn(Turns(angle, n - 1))
  }

  /** The angles a resistor can show. */
  predicate RightAngle(a: int) {
    a == 0 || a == 90 || a == 180 || a == 270
  }

  /** `n` quarter turns from an angle in [0, 360) add 90 * n degrees, modulo 360. */
  lemma {:induction false} TurnsClosedForm(angle: nat, n: nat)
    requires angle < 360
    ensures Turns(angle, n) == (angle + 90 * n) % 360
  {
    if n == 0 {
    } else {
      TurnsClosedForm(angle, n - 1);
      var k := angle + 90 * (n - 1);
      var q := k / 360;
      assert k == 360 * q + k % 360;
      assert angle + 90 * n == 360 * q + (k % 360 + 90);
      assert Turns(angle, n) == (k % 360 + 90) % 360;
      SameRemainder(angle + 90 * n, k % 360 + 90, q);
    }
  }

  /** Numbers that differ by a multiple of 360 have the same remainder. */
  lemma SameRemainder(a: nat, b: nat, q: nat)
    requires a == 360 * q + b
    ensures a % 360 == b % 360
  {
  }

  /** Four quarter turns restore any angle in [0, 360). */
  lemma FourTurnsRestore(angle: nat)
    requires angle < 360
    ensures Turns(angle, 4) == angle
  {
    TurnsClosedForm(angle, 4);
  }

  /** Starting from 0, every reachable angle is one of 0, 90, 180 and 270. */
  lemma {:induction false} TurnsFromZeroAreRightAngles(n: nat)
    ensures RightAngle(Turns(0, n))
  {
    if n > 0 {
      TurnsFromZeroAreRightAngles(n - 1);
    }
  }

  datatype Point = Point(x: real, y: real)

  /**
   * The pivot of the `rotate(...)` transform: the centre of the box with
   * top-left corner (x, y) and the given size, equally far from its left and
   * right edges and from its top and bottom edges.
   */
  function Centre(x: real, y: real, width: real, height: real): (c: Point)
    ensures c.x - x == (x + width) - c.x
    ensures c.y - y == (y + height) - c.y
  {
    Point(x + width / 2.0, y + height / 2.0)
  }

  /** The resistor component's state. */
  class UseResistor {
    var X: real
    var Y: real
    var width: real
    var height: real
    var rotate: int

    ghost predicate Valid()
      reads this
    {
      RightAngle(rotate)
    }

    /** The pivot the component draws its rotation about. */
    function Pivot(): Point
      reads this
    {
      Centre(X, Y, width, height)
    }

    /** A new component: position from the props (0 when absent), the given size, not rotated. */
    constructor(x: Option<real>, y: Option<real>, width: real, height: real)
      ensures Valid()
      ensures x.None? ==> X == 0.0
      ensures x.Some? ==> X == x.value
      ensures y.None? ==> Y == 0.0
      ensures y.Some? ==> Y == y.value
      ensures this.width == width && this.height == height
      ensures rotate == 0
    {
      X := x.GetOr(0.0);
      Y := y.GetOr(0.0);
      this.width := width;
      this.height := height;
      rotate := 0;
    }

    /** setCoordinate: moves the component; size and rotation stay, the pivot moves with it. */
    method SetCoordinate(x: real, y: real)
      requires Valid()
      modifies this
      ensures Valid()
      ensures X == x && Y == y
      ensures width == old(width) && height == old(height) && rotate == old(rotate)
      ensures Pivot().x - old(Pivot().x) == x - old(X)
      ensures Pivot().y - old(Pivot().y) == y - old(Y)
    {
      X, Y := x, y;
    }

    /** changeRotate: a quarter turn; position and size stay. */
    method ChangeRotate()
      requires Valid()
      modifies this
      ensures Valid()
      ensures rotate == Turn(old(rotate))
      ensures 0 <= rotate < 360
      ensures X == old(X) && Y == old(Y) && width == old(width) && height == old(height)
    {
      var oldRotate := rotate;
      rotate := Turn(oldRotate);
    }
  }

  /** Four presses of the rotate control bring a resistor back to its angle and leave it in place. */
  method FullTurnScenario(x: real, y: real, width: real, height: real)
    returns (angles: seq<int>, pivot: Point)
    ensures angles == [90, 180, 270, 0]
    ensures pivot == Centre(x, y, width, height)
  {
    var r := new UseResistor(Some(x), Some(y), width, height);
    r.ChangeRotate();
    var a1 := r.rotate;
    r.ChangeRotate();
    var a2 := r.rotate;
    r.ChangeRotate();
    var a3 := r.rotate;
    r.ChangeRotate();
    angles := [a1, a2, a3, r.rotate];
    pivot := r.Pivot();
  }
}
