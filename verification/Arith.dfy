// Facts about products and floored quotients of integers.

module Arith {

  function CeilDiv(a: nat, b: nat): (r: nat)
    requires b > 0
    ensures r * b >= a && (r > 0 ==> (r - 1) * b < a)
  {
    FloorBounds(a + b - 1, b);
    assert ((a + b - 1) / b - 1) * b == (a + b - 1) / b * b - b;
    (a + b - 1) / b
  }

  lemma MulMono(a: int, b: int, k: nat)
    requires a <= b
    ensures a * k <= b * k
  {
    assert b * k - a * k == (b - a) * k;
  }

  lemma FloorBounds(x: int, y: int)
    requires y > 0
    ensures x / y * y <= x < (x / y + 1) * y
    ensures x >= 0 ==> x / y >= 0
  {
    assert x == x / y * y + x % y;
    assert (x / y + 1) * y == x / y * y + y;
  }

  // The floored quotient is the greatest k with k * y <= x.
  lemma AtMostFloor(k: int, x: int, y: int)
    requires y > 0
    ensures k <= x / y <==> k * y <= x
  {
    FloorBounds(x, y);
    if k <= x / y {
      MulMono(k, x / y, y);
    } else {
      MulMono(x / y + 1, k, y);
    }
  }

  // The ceiling is the least k with k * y >= x.
  lemma AtLeastCeil(k: nat, x: nat, y: nat)
    requires y > 0
    ensures CeilDiv(x, y) <= k <==> x <= k * y
  {
    var c := CeilDiv(x, y);
    if c <= k {
      MulMono(c, k, y);
    } else {
      MulMono(k, c - 1, y);
    }
  }

  // A fraction that is at least another one has at least its floor.
  lemma FloorMono(x: int, y: int, z: int, w: int)
    requires y > 0 && w > 0 && x * w >= z * y
    ensures x / y >= z / w
  {
    var k := z / w;
    FloorBounds(z, w);
    MulMono(k * w, z, y);
    assert k * w * y == k * y * w;
    assert (x + 1) * w == x * w + w;
    if k * y > x {
      MulMono(x + 1, k * y, w);
    }
    AtMostFloor(k, x, y);
  }
}
