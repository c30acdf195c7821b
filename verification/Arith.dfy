/** Division facts the solver does not find by itself. */
module Arith {
  function Abs(a: int): nat {
    if a < 0 then -a else a
  }

  lemma AtLeast(a: int, w: int)
    requires a >= 1 && w > 0
    ensures a * w >= w
  {
  }

  lemma OneMore(n: int, w: int)
    ensures (n + 1) * w == n * w + w && (1 + n) * w == n * w + w
  {
  }

  lemma DivUnique(x: int, w: int, q: int, r: int)
    requires w > 0 && 0 <= r < w && x == q * w + r
    ensures x / w == q && x % w == r
  {
    var q', r' := x / w, x % w;
    assert x == q' * w + r';
    assert (q' - q) * w == r - r' && (q - q') * w == r' - r;
    if q' > q {
      AtLeast(q' - q, w);
    } else if q' < q {
      AtLeast(q - q', w);
    }
  }

  lemma AddOnce(x: int, w: int)
    requires w > 0
    ensures (x + w) / w == x / w + 1 && (x + w) % w == x % w
  {
    assert x + w == (x / w + 1) * w + x % w;
    DivUnique(x + w, w, x / w + 1, x % w);
  }

  lemma SmallModulo(x: int, w: int)
    requires 0 <= x && w > 0
    ensures 0 <= x % w <= x
    ensures x < w <==> x % w == x
  {
    if x < w {
      DivUnique(x, w, 0, x);
    }
  }
}
