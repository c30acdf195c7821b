/** What the weights of the scheduler mean: the throughput is halved every five priorities. */
module Shares {
  import opened Prios
  import opened Scheduling

  // ----- the law behind the table

  function Fifth(x: nat): nat {
    x * x * x * x * x
  }

  function Doubled(x: nat, n: nat): nat {
    if n == 0 then x else 2 * Doubled(x, n - 1)
  }

  /** The fifth power of 2 * 100. */
  const IDEAL: nat := 320000000000

  /** `w` is 100 * 2^(p / 5), rounded to the nearest integer: between the odd numbers around
      2 * w lies 2 * 100 * 2^(p / 5), in fifth powers. */
  predicate Rounded(p: nat, w: nat) {
    w > 0 && Fifth(2 * w - 1) < Doubled(IDEAL, p) < Fifth(2 * w + 1)
  }

  predicate Close(p: nat, ideal: nat) {
    p < PRIO_MAX && Fifth(2 * Weight(p) - 1) < ideal < Fifth(2 * Weight(p) + 1)
  }

  /** Four priorities at a time. */
  predicate Four(p: nat, ideal: nat) {
    Close(p, ideal) && Close(p + 1, 2 * ideal) && Close(p + 2, 4 * ideal) && Close(p + 3, 8 * ideal)
  }

  lemma Four0()
    ensures Four(0, 0x1 * IDEAL)
  {
  }

  lemma Four4()
    ensures Four(4, 0x10 * IDEAL)
  {
  }

  lemma Four8()
    ensures Four(8, 0x100 * IDEAL)
  {
  }

  lemma Four12()
    ensures Four(12, 0x1000 * IDEAL)
  {
  }

  lemma Four16()
    ensures Four(16, 0x10000 * IDEAL)
  {
  }

  lemma Four20()
    ensures Four(20, 0x100000 * IDEAL)
  {
  }

  lemma Four24()
    ensures Four(24, 0x1000000 * IDEAL)
  {
  }

  lemma Four28()
    ensures Four(28, 0x10000000 * IDEAL)
  {
  }

  lemma Four32()
    ensures Four(32, 0x100000000 * IDEAL)
  {
  }

  lemma Four36()
    ensures Four(36, 0x1000000000 * IDEAL)
  {
  }

  lemma Four40()
    ensures Four(40, 0x10000000000 * IDEAL)
  {
  }

  lemma Four44()
    ensures Four(44, 0x100000000000 * IDEAL)
  {
  }

  lemma Four48()
    ensures Four(48, 0x1000000000000 * IDEAL)
  {
  }

  lemma Four52()
    ensures Four(52, 0x10000000000000 * IDEAL)
  {
  }

  lemma Four56()
    ensures Four(56, 0x100000000000000 * IDEAL)
  {
  }

  lemma Four60()
    ensures Four(60, 0x1000000000000000 * IDEAL)
  {
  }

  function Sixteens(k: nat): nat {
    if k == 0 then 1 else 16 * Sixteens(k - 1)
  }

  lemma DoubledFour(n: nat)
    ensures Doubled(IDEAL, n + 1) == 2 * Doubled(IDEAL, n) && Doubled(IDEAL, n + 2) == 4 * Doubled(IDEAL, n)
    ensures Doubled(IDEAL, n + 3) == 8 * Doubled(IDEAL, n) && Doubled(IDEAL, n + 4) == 16 * Doubled(IDEAL, n)
  {
  }

  lemma {:induction false} Sixteenfold(k: nat)
    ensures Doubled(IDEAL, 4 * k) == Sixteens(k) * IDEAL
  {
    if k > 0 {
      Sixteenfold(k - 1);
      DoubledFour(4 * (k - 1));
    }
  }

  lemma Fours(k: nat, ideal: nat)
    requires k < 16 && ideal == Doubled(IDEAL, 4 * k)
    ensures Four(4 * k, ideal)
  {
    Sixteenfold(k);
    hide Four, Doubled;
    match k
    case 0 => Four0();
    case 1 => Four4();
    case 2 => Four8();
    case 3 => Four12();
    case 4 => Four16();
    case 5 => Four20();
    case 6 => Four24();
    case 7 => Four28();
    case 8 => Four32();
    case 9 => Four36();
    case 10 => Four40();
    case 11 => Four44();
    case 12 => Four48();
    case 13 => Four52();
    case 14 => Four56();
    case _ => Four60();
  }

  /** Every weight is the geometric series, rounded. */
  lemma RoundedAt(p: nat)
    requires p < PRIO_MAX
    ensures Rounded(p, Weight(p))
  {
    hide Close, Rounded, Doubled, Weight;
    CloseAt(p / 4, p % 4);
    CloseIsRounded(p);
  }

  lemma CloseAt(k: nat, r: nat)
    requires k < 16 && r < 4
    ensures Close(4 * k + r, Doubled(IDEAL, 4 * k + r))
  {
    hide Close, Doubled;
    Fours(k, Doubled(IDEAL, 4 * k));
    DoubledFour(4 * k);
  }

  lemma CloseIsRounded(p: nat)
    requires Close(p, Doubled(IDEAL, p))
    ensures Rounded(p, Weight(p))
  {
    hide Weight, Fifth, Doubled;
  }

  lemma Product(a: nat, b: nat, c: nat, d: nat)
    requires a <= b && c <= d
    ensures a * c <= b * d
  {
    assert a * c <= b * c <= b * d;
  }

  lemma FifthRises(a: nat, b: nat)
    requires a <= b
    ensures Fifth(a) <= Fifth(b)
  {
    Product(a, b, a, b);
    Product(a * a, b * b, a, b);
    Product(a * a * a, b * b * b, a, b);
    Product(a * a * a * a, b * b * b * b, a, b);
  }

  /** The table is the geometric series, rounded, and nothing else. */
  lemma WeightExact(p: nat, w: nat)
    requires p < PRIO_MAX
    ensures w == Weight(p) <==> Rounded(p, w)
  {
    RoundedAt(p);
    hide Weight, Fifth, Doubled;
    if Rounded(p, w) {
      if w < Weight(p) {
        FifthRises(2 * w + 1, 2 * Weight(p) - 1);
      }
      if Weight(p) < w {
        FifthRises(2 * Weight(p) + 1, 2 * w - 1);
      }
    }
  }

  // ----- the throughput is halved

  lemma WeightRises(p: nat)
    requires p + 1 < PRIO_MAX
    ensures Weight(p) < Weight(p + 1)
  {
  }

  /** A more urgent priority is always cheaper. */
  lemma {:induction false} WeightsRise(p: nat, q: nat)
    requires p < q < PRIO_MAX
    ensures Weight(p) < Weight(q)
  {
    hide Weight;
    WeightRises(q - 1);
    if p < q - 1 {
      WeightsRise(p, q - 1);
    }
  }

  lemma Halving(p: nat)
    requires p + 5 < PRIO_MAX
    ensures 2 * Weight(p) - 1 <= Weight(p + 5) <= 2 * Weight(p) + 1
  {
  }

  /** Five priorities double the weight, up to rounding. */
  lemma {:induction false} Halvings(p: nat, k: nat)
    requires p + 5 * k < PRIO_MAX
    ensures var m := Doubled(1, k);
      m > 0 && m * Weight(p) - (m - 1) <= Weight(p + 5 * k) <= m * Weight(p) + (m - 1)
  {
    hide Weight;
    if k > 0 {
      Halvings(p, k - 1);
      Halving(p + 5 * (k - 1));
      assert p + 5 * (k - 1) + 5 == p + 5 * k;
      assert 2 * Doubled(1, k - 1) * Weight(p) == Doubled(1, k) * Weight(p);
    }
  }

  /** Served side by side from equal points, priority `p` gets 2^k servings for one of priority
      p + 5 * k, but for one serving at either end and a hundredth for rounding. */
  lemma SharesHalve(s: State, acts: seq<Act>, p: nat, k: nat)
    requires Valid(s) && ValidActs(acts) && p + 5 * k < PRIO_MAX && k > 0
    requires Multiples(s.points) && NoOverflow(s, acts)
    requires StaysQueued(s, acts, p) && StaysQueued(s, acts, p + 5 * k)
    requires s.points[p] == s.points[p + 5 * k]
    ensures var a, b, m := Served(s, acts, p), Served(s, acts, p + 5 * k), Doubled(1, k);
      && 100 * (a - m * b - 1) <= (m - 1) * b
      && 100 * (m * b - a - m) <= (m - 1) * (b + 1)
  {
    hide Weight, Multiples, NoOverflow, StaysQueued, Served;
    Fairness(s, acts, p, p + 5 * k);
    Halvings(p, k);
    WeightExact(0, Weight(0));
    WeightBase();
    if p > 0 {
      WeightsRise(0, p);
    }
    var a, b, m := Served(s, acts, p), Served(s, acts, p + 5 * k), Doubled(1, k);
    HalfShares(a, b, m, Weight(p), Weight(p + 5 * k));
  }

  lemma WeightBase()
    ensures Weight(0) == 100
  {
  }

  lemma HalfShares(a: nat, b: nat, m: nat, w: nat, v: nat)
    requires m > 0 && w >= 100 && m * w - (m - 1) <= v <= m * w + (m - 1)
    requires a * w <= b * v + w && b * v <= a * w + v
    ensures 100 * (a - m * b - 1) <= (m - 1) * b
    ensures 100 * (m * b - a - m) <= (m - 1) * (b + 1)
  {
    var mw := m * w;
    Product(b, b, v, mw + (m - 1));
    Product(b, b, mw - (m - 1), v);
    assert b * (mw + (m - 1)) == b * mw + b * (m - 1);
    assert b * (mw - (m - 1)) == b * mw - b * (m - 1);
    assert (b + 1) * (m - 1) == b * (m - 1) + (m - 1);
    Expanded(a, b, m, w);
    Scaled(a - m * b - 1, w, b * (m - 1));
    Scaled(m * b - a - m, w, (b + 1) * (m - 1));
  }

  lemma Expanded(a: int, b: int, m: int, w: int)
    ensures (a - m * b - 1) * w == a * w - b * (m * w) - w
    ensures (m * b - a - m) * w == b * (m * w) - a * w - m * w
  {
    assert m * b * w == b * (m * w);
    Distribute(a, m * b, 1, w);
    Distribute(m * b, a, m, w);
  }

  lemma Distribute(x: int, y: int, z: int, w: int)
    ensures (x - y - z) * w == x * w - y * w - z * w
  {
  }

  lemma Scaled(x: int, w: nat, bound: nat)
    requires w >= 100 && x * w <= bound
    ensures 100 * x <= bound
  {
    if x > 0 {
      assert x * 100 <= x * w;
    }
  }
}
