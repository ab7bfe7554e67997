/** Scaling a one-bit glyph to a grey one by averaging areas with integers only, and finding a glyph by its code point. */
module Glyphs {
  import opened Options

  // ---- sums -------------------------------------------------------------------

  ghost function Sum(n: nat, f: nat -> nat): nat {
    if n == 0 then 0 else Sum(n - 1, f) + f(n - 1)
  }

  lemma {:induction false} SumSame(n: nat, f: nat -> nat, g: nat -> nat)
    requires forall i: nat :: i < n ==> f(i) == g(i)
    ensures Sum(n, f) == Sum(n, g)
  {
    if n > 0 {
      SumSame(n - 1, f, g);
    }
  }

  lemma {:induction false} SumZero(n: nat, f: nat -> nat)
    requires forall i: nat :: i < n ==> f(i) == 0
    ensures Sum(n, f) == 0
  {
    if n > 0 {
      SumZero(n - 1, f);
    }
  }

  /** Terms past `m` that are all zero add nothing. */
  lemma {:induction false} SumStops(m: nat, n: nat, f: nat -> nat)
    requires m <= n && forall i: nat :: m <= i < n ==> f(i) == 0
    ensures Sum(n, f) == Sum(m, f)
  {
    if m < n {
      SumStops(m, n - 1, f);
    }
  }

  function Times(a: nat, b: nat): nat {
    a * b
  }

  lemma TimesSum(k: nat, a: nat, b: nat)
    ensures Times(k, a + b) == Times(k, a) + Times(k, b) && Times(k, 0) == 0
  {
  }

  lemma TimesTurned(a: nat, b: nat)
    ensures Times(a, b) == Times(b, a)
  {
  }

  lemma {:induction false} SumScaled(n: nat, f: nat -> nat, k: nat, g: nat -> nat)
    requires forall i: nat :: i < n ==> g(i) == Times(k, f(i))
    ensures Sum(n, g) == Times(k, Sum(n, f))
  {
    hide Times;
    TimesSum(k, 0, 0);
    if n > 0 {
      SumScaled(n - 1, f, k, g);
      TimesSum(k, Sum(n - 1, f), f(n - 1));
    }
  }

  lemma {:induction false} SumAdded(n: nat, f: nat -> nat, g: nat -> nat, h: nat -> nat)
    requires forall i: nat :: i < n ==> h(i) == f(i) + g(i)
    ensures Sum(n, h) == Sum(n, f) + Sum(n, g)
  {
    if n > 0 {
      SumAdded(n - 1, f, g, h);
    }
  }

  lemma {:induction false} SumAtMost(n: nat, f: nat -> nat, g: nat -> nat)
    requires forall i: nat :: i < n ==> f(i) <= g(i)
    ensures Sum(n, f) <= Sum(n, g)
  {
    if n > 0 {
      SumAtMost(n - 1, f, g);
    }
  }

  ghost function Row(f: (nat, nat) -> nat, i: nat): nat -> nat {
    (j: nat) => f(i, j)
  }

  ghost function RowSums(n: nat, f: (nat, nat) -> nat): nat -> nat {
    (i: nat) => Sum(n, Row(f, i))
  }

  /** A double sum, by rows. */
  ghost function Sum2(m: nat, n: nat, f: (nat, nat) -> nat): nat {
    Sum(m, RowSums(n, f))
  }

  lemma Sum2Added(m: nat, n: nat, f: (nat, nat) -> nat, g: (nat, nat) -> nat, h: (nat, nat) -> nat)
    requires forall i: nat, j: nat :: i < m && j < n ==> h(i, j) == f(i, j) + g(i, j)
    ensures Sum2(m, n, h) == Sum2(m, n, f) + Sum2(m, n, g)
  {
    forall i: nat | i < m ensures RowSums(n, h)(i) == RowSums(n, f)(i) + RowSums(n, g)(i) {
      SumAdded(n, Row(f, i), Row(g, i), Row(h, i));
    }
    SumAdded(m, RowSums(n, f), RowSums(n, g), RowSums(n, h));
  }

  lemma Sum2Zero(m: nat, n: nat, f: (nat, nat) -> nat)
    requires forall i: nat, j: nat :: i < m && j < n ==> f(i, j) == 0
    ensures Sum2(m, n, f) == 0
  {
    forall i: nat | i < m ensures RowSums(n, f)(i) == 0 {
      SumZero(n, Row(f, i));
    }
    SumZero(m, RowSums(n, f));
  }

  /** The first `k` of the tables `h`, added up entry by entry. */
  ghost function Stacked(k: nat, h: nat -> (nat, nat) -> nat): (nat, nat) -> nat {
    (i: nat, j: nat) => Sum(k, (l: nat) => h(l)(i, j))
  }

  ghost function Totals(m: nat, n: nat, h: nat -> (nat, nat) -> nat): nat -> nat {
    (l: nat) => Sum2(m, n, h(l))
  }

  /** The order of summation does not matter. */
  lemma {:induction false} SumsExchange(m: nat, n: nat, k: nat, h: nat -> (nat, nat) -> nat)
    ensures Sum2(m, n, Stacked(k, h)) == Sum(k, Totals(m, n, h))
  {
    if k == 0 {
      Sum2Zero(m, n, Stacked(0, h));
    } else {
      SumsExchange(m, n, k - 1, h);
      StackedStep(k, h);
      Sum2Added(m, n, Stacked(k - 1, h), h(k - 1), Stacked(k, h));
    }
  }

  lemma StackedStep(k: nat, h: nat -> (nat, nat) -> nat)
    requires k > 0
    ensures forall i: nat, j: nat :: Stacked(k, h)(i, j) == Stacked(k - 1, h)(i, j) + h(k - 1)(i, j)
  {
    forall i: nat, j: nat ensures Stacked(k, h)(i, j) == Stacked(k - 1, h)(i, j) + h(k - 1)(i, j) {
      SumSame(k - 1, (l: nat) => h(l)(i, j), (l: nat) => h(l)(i, j));
    }
  }

  lemma {:induction false} Sum2Same(m: nat, n: nat, f: (nat, nat) -> nat, g: (nat, nat) -> nat)
    requires forall i: nat, j: nat :: i < m && j < n ==> f(i, j) == g(i, j)
    ensures Sum2(m, n, f) == Sum2(m, n, g)
  {
    forall i: nat | i < m ensures RowSums(n, f)(i) == RowSums(n, g)(i) {
      SumSame(n, Row(f, i), Row(g, i));
    }
    SumSame(m, RowSums(n, f), RowSums(n, g));
  }

  lemma {:induction false} Sum2AtMost(m: nat, n: nat, f: (nat, nat) -> nat, g: (nat, nat) -> nat)
    requires forall i: nat, j: nat :: i < m && j < n ==> f(i, j) <= g(i, j)
    ensures Sum2(m, n, f) <= Sum2(m, n, g)
  {
    forall i: nat | i < m ensures RowSums(n, f)(i) <= RowSums(n, g)(i) {
      SumAtMost(n, Row(f, i), Row(g, i));
    }
    SumAtMost(m, RowSums(n, f), RowSums(n, g));
  }

  lemma {:induction false} ProductOfSums(m: nat, n: nat, f: nat -> nat, g: nat -> nat, h: (nat, nat) -> nat)
    requires forall i: nat, j: nat :: i < m && j < n ==> h(i, j) == Times(f(i), g(j))
    ensures Sum2(m, n, h) == Times(Sum(m, f), Sum(n, g))
  {
    hide Times;
    forall i: nat | i < m ensures RowSums(n, h)(i) == Times(Sum(n, g), f(i)) {
      SumScaled(n, g, f(i), Row(h, i));
      TimesTurned(f(i), Sum(n, g));
    }
    SumScaled(m, f, Sum(n, g), RowSums(n, h));
    TimesTurned(Sum(m, f), Sum(n, g));
  }

  lemma Multiples(k: int, q: int, a: nat)
    ensures k <= q ==> k * a <= q * a
  {
  }

  // ---- overlaps -----------------------------------------------------------------

  function Max(a: nat, b: nat): nat { if a < b then b else a }

  function Min(a: nat, b: nat): nat { if a < b then a else b }

  /** How much of source cell `s` lies in destination cell `d`, when `sn` source cells are spread over `dn` others. */
  function Overlap(s: nat, d: nat, sn: nat, dn: nat): nat {
    if Max(s * dn, d * sn) < Min((s + 1) * dn, (d + 1) * sn)
    then Min((s + 1) * dn, (d + 1) * sn) - Max(s * dn, d * sn) else 0
  }

  /** One for every tick from `from` on that lies in source cell `s`, of `dn` ticks each. */
  ghost function Ticks(from: nat, s: nat, dn: nat): nat -> nat
    requires dn > 0
  {
    (k: nat) => if (from + k) / dn == s then 1 else 0
  }

  /** How much two stretches have in common. */
  function Common(a: nat, b: nat, c: nat, d: nat): nat {
    if Max(a, c) < Min(b, d) then Min(b, d) - Max(a, c) else 0
  }

  lemma TickLies(k: nat, s: nat, dn: nat, start: nat)
    requires dn > 0 && start == s * dn
    ensures k / dn == s <==> start <= k < start + dn
  {
    DivBelow(k, dn, s);
    DivBelow(k, dn, s + 1);
    assert (s + 1) * dn == start + dn;
  }

  lemma CommonGrows(a: nat, b: nat, c: nat, n: nat)
    requires a <= b
    ensures Common(a, b, c, c) == 0
    ensures Common(a, b, c, c + n + 1) == Common(a, b, c, c + n) + if a <= c + n < b then 1 else 0
  {
  }

  lemma {:induction false} TicksAreCommon(n: nat, from: nat, s: nat, dn: nat, start: nat)
    requires dn > 0 && start == s * dn
    ensures Sum(n, Ticks(from, s, dn)) == Common(start, start + dn, from, from + n)
  {
    hide Common;
    if n == 0 {
      CommonGrows(start, start + dn, from, 0);
    } else {
      TicksAreCommon(n - 1, from, s, dn, start);
      TickLies(from + (n - 1), s, dn, start);
      CommonGrows(start, start + dn, from, n - 1);
      SumStep(n, Ticks(from, s, dn));
    }
  }

  lemma SumStep(n: nat, f: nat -> nat)
    requires n > 0
    ensures Sum(n, f) == Sum(n - 1, f) + f(n - 1)
  {
  }

  /** The overlap of two cells is the number of those ticks of the one that lie in the other. */
  lemma OverlapCounts(s: nat, d: nat, sn: nat, dn: nat)
    requires dn > 0
    ensures Sum(sn, Ticks(d * sn, s, dn)) == Overlap(s, d, sn, dn)
  {
    TicksAreCommon(sn, d * sn, s, dn, s * dn);
    OneMoreTimes(s, dn);
    OneMoreTimes(d, sn);
    hide Sum, Ticks;
  }

  lemma OneMoreTimes(a: nat, b: nat)
    ensures (a + 1) * b == a * b + b
  {
  }

  function Clamp(x: nat, lo: nat, hi: nat): nat
    requires lo <= hi
  {
    if x < lo then lo else if x > hi then hi else x
  }

  lemma OverlapIsClamped(s: nat, d: nat, sn: nat, dn: nat)
    ensures s * dn <= (s + 1) * dn && d * sn <= (d + 1) * sn
    ensures Overlap(s, d, sn, dn) == Clamp((s + 1) * dn, d * sn, (d + 1) * sn) - Clamp(s * dn, d * sn, (d + 1) * sn)
  {
    assert (s + 1) * dn == s * dn + dn && (d + 1) * sn == d * sn + sn;
  }

  lemma {:induction false} OverlapsUpTo(n: nat, d: nat, sn: nat, dn: nat)
    ensures d * sn <= (d + 1) * sn
    ensures Sum(n, (s: nat) => Overlap(s, d, sn, dn)) == Clamp(n * dn, d * sn, (d + 1) * sn) - d * sn
  {
    hide Overlap;
    CellGrows(d, sn);
    if n > 0 {
      OverlapsUpTo(n - 1, d, sn, dn);
      OverlapIsClamped(n - 1, d, sn, dn);
      assert n - 1 + 1 == n;
    }
  }

  lemma CellGrows(d: nat, sn: nat)
    ensures (d + 1) * sn == d * sn + sn
  {
  }

  /** Every destination cell is made of `sn` units of source, */
  lemma OverlapsFillCell(d: nat, sn: nat, dn: nat)
    requires d < dn
    ensures Sum(sn, (s: nat) => Overlap(s, d, sn, dn)) == sn
  {
    hide Sum, Overlap;
    OverlapsUpTo(sn, d, sn, dn);
    Multiples(d + 1, dn, sn);
    assert dn * sn == sn * dn && (d + 1) * sn == d * sn + sn;
  }

  lemma OverlapTurned(s: nat, d: nat, sn: nat, dn: nat)
    ensures Overlap(s, d, sn, dn) == Overlap(d, s, dn, sn)
  {
  }

  /** and every source cell is spent in full, `dn` units of it. */
  lemma OverlapsSpendCell(s: nat, sn: nat, dn: nat)
    requires s < sn
    ensures Sum(dn, (d: nat) => Overlap(s, d, sn, dn)) == dn
  {
    OverlapsFillCell(s, dn, sn);
    forall d: nat ensures Overlap(s, d, sn, dn) == Overlap(d, s, dn, sn) {
      OverlapTurned(s, d, sn, dn);
    }
    SumSame(dn, (d: nat) => Overlap(s, d, sn, dn), (d: nat) => Overlap(d, s, dn, sn));
  }

  // ---- the glyph ------------------------------------------------------------------

  /** A decoded bitmap of `sw` by `sh` bits, packed with the most significant bit first. */
  datatype Glyph = Glyph(bits: seq<bv8>, sw: nat, sh: nat)

  ghost predicate WellFormed(g: Glyph) {
    0 < g.sw < 0x100 && 0 < g.sh < 0x100 && |g.bits| == (g.sw * g.sh + 7) / 8
  }

  predicate Bit(bits: seq<bv8>, idx: nat)
    requires idx / 8 < |bits|
  {
    (bits[idx / 8] >> (7 - idx % 8)) & 1 != 0
  }

  lemma IndexInBounds(g: Glyph, x: nat, y: nat)
    requires WellFormed(g) && x < g.sw && y < g.sh
    ensures y * g.sw + x < g.sw * g.sh && (y * g.sw + x) / 8 < |g.bits|
  {
    Multiples(y + 1, g.sh, g.sw);
    RowEnd(x, y, g.sw, g.sh);
    Eighths(y * g.sw + x, g.sw * g.sh);
  }

  lemma RowEnd(x: nat, y: nat, w: nat, h: nat)
    requires x < w && (y + 1) * w <= h * w
    ensures y * w + x < w * h
  {
    assert (y + 1) * w == y * w + w && h * w == w * h;
  }

  lemma Eighths(i: nat, n: nat)
    requires i < n
    ensures i / 8 < (n + 7) / 8
  {
  }

  ghost predicate On(g: Glyph, x: nat, y: nat) {
    WellFormed(g) && x < g.sw && y < g.sh && (y * g.sw + x) / 8 < |g.bits| && Bit(g.bits, y * g.sw + x)
  }

  /** The weight of one source cell in one destination cell. */
  ghost function Weight(g: Glyph, dw: nat, dh: nat, dx: nat, dy: nat): (nat, nat) -> nat {
    (sy: nat, sx: nat) => Times(Overlap(sy, dy, g.sh, dh), Overlap(sx, dx, g.sw, dw))
  }

  /** What the set bits cover of it. */
  ghost function ShareOf(g: Glyph, dw: nat, dh: nat, dx: nat, dy: nat, sy: nat, sx: nat): nat {
    if On(g, sx, sy) then Times(Overlap(sy, dy, g.sh, dh), Overlap(sx, dx, g.sw, dw)) else 0
  }

  ghost function Share(g: Glyph, dw: nat, dh: nat, dx: nat, dy: nat): (nat, nat) -> nat {
    (sy: nat, sx: nat) => ShareOf(g, dw, dh, dx, dy, sy, sx)
  }

  ghost function Cover(g: Glyph, dw: nat, dh: nat, dx: nat, dy: nat): nat {
    Sum2(g.sh, g.sw, Share(g, dw, dh, dx, dy))
  }

  ghost function OneIfSet(g: Glyph): (nat, nat) -> nat {
    (sy: nat, sx: nat) => if On(g, sx, sy) then 1 else 0
  }

  ghost function SetBits(g: Glyph): nat {
    Sum2(g.sh, g.sw, OneIfSet(g))
  }

  /** The grey of a cell: its cover in parts of 255, rounded. */
  function Grey(cover: nat, area: nat): nat
    requires area > 0
  {
    DivBelow(cover * 255 + area / 2, area, 0);
    (cover * 255 + area / 2) / area
  }

  /** The grey is the integer nearest to the cover in parts of 255, a half rounded up. */
  lemma GreyIsNearest(cover: nat, area: nat)
    requires area > 0
    ensures -(area as int) < 2 * (Grey(cover, area) * area - 255 * cover) <= area
  {
    var n := cover * 255 + area / 2;
    assert n == n / area * area + n % area;
  }

  lemma DivBelow(n: nat, a: nat, k: nat)
    requires a > 0
    ensures 0 <= n / a
    ensures n < k * a ==> n / a < k
    ensures n >= k * a ==> n / a >= k
  {
    var q := n / a;
    assert n == q * a + n % a;
    Multiples(k, q, a);
    Multiples(q + 1, k, a);
    assert (q + 1) * a == q * a + a;
  }

  // ---- what the weights add up to ---------------------------------------------------

  /** The overlap weights of one destination cell add up to exactly `sw * sh`. */
  lemma WeightsAddUp(g: Glyph, dw: nat, dh: nat, dx: nat, dy: nat)
    requires dx < dw && dy < dh
    ensures Sum2(g.sh, g.sw, Weight(g, dw, dh, dx, dy)) == g.sw * g.sh
  {
    hide Overlap, Times;
    var fy := (s: nat) => Overlap(s, dy, g.sh, dh);
    var fx := (s: nat) => Overlap(s, dx, g.sw, dw);
    ProductOfSums(g.sh, g.sw, fy, fx, Weight(g, dw, dh, dx, dy));
    OverlapsFillCell(dx, g.sw, dw);
    OverlapsFillCell(dy, g.sh, dh);
    TimesIs(g.sh, g.sw);
  }

  /** So no cell is covered more than once, and every grey fits a byte. */
  lemma CoverFits(g: Glyph, dw: nat, dh: nat, dx: nat, dy: nat)
    requires WellFormed(g) && dx < dw && dy < dh
    ensures Cover(g, dw, dh, dx, dy) <= g.sw * g.sh && g.sw * g.sh > 0
    ensures 0 <= Grey(Cover(g, dw, dh, dx, dy), g.sw * g.sh) <= 255
  {
    hide Overlap, On, Sum2, Times;
    Sum2AtMost(g.sh, g.sw, Share(g, dw, dh, dx, dy), Weight(g, dw, dh, dx, dy));
    WeightsAddUp(g, dw, dh, dx, dy);
    AreaIsPositive(g.sw, g.sh);
    GreyFits(Cover(g, dw, dh, dx, dy), g.sw * g.sh);
  }

  lemma AreaIsPositive(sw: nat, sh: nat)
    requires sw > 0 && sh > 0
    ensures sw * sh > 0
  {
  }

  lemma GreyFits(cover: nat, area: nat)
    requires cover <= area && area > 0
    ensures 0 <= Grey(cover, area) <= 255
    ensures cover == area ==> Grey(cover, area) == 255
    ensures cover == 0 ==> Grey(cover, area) == 0
  {
    var n := cover * 255 + area / 2;
    DivBelow(n, area, 256);
    DivBelow(n, area, 255);
    DivBelow(n, area, 1);
  }

  // ---- conservation ---------------------------------------------------------------------

  /** The cover of all destination cells by one source cell. */
  ghost function Spent(g: Glyph, dw: nat, dh: nat, sy: nat, sx: nat): (nat, nat) -> nat {
    (dy: nat, dx: nat) => ShareOf(g, dw, dh, dx, dy, sy, sx)
  }

  lemma OneCellIsSpent(g: Glyph, dw: nat, dh: nat, sy: nat, sx: nat)
    requires sy < g.sh && sx < g.sw
    ensures Sum2(dh, dw, Spent(g, dw, dh, sy, sx)) == dw * dh * OneIfSet(g)(sy, sx)
  {
    hide Overlap, On, Times;
    var fy := (d: nat) => Overlap(sy, d, g.sh, dh);
    var fx := (d: nat) => Overlap(sx, d, g.sw, dw);
    if On(g, sx, sy) {
      ProductOfSums(dh, dw, fy, fx, Spent(g, dw, dh, sy, sx));
      OverlapsSpendCell(sy, g.sh, dh);
      OverlapsSpendCell(sx, g.sw, dw);
      TimesIs(dh, dw);
    } else {
      forall dy: nat | dy < dh ensures RowSums(dw, Spent(g, dw, dh, sy, sx))(dy) == 0 {
        SumZero(dw, Row(Spent(g, dw, dh, sy, sx), dy));
      }
      SumZero(dh, RowSums(dw, Spent(g, dw, dh, sy, sx)));
    }
  }

  /** The cover of all cells by the source row `sy`, and by all rows. */
  ghost function RowCover(g: Glyph, dw: nat, dh: nat, sy: nat): (nat, nat) -> nat {
    (dy: nat, dx: nat) => Sum(g.sw, Row(Share(g, dw, dh, dx, dy), sy))
  }

  ghost function Covers(g: Glyph, dw: nat, dh: nat): (nat, nat) -> nat {
    (dy: nat, dx: nat) => Cover(g, dw, dh, dx, dy)
  }

  lemma OneRowIsSpent(g: Glyph, dw: nat, dh: nat, sy: nat)
    requires sy < g.sh
    ensures Sum2(dh, dw, RowCover(g, dw, dh, sy)) == dw * dh * Sum(g.sw, Row(OneIfSet(g), sy))
  {
    hide ShareOf, On;
    var cells := (sx: nat) => Spent(g, dw, dh, sy, sx);
    forall dy: nat, dx: nat ensures RowCover(g, dw, dh, sy)(dy, dx) == Stacked(g.sw, cells)(dy, dx) {
      SumSame(g.sw, Row(Share(g, dw, dh, dx, dy), sy), (sx: nat) => cells(sx)(dy, dx));
    }
    Sum2Same(dh, dw, RowCover(g, dw, dh, sy), Stacked(g.sw, cells));
    SumsExchange(dh, dw, g.sw, cells);
    forall sx: nat | sx < g.sw ensures Totals(dh, dw, cells)(sx) == dw * dh * OneIfSet(g)(sy, sx) {
      OneCellIsSpent(g, dw, dh, sy, sx);
    }
    SumScaled(g.sw, Row(OneIfSet(g), sy), dw * dh, Totals(dh, dw, cells));
  }

  /** No ink is lost and none is made: over all cells the cover adds up to `dw * dh` for every set bit. */
  lemma InkIsConserved(g: Glyph, dw: nat, dh: nat)
    ensures Sum2(dh, dw, Covers(g, dw, dh)) == dw * dh * SetBits(g)
  {
    hide ShareOf, On;
    var rows := (sy: nat) => RowCover(g, dw, dh, sy);
    forall dy: nat, dx: nat ensures Covers(g, dw, dh)(dy, dx) == Stacked(g.sh, rows)(dy, dx) {
      SumSame(g.sh, RowSums(g.sw, Share(g, dw, dh, dx, dy)), (sy: nat) => rows(sy)(dy, dx));
    }
    Sum2Same(dh, dw, Covers(g, dw, dh), Stacked(g.sh, rows));
    SumsExchange(dh, dw, g.sh, rows);
    forall sy: nat | sy < g.sh ensures Totals(dh, dw, rows)(sy) == dw * dh * RowSums(g.sw, OneIfSet(g))(sy) {
      OneRowIsSpent(g, dw, dh, sy);
    }
    SumScaled(g.sh, RowSums(g.sw, OneIfSet(g)), dw * dh, Totals(dh, dw, rows));
  }

  // ---- unscaled ---------------------------------------------------------------------------

  lemma {:induction false} SumSingle(n: nat, f: nat -> nat, k: nat)
    requires k < n && forall i: nat :: i < n && i != k ==> f(i) == 0
    ensures Sum(n, f) == f(k)
  {
    if n - 1 == k {
      SumZero(k, f);
    } else {
      SumSingle(n - 1, f, k);
    }
  }

  lemma OverlapUnscaled(s: nat, d: nat, n: nat)
    ensures Overlap(s, d, n, n) == if s == d then n else 0
  {
    Multiples(s + 1, d, n);
    Multiples(d + 1, s, n);
    assert (s + 1) * n == s * n + n && (d + 1) * n == d * n + n;
  }

  /** Without scaling each grey is the source bit: 255 where it is set, 0 where it is not. */
  lemma UnscaledIsExact(g: Glyph, dx: nat, dy: nat)
    requires WellFormed(g) && dx < g.sw && dy < g.sh
    ensures g.sw * g.sh > 0
    ensures Grey(Cover(g, g.sw, g.sh, dx, dy), g.sw * g.sh) == if On(g, dx, dy) then 255 else 0
  {
    hide Overlap, On, Times;
    var f := Share(g, g.sw, g.sh, dx, dy);
    forall sy: nat, sx: nat ensures f(sy, sx) == if sy == dy && sx == dx && On(g, dx, dy) then Times(g.sh, g.sw) else 0 {
      OverlapUnscaled(sy, dy, g.sh);
      OverlapUnscaled(sx, dx, g.sw);
      TimesZero(Overlap(sy, dy, g.sh, g.sh), Overlap(sx, dx, g.sw, g.sw));
    }
    forall sy: nat | sy < g.sh && sy != dy ensures RowSums(g.sw, f)(sy) == 0 {
      SumZero(g.sw, Row(f, sy));
    }
    SumSingle(g.sh, RowSums(g.sw, f), dy);
    SumSingle(g.sw, Row(f, dy), dx);
    AreaIsPositive(g.sw, g.sh);
    TimesIs(g.sh, g.sw);
    GreyFits(Cover(g, g.sw, g.sh, dx, dy), g.sw * g.sh);
  }

  // ---- what the packed bytes say -----------------------------------------------------

  /** Pixel number `j` of an unscaled glyph, counted row by row, comes out at 255. */
  ghost predicate Inked(g: Glyph, j: nat) {
    WellFormed(g) && j < g.sw * g.sh && Grey(Cover(g, g.sw, g.sh, j % g.sw, j / g.sw), g.sw * g.sh) == 255
  }

  /** Eight answers as a byte, the first of them its most significant bit. */
  function Byte(p0: bool, p1: bool, p2: bool, p3: bool, p4: bool, p5: bool, p6: bool, p7: bool): bv8 {
    (if p0 then 128 else 0) + (if p1 then 64 else 0) + (if p2 then 32 else 0) + (if p3 then 16 else 0)
    + (if p4 then 8 else 0) + (if p5 then 4 else 0) + (if p6 then 2 else 0) + (if p7 then 1 else 0)
  }

  /** Unscaled, the pixels of each eight in a row spell the packed byte, and those of the last byte as much of it as is used. */
  lemma UnscaledSpells(g: Glyph, k: nat)
    requires WellFormed(g) && k < |g.bits|
    ensures var j, n := 8 * k, g.sw * g.sh - 8 * k;
      0 < n && Byte(Inked(g, j), Inked(g, j + 1), Inked(g, j + 2), Inked(g, j + 3),
                    Inked(g, j + 4), Inked(g, j + 5), Inked(g, j + 6), Inked(g, j + 7))
            == if n >= 8 then g.bits[k] else g.bits[k] & (0xff << (8 - n))
  {
    hide Inked, Bit, WellFormed, Byte;
    LastByteIsUsed(g, k);
    Spells(g, k, 8 * k, g.sw * g.sh - 8 * k);
  }

  lemma Spells(g: Glyph, k: nat, j: nat, n: int)
    requires WellFormed(g) && k < |g.bits| && j == 8 * k && n == g.sw * g.sh - j && n > 0
    ensures Byte(Inked(g, j), Inked(g, j + 1), Inked(g, j + 2), Inked(g, j + 3),
                 Inked(g, j + 4), Inked(g, j + 5), Inked(g, j + 6), Inked(g, j + 7))
            == if n >= 8 then g.bits[k] else g.bits[k] & (0xff << (8 - n))
  {
    hide Inked, Bit, WellFormed, Byte;
    InkedIsBit(g, k, 0);
    InkedIsBit(g, k, 1);
    InkedIsBit(g, k, 2);
    InkedIsBit(g, k, 3);
    InkedIsBit(g, k, 4);
    InkedIsBit(g, k, 5);
    InkedIsBit(g, k, 6);
    InkedIsBit(g, k, 7);
    ByteIs(g.bits[k], n,
           Inked(g, j), Inked(g, j + 1), Inked(g, j + 2), Inked(g, j + 3), Inked(g, j + 4), Inked(g, j + 5), Inked(g, j + 6), Inked(g, j + 7));
  }

  lemma LastByteIsUsed(g: Glyph, k: nat)
    requires WellFormed(g) && k < |g.bits|
    ensures g.sw * g.sh - 8 * k > 0
  {
  }

  lemma InkedIsBit(g: Glyph, k: nat, i: nat)
    requires WellFormed(g) && k < |g.bits| && i < 8
    ensures Inked(g, 8 * k + i) <==> 8 * k + i < g.sw * g.sh && Bit([g.bits[k]], i)
  {
    hide Bit, Inked, On, WellFormed;
    var j := 8 * k + i;
    if j < g.sw * g.sh {
      var x, y := PixelOf(g, j);
      OnIsBit(g, x, y, j);
      SameBit(g.bits, k, i);
    } else {
      NotInked(g, j);
    }
  }

  lemma PixelOf(g: Glyph, j: nat) returns (x: nat, y: nat)
    requires WellFormed(g) && j < g.sw * g.sh
    ensures x < g.sw && y < g.sh && j == y * g.sw + x && (Inked(g, j) <==> On(g, x, y))
  {
    hide Inked, On, WellFormed;
    WidthIsPositive(g);
    PixelAt(j, g.sw, g.sh);
    x, y := j % g.sw, j / g.sw;
    InkedIsOn(g, x, y, j);
  }

  lemma WidthIsPositive(g: Glyph)
    requires WellFormed(g)
    ensures g.sw > 0
  {
  }

  lemma NotInked(g: Glyph, j: nat)
    requires j >= g.sw * g.sh
    ensures !Inked(g, j)
  {
  }

  lemma InkedIsOn(g: Glyph, x: nat, y: nat, j: nat)
    requires g.sw > 0 && x == j % g.sw && y == j / g.sw
    requires x < g.sw && y < g.sh && j < g.sw * g.sh && WellFormed(g)
    ensures Inked(g, j) <==> On(g, x, y)
  {
    hide Cover, Grey, On, WellFormed;
    UnscaledIsExact(g, x, y);
  }

  lemma OnIsBit(g: Glyph, x: nat, y: nat, j: nat)
    requires WellFormed(g) && x < g.sw && y < g.sh && j == y * g.sw + x
    ensures j / 8 < |g.bits| && (On(g, x, y) <==> Bit(g.bits, j))
  {
    IndexInBounds(g, x, y);
    hide Bit, WellFormed;
  }

  lemma PixelAt(j: nat, w: nat, h: nat)
    requires 0 < w && j < w * h
    ensures j % w < w && j / w < h && j / w * w + j % w == j
  {
    DivBelow(j, w, h);
  }

  lemma SameBit(bits: seq<bv8>, k: nat, i: nat)
    requires k < |bits| && i < 8
    ensures (8 * k + i) / 8 == k && (Bit(bits, 8 * k + i) <==> Bit([bits[k]], i))
  {
  }

  lemma ByteIs(b: bv8, n: int, p0: bool, p1: bool, p2: bool, p3: bool, p4: bool, p5: bool, p6: bool, p7: bool)
    requires n > 0
    requires (p0 <==> Bit([b], 0)) && (p1 <==> 1 < n && Bit([b], 1)) && (p2 <==> 2 < n && Bit([b], 2)) && (p3 <==> 3 < n && Bit([b], 3))
    requires (p4 <==> 4 < n && Bit([b], 4)) && (p5 <==> 5 < n && Bit([b], 5)) && (p6 <==> 6 < n && Bit([b], 6)) && (p7 <==> 7 < n && Bit([b], 7))
    ensures Byte(p0, p1, p2, p3, p4, p5, p6, p7) == if n >= 8 then b else b & (0xff << (8 - n))
  {
    BitMasks(b);
    hide Bit;
    if n == 1 {} else if n == 2 {} else if n == 3 {} else if n == 4 {}
    else if n == 5 {} else if n == 6 {} else if n == 7 {} else {}
  }

  lemma BitMasks(b: bv8)
    ensures (Bit([b], 0) <==> b & 128 != 0) && (Bit([b], 1) <==> b & 64 != 0) && (Bit([b], 2) <==> b & 32 != 0) && (Bit([b], 3) <==> b & 16 != 0)
    ensures (Bit([b], 4) <==> b & 8 != 0) && (Bit([b], 5) <==> b & 4 != 0) && (Bit([b], 6) <==> b & 2 != 0) && (Bit([b], 7) <==> b & 1 != 0)
  {
  }

  lemma TimesIs(a: nat, b: nat)
    ensures Times(a, b) == a * b == b * a
  {
  }

  lemma TimesZero(a: nat, b: nat)
    ensures a == 0 || b == 0 ==> Times(a, b) == 0
  {
  }

  // ---- the loops ----------------------------------------------------------------------------

  /** The stretch that source cell `s` and destination cell `d` have in common, if they have one. */
  function Piece(s: nat, d: nat, sn: nat, dn: nat): int {
    Min((s + 1) * dn, d * sn + sn) - Max(s * dn, d * sn)
  }

  /** The cells a loop from `d * sn / dn` on visits are those that overlap. */
  lemma OverlapVisited(s: nat, d: nat, sn: nat, dn: nat)
    requires dn > 0
    ensures 0 <= d * sn / dn
    ensures s < d * sn / dn ==> Overlap(s, d, sn, dn) == 0
    ensures s * dn >= d * sn + sn ==> Overlap(s, d, sn, dn) == 0
    ensures s >= d * sn / dn && s * dn < d * sn + sn ==> Overlap(s, d, sn, dn) == Piece(s, d, sn, dn)
    ensures s * dn < d * sn + sn && d < dn ==> s < sn
  {
    var q := d * sn / dn;
    assert (d + 1) * sn == d * sn + sn && (s + 1) * dn == s * dn + dn;
    DivBelow(d * sn, dn, s + 1);
    Multiples(d + 1, dn, sn);
    Multiples(sn, s, dn);
    assert dn * sn == sn * dn;
  }

  lemma StartsInside(d: nat, sn: nat, dn: nat)
    requires d < dn && sn > 0
    ensures 0 <= d * sn / dn < sn
  {
    DivBelow(d * sn, dn, sn);
    Multiples(d + 1, dn, sn);
    assert (d + 1) * sn == d * sn + sn && dn * sn == sn * dn;
  }

  method PixelOn(g: Glyph, x: nat, y: nat) returns (on: bool)
    requires WellFormed(g) && x < g.sw && y < g.sh
    ensures on == On(g, x, y)
  {
    IndexInBounds(g, x, y);
    var idx := y * g.sw + x;
    on := (g.bits[idx / 8] >> (7 - idx % 8)) & 1 != 0;
  }

  /** One source row's part in a cell. */
  method RowPart(g: Glyph, dw: nat, dh: nat, dx: nat, dy: nat, sy: nat, wy: nat) returns (part: nat)
    requires WellFormed(g) && dx < dw && sy < g.sh && wy == Overlap(sy, dy, g.sh, dh)
    ensures part == Sum(g.sw, Row(Share(g, dw, dh, dx, dy), sy))
  {
    hide Overlap, On, Piece, Times;
    ghost var f := Row(Share(g, dw, dh, dx, dy), sy);
    StartsInside(dx, g.sw, dw);
    var rx0 := dx * g.sw;
    var rx1 := rx0 + g.sw;
    var sx := rx0 / dw;
    part := 0;
    StartIsZero(g, dw, dh, dx, dy, sy);
    while sx * dw < rx1
      invariant rx0 / dw <= sx <= g.sw && part == Sum(sx, f)
      decreases g.sw - sx
    {
      OverlapVisited(sx, dx, g.sw, dw);
      var on := PixelOn(g, sx, sy);
      if on {
        part := part + Times(wy, Piece(sx, dx, g.sw, dw));
      }
      sx := sx + 1;
    }
    RestIsZero(g, dw, dh, dx, dy, sy, sx);
  }

  lemma StartIsZero(g: Glyph, dw: nat, dh: nat, dx: nat, dy: nat, sy: nat)
    requires dw > 0
    ensures 0 <= dx * g.sw / dw
    ensures Sum(dx * g.sw / dw, Row(Share(g, dw, dh, dx, dy), sy)) == 0
  {
    hide Overlap, On;
    OverlapVisited(0, dx, g.sw, dw);
    var f := Row(Share(g, dw, dh, dx, dy), sy);
    forall i: nat | i < dx * g.sw / dw ensures f(i) == 0 {
      OverlapVisited(i, dx, g.sw, dw);
      TimesZero(Overlap(sy, dy, g.sh, dh), Overlap(i, dx, g.sw, dw));
    }
    SumZero(dx * g.sw / dw, f);
  }

  lemma RestIsZero(g: Glyph, dw: nat, dh: nat, dx: nat, dy: nat, sy: nat, sx: nat)
    requires dw > 0 && sx * dw >= dx * g.sw + g.sw
    ensures Sum(g.sw, Row(Share(g, dw, dh, dx, dy), sy)) == Sum(sx, Row(Share(g, dw, dh, dx, dy), sy))
  {
    hide Overlap, On;
    var f := Row(Share(g, dw, dh, dx, dy), sy);
    forall i: nat | i >= sx ensures f(i) == 0 {
      Multiples(sx, i, dw);
      OverlapVisited(i, dx, g.sw, dw);
    }
    forall i: nat | i >= g.sw ensures f(i) == 0 {
      OffTheGlyph(g, i, sy);
    }
    if sx <= g.sw { SumStops(sx, g.sw, f); } else { SumStops(g.sw, sx, f); }
  }

  lemma OffTheGlyph(g: Glyph, x: nat, y: nat)
    ensures x >= g.sw || y >= g.sh ==> !On(g, x, y)
  {
  }

  /** The cover of one cell. */
  method CellCover(g: Glyph, dw: nat, dh: nat, dx: nat, dy: nat) returns (cover: nat)
    requires WellFormed(g) && dx < dw && dy < dh
    ensures cover == Cover(g, dw, dh, dx, dy)
  {
    hide Overlap, On, Piece, Times, Share, Row, RowSums, Sum, Cover;
    StartsInside(dy, g.sh, dh);
    var ry0 := dy * g.sh;
    var ry1 := ry0 + g.sh;
    var sy := ry0 / dh;
    cover := 0;
    RowsBefore(g, dw, dh, dx, dy);
    while sy * dh < ry1
      invariant ry0 / dh <= sy <= g.sh && cover == Sum(sy, RowSums(g.sw, Share(g, dw, dh, dx, dy)))
      decreases g.sh - sy
    {
      OverlapVisited(sy, dy, g.sh, dh);
      OneMoreRow(g.sw, Share(g, dw, dh, dx, dy), sy);
      var wy := Piece(sy, dy, g.sh, dh);
      var part := RowPart(g, dw, dh, dx, dy, sy, wy);
      cover := cover + part;
      sy := sy + 1;
    }
    RowsAfter(g, dw, dh, dx, dy, sy);
  }

  lemma OneMoreRow(n: nat, f: (nat, nat) -> nat, i: nat)
    ensures Sum(i + 1, RowSums(n, f)) == Sum(i, RowSums(n, f)) + Sum(n, Row(f, i))
  {
  }

  /** A row that does not overlap the cell has no part in it. */
  lemma NoPart(g: Glyph, dw: nat, dh: nat, dx: nat, dy: nat, sy: nat)
    requires Overlap(sy, dy, g.sh, dh) == 0 || sy >= g.sh
    ensures RowSums(g.sw, Share(g, dw, dh, dx, dy))(sy) == 0
  {
    hide Overlap, On;
    var f := Row(Share(g, dw, dh, dx, dy), sy);
    forall i: nat ensures f(i) == 0 {
      OffTheGlyph(g, i, sy);
      TimesZero(Overlap(sy, dy, g.sh, dh), Overlap(i, dx, g.sw, dw));
    }
    SumZero(g.sw, f);
  }

  lemma RowsBefore(g: Glyph, dw: nat, dh: nat, dx: nat, dy: nat)
    requires dh > 0
    ensures 0 <= dy * g.sh / dh
    ensures Sum(dy * g.sh / dh, RowSums(g.sw, Share(g, dw, dh, dx, dy))) == 0
  {
    hide Overlap, On, Share;
    OverlapVisited(0, dy, g.sh, dh);
    var rows := RowSums(g.sw, Share(g, dw, dh, dx, dy));
    forall i: nat | i < dy * g.sh / dh ensures rows(i) == 0 {
      OverlapVisited(i, dy, g.sh, dh);
      NoPart(g, dw, dh, dx, dy, i);
    }
    SumZero(dy * g.sh / dh, rows);
  }

  lemma RowsAfter(g: Glyph, dw: nat, dh: nat, dx: nat, dy: nat, sy: nat)
    requires dh > 0 && sy * dh >= dy * g.sh + g.sh
    ensures Cover(g, dw, dh, dx, dy) == Sum(sy, RowSums(g.sw, Share(g, dw, dh, dx, dy)))
  {
    hide Overlap, On, Share;
    var rows := RowSums(g.sw, Share(g, dw, dh, dx, dy));
    forall i: nat | i >= sy || i >= g.sh ensures rows(i) == 0 {
      if i >= sy {
        Multiples(sy, i, dh);
        OverlapVisited(i, dy, g.sh, dh);
      }
      NoPart(g, dw, dh, dx, dy, i);
    }
    if sy <= g.sh { SumStops(sy, g.sh, rows); } else { SumStops(g.sh, sy, rows); }
  }

  /** Nothing in the computation of a cell exceeds 32 bits, for boxes of 8-bit and targets of 16-bit size. */
  lemma FitsIn32Bits(g: Glyph, dw: nat, dh: nat, dx: nat, dy: nat, sx: nat, sy: nat)
    requires WellFormed(g) && dx < dw < 0x1_0000 && dy < dh < 0x1_0000 && sx < g.sw && sy < g.sh
    ensures dx * g.sw + g.sw < 0x1_0000_0000 && dy * g.sh + g.sh < 0x1_0000_0000
    ensures sx * dw <= (sx + 1) * dw < 0x1_0000_0000 && sy * dh <= (sy + 1) * dh < 0x1_0000_0000
    ensures Overlap(sy, dy, g.sh, dh) <= g.sh && Overlap(sx, dx, g.sw, dw) <= g.sw
    ensures Overlap(sy, dy, g.sh, dh) * Overlap(sx, dx, g.sw, dw) < 0x1_0000_0000
    ensures g.sw * g.sh < 0x1_0000
    ensures Cover(g, dw, dh, dx, dy) * 255 + g.sw * g.sh / 2 < 0x1_0000_0000
  {
    hide Cover, Overlap;
    CoverFits(g, dw, dh, dx, dy);
    OriginFits(dx, g.sw, dw);
    OriginFits(dy, g.sh, dh);
    OriginFits(sx, dw, g.sw);
    OriginFits(sy, dh, g.sh);
    OverlapAtMost(sy, dy, g.sh, dh);
    OverlapAtMost(sx, dx, g.sw, dw);
    ProductFits(Overlap(sy, dy, g.sh, dh), Overlap(sx, dx, g.sw, dw));
    Multiples(g.sw, 0x100, g.sh);
  }

  lemma OriginFits(i: nat, step: nat, n: nat)
    requires i < n < 0x1_0000 && step < 0x1_0000
    ensures i * step <= (i + 1) * step == i * step + step < 0x1_0000_0000
  {
    Multiples(i + 1, 0xffff, step);
    CellGrows(i, step);
  }

  lemma OverlapAtMost(s: nat, d: nat, sn: nat, dn: nat)
    ensures Overlap(s, d, sn, dn) <= sn
  {
    CellGrows(d, sn);
    OverlapIsClamped(s, d, sn, dn);
  }

  lemma ProductFits(a: nat, b: nat)
    requires a < 0x100 && b < 0x100
    ensures a * b < 0x1_0000
  {
    Multiples(a, 0xff, b);
  }

  /** One row of the target, from `off` on. */
  method RenderRow(g: Glyph, dw: nat, dh: nat, dy: nat, dst: array<nat>, off: nat)
    requires WellFormed(g) && dy < dh && off + dw <= dst.Length
    modifies dst
    ensures forall dx: nat :: dx < dw ==> g.sw * g.sh > 0 && dst[off + dx] == Grey(Cover(g, dw, dh, dx, dy), g.sw * g.sh) <= 255
    ensures forall k: nat :: k < dst.Length && !(off <= k < off + dw) ==> dst[k] == old(dst[k])
  {
    hide Cover, Grey, WellFormed;
    AreaPositive(g);
    for dx := 0 to dw
      invariant forall x: nat :: x < dx ==> dst[off + x] == Grey(Cover(g, dw, dh, x, dy), g.sw * g.sh) <= 255
      invariant forall k: nat :: k < dst.Length && !(off <= k < off + dx) ==> dst[k] == old(dst[k])
    {
      var cover := CellCover(g, dw, dh, dx, dy);
      CoverFits(g, dw, dh, dx, dy);
      dst[off + dx] := Grey(cover, g.sw * g.sh) % 0x100;
    }
  }

  lemma AreaPositive(g: Glyph)
    requires WellFormed(g)
    ensures g.sw * g.sh > 0
  {
    AreaIsPositive(g.sw, g.sh);
  }

  /** The position of a target pixel. */
  function At(stride: nat, dx: nat, dy: nat): nat {
    dy * stride + dx
  }

  lemma AtInRow(stride: nat, dw: nat, dx: nat, dy: nat, x: nat, y: nat)
    requires dx < dw <= stride && x < dw
    ensures y * stride <= At(stride, x, y) < y * stride + stride
    ensures dy != y ==> !(y * stride <= At(stride, dx, dy) < y * stride + dw)
  {
    Multiples(dy + 1, y, stride);
    Multiples(y + 1, dy, stride);
    assert (dy + 1) * stride == dy * stride + stride && (y + 1) * stride == y * stride + stride;
  }

  /** get_glyph_bitmap_cb after the glyph was decoded: every pixel of the target box is the grey of its cell. */
  method Render(g: Glyph, dw: nat, dh: nat, stride: nat, dst: array<nat>)
    requires WellFormed(g) && dw <= stride && dh * stride <= dst.Length
    modifies dst
    ensures forall dx: nat, dy: nat :: dx < dw && dy < dh ==>
      At(stride, dx, dy) < dst.Length && g.sw * g.sh > 0 &&
      dst[At(stride, dx, dy)] == Grey(Cover(g, dw, dh, dx, dy), g.sw * g.sh) <= 255
  {
    hide Cover, Grey, WellFormed, At;
    AreaPositive(g);
    ghost var n := dst.Length;
    for dy := 0 to dh
      invariant forall x: nat, y: nat :: x < dw && y < dy ==>
        At(stride, x, y) < n && dst[At(stride, x, y)] == Grey(Cover(g, dw, dh, x, y), g.sw * g.sh) <= 255
    {
      RowInBounds(stride, dw, dh, dy, n);
      RenderRow(g, dw, dh, dy, dst, dy * stride);
      forall x: nat, y: nat | x < dw && y < dy + 1
        ensures At(stride, x, y) < n && dst[At(stride, x, y)] == Grey(Cover(g, dw, dh, x, y), g.sw * g.sh) <= 255 {
        AtInRow(stride, dw, x, y, x, dy);
        AtOf(stride, x, y);
      }
    }
  }

  lemma AtOf(stride: nat, x: nat, y: nat)
    ensures At(stride, x, y) == y * stride + x
  {
  }

  lemma RowInBounds(stride: nat, dw: nat, dh: nat, dy: nat, n: nat)
    requires dw <= stride && dh * stride <= n && dy < dh
    ensures dy * stride + dw <= n
  {
    Multiples(dy + 1, dh, stride);
    assert (dy + 1) * stride == dy * stride + stride;
  }

  // ---- metrics and lookup -----------------------------------------------------------------

  /** `v * num / den`, rounded half away from zero. */
  function Scaled(v: int, num: nat, den: nat): int
    requires den > 0
  {
    var n := v * num;
    if n >= 0 then (n * 2 + den) / (den * 2) else -((-n * 2 + den) / (den * 2))
  }

  /** No other integer is nearer, ties go away from zero, and the sign only mirrors the result. */
  lemma ScaledIsNearest(v: int, num: nat, den: nat)
    requires den > 0
    ensures var r, n := Scaled(v, num, den), v * num;
      && (n >= 0 ==> r >= 0 && r * (den * 2) - den <= n * 2 < r * (den * 2) + den)
      && (n <= 0 ==> r <= 0 && r * (den * 2) - den < n * 2 <= r * (den * 2) + den)
    ensures Scaled(-v, num, den) == -Scaled(v, num, den)
  {
    var n := v * num;
    assert (-v) * num == -n;
    if n >= 0 {
      Quotient(n * 2 + den, den * 2);
    } else {
      Quotient(-n * 2 + den, den * 2);
    }
  }

  lemma Quotient(x: nat, m: nat)
    requires m > 0
    ensures x / m >= 0 && x / m * m <= x < x / m * m + m
  {
    DivBelow(x, m, 0);
  }

  ghost predicate Sorted(codes: seq<nat>) {
    forall i, j :: 0 <= i < j < |codes| ==> codes[i] < codes[j]
  }

  /** The glyph of code point `cp` in a set sorted by code point. */
  method Find(codes: seq<nat>, cp: nat) returns (at: Option<nat>)
    requires Sorted(codes)
    ensures at.Some? ==> at.value < |codes| && codes[at.value] == cp
    ensures at.None? <==> cp !in codes
  {
    var lo, hi := 0, |codes|;
    while lo < hi
      invariant lo <= hi <= |codes|
      invariant forall i :: 0 <= i < lo ==> codes[i] < cp
      invariant forall i :: hi <= i < |codes| ==> codes[i] >= cp
    {
      var mid := (lo + hi) / 2;
      if codes[mid] < cp {
        lo := mid + 1;
      } else {
        hi := mid;
      }
    }
    if lo < |codes| && codes[lo] == cp {
      return Some(lo);
    }
    assert forall i :: lo < i < |codes| ==> codes[i] > codes[lo];
    return None;
  }
}
