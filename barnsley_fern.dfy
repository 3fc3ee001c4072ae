/**
 * `generateFern`: the Barnsley fern as a 512 x 512 byte histogram. One
 * hundred thousand times a random draw picks one of four affine maps, the
 * point is moved by it, and the cell under the point (if on the grid) is
 * counted, saturating at 255.
 *
 * `Math.random` is replaced by the sequence of draws it would return.
 */
module BarnsleyFern {
  import opened Common

  /** `size`: the side of the square grid. */
  const Size: nat := 512
  /** `FERN_POINTS`: the number of iterations. */
  const FernPoints: nat := 100000

  /** A cell of the `Uint8Array`. */
  newtype byte = x: int | 0 <= x < 256

  /** The four maps, picked by the draw `r` against 0.01, 0.86 and 0.93. */
  datatype Branch = Stem | Leaflets | LeftLeaflet | RightLeaflet

  function BranchOf(r: real): (b: Branch)
    ensures b == Stem <==> r < 0.01
    ensures b == Leaflets <==> 0.01 <= r < 0.86
    ensures b == LeftLeaflet <==> 0.86 <= r < 0.93
    ensures b == RightLeaflet <==> 0.93 <= r
  {
    if r < 0.01 then Stem
    else if r < 0.86 then Leaflets
    else if r < 0.93 then LeftLeaflet
    else RightLeaflet
  }

  /** The next point under the map the draw picks. */
  function Next(r: real, p: Complex): (q: Complex)
    ensures BranchOf(r) == Stem ==> q == Complex(0.0, 0.16 * p.im)
  {
    var x, y := p.re, p.im;
    match BranchOf(r)
    case Stem => Complex(0.0, 0.16 * y)
    case Leaflets => Complex(0.85 * x + 0.04 * y, -0.04 * x + 0.85 * y + 1.6)
    case LeftLeaflet => Complex(0.2 * x - 0.26 * y, 0.23 * x + 0.22 * y + 1.6)
    case RightLeaflet => Complex(-0.15 * x + 0.28 * y, 0.26 * x + 0.24 * y + 0.44)
  }

  /** `Math.floor(v)`. */
  function Floor(v: real): int { v.Floor }

  /**
   * The cell under the point: column `floor((x + 3) * 512 / 6)`, row
   * `floor(y * 512 / 10)`, index `row * 512 + column`; none when off the grid.
   */
  function CellOf(p: Complex): (cell: Option<nat>)
    ensures cell.Some? ==> cell.value < Size * Size
    ensures cell.Some? <==>
      0 <= Floor((p.re + 3.0) * 512.0 / 6.0) < Size && 0 <= Floor(p.im * 512.0 / 10.0) < Size
  {
    var px := Floor((p.re + 3.0) * (Size as real) / 6.0);
    var py := Floor(p.im * (Size as real) / 10.0);
    if px >= 0 && px < Size && py >= 0 && py < Size then Some(py * Size + px) else None
  }

  /** `Math.min(255, data[idx] + 1)`. */
  function Bump(b: byte): (c: byte)
    ensures b < 255 ==> c as int == b as int + 1
    ensures b == 255 ==> c == 255
  {
    if b as int + 1 > 255 then 255 else b + 1
  }

  /** The point and the histogram after some iterations. */
  datatype Fern = Fern(point: Complex, data: seq<byte>)

  /** One iteration: move the point, then count its cell if it has one. */
  function Iterate(f: Fern, r: real): (g: Fern)
    requires |f.data| == Size * Size
    ensures |g.data| == Size * Size
    ensures g.point == Next(r, f.point)
    ensures CellOf(g.point).None? ==> g.data == f.data
    ensures CellOf(g.point).Some? ==>
      var i := CellOf(g.point).value;
      g.data[i] == Bump(f.data[i]) && forall j :: 0 <= j < |g.data| && j != i ==> g.data[j] == f.data[j]
  {
    var q := Next(r, f.point);
    match CellOf(q)
    case None => Fern(q, f.data)
    case Some(i) => Fern(q, f.data[i := Bump(f.data[i])])
  }

  /** The state after the draws `draws`, starting at `(0, 0)` on an empty grid. */
  function Run(draws: seq<real>): (f: Fern)
    ensures |f.data| == Size * Size
  {
    if |draws| == 0 then Fern(Zero, seq(Size * Size, _ => 0))
    else Iterate(Run(draws[..|draws| - 1]), draws[|draws| - 1])
  }

  /** The sum of the histogram's cells. */
  function Sum(s: seq<byte>): int
  {
    if |s| == 0 then 0 else Sum(s[..|s| - 1]) + s[|s| - 1] as int
  }

  lemma {:induction false} SumOfZeros(n: nat)
    ensures Sum(seq(n, _ => 0 as byte)) == 0
  {
    if n > 0 {
      assert seq(n, _ => 0 as byte)[..n - 1] == seq(n - 1, _ => 0 as byte);
      SumOfZeros(n - 1);
    }
  }

  /** Changing one cell changes the sum by the difference. */
  lemma {:induction false} SumUpdate(s: seq<byte>, i: nat, v: byte)
    requires i < |s|
    ensures Sum(s[i := v]) == Sum(s) - s[i] as int + v as int
    decreases |s|
  {
    var t := s[i := v];
    if i < |s| - 1 {
      assert t[..|t| - 1] == s[..|s| - 1][i := v];
      SumUpdate(s[..|s| - 1], i, v);
    } else {
      assert t[..|t| - 1] == s[..|s| - 1];
    }
  }

  /** Each iteration adds at most one to the total count. */
  lemma IterateAddsAtMostOne(f: Fern, r: real)
    requires |f.data| == Size * Size
    ensures Sum(f.data) <= Sum(Iterate(f, r).data) <= Sum(f.data) + 1
  {
    var q := Next(r, f.point);
    if CellOf(q).Some? {
      var i := CellOf(q).value;
      SumUpdate(f.data, i, Bump(f.data[i]));
    }
  }

  /** The histogram holds at most one count per iteration. */
  lemma {:induction false} SumAtMostDraws(draws: seq<real>)
    ensures 0 <= Sum(Run(draws).data) <= |draws|
  {
    if |draws| == 0 {
      SumOfZeros(Size * Size);
    } else {
      SumAtMostDraws(draws[..|draws| - 1]);
      IterateAddsAtMostOne(Run(draws[..|draws| - 1]), draws[|draws| - 1]);
    }
  }

  /**
   * The last part of the loop body: count the point in its cell, when it
   * has one; every other cell is left alone.
   */
  method Plot(data: array<byte>, x: real, y: real)
    requires data.Length == Size * Size
    modifies data
    ensures CellOf(Complex(x, y)).None? ==> data[..] == old(data[..])
    ensures CellOf(Complex(x, y)).Some? ==>
      var i := CellOf(Complex(x, y)).value;
      data[..] == old(data[..])[i := Bump(old(data[i]))]
  {
    var px := Floor((x + 3.0) * (Size as real) / 6.0);
    var py := Floor(y * (Size as real) / 10.0);
    if px >= 0 && px < Size && py >= 0 && py < Size {
      var idx := py * Size + px;
      data[idx] := Bump(data[idx]);
    }
  }

  /**
   * `generateFern`: the loop over the draws writes the `Uint8Array` in
   * place; `x` and `y` carry the point from one iteration to the next.
   */
  method GenerateFern(draws: seq<real>) returns (data: array<byte>)
    requires |draws| == FernPoints
    ensures fresh(data)
    ensures data[..] == Run(draws).data
  {
    data := new byte[Size * Size](_ => 0);
    var x, y := 0.0, 0.0;
    var i := 0;
    while i < FernPoints
      invariant 0 <= i <= FernPoints
      invariant data.Length == Size * Size
      invariant Run(draws[..i]) == Fern(Complex(x, y), data[..])
    {
      assert draws[..i + 1][..i] == draws[..i];
      var r := draws[i];
      var next := Next(r, Complex(x, y));
      x, y := next.re, next.im;
      Plot(data, x, y);
      i := i + 1;
    }
    assert draws[..FernPoints] == draws;
  }
}
