/** The per-category budget of `oversample`: a fraction `amt` of extra copies
    is spent in chunks `frac = min(frac, amt)`, starting from `min(amt, 1)`,
    and each chunk draws `SampleSize(frac, n)` rows of the category's `n` rows.
    Fractions are exact reals here. */
module Budget {
  import opened Frame

  /** The least integer not below `x`. */
  function Ceil(x: real): (k: int)
    ensures (k - 1) as real < x <= k as real
  {
    -((-x).Floor)
  }

  /** The chunk fractions the loop spends for a budget `amt`, in order. */
  function Chunks(amt: real): (fs: seq<real>)
    ensures forall i :: 0 <= i < |fs| ==> 0.0 < fs[i] <= 1.0
    decreases amt.Floor
  {
    if amt <= 0.0 then []
    else if amt <= 1.0 then [amt]
    else [1.0] + Chunks(amt - 1.0)
  }

  function Sum(fs: seq<real>): real
  {
    if fs == [] then 0.0 else fs[0] + Sum(fs[1..])
  }

  /** Rows drawn by the chunks `fs` from a category of `n` rows. */
  function SumSizes(fs: seq<real>, n: nat): nat
    requires forall i :: 0 <= i < |fs| ==> 0.0 <= fs[i] <= 1.0
  {
    if fs == [] then 0 else SampleSize(fs[0], n) + SumSizes(fs[1..], n)
  }

  lemma {:induction false} SumSizesSnoc(fs: seq<real>, f: real, n: nat)
    requires forall i :: 0 <= i < |fs| ==> 0.0 <= fs[i] <= 1.0
    requires 0.0 <= f <= 1.0
    ensures SumSizes(fs + [f], n) == SumSizes(fs, n) + SampleSize(f, n)
  {
    if fs != [] {
      assert (fs + [f])[1..] == fs[1..] + [f];
      SumSizesSnoc(fs[1..], f, n);
    }
  }

  /** The number of whole chunks (1.0) among `fs`; each such chunk draws its category whole. */
  function Wholes(fs: seq<real>): nat
  {
    if fs == [] then 0 else (if fs[0] == 1.0 then 1 else 0) + Wholes(fs[1..])
  }

  lemma {:induction false} WholesSnoc(fs: seq<real>, f: real)
    ensures Wholes(fs + [f]) == Wholes(fs) + (if f == 1.0 then 1 else 0)
  {
    if fs != [] {
      assert (fs + [f])[1..] == fs[1..] + [f];
      WholesSnoc(fs[1..], f);
    }
  }

  /** A budget `amt > 0` is spent in exactly `floor(amt)` whole chunks. */
  lemma {:induction false} WholesChunks(amt: real)
    requires amt > 0.0
    ensures Wholes(Chunks(amt)) == amt.Floor
  {
    if amt > 1.0 {
      WholesChunks(amt - 1.0);
      assert Chunks(amt)[1..] == Chunks(amt - 1.0);
      assert (amt - 1.0).Floor == amt.Floor - 1;
    } else {
      assert Chunks(amt) == [amt];
      assert Chunks(amt)[1..] == [];
    }
  }

  /** Extra rows appended for a category of `n` rows whose budget is `amt`. */
  function Extra(amt: real, n: nat): nat
  {
    SumSizes(Chunks(amt), n)
  }

  /** One pass of the loop: while budget remains, the chunk it takes is the
      next element of `Chunks`, provided `frac` is 1 or already covers `amt`. */
  lemma ChunksStep(amt: real, frac: real)
    requires amt > 0.0 && 0.0 < frac <= 1.0
    requires frac == 1.0 || amt <= frac
    ensures var f := if amt < frac then amt else frac;
      && 0.0 < f <= 1.0
      && Chunks(amt) == [f] + Chunks(amt - f)
      && (amt - f > 0.0 ==> f == 1.0)
  {
    var f := if amt < frac then amt else frac;
    assert Chunks(amt) == [f] + Chunks(amt - f);
  }

  /** The rows that pass draws come on top of what the rest of the budget buys. */
  lemma ExtraStep(amt: real, frac: real, n: nat)
    requires amt > 0.0 && 0.0 < frac <= 1.0
    requires frac == 1.0 || amt <= frac
    ensures var f := if amt < frac then amt else frac;
      Extra(amt, n) == SampleSize(f, n) + Extra(amt - f, n)
  {
    var f := if amt < frac then amt else frac;
    ChunksStep(amt, frac);
    assert ([f] + Chunks(amt - f))[1..] == Chunks(amt - f);
  }

  /** The loop runs exactly ceil(amt) times. */
  lemma {:induction false} ChunksCount(amt: real)
    requires amt > 0.0
    ensures |Chunks(amt)| == Ceil(amt)
  {
    if amt > 1.0 {
      ChunksCount(amt - 1.0);
    }
  }

  /** The chunks spend the budget exactly. */
  lemma {:induction false} ChunksSum(amt: real)
    ensures Sum(Chunks(amt)) == if amt > 0.0 then amt else 0.0
  {
    if amt > 1.0 {
      ChunksSum(amt - 1.0);
    }
  }

  /** Each whole unit of budget adds `n` rows (that it adds every row is
      `AtLeastCopies` in `Oversampling.SpendBudget`); the fractional rest draws
      `SampleSize` of the rows once. */
  lemma {:induction false} ExtraExact(amt: real, n: nat)
    requires amt > 0.0
    ensures 0.0 <= amt - amt.Floor as real < 1.0
    ensures Extra(amt, n) == amt.Floor * n + SampleSize(amt - amt.Floor as real, n)
  {
    if amt > 1.0 {
      ExtraExact(amt - 1.0, n);
      ExtraWholeChunk(amt, n);
      FloorStep(amt, n);
    } else {
      OneChunk(amt, n);
      if amt == 1.0 {
        assert amt.Floor == 1;
        assert amt - amt.Floor as real == 0.0;
      } else {
        assert amt.Floor == 0;
      }
    }
  }

  /** Taking one whole unit off a budget above 1.0 lowers its floor by one and keeps its fractional rest. */
  lemma FloorStep(amt: real, n: nat)
    requires amt > 1.0
    ensures (amt - 1.0).Floor == amt.Floor - 1
    ensures (amt - 1.0) - (amt - 1.0).Floor as real == amt - amt.Floor as real
    ensures (amt - 1.0).Floor * n + n == amt.Floor * n
  {
    assert (amt - 1.0).Floor == amt.Floor - 1;
    assert (amt.Floor - 1) * n == amt.Floor * n - n;
  }

  /** A budget above 1.0 starts with a whole chunk, which draws all `n` rows. */
  lemma ExtraWholeChunk(amt: real, n: nat)
    requires amt > 1.0
    ensures Extra(amt, n) == n + Extra(amt - 1.0, n)
  {
    assert Chunks(amt)[1..] == Chunks(amt - 1.0);
  }

  /** A budget of at most 1.0 is one chunk, a single draw. */
  lemma OneChunk(amt: real, n: nat)
    requires 0.0 < amt <= 1.0
    ensures Extra(amt, n) == SampleSize(amt, n)
  {
    assert Chunks(amt) == [amt];
    assert SumSizes([amt], n) == SampleSize(amt, n) + SumSizes([], n);
  }

  /** With a budget of k whole copies, the category gains exactly k times its rows. */
  lemma WholeBudget(k: nat, n: nat)
    ensures Extra(k as real, n) == k * n
  {
    if k > 0 {
      ExtraExact(k as real, n);
    }
  }

  /** Chunked drawing is not one rounding of `amt * n`: a budget of 1.5 on 3 rows
      adds 3 + round(1.5) = 5 rows, while 1.5 * 3 = 4.5 = 0.5 * 9 rounds to 4
      under the same half-to-even rule. */
  lemma ExtraTie()
    ensures Extra(1.5, 3) == 5
    ensures SampleSize(0.5, 9) == 4
  {
    assert Chunks(1.5) == [1.0] + Chunks(0.5);
    assert Chunks(0.5) == [0.5];
    assert SumSizes([1.0, 0.5], 3) == SampleSize(1.0, 3) + SumSizes([0.5], 3);
    assert SumSizes([0.5], 3) == SampleSize(0.5, 3) + SumSizes([], 3);
  }

  /** No budget, no rows. */
  lemma NoBudget(amt: real, n: nat)
    requires amt <= 0.0
    ensures Extra(amt, n) == 0
  {
  }

  /** At most ceil(amt) copies of the category are drawn. */
  lemma {:induction false} ExtraBound(amt: real, n: nat)
    requires amt > 0.0
    ensures Extra(amt, n) <= Ceil(amt) * n
  {
    ExtraExact(amt, n);
    var r := amt - amt.Floor as real;
    if r == 0.0 {
      assert Ceil(amt) == amt.Floor;
    } else {
      assert Ceil(amt) == amt.Floor + 1;
      assert (amt.Floor + 1) * n == amt.Floor * n + n;
    }
  }
}
