/** The `Oversampler`: a stratified train/validation split of the manifest,
    optional oversampling of the training part, and the combined table
    (validation rows first) that can be committed as the new manifest. */
module Oversampling {
  import opened Frame
  import opened Budget
  import opened FolderToDf

  /** `cats_to_pct`: category to the extra fraction of its rows to add, in insertion order. */
  type Config = seq<(Category, real)>

  function Keys(config: Config): set<Category>
  {
    set e | e in config :: e.0
  }

  /** Extra rows that `oversample` appends for category `c` of `n` rows: one
      budget per entry keyed `c` (a dictionary has at most one). */
  function ExtraFor(config: Config, c: Category, n: nat): nat
  {
    if config == [] then 0
    else
      var last := config[|config| - 1];
      ExtraFor(config[..|config| - 1], c, n) + (if last.0 == c then Extra(last.1, n) else 0)
  }

  /** What `oversample(t, cats_to_pct, do=do)` may return, whatever rows the draws pick. */
  ghost predicate OversampleOf(t: seq<Row>, catsToPct: Option<Config>, do: bool, r: seq<Row>)
  {
    if !do then r == t
    else
      && catsToPct.Some?
      // the input comes first, unchanged
      && |t| <= |r| && r[..|t|] == t
      // every appended row is a row of the input whose category is configured
      && (forall x :: x in r[|t|..] ==> x in t && x.category in Keys(catsToPct.value))
      // and each category gains exactly what its budget buys
      && (forall c :: Count(r, c) == Count(t, c) + ExtraFor(catsToPct.value, c, Count(t, c)))
      // each chunk is a draw without replacement, so a row is appended at most
      // once per chunk of its category
      && (forall c :: multiset(Only(r[|t|..], c)) <= multiset(Repeat(Only(t, c), NChunks(catsToPct.value, c))))
      // and a whole chunk (1.0) draws every row of its category
      && (forall c :: multiset(Repeat(Only(t, c), NWhole(catsToPct.value, c))) <= multiset(Only(r[|t|..], c)))
  }

  /** Number of chunks `oversample` draws for category `c`: ⌈amt⌉ for its entry. */
  function NChunks(config: Config, c: Category): nat
  {
    if config == [] then 0
    else
      var last := config[|config| - 1];
      NChunks(config[..|config| - 1], c) + (if last.0 == c then |Chunks(last.1)| else 0)
  }

  /** Number of whole chunks `oversample` draws for category `c`: ⌊amt⌋ for its entry. */
  function NWhole(config: Config, c: Category): nat
  {
    if config == [] then 0
    else
      var last := config[|config| - 1];
      NWhole(config[..|config| - 1], c) + (if last.0 == c then Wholes(Chunks(last.1)) else 0)
  }

  /** Each category's validation rows are a without-replacement draw of
      `round(valid_pct * n)` of its `n` rows. */
  ghost predicate StratifiedValidation(df: seq<Row>, validPct: real, valid: seq<Row>)
    requires 0.0 <= validPct <= 1.0
  {
    forall c :: IsDraw(Only(valid, c), Only(df, c), SampleSize(validPct, Count(df, c)))
  }

  /** The validation loop after the categories in `done`: each of them has its
      draw, no other category has rows yet. */
  ghost predicate DrawnFor(df: seq<Row>, validPct: real, valid: seq<Row>, done: set<Category>)
    requires 0.0 <= validPct <= 1.0
  {
    && (forall c :: c in done ==> IsDraw(Only(valid, c), Only(df, c), SampleSize(validPct, Count(df, c))))
    && (forall c :: c !in done ==> Only(valid, c) == [])
  }

  /** Appending the draw of a new category `cat` extends the validation loop by `cat`. */
  lemma DrawnForStep(df: seq<Row>, validPct: real, valid: seq<Row>, done: set<Category>, cat: Category, part: seq<Row>)
    requires 0.0 <= validPct <= 1.0
    requires DrawnFor(df, validPct, valid, done) && cat !in done
    requires IsDraw(part, Only(df, cat), SampleSize(validPct, Count(df, cat)))
    ensures DrawnFor(df, validPct, valid + part, done + {cat})
  {
    DrawCategory(part, df, cat);
    forall c | c in done + {cat}
      ensures IsDraw(Only(valid + part, c), Only(df, c), SampleSize(validPct, Count(df, c)))
    {
      OnlyAppend(valid, part, cat, c);
    }
    forall c | c !in done + {cat} ensures Only(valid + part, c) == [] {
      OnlyAppend(valid, part, cat, c);
    }
  }

  /** A draw from the rows of one category holds rows of that category only. */
  lemma DrawCategory(part: seq<Row>, t: seq<Row>, cat: Category)
    requires multiset(part) <= multiset(Only(t, cat))
    ensures forall x :: x in part ==> x.category == cat
  {
    forall x | x in part ensures x.category == cat {
      assert multiset(part)[x] > 0;
      assert x in Only(t, cat);
    }
  }

  /** Appending rows of category `cat` extends that category's selection only. */
  lemma OnlyAppend(valid: seq<Row>, part: seq<Row>, cat: Category, c: Category)
    requires forall x :: x in part ==> x.category == cat
    ensures Only(valid + part, c) == Only(valid, c) + (if c == cat then part else [])
  {
    OnlyConcat(valid, part, c);
    if c == cat {
      OnlyAll(part, c);
    } else {
      OnlyNone(part, c);
    }
  }

  /** Moving one category from the categories to do to those done. */
  lemma MoveDone<T>(todo: set<T>, done: set<T>, all: set<T>, x: T)
    requires todo !! done && todo + done == all && x in todo
    ensures (todo - {x}) !! (done + {x}) && (todo - {x}) + (done + {x}) == all
    ensures |todo - {x}| < |todo|
  {
  }

  /** Once every category of `df` is done, the draws form a stratified validation. */
  lemma DrawnForAll(df: seq<Row>, validPct: real, valid: seq<Row>, done: set<Category>)
    requires 0.0 <= validPct <= 1.0
    requires DrawnFor(df, validPct, valid, done) && Categories(df) <= done
    ensures StratifiedValidation(df, validPct, valid)
  {
    forall c | c !in done ensures Only(df, c) == [] {
      OnlyAbsent(df, c);
    }
  }

  /** The training table: the rows of `df` whose labels are not validation labels,
      oversampled (when `do`) and then shuffled. */
  ghost predicate TrainOf(df: seq<Row>, valid: seq<Row>, catsToPct: Option<Config>, do: bool, trn: seq<Row>)
  {
    exists o :: TrainFrom(df, valid, catsToPct, do, o, trn)
  }

  /** The same, with `over` the oversampled table before the shuffle. */
  ghost predicate TrainFrom(df: seq<Row>, valid: seq<Row>, catsToPct: Option<Config>, do: bool, over: seq<Row>, trn: seq<Row>)
  {
    OversampleOf(DropLabels(df, Labels(valid)), catsToPct, do, over) && multiset(trn) == multiset(over)
  }

  /** An oversampled, shuffled complement of `valid` is a training table. */
  lemma TrainOfWitness(df: seq<Row>, valid: seq<Row>, catsToPct: Option<Config>, do: bool, over: seq<Row>, trn: seq<Row>)
    requires TrainFrom(df, valid, catsToPct, do, over, trn)
    ensures TrainOf(df, valid, catsToPct, do, trn)
  {
  }

  /** The `while amt > 0` loop of `oversample` for one category whose rows are
      `rows`: each pass appends `rows.sample(frac=frac)`. */
  method SpendBudget(rows: seq<Row>, amt0: real) returns (drawn: seq<Row>, ghost fracs: seq<real>)
    ensures fracs == Chunks(amt0)
    ensures |drawn| == Extra(amt0, |rows|)
    ensures AtMostCopies(drawn, rows, |fracs|)
    ensures AtLeastCopies(drawn, rows, Wholes(fracs))
    ensures forall x :: x in drawn ==> x in rows
  {
    drawn, fracs := [], [];
    var amt := amt0;
    var frac := if 1.0 < amt then 1.0 else amt;
    while amt > 0.0
      invariant Spending(rows, amt0, amt, frac, drawn, fracs)
      decreases |Chunks(amt)|
    {
      ghost var frac0 := frac;
      frac := if amt < frac then amt else frac;
      var part := Sample(rows, frac);
      SpendingStep(rows, amt0, amt, frac0, drawn, fracs, part);
      drawn := drawn + part;
      fracs := fracs + [frac];
      amt := amt - frac;
    }
    SpendingDone(rows, amt0, amt, frac, drawn, fracs);
  }

  /** When the budget is spent, the chunks taken are all the chunks. */
  lemma SpendingDone(rows: seq<Row>, amt0: real, amt: real, frac: real, drawn: seq<Row>, fracs: seq<real>)
    requires Spending(rows, amt0, amt, frac, drawn, fracs) && amt <= 0.0
    ensures fracs == Chunks(amt0)
    ensures |drawn| == Extra(amt0, |rows|)
    ensures forall x :: x in drawn ==> x in rows
  {
    assert fracs + Chunks(amt) == fracs;
    CopiesFromRows(drawn, rows, |fracs|);
  }

  /** The state of that loop: `frac` is 1 or covers the budget left, the chunks
      taken so far followed by those still to come are the chunks of the whole
      budget, and the rows drawn so far are their draws: each row at most once
      per chunk, and every row once per whole chunk. */
  ghost predicate Spending(rows: seq<Row>, amt0: real, amt: real, frac: real, drawn: seq<Row>, fracs: seq<real>)
  {
    && SpendingChunks(amt0, amt, frac, fracs)
    && |drawn| == SumSizes(fracs, |rows|)
    && AtMostCopies(drawn, rows, |fracs|)
    && AtLeastCopies(drawn, rows, Wholes(fracs))
  }

  ghost predicate SpendingChunks(amt0: real, amt: real, frac: real, fracs: seq<real>)
  {
    && (amt > 0.0 ==> 0.0 < frac <= 1.0 && (frac == 1.0 || amt <= frac))
    && fracs + Chunks(amt) == Chunks(amt0)
    && (forall i :: 0 <= i < |fracs| ==> 0.0 < fracs[i] <= 1.0)
  }

  /** The chunk part of one pass. */
  lemma ChunksTaken(amt0: real, amt: real, frac0: real, fracs: seq<real>)
    requires SpendingChunks(amt0, amt, frac0, fracs) && amt > 0.0
    ensures var f := if amt < frac0 then amt else frac0;
      && 0.0 < f <= 1.0
      && SpendingChunks(amt0, amt - f, f, fracs + [f])
      && |Chunks(amt - f)| < |Chunks(amt)|
  {
    var f := if amt < frac0 then amt else frac0;
    ChunksStep(amt, frac0);
    assert (fracs + [f]) + Chunks(amt - f) == fracs + Chunks(amt);
  }

  /** One pass takes the next chunk `min(frac, amt)` and appends a draw of that size. */
  lemma SpendingStep(rows: seq<Row>, amt0: real, amt: real, frac0: real, drawn: seq<Row>, fracs: seq<real>, part: seq<Row>)
    requires Spending(rows, amt0, amt, frac0, drawn, fracs) && amt > 0.0
    requires var f := if amt < frac0 then amt else frac0;
      IsDraw(part, rows, SampleSize(f, |rows|))
    ensures var f := if amt < frac0 then amt else frac0;
      && Spending(rows, amt0, amt - f, f, drawn + part, fracs + [f])
      && |Chunks(amt - f)| < |Chunks(amt)|
  {
    var f := if amt < frac0 then amt else frac0;
    ChunksTaken(amt0, amt, frac0, fracs);
    SumSizesSnoc(fracs, f, |rows|);
    DrawBound(drawn, part, rows, |fracs|);
    WholesSnoc(fracs, f);
    DrawCovers(drawn, part, rows, Wholes(fracs), f);
  }

  /** `m` copies of `rows`, one after the other. */
  function Repeat(rows: seq<Row>, m: nat): seq<Row>
  {
    if m == 0 then [] else Repeat(rows, m - 1) + rows
  }

  /** `drawn` takes each row at most `m` times as often as `rows` holds it. */
  ghost predicate AtMostCopies(drawn: seq<Row>, rows: seq<Row>, m: nat)
  {
    multiset(drawn) <= multiset(Repeat(rows, m))
  }

  /** `drawn` holds each row at least `m` times as often as `rows` holds it. */
  ghost predicate AtLeastCopies(drawn: seq<Row>, rows: seq<Row>, m: nat)
  {
    multiset(Repeat(rows, m)) <= multiset(drawn)
  }

  /** A draw of size `SampleSize(f, n)` adds one more copy of every row when `f` is 1.0. */
  lemma DrawCovers(drawn: seq<Row>, part: seq<Row>, rows: seq<Row>, w: nat, f: real)
    requires AtLeastCopies(drawn, rows, w)
    requires 0.0 < f <= 1.0 && IsDraw(part, rows, SampleSize(f, |rows|))
    ensures AtLeastCopies(drawn + part, rows, w + (if f == 1.0 then 1 else 0))
  {
    if f == 1.0 {
      FullDraw(part, rows);
      assert Repeat(rows, w + 1) == Repeat(rows, w) + rows;
    }
  }

  /** A without-replacement draw of all `|rows|` rows takes each of them. */
  lemma FullDraw(part: seq<Row>, rows: seq<Row>)
    requires multiset(part) <= multiset(rows) && |part| == |rows|
    ensures multiset(part) == multiset(rows)
  {
    var rest := multiset(rows) - multiset(part);
    assert multiset(rows) == multiset(part) + rest;
    assert |multiset(rows)| == |multiset(part)| + |rest|;
    assert rest == multiset{};
  }

  lemma {:induction false} CopiesFromRows(drawn: seq<Row>, rows: seq<Row>, m: nat)
    requires AtMostCopies(drawn, rows, m)
    ensures forall x :: x in drawn ==> x in rows
  {
    forall x | x in drawn ensures x in rows {
      assert multiset(drawn)[x] > 0;
      RepeatRows(rows, m, x);
    }
  }

  lemma {:induction false} RepeatRows(rows: seq<Row>, m: nat, x: Row)
    requires x in Repeat(rows, m)
    ensures x in rows
  {
    if x !in rows {
      RepeatRows(rows, m - 1, x);
    }
  }

  /** Copies add up. */
  lemma {:induction false} RepeatAdd(rows: seq<Row>, a: nat, b: nat, total: nat)
    requires total == a + b
    ensures multiset(Repeat(rows, total)) == multiset(Repeat(rows, a)) + multiset(Repeat(rows, b))
  {
    if b > 0 {
      RepeatAdd(rows, a, b - 1, total - 1);
      assert Repeat(rows, total) == Repeat(rows, total - 1) + rows;
      assert Repeat(rows, b) == Repeat(rows, b - 1) + rows;
    }
  }

  /** A draw adds at most one copy of each row. */
  lemma DrawBound(drawn: seq<Row>, part: seq<Row>, rows: seq<Row>, m: nat)
    requires AtMostCopies(drawn, rows, m)
    requires multiset(part) <= multiset(rows)
    ensures AtMostCopies(drawn + part, rows, m + 1)
  {
    assert Repeat(rows, m + 1) == Repeat(rows, m) + rows;
  }

  lemma {:induction false} ExtraForAbsent(config: Config, c: Category, n: nat)
    requires c !in Keys(config)
    ensures ExtraFor(config, c, n) == 0
  {
    if config != [] {
      var init := config[..|config| - 1];
      assert Keys(init) <= Keys(config);
      ExtraForAbsent(init, c, n);
    }
  }

  /** For a dictionary, the one entry of `c` gives the whole budget. */
  lemma {:induction false} ExtraForKey(config: Config, k: nat, n: nat)
    requires DistinctKeys(config) && k < |config|
    ensures ExtraFor(config, config[k].0, n) == Extra(config[k].1, n)
  {
    var last := |config| - 1;
    var init := config[..last];
    assert DistinctKeys(init);
    if k < last {
      assert init[k] == config[k];
      ExtraForKey(init, k, n);
    } else {
      assert config[k].0 !in Keys(init) by {
        forall e | e in init ensures e.0 != config[k].0 {
          var i :| 0 <= i < |init| && init[i] == e;
          assert config[i] == e;
        }
      }
      ExtraForAbsent(init, config[k].0, n);
    }
  }

  /** Counting rows of one category ignores order. */
  lemma CountPermutation(a: seq<Row>, b: seq<Row>, c: Category)
    requires multiset(a) == multiset(b)
    ensures Count(a, c) == Count(b, c)
  {
    OnlyMultiset(a, c);
    OnlyMultiset(b, c);
    assert multiset(Only(a, c)) == multiset(Only(b, c));
    assert |multiset(Only(a, c))| == |Only(a, c)|;
  }

  /** `oversample`. With `do` false the table comes back as it is; otherwise every
      configured category's budget is spent and the draws are appended after it. */
  method Oversample(t: seq<Row>, catsToPct: Option<Config>, do: bool) returns (r: seq<Row>)
    requires do ==> catsToPct.Some?
    ensures OversampleOf(t, catsToPct, do, r)
  {
    if !do {
      return t;
    }
    var config := catsToPct.value;
    var sample: seq<Row> := [];
    for k := 0 to |config|
      invariant AppendedRows(t, config[..k], sample)
      invariant AppendedCopies(t, config[..k], sample)
      invariant AppendedWholes(t, config[..k], sample)
    {
      var drawn, fracs := SpendBudget(Only(t, config[k].0), config[k].1);
      AppendedStep(t, config, k, sample, drawn);
      AppendedCopiesStep(t, config, k, sample, drawn);
      AppendedWholesStep(t, config, k, sample, drawn);
      sample := sample + drawn;
    }
    assert config[..|config|] == config;
    r := t + sample;
    AppendedAll(t, config, sample);
  }

  /** The loop of `oversample` after the entries `config`: `sample` holds rows
      of `t` of configured categories only, each category as many as its
      budgets buy, each row at most once per chunk of its category and at
      least once per whole chunk. */
  ghost predicate Appended(t: seq<Row>, config: Config, sample: seq<Row>)
  {
    AppendedRows(t, config, sample) && AppendedCopies(t, config, sample) && AppendedWholes(t, config, sample)
  }

  ghost predicate AppendedRows(t: seq<Row>, config: Config, sample: seq<Row>)
  {
    && (forall x :: x in sample ==> x in t && x.category in Keys(config))
    && (forall c :: Count(sample, c) == ExtraFor(config, c, Count(t, c)))
  }

  ghost predicate AppendedCopies(t: seq<Row>, config: Config, sample: seq<Row>)
  {
    forall c :: multiset(Only(sample, c)) <= multiset(Repeat(Only(t, c), NChunks(config, c)))
  }

  ghost predicate AppendedWholes(t: seq<Row>, config: Config, sample: seq<Row>)
  {
    forall c :: multiset(Repeat(Only(t, c), NWhole(config, c))) <= multiset(Only(sample, c))
  }

  /** The whole-chunk copies of one more entry's draws. */
  lemma AppendedWholesStep(t: seq<Row>, config: Config, k: nat, sample: seq<Row>, drawn: seq<Row>)
    requires k < |config| && AppendedWholes(t, config[..k], sample)
    requires AtLeastCopies(drawn, Only(t, config[k].0), Wholes(Chunks(config[k].1)))
    requires forall x :: x in drawn ==> x.category == config[k].0
    ensures AppendedWholes(t, config[..k + 1], sample + drawn)
  {
    forall c ensures multiset(Repeat(Only(t, c), NWhole(config[..k + 1], c))) <= multiset(Only(sample + drawn, c)) {
      AppendedWholesOf(t, config, k, sample, drawn, c);
    }
  }

  lemma AppendedWholesOf(t: seq<Row>, config: Config, k: nat, sample: seq<Row>, drawn: seq<Row>, c: Category)
    requires k < |config|
    requires multiset(Repeat(Only(t, c), NWhole(config[..k], c))) <= multiset(Only(sample, c))
    requires c == config[k].0 ==> AtLeastCopies(drawn, Only(t, c), Wholes(Chunks(config[k].1)))
    requires forall x :: x in drawn ==> x.category == config[k].0
    ensures multiset(Repeat(Only(t, c), NWhole(config[..k + 1], c))) <= multiset(Only(sample + drawn, c))
  {
    var rows := Only(t, c);
    var n0 := NWhole(config[..k], c);
    NWholeSnoc(config, k, c);
    OnlyConcat(sample, drawn, c);
    var total := NWhole(config[..k + 1], c);
    if c == config[k].0 {
      var m := Wholes(Chunks(config[k].1));
      assert total == n0 + m;
      OnlyAll(drawn, c);
      assert Only(sample + drawn, c) == Only(sample, c) + drawn;
      RepeatAdd(rows, n0, m, total);
      SumAbove(Only(sample, c), drawn, Repeat(rows, n0), Repeat(rows, m));
    } else {
      assert total == n0;
      OnlyNone(drawn, c);
      assert Only(sample + drawn, c) == Only(sample, c);
    }
  }

  lemma SumAbove(a: seq<Row>, b: seq<Row>, p: seq<Row>, q: seq<Row>)
    requires multiset(p) <= multiset(a) && multiset(q) <= multiset(b)
    ensures multiset(p) + multiset(q) <= multiset(a + b)
  {
    forall x ensures (multiset(p) + multiset(q))[x] <= multiset(a + b)[x] {
      assert multiset(a + b)[x] == multiset(a)[x] + multiset(b)[x];
    }
  }

  lemma NWholeSnoc(config: Config, k: nat, c: Category)
    requires k < |config|
    ensures NWhole(config[..k + 1], c) == NWhole(config[..k], c) + (if config[k].0 == c then Wholes(Chunks(config[k].1)) else 0)
  {
    assert config[..k + 1][..k] == config[..k];
    assert config[..k + 1][k] == config[k];
  }

  /** The copy bound of one more entry's draws. */
  lemma AppendedCopiesStep(t: seq<Row>, config: Config, k: nat, sample: seq<Row>, drawn: seq<Row>)
    requires k < |config| && AppendedCopies(t, config[..k], sample)
    requires AtMostCopies(drawn, Only(t, config[k].0), |Chunks(config[k].1)|)
    requires forall x :: x in drawn ==> x.category == config[k].0
    ensures AppendedCopies(t, config[..k + 1], sample + drawn)
  {
    forall c ensures multiset(Only(sample + drawn, c)) <= multiset(Repeat(Only(t, c), NChunks(config[..k + 1], c))) {
      AppendedCopiesOf(t, config, k, sample, drawn, c);
    }
  }

  lemma AppendedCopiesOf(t: seq<Row>, config: Config, k: nat, sample: seq<Row>, drawn: seq<Row>, c: Category)
    requires k < |config|
    requires multiset(Only(sample, c)) <= multiset(Repeat(Only(t, c), NChunks(config[..k], c)))
    requires c == config[k].0 ==> AtMostCopies(drawn, Only(t, c), |Chunks(config[k].1)|)
    requires forall x :: x in drawn ==> x.category == config[k].0
    ensures multiset(Only(sample + drawn, c)) <= multiset(Repeat(Only(t, c), NChunks(config[..k + 1], c)))
  {
    var rows := Only(t, c);
    var n0 := NChunks(config[..k], c);
    NChunksSnoc(config, k, c);
    OnlyConcat(sample, drawn, c);
    var total := NChunks(config[..k + 1], c);
    if c == config[k].0 {
      var m := |Chunks(config[k].1)|;
      assert total == n0 + m;
      OnlyAll(drawn, c);
      assert Only(sample + drawn, c) == Only(sample, c) + drawn;
      RepeatAdd(rows, n0, m, total);
      SumBelow(Only(sample, c), drawn, Repeat(rows, n0), Repeat(rows, m));
    } else {
      assert total == n0;
      OnlyNone(drawn, c);
      assert Only(sample + drawn, c) == Only(sample, c);
    }
  }

  lemma SumBelow(a: seq<Row>, b: seq<Row>, p: seq<Row>, q: seq<Row>)
    requires multiset(a) <= multiset(p) && multiset(b) <= multiset(q)
    ensures multiset(a + b) <= multiset(p) + multiset(q)
  {
    forall x ensures multiset(a + b)[x] <= (multiset(p) + multiset(q))[x] {
      assert multiset(a + b)[x] == multiset(a)[x] + multiset(b)[x];
    }
  }

  lemma NChunksSnoc(config: Config, k: nat, c: Category)
    requires k < |config|
    ensures NChunks(config[..k + 1], c) == NChunks(config[..k], c) + (if config[k].0 == c then |Chunks(config[k].1)| else 0)
  {
    assert config[..k + 1][..k] == config[..k];
    assert config[..k + 1][k] == config[k];
  }

  lemma AppendedStep(t: seq<Row>, config: Config, k: nat, sample: seq<Row>, drawn: seq<Row>)
    requires k < |config| && AppendedRows(t, config[..k], sample)
    requires |drawn| == Extra(config[k].1, Count(t, config[k].0))
    requires forall x :: x in drawn ==> x in Only(t, config[k].0)
    ensures AppendedRows(t, config[..k + 1], sample + drawn)
  {
    var cat := config[k].0;
    assert config[..k + 1][..k] == config[..k];
    assert config[..k + 1][k] == config[k];
    assert Keys(config[..k]) + {cat} <= Keys(config[..k + 1]);
    forall c ensures Count(sample + drawn, c) == ExtraFor(config[..k + 1], c, Count(t, c)) {
      OnlyConcat(sample, drawn, c);
      if c == cat {
        OnlyAll(drawn, c);
      } else {
        OnlyNone(drawn, c);
      }
    }
  }

  lemma AppendedAll(t: seq<Row>, config: Config, sample: seq<Row>)
    requires Appended(t, config, sample)
    ensures OversampleOf(t, Some(config), true, t + sample)
  {
    var r := t + sample;
    assert r[..|t|] == t && r[|t|..] == sample;
    forall c ensures Count(r, c) == Count(t, c) + ExtraFor(config, c, Count(t, c)) {
      OnlyConcat(t, sample, c);
    }
  }

  lemma {:induction false} NChunksAbsent(config: Config, c: Category)
    requires c !in Keys(config)
    ensures NChunks(config, c) == 0
  {
    if config != [] {
      var init := config[..|config| - 1];
      assert Keys(init) <= Keys(config);
      NChunksAbsent(init, c);
    }
  }

  /** In a dictionary whose budgets are all at most 1.0, a category gets at most one chunk. */
  lemma {:induction false} NChunksAtMostOne(config: Config, c: Category)
    requires DistinctKeys(config)
    requires forall i :: 0 <= i < |config| ==> config[i].1 <= 1.0
    ensures NChunks(config, c) <= 1
  {
    if config != [] {
      var last := |config| - 1;
      var init := config[..last];
      assert DistinctKeys(init);
      if config[last].0 == c {
        assert c !in Keys(init) by {
          forall e | e in init ensures e.0 != c {
            var i :| 0 <= i < |init| && init[i] == e;
            assert config[i] == e;
          }
        }
        NChunksAbsent(init, c);
      } else {
        NChunksAtMostOne(init, c);
      }
    }
  }

  /** When no budget exceeds 1.0 and the input has no repeated row, no row is
      appended twice, so none occurs more than twice in the result. */
  lemma OversampleNoRepeats(t: seq<Row>, config: Config, r: seq<Row>)
    requires OversampleOf(t, Some(config), true, r)
    requires DistinctKeys(config)
    requires forall i :: 0 <= i < |config| ==> config[i].1 <= 1.0
    requires forall x :: multiset(t)[x] <= 1
    ensures forall x :: multiset(r[|t|..])[x] <= 1
    ensures forall x :: multiset(r)[x] <= 2
  {
    var app := r[|t|..];
    assert r == t + app;
    forall x: Row ensures multiset(app)[x] <= 1 {
      NChunksAtMostOne(config, x.category);
      CopiedAtMostOnce(t, app, NChunks(config, x.category), x);
    }
  }

  /** Rows drawn in at most one chunk from rows without repeats hold `x` at most once. */
  lemma CopiedAtMostOnce(t: seq<Row>, app: seq<Row>, m: nat, x: Row)
    requires m <= 1 && multiset(t)[x] <= 1
    requires multiset(Only(app, x.category)) <= multiset(Repeat(Only(t, x.category), m))
    ensures multiset(app)[x] <= 1
  {
    var c := x.category;
    var bound := multiset(Repeat(Only(t, c), m))[x];
    assert multiset(Only(app, c))[x] <= bound;
    OnlyMultiset(app, c);
    assert multiset(app)[x] == multiset(Only(app, c))[x];
    if m == 1 {
      assert Repeat(Only(t, c), 1) == Only(t, c);
      OnlyMultiset(t, c);
      assert bound == multiset(t)[x];
    } else {
      assert bound == 0;
    }
  }

  lemma {:induction false} NWholeAbsent(config: Config, c: Category)
    requires c !in Keys(config)
    ensures NWhole(config, c) == 0
  {
    if config != [] {
      var init := config[..|config| - 1];
      assert Keys(init) <= Keys(config);
      NWholeAbsent(init, c);
    }
  }

  /** For a dictionary, the one entry of `c` gives all its whole chunks. */
  lemma {:induction false} NWholeKey(config: Config, k: nat)
    requires DistinctKeys(config) && k < |config|
    ensures NWhole(config, config[k].0) == Wholes(Chunks(config[k].1))
  {
    var last := |config| - 1;
    var init := config[..last];
    assert DistinctKeys(init);
    if k < last {
      assert init[k] == config[k];
      NWholeKey(init, k);
    } else {
      assert config[k].0 !in Keys(init) by {
        forall e | e in init ensures e.0 != config[k].0 {
          var i :| 0 <= i < |init| && init[i] == e;
          assert config[i] == e;
        }
      }
      NWholeAbsent(init, config[k].0);
    }
  }

  /** A configured budget `amt > 0` appends its category whole `floor(amt)` times
      (the rest of the appended rows come from the fractional chunk); so with
      `amt >= 1.0` every row of the category is appended. */
  lemma OversampleWholeBudget(t: seq<Row>, config: Config, r: seq<Row>, k: nat)
    requires OversampleOf(t, Some(config), true, r)
    requires DistinctKeys(config) && k < |config| && config[k].1 > 0.0
    ensures multiset(Repeat(Only(t, config[k].0), config[k].1.Floor)) <= multiset(Only(r[|t|..], config[k].0))
    ensures config[k].1 >= 1.0 ==> forall x :: x in t && x.category == config[k].0 ==> x in r[|t|..]
  {
    var c := config[k].0;
    NWholeKey(config, k);
    WholesChunks(config[k].1);
    if config[k].1 >= 1.0 {
      forall x | x in t && x.category == c ensures x in r[|t|..] {
        WholeCopyAppended(t, r[|t|..], c, config[k].1.Floor, x);
      }
    }
  }

  /** With at least one whole copy of category `c` appended, each row of `c` is appended. */
  lemma WholeCopyAppended(t: seq<Row>, app: seq<Row>, c: Category, m: nat, x: Row)
    requires m >= 1 && multiset(Repeat(Only(t, c), m)) <= multiset(Only(app, c))
    requires x in t && x.category == c
    ensures x in app
  {
    OnlyContains(t, c, x);
    assert Repeat(Only(t, c), m) == Repeat(Only(t, c), m - 1) + Only(t, c);
    assert x in Repeat(Only(t, c), m);
    assert multiset(Only(app, c))[x] > 0;
  }

  /** Categories that are not configured keep their count. */
  lemma OversampleUnlistedCount(t: seq<Row>, config: Config, r: seq<Row>, c: Category)
    requires OversampleOf(t, Some(config), true, r)
    requires c !in Keys(config)
    ensures Count(r, c) == Count(t, c)
  {
    ExtraForAbsent(config, c, Count(t, c));
  }

  /** A configured category of `n` rows ends with `n + Extra(amt, n)` rows;
      `{c: 1.0}` doubles it. */
  lemma OversampleListedCount(t: seq<Row>, config: Config, r: seq<Row>, k: nat)
    requires OversampleOf(t, Some(config), true, r)
    requires DistinctKeys(config) && k < |config|
    ensures Count(r, config[k].0) == Count(t, config[k].0) + Extra(config[k].1, Count(t, config[k].0))
    ensures config[k].1 == 1.0 ==> Count(r, config[k].0) == 2 * Count(t, config[k].0)
  {
    var n := Count(t, config[k].0);
    ExtraForKey(config, k, n);
    if config[k].1 == 1.0 {
      WholeBudget(1, n);
    }
  }

  /** Oversampling only repeats rows of its input. */
  lemma OversampleRowsFromInput(t: seq<Row>, catsToPct: Option<Config>, do: bool, r: seq<Row>)
    requires OversampleOf(t, catsToPct, do, r)
    ensures forall x :: x in r ==> x in t
  {
    if do {
      forall x | x in r ensures x in t {
        assert r == r[..|t|] + r[|t|..];
      }
    }
  }

  /** Validation, counted per category, and as a whole a sub-multiset of `df`,
      without repeated rows when `df` has unique labels. */
  lemma ValidationCounts(df: seq<Row>, validPct: real, valid: seq<Row>)
    requires 0.0 <= validPct <= 1.0
    requires StratifiedValidation(df, validPct, valid)
    ensures forall c :: Count(valid, c) == SampleSize(validPct, Count(df, c))
    ensures multiset(valid) <= multiset(df)
    ensures UniqueLabels(df) ==> forall x :: multiset(valid)[x] <= 1
  {
    forall c ensures multiset(Only(valid, c)) <= multiset(Only(df, c)) {
      assert IsDraw(Only(valid, c), Only(df, c), SampleSize(validPct, Count(df, c)));
    }
    SubmultisetByCategory(valid, df);
    if UniqueLabels(df) {
      forall x ensures multiset(valid)[x] <= 1 {
        UniqueLabelsAtMostOnce(df, x);
      }
    }
  }

  /** `drop(index=valid_df.index)` leaves exactly the complement of the validation rows. */
  lemma DropComplement(df: seq<Row>, valid: seq<Row>)
    requires UniqueLabels(df)
    requires multiset(valid) <= multiset(df)
    ensures multiset(DropLabels(df, Labels(valid))) + multiset(valid) == multiset(df)
  {
    var kept := DropLabels(df, Labels(valid));
    DropMultiset(df, Labels(valid));
    forall x ensures multiset(kept)[x] + multiset(valid)[x] == multiset(df)[x] {
      UniqueLabelsAtMostOnce(df, x);
      if x in valid {
        assert x.index in Labels(valid);
      } else if x.index in Labels(valid) {
        var v :| v in valid && v.index == x.index;
        assert multiset(df)[v] > 0;
        if x in df {
          UniqueLabelsSameRow(df, x, v);
        }
      }
    }
  }

  /** Before oversampling the split partitions the manifest: as multisets, in
      total, and category by category. */
  lemma SplitPartition(df: seq<Row>, validPct: real, valid: seq<Row>)
    requires 0.0 <= validPct <= 1.0
    requires UniqueLabels(df)
    requires StratifiedValidation(df, validPct, valid)
    ensures var kept := DropLabels(df, Labels(valid));
      && multiset(kept) + multiset(valid) == multiset(df)
      && |kept| + |valid| == |df|
      && forall c :: Count(kept, c) + Count(valid, c) == Count(df, c)
  {
    var kept := DropLabels(df, Labels(valid));
    ValidationCounts(df, validPct, valid);
    DropComplement(df, valid);
    assert |multiset(kept) + multiset(valid)| == |multiset(df)|;
    forall c ensures Count(kept, c) + Count(valid, c) == Count(df, c) {
      CountSplit(kept, valid, df, c);
    }
  }

  /** Tables that add up as multisets add up category by category. */
  lemma CountSplit(a: seq<Row>, b: seq<Row>, t: seq<Row>, c: Category)
    requires multiset(a) + multiset(b) == multiset(t)
    ensures Count(a, c) + Count(b, c) == Count(t, c)
  {
    OnlyMultiset(a, c);
    OnlyMultiset(b, c);
    OnlyMultiset(t, c);
    assert multiset(Only(a, c)) + multiset(Only(b, c)) == multiset(Only(t, c));
    assert |multiset(Only(a, c)) + multiset(Only(b, c))| == |multiset(Only(t, c))|;
  }

  /** Training rows never carry a validation label, so validation rows are
      never oversampled into training; and they all come from `df`. */
  lemma TrainDisjoint(df: seq<Row>, valid: seq<Row>, catsToPct: Option<Config>, do: bool, trn: seq<Row>)
    requires TrainOf(df, valid, catsToPct, do, trn)
    ensures forall x :: x in trn ==> x in df && x.index !in Labels(valid)
    ensures Labels(trn) !! Labels(valid)
  {
    var o :| TrainFrom(df, valid, catsToPct, do, o, trn);
    OversampleRowsFromInput(DropLabels(df, Labels(valid)), catsToPct, do, o);
    forall x | x in trn ensures x in df && x.index !in Labels(valid) {
      assert multiset(trn)[x] > 0;
      assert x in o;
    }
  }

  /** Without oversampling, training and validation together are the manifest:
      `|train| + |valid| == |df|`, per category too. */
  lemma UnoversampledSplit(df: seq<Row>, validPct: real, valid: seq<Row>, catsToPct: Option<Config>, trn: seq<Row>)
    requires 0.0 <= validPct <= 1.0
    requires UniqueLabels(df)
    requires StratifiedValidation(df, validPct, valid)
    requires TrainOf(df, valid, catsToPct, false, trn)
    ensures multiset(trn) + multiset(valid) == multiset(df)
    ensures |trn| + |valid| == |df|
    ensures forall c :: Count(trn, c) + Count(valid, c) == Count(df, c)
  {
    var kept := DropLabels(df, Labels(valid));
    SplitPartition(df, validPct, valid);
    assert multiset(trn) == multiset(kept);
    assert |multiset(trn)| == |multiset(kept)|;
    forall c ensures Count(trn, c) == Count(kept, c) {
      CountPermutation(trn, kept, c);
    }
  }

  /** With oversampling, each category of training holds its rows left after
      validation plus what its budget buys on them. */
  lemma OversampledTrainCounts(df: seq<Row>, validPct: real, valid: seq<Row>, config: Config, trn: seq<Row>, c: Category)
    requires 0.0 <= validPct <= 1.0
    requires UniqueLabels(df)
    requires StratifiedValidation(df, validPct, valid)
    requires TrainOf(df, valid, Some(config), true, trn)
    ensures var left := Count(df, c) - SampleSize(validPct, Count(df, c));
      Count(trn, c) == left + ExtraFor(config, c, left)
  {
    var kept := DropLabels(df, Labels(valid));
    var o :| TrainFrom(df, valid, Some(config), true, o, trn);
    SplitPartition(df, validPct, valid);
    ValidationCounts(df, validPct, valid);
    CountPermutation(trn, o, c);
  }

  /** With every budget at most 1.0, a training row occurs at most twice: once
      as kept and at most once as a copy. */
  lemma TrainAtMostTwice(df: seq<Row>, valid: seq<Row>, config: Config, trn: seq<Row>)
    requires UniqueLabels(df)
    requires TrainOf(df, valid, Some(config), true, trn)
    requires DistinctKeys(config)
    requires forall i :: 0 <= i < |config| ==> config[i].1 <= 1.0
    ensures forall x :: multiset(trn)[x] <= 2
  {
    var kept := DropLabels(df, Labels(valid));
    var o :| TrainFrom(df, valid, Some(config), true, o, trn);
    DropMultiset(df, Labels(valid));
    forall x ensures multiset(kept)[x] <= 1 {
      UniqueLabelsAtMostOnce(df, x);
    }
    OversampleNoRepeats(kept, config, o);
  }

  /** `valid_pct = 0` leaves validation empty. */
  lemma NoValidation(df: seq<Row>, valid: seq<Row>)
    requires StratifiedValidation(df, 0.0, valid)
    ensures valid == []
  {
    ValidationCounts(df, 0.0, valid);
    NoneSelected(valid);
  }

  /** `valid_pct = 1` leaves training empty before oversampling. */
  lemma NoTraining(df: seq<Row>, valid: seq<Row>)
    requires UniqueLabels(df)
    requires StratifiedValidation(df, 1.0, valid)
    ensures DropLabels(df, Labels(valid)) == []
  {
    var kept := DropLabels(df, Labels(valid));
    SplitPartition(df, 1.0, valid);
    ValidationCounts(df, 1.0, valid);
    forall c ensures Only(kept, c) == [] {
      assert Count(kept, c) + Count(valid, c) == Count(df, c);
    }
    NoneSelected(kept);
  }

  /** A table whose rows all have category `a` or `b` is counted by those two. */
  lemma {:induction false} CountTwo(t: seq<Row>, a: Category, b: Category)
    requires a != b
    requires forall x :: x in t ==> x.category == a || x.category == b
    ensures |t| == Count(t, a) + Count(t, b)
  {
    if t != [] {
      CountTwo(t[1..], a, b);
    }
  }

  /** Ten rows of `cat1` and five of `cat2`, `valid_pct = 0.2` and `{cat1: 0.5}`:
      validation takes 2 + 1 rows, training ends with 12 + 4. */
  lemma WorkedExample(df: seq<Row>, valid: seq<Row>, trn: seq<Row>)
    requires UniqueLabels(df)
    requires Categories(df) == {"cat1", "cat2"}
    requires Count(df, "cat1") == 10 && Count(df, "cat2") == 5
    requires StratifiedValidation(df, 0.2, valid)
    requires TrainOf(df, valid, Some([("cat1", 0.5)]), true, trn)
    ensures Count(valid, "cat1") == 2 && Count(valid, "cat2") == 1 && |valid| == 3
    ensures Count(trn, "cat1") == 12 && Count(trn, "cat2") == 4 && |trn| == 16
  {
    WorkedSizes();
    WorkedValidation(df, valid);
    WorkedTraining(df, valid, trn);
  }

  /** The sizes the worked example draws: validation takes round(0.2 * 10) and
      round(0.2 * 5) rows, and a budget of 0.5 on the 8 remaining rows adds 4. */
  lemma WorkedSizes()
    ensures SampleSize(0.2, 10) == 2 && SampleSize(0.2, 5) == 1
    ensures ExtraFor([("cat1", 0.5)], "cat1", 8) == 4
    ensures ExtraFor([("cat1", 0.5)], "cat2", 4) == 0
  {
    var config: Config := [("cat1", 0.5)];
    assert Chunks(0.5) == [0.5];
    assert SumSizes([0.5], 8) == SampleSize(0.5, 8) + SumSizes([], 8);
    assert config[..0] == [];
  }

  lemma WorkedValidation(df: seq<Row>, valid: seq<Row>)
    requires Categories(df) == {"cat1", "cat2"}
    requires Count(df, "cat1") == 10 && Count(df, "cat2") == 5
    requires StratifiedValidation(df, 0.2, valid)
    requires SampleSize(0.2, 10) == 2 && SampleSize(0.2, 5) == 1
    ensures Count(valid, "cat1") == 2 && Count(valid, "cat2") == 1 && |valid| == 3
  {
    ValidationCounts(df, 0.2, valid);
    forall x | x in valid ensures x.category == "cat1" || x.category == "cat2" {
      assert multiset(valid)[x] > 0;
      assert x.category in Categories(df);
    }
    CountTwo(valid, "cat1", "cat2");
  }

  lemma WorkedTraining(df: seq<Row>, valid: seq<Row>, trn: seq<Row>)
    requires UniqueLabels(df)
    requires Categories(df) == {"cat1", "cat2"}
    requires Count(df, "cat1") == 10 && Count(df, "cat2") == 5
    requires StratifiedValidation(df, 0.2, valid)
    requires TrainOf(df, valid, Some([("cat1", 0.5)]), true, trn)
    requires SampleSize(0.2, 10) == 2 && SampleSize(0.2, 5) == 1
    requires ExtraFor([("cat1", 0.5)], "cat1", 8) == 4
    requires ExtraFor([("cat1", 0.5)], "cat2", 4) == 0
    ensures Count(trn, "cat1") == 12 && Count(trn, "cat2") == 4 && |trn| == 16
  {
    var config: Config := [("cat1", 0.5)];
    OversampledTrainCounts(df, 0.2, valid, config, trn, "cat1");
    OversampledTrainCounts(df, 0.2, valid, config, trn, "cat2");
    TrainDisjoint(df, valid, Some(config), true, trn);
    forall x | x in trn ensures x.category == "cat1" || x.category == "cat2" {
      assert x.category in Categories(df);
    }
    CountTwo(trn, "cat1", "cat2");
  }

  /** In `val.append(trn)` the first `len(val)` rows are the validation rows and the
      rest the training rows. */
  lemma CombinedParts(df: seq<Row>, validPct: real, catsToPct: Option<Config>, do: bool, over: seq<Row>, val: seq<Row>, trn: seq<Row>)
    requires 0.0 <= validPct <= 1.0
    requires StratifiedValidation(df, validPct, val)
    requires TrainFrom(df, val, catsToPct, do, over, trn)
    ensures SplitHolds(df, validPct, catsToPct, do, over, val + trn, |val|, |trn|)
  {
    assert (val + trn)[..|val|] == val && (val + trn)[|val|..] == trn;
  }

  /** `combined` is `lenVal` rows of a stratified validation of `df` followed by
      `lenTrn` rows of its training table, a shuffle of the oversampled `over`. */
  ghost predicate SplitHolds(df: seq<Row>, validPct: real, catsToPct: Option<Config>, do: bool, over: seq<Row>,
                             combined: seq<Row>, lenVal: nat, lenTrn: nat)
  {
    && |combined| == lenVal + lenTrn
    && 0.0 <= validPct <= 1.0
    && StratifiedValidation(df, validPct, combined[..lenVal])
    && TrainFrom(df, combined[..lenVal], catsToPct, do, over, combined[lenVal..])
  }

  class Oversampler {
    /** `self.categories`: the category names. */
    var categories: seq<Category>
    /** `self.cat_to_file_dict`. */
    var catToFileDict: FileDict
    /** `self.df`: the working manifest. */
    var df: seq<Row>
    /** `self.df_oversampled`, `self.len_val`, `self.len_trn`: the cached combined table and its parts' sizes. */
    var dfOversampled: seq<Row>
    var lenVal: nat
    var lenTrn: nat

    /** Whether `df_val_train_by_pct` has run, so that the three cached attributes exist. */
    ghost var splitComputed: bool
    /** The manifest and arguments the cached split was computed from. */
    ghost var splitFrom: seq<Row>
    ghost var splitPct: real
    ghost var splitCatsToPct: Option<Config>
    ghost var splitDo: bool
    /** The oversampled training table before its shuffle. */
    ghost var splitOver: seq<Row>

    /** Once computed, the first `lenVal` rows of the cached table are a stratified
        validation of the manifest it came from, the other `lenTrn` its training rows. */
    ghost predicate Valid()
      reads this
    {
      splitComputed ==> SplitHolds(splitFrom, splitPct, splitCatsToPct, splitDo, splitOver, dfOversampled, lenVal, lenTrn)
    }

    /** `FolderToDf.__init__`: list the categories and their files and build the manifest. */
    constructor (listing: seq<string>, subdirs: map<string, seq<File>>)
      requires CatToFiles(listing, subdirs).Some?
      ensures categories == WithoutModels(listing)
      ensures catToFileDict == CatToFiles(listing, subdirs).value.0
      ensures df == Framed(Flatten(catToFileDict), 0)
      ensures !splitComputed && Valid()
    {
      var cats := GetCats(listing);
      var fileDict := CatToFiles(listing, subdirs).value.0;
      var frame := FileDictToDf(fileDict);
      categories := cats;
      catToFileDict := fileDict;
      df := frame;
      dfOversampled, lenVal, lenTrn := [], 0, 0;
      splitComputed := false;
      splitFrom, splitPct, splitCatsToPct, splitDo, splitOver := [], 0.0, None, false, [];
    }

    /** `category_counts`: `value_counts` of the categories column. */
    function CategoryCounts(): (counts: map<Category, nat>)
      reads this
      ensures forall c :: c in counts <==> c in Categories(df)
      ensures forall c :: c in counts ==> 1 <= counts[c] <= |df| && counts[c] == |Only(df, c)|
    {
      forall c | c in Categories(df) ensures |Only(df, c)| >= 1 {
        var x :| x in df && x.category == c;
        OnlyContains(df, c, x);
      }
      map c | c in Categories(df) :: Count(df, c)
    }

    /** `split_val_by_pct`: each category gives up `sample(frac=valid_pct)` of its rows
        to validation; the rest is oversampled when `cats_to_pct` is given or
        `oversample` is set, then shuffled. */
    method SplitValByPct(validPct: real, catsToPct: Option<Config>, oversample: bool) returns (trn: seq<Row>, valid: seq<Row>, ghost over: seq<Row>)
      requires 0.0 <= validPct <= 1.0
      requires oversample ==> catsToPct.Some?
      ensures StratifiedValidation(df, validPct, valid)
      ensures TrainFrom(df, valid, catsToPct, catsToPct.Some? || oversample, over, trn)
    {
      var doOversample := oversample || catsToPct.Some?;
      valid := [];
      var todo := Categories(df);
      ghost var done: set<Category> := {};
      while todo != {}
        invariant todo !! done && todo + done == Categories(df)
        invariant DrawnFor(df, validPct, valid, done)
        decreases |todo|
      {
        var cat :| cat in todo;
        var part := Sample(Only(df, cat), validPct);
        DrawnForStep(df, validPct, valid, done, cat, part);
        MoveDone(todo, done, Categories(df), cat);
        valid := valid + part;
        todo := todo - {cat};
        done := done + {cat};
      }
      DrawnForAll(df, validPct, valid, done);
      var kept := DropLabels(df, Labels(valid));
      var oversampled := Oversample(kept, catsToPct, doOversample);
      trn := Shuffle(oversampled);
      over := oversampled;
    }

    /** `df_val_train_by_pct`: validation rows followed by training rows, cached with
        the two sizes; the boundary `lenVal` separates them. */
    method DfValTrainByPct(validPct: real, oversample: bool, catsToPct: Option<Config>) returns (combined: seq<Row>, nVal: nat, nTrn: nat)
      requires 0.0 <= validPct <= 1.0
      requires oversample ==> catsToPct.Some?
      modifies this`dfOversampled, this`lenVal, this`lenTrn
      modifies this`splitComputed, this`splitFrom, this`splitPct, this`splitCatsToPct, this`splitDo, this`splitOver
      ensures Valid() && splitComputed
      ensures dfOversampled == combined && lenVal == nVal && lenTrn == nTrn
      // so, by `Valid()`, `SplitHolds(df, validPct, catsToPct, do, splitOver, combined, nVal, nTrn)`
      ensures splitFrom == df && splitPct == validPct && splitCatsToPct == catsToPct
      ensures splitDo == (catsToPct.Some? || oversample)
    {
      var trn, val, over := SplitValByPct(validPct, catsToPct, oversample);
      ghost var from, do := df, catsToPct.Some? || oversample;
      CombinedParts(from, validPct, catsToPct, do, over, val, trn);
      combined, nVal, nTrn := val + trn, |val|, |trn|;
      StoreSplit(from, validPct, catsToPct, do, over, combined, nVal, nTrn);
    }

    /** The assignments to `df_oversampled`, `len_val` and `len_trn`, with the
        ghost record of the split they hold. */
    method StoreSplit(ghost from: seq<Row>, validPct: real, catsToPct: Option<Config>, ghost do: bool, ghost over: seq<Row>,
                      combined: seq<Row>, nVal: nat, nTrn: nat)
      requires SplitHolds(from, validPct, catsToPct, do, over, combined, nVal, nTrn)
      modifies this`dfOversampled, this`lenVal, this`lenTrn
      modifies this`splitComputed, this`splitFrom, this`splitPct, this`splitCatsToPct, this`splitDo, this`splitOver
      ensures Valid() && splitComputed
      ensures dfOversampled == combined && lenVal == nVal && lenTrn == nTrn
      ensures splitFrom == from && splitPct == validPct && splitCatsToPct == catsToPct
      ensures splitDo == do && splitOver == over
    {
      dfOversampled, lenVal, lenTrn := combined, nVal, nTrn;
      splitComputed := true;
      splitFrom, splitPct, splitCatsToPct, splitDo, splitOver := from, validPct, catsToPct, do, over;
    }

    /** `copy_to_output_with_csv`, state part: with `oversample` the cached combined
        table becomes the manifest; the boundary it reports is `lenVal`. */
    method CopyToOutputWithCsv(oversample: bool) returns (boundary: nat)
      requires splitComputed && Valid()
      modifies this`df
      ensures Valid()
      ensures df == if oversample then dfOversampled else old(df)
      ensures boundary == lenVal
    {
      if oversample {
        df := dfOversampled;
      }
      boundary := lenVal;
    }
  }
}
