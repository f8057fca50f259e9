/** Rows of the manifest table and the DataFrame operations the oversampler
    applies to them: selection of one category's rows, `drop` by index label,
    `value_counts`, and `sample` without replacement. */
module Frame {

  type File = string
  type Category = string

  datatype Option<T> = None | Some(value: T)

  /** One DataFrame row: its index label and the columns `files` and `categories`. */
  datatype Row = Row(index: nat, file: File, category: Category)

  /** The boolean-mask selection `t[t.categories == c]`: the rows of category `c`, in table order. */
  function Only(t: seq<Row>, c: Category): (r: seq<Row>)
    ensures |r| <= |t|
    ensures forall x :: x in r ==> x in t && x.category == c
  {
    if t == [] then []
    else if t[0].category == c then [t[0]] + Only(t[1..], c)
    else Only(t[1..], c)
  }

  /** Number of rows of category `c`. */
  function Count(t: seq<Row>, c: Category): nat
  {
    |Only(t, c)|
  }

  /** The set `set(t.categories)` of categories present in `t`. */
  function Categories(t: seq<Row>): set<Category>
  {
    set x | x in t :: x.category
  }

  /** The index labels of `t`. */
  function Labels(t: seq<Row>): set<nat>
  {
    set x | x in t :: x.index
  }

  /** The `files` column of `t`. */
  function Files(t: seq<Row>): seq<File>
  {
    seq(|t|, i requires 0 <= i < |t| => t[i].file)
  }

  predicate Distinct<T(==)>(s: seq<T>)
  {
    forall i, j :: 0 <= i < j < |s| ==> s[i] != s[j]
  }

  /** The keys of a dictionary given as its items in order are distinct. */
  predicate DistinctKeys<K(==), V>(items: seq<(K, V)>)
  {
    forall i, j :: 0 <= i < j < |items| ==> items[i].0 != items[j].0
  }

  /** No index label occurs twice (true of a freshly built frame, whose labels are 0..n-1). */
  ghost predicate UniqueLabels(t: seq<Row>)
  {
    forall i, j :: 0 <= i < j < |t| ==> t[i].index != t[j].index
  }

  /** `t.drop(index=labels)`: every row whose index label is in `labels` is removed, the rest keep their order. */
  function DropLabels(t: seq<Row>, labels: set<nat>): (r: seq<Row>)
    ensures forall x :: x in r ==> x in t && x.index !in labels
  {
    if t == [] then []
    else if t[0].index in labels then DropLabels(t[1..], labels)
    else [t[0]] + DropLabels(t[1..], labels)
  }

  /** The number of rows `DataFrame.sample(frac=frac)` takes from `n` rows:
      `frac * n` rounded to the nearest integer, ties to even. The general
      lemmas use only the contract below; the concrete examples
      (`WorkedExample`, `ExtraTie`) evaluate the rounding itself. */
  function SampleSize(frac: real, n: nat): (k: nat)
    requires 0.0 <= frac <= 1.0
    ensures k <= n
    ensures frac == 0.0 ==> k == 0
    ensures frac == 1.0 ==> k == n
  {
    var x := frac * n as real;
    assert 0.0 <= x;
    assert x <= n as real by {
      assert (1.0 - frac) * n as real >= 0.0;
    }
    var fl := x.Floor;
    var d := x - fl as real;
    if d < 0.5 || (d == 0.5 && fl % 2 == 0) then fl else fl + 1
  }

  /** `d` is a without-replacement draw of `k` rows of `t`, in any order. */
  predicate IsDraw(d: seq<Row>, t: seq<Row>, k: nat)
  {
    |d| == k && multiset(d) <= multiset(t)
  }

  /** `t.sample(frac=frac)`: the random choice is left open, any draw of the right size may come back. */
  method Sample(t: seq<Row>, frac: real) returns (d: seq<Row>)
    requires 0.0 <= frac <= 1.0
    ensures IsDraw(d, t, SampleSize(frac, |t|))
  {
    var k := SampleSize(frac, |t|);
    assert t == t[..k] + t[k..];
    assert IsDraw(t[..k], t, k);
    d :| IsDraw(d, t, k);
  }

  /** `t.sample(frac=1)`: a random reordering of `t`. */
  method Shuffle(t: seq<Row>) returns (s: seq<Row>)
    ensures multiset(s) == multiset(t)
  {
    assert multiset(t) == multiset(t);
    s :| multiset(s) == multiset(t);
  }

  // ---------------------------------------------------------------------------
  // Lemmas about selection, dropping and counting.

  lemma {:induction false} OnlyConcat(a: seq<Row>, b: seq<Row>, c: Category)
    ensures Only(a + b, c) == Only(a, c) + Only(b, c)
  {
    if a == [] {
      assert a + b == b;
    } else {
      assert (a + b)[0] == a[0];
      assert (a + b)[1..] == a[1..] + b;
      OnlyConcat(a[1..], b, c);
    }
  }

  lemma {:induction false} OnlyAll(t: seq<Row>, c: Category)
    requires forall x :: x in t ==> x.category == c
    ensures Only(t, c) == t
  {
    if t != [] {
      OnlyAll(t[1..], c);
    }
  }

  lemma {:induction false} OnlyNone(t: seq<Row>, c: Category)
    requires forall x :: x in t ==> x.category != c
    ensures Only(t, c) == []
  {
    if t != [] {
      OnlyNone(t[1..], c);
    }
  }

  lemma {:induction false} OnlyContains(t: seq<Row>, c: Category, x: Row)
    requires x in t && x.category == c
    ensures x in Only(t, c)
  {
    if t[0] != x {
      OnlyContains(t[1..], c, x);
    }
  }

  /** Selecting a category keeps exactly the multiplicities of the rows of that category. */
  lemma {:induction false} OnlyMultiset(t: seq<Row>, c: Category)
    ensures forall x :: multiset(Only(t, c))[x] == if x.category == c then multiset(t)[x] else 0
  {
    if t != [] {
      OnlyMultiset(t[1..], c);
      assert t == [t[0]] + t[1..];
    }
  }

  /** Dropping labels zeroes exactly the multiplicities of the rows carrying them. */
  lemma {:induction false} DropMultiset(t: seq<Row>, labels: set<nat>)
    ensures forall x :: multiset(DropLabels(t, labels))[x] == if x.index in labels then 0 else multiset(t)[x]
  {
    if t != [] {
      DropMultiset(t[1..], labels);
      assert t == [t[0]] + t[1..];
    }
  }

  /** With unique labels no row occurs twice. */
  lemma UniqueLabelsAtMostOnce(t: seq<Row>, x: Row)
    requires UniqueLabels(t)
    ensures multiset(t)[x] <= 1
  {
    if t != [] {
      assert t == [t[0]] + t[1..];
      assert UniqueLabels(t[1..]) by {
        forall i, j | 0 <= i < j < |t[1..]| ensures t[1..][i].index != t[1..][j].index {
          assert t[1..][i] == t[i + 1] && t[1..][j] == t[j + 1];
        }
      }
      UniqueLabelsAtMostOnce(t[1..], x);
      if t[0] == x {
        assert forall j :: 1 <= j < |t| ==> t[j].index != t[0].index;
        assert x !in t[1..];
      }
    }
  }

  /** With unique labels a label names at most one row. */
  lemma UniqueLabelsSameRow(t: seq<Row>, x: Row, y: Row)
    requires UniqueLabels(t) && x in t && y in t && x.index == y.index
    ensures x == y
  {
    var i :| 0 <= i < |t| && t[i] == x;
    var j :| 0 <= j < |t| && t[j] == y;
    assert !(i < j) && !(j < i);
  }

  /** Rows that agree category by category (as multisets) agree as a whole. */
  lemma SubmultisetByCategory(a: seq<Row>, b: seq<Row>)
    requires forall c :: multiset(Only(a, c)) <= multiset(Only(b, c))
    ensures multiset(a) <= multiset(b)
  {
    forall x ensures multiset(a)[x] <= multiset(b)[x] {
      OnlyMultiset(a, x.category);
      OnlyMultiset(b, x.category);
      assert multiset(Only(a, x.category)) <= multiset(Only(b, x.category));
    }
  }

  /** A table with no row of category `c` selected is one whose every row has another category. */
  lemma {:induction false} NoneSelected(t: seq<Row>)
    requires forall c :: Only(t, c) == []
    ensures t == []
  {
    if t != [] {
      OnlyContains(t, t[0].category, t[0]);
    }
  }

  lemma OnlyAbsent(t: seq<Row>, c: Category)
    requires c !in Categories(t)
    ensures Only(t, c) == []
  {
    OnlyNone(t, c);
  }
}
