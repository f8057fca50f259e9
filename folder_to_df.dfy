/** The manifest builder `FolderToDf`: categories are the entries of the root
    directory except `models`, each category's files are the entries of its
    subdirectory, and the manifest has one row `(file, category)` per file.
    Directory listings are inputs: `listing` is the root's, `subdirs` maps a
    directory name to its own listing. */
module FolderToDf {
  import opened Frame

  /** The reserved directory that is not a category. */
  const Models: string := "models"

  /** The `file_dict` of the source: category to file names, in insertion order. */
  type FileDict = seq<(Category, seq<File>)>

  /** The listing with its first `models` entry taken out. */
  function WithoutModels(listing: seq<string>): seq<string>
  {
    if listing == [] then []
    else if listing[0] == Models then listing[1..]
    else [listing[0]] + WithoutModels(listing[1..])
  }

  /** `get_cats`: the root listing with `cats.remove('models')`, the `ValueError`
      of an absent `models` being swallowed. */
  method GetCats(listing: seq<string>) returns (cats: seq<string>)
    ensures cats == WithoutModels(listing)
  {
    cats := listing;
    var i := 0;
    while i < |cats| && cats[i] != Models
      invariant 0 <= i <= |cats|
      invariant Models !in cats[..i]
    {
      i := i + 1;
    }
    if i < |cats| {
      WithoutModelsAt(listing, i);
      cats := cats[..i] + cats[i + 1..];
    } else {
      assert cats[..i] == cats;
      WithoutModelsAbsent(listing);
    }
  }

  /** A listing without `models` is returned unchanged. */
  lemma {:induction false} WithoutModelsAbsent(listing: seq<string>)
    requires Models !in listing
    ensures WithoutModels(listing) == listing
  {
    if listing != [] {
      WithoutModelsAbsent(listing[1..]);
    }
  }

  /** Otherwise exactly the first `models` entry goes; the others keep their order. */
  lemma {:induction false} WithoutModelsAt(listing: seq<string>, i: nat)
    requires i < |listing| && listing[i] == Models && Models !in listing[..i]
    ensures WithoutModels(listing) == listing[..i] + listing[i + 1..]
  {
    if i > 0 {
      assert listing[1..][..i - 1] == listing[1..i];
      WithoutModelsAt(listing[1..], i - 1);
      assert listing[..i] == [listing[0]] + listing[1..i];
      assert listing[1..][i..] == listing[i + 1..];
    }
  }

  /** A directory listing names each entry once, so no category is called `models`
      and every other entry is a category, still named once. */
  lemma {:induction false} WithoutModelsOfDistinct(listing: seq<string>)
    requires Distinct(listing)
    ensures Models !in WithoutModels(listing)
    ensures forall x :: x in WithoutModels(listing) <==> x in listing && x != Models
    ensures Distinct(WithoutModels(listing))
  {
    if listing != [] {
      assert Distinct(listing[1..]) by {
        forall i, j | 0 <= i < j < |listing[1..]| ensures listing[1..][i] != listing[1..][j] {
          assert listing[1..][i] == listing[i + 1] && listing[1..][j] == listing[j + 1];
        }
      }
      assert listing[0] !in listing[1..] by {
        forall j | 0 <= j < |listing[1..]| ensures listing[1..][j] != listing[0] {
          assert listing[1..][j] == listing[j + 1];
        }
      }
      if listing[0] != Models {
        WithoutModelsOfDistinct(listing[1..]);
      }
    }
  }

  /** `cat_to_files`: the file dictionary in category order and the number of
      files per category; `None` when a category has no subdirectory to list,
      where `os.listdir` raises. */
  function CatToFiles(listing: seq<string>, subdirs: map<string, seq<File>>): (r: Option<(FileDict, map<Category, nat>)>)
    ensures r.Some? <==> forall c :: c in WithoutModels(listing) ==> c in subdirs
    ensures r.Some? ==> |r.value.0| == |WithoutModels(listing)|
    ensures r.Some? ==> forall k :: 0 <= k < |r.value.0| ==>
      r.value.0[k].0 == WithoutModels(listing)[k] && r.value.0[k].0 in subdirs &&
      r.value.0[k].1 == subdirs[r.value.0[k].0]
    ensures r.Some? ==> forall c :: c in r.value.1 <==> c in WithoutModels(listing)
    ensures r.Some? ==> forall k :: 0 <= k < |r.value.0| ==> r.value.1[r.value.0[k].0] == |r.value.0[k].1|
  {
    var cats := WithoutModels(listing);
    if forall c :: c in cats ==> c in subdirs then
      var fileDict := seq(|cats|, k requires 0 <= k < |cats| => (cats[k], subdirs[cats[k]]));
      var numFiles := map c | c in cats :: |subdirs[c]|;
      Some((fileDict, numFiles))
    else
      None
  }

  /** The rows `[file, category]` one category contributes, in file order. */
  function Block(entry: (Category, seq<File>)): seq<(File, Category)>
  {
    seq(|entry.1|, j requires 0 <= j < |entry.1| => (entry.1[j], entry.0))
  }

  /** `df_pre` once the loops of `file_dict_to_df` are done: the blocks, category by category. */
  function Flatten(fileDict: FileDict): seq<(File, Category)>
  {
    if fileDict == [] then []
    else Flatten(fileDict[..|fileDict| - 1]) + Block(fileDict[|fileDict| - 1])
  }

  /** `sum(num_files.values())`. */
  function TotalFiles(fileDict: FileDict): nat
  {
    if fileDict == [] then 0
    else TotalFiles(fileDict[..|fileDict| - 1]) + |fileDict[|fileDict| - 1].1|
  }

  /** All file names listed under category `c`, in dictionary order
      (for a dictionary, the one list of key `c`). */
  function FilesOf(fileDict: FileDict, c: Category): seq<File>
  {
    if fileDict == [] then []
    else
      var last := fileDict[|fileDict| - 1];
      FilesOf(fileDict[..|fileDict| - 1], c) + (if last.0 == c then last.1 else [])
  }

  /** `pd.DataFrame(pre, columns=['files', 'categories'])` with index labels from `base` on
      (a new frame uses `base` = 0). */
  function Framed(pre: seq<(File, Category)>, base: nat): seq<Row>
  {
    seq(|pre|, i requires 0 <= i < |pre| => Row(base + i, pre[i].0, pre[i].1))
  }

  /** `file_dict_to_df`: the nested loop appends `[file, category]` to `df_pre`,
      which then becomes a fresh frame. */
  method FileDictToDf(fileDict: FileDict) returns (df: seq<Row>)
    ensures df == Framed(Flatten(fileDict), 0)
    ensures |df| == TotalFiles(fileDict)
    ensures forall i :: 0 <= i < |df| ==> df[i].index == i
  {
    var dfPre: seq<(File, Category)> := [];
    var k := 0;
    while k < |fileDict|
      invariant 0 <= k <= |fileDict|
      invariant dfPre == Flatten(fileDict[..k])
    {
      var cat := fileDict[k].0;
      var files := fileDict[k].1;
      var j := 0;
      while j < |files|
        invariant 0 <= j <= |files|
        invariant dfPre == Flatten(fileDict[..k]) + Block((cat, files[..j]))
      {
        dfPre := dfPre + [(files[j], cat)];
        j := j + 1;
      }
      assert files[..j] == files;
      assert fileDict[..k + 1][..k] == fileDict[..k];
      k := k + 1;
    }
    assert fileDict[..k] == fileDict;
    FlattenLength(fileDict);
    df := Framed(dfPre, 0);
  }

  /** `file_dict_to_df` emits one row per listed file. */
  lemma {:induction false} FlattenLength(fileDict: FileDict)
    ensures |Flatten(fileDict)| == TotalFiles(fileDict)
  {
    if fileDict != [] {
      FlattenLength(fileDict[..|fileDict| - 1]);
    }
  }

  /** A row `(f, c)` of the manifest is a file `f` listed under key `c`, and every
      listed file has its row. */
  lemma FlattenRows(fileDict: FileDict, f: File, c: Category)
    ensures (f, c) in Flatten(fileDict) <==>
      exists k :: 0 <= k < |fileDict| && fileDict[k].0 == c && f in fileDict[k].1
  {
    if (f, c) in Flatten(fileDict) {
      var k := FlattenRowListed(fileDict, f, c);
    }
    if exists k :: 0 <= k < |fileDict| && fileDict[k].0 == c && f in fileDict[k].1 {
      var k :| 0 <= k < |fileDict| && fileDict[k].0 == c && f in fileDict[k].1;
      ListedFlattenRow(fileDict, k, f);
    }
  }

  lemma BlockRows(entry: (Category, seq<File>), f: File, c: Category)
    ensures (f, c) in Block(entry) <==> entry.0 == c && f in entry.1
  {
    if f in entry.1 {
      var j :| 0 <= j < |entry.1| && entry.1[j] == f;
      assert Block(entry)[j] == (f, entry.0);
    }
  }

  /** Each row names the entry it came from. */
  lemma {:induction false} FlattenRowListed(fileDict: FileDict, f: File, c: Category) returns (k: nat)
    requires (f, c) in Flatten(fileDict)
    ensures k < |fileDict| && fileDict[k].0 == c && f in fileDict[k].1
  {
    var n := |fileDict| - 1;
    var init := fileDict[..n];
    if (f, c) in Flatten(init) {
      k := FlattenRowListed(init, f, c);
      assert init[k] == fileDict[k];
    } else {
      BlockRows(fileDict[n], f, c);
      k := n;
    }
  }

  /** Each listed file has its row. */
  lemma {:induction false} ListedFlattenRow(fileDict: FileDict, k: nat, f: File)
    requires k < |fileDict| && f in fileDict[k].1
    ensures (f, fileDict[k].0) in Flatten(fileDict)
  {
    var n := |fileDict| - 1;
    var init := fileDict[..n];
    assert Flatten(fileDict) == Flatten(init) + Block(fileDict[n]);
    if k < n {
      assert init[k] == fileDict[k];
      ListedFlattenRow(init, k, f);
    } else {
      BlockRows(fileDict[n], f, fileDict[k].0);
    }
  }

  lemma FramedConcat(p: seq<(File, Category)>, q: seq<(File, Category)>, base: nat)
    ensures Framed(p + q, base) == Framed(p, base) + Framed(q, base + |p|)
  {
  }

  lemma FilesConcat(a: seq<Row>, b: seq<Row>)
    ensures Files(a + b) == Files(a) + Files(b)
  {
  }

  /** Within one category the manifest lists its files in dictionary order. */
  lemma {:induction false} ManifestCategoryFiles(fileDict: FileDict, base: nat, c: Category)
    ensures Files(Only(Framed(Flatten(fileDict), base), c)) == FilesOf(fileDict, c)
  {
    if fileDict != [] {
      var n := |fileDict| - 1;
      var init := fileDict[..n];
      var head := Flatten(init);
      var block := Framed(Block(fileDict[n]), base + |head|);
      ManifestCategoryFiles(init, base, c);
      FramedConcat(head, Block(fileDict[n]), base);
      OnlyConcat(Framed(head, base), block, c);
      FilesConcat(Only(Framed(head, base), c), Only(block, c));
      if fileDict[n].0 == c {
        OnlyAll(block, c);
      } else {
        OnlyNone(block, c);
      }
      assert Files(block) == fileDict[n].1;
    }
  }

  /** For a dictionary (keys distinct), the files of key `c` are its one list. */
  lemma {:induction false} FilesOfKey(fileDict: FileDict, k: nat)
    requires DistinctKeys(fileDict) && k < |fileDict|
    ensures FilesOf(fileDict, fileDict[k].0) == fileDict[k].1
  {
    var n := |fileDict| - 1;
    var init := fileDict[..n];
    assert DistinctKeys(init);
    if k < n {
      assert init[k] == fileDict[k];
      FilesOfKey(init, k);
    } else {
      FilesOfAbsent(init, fileDict[k].0);
    }
  }

  /** A category that is not a key has no files. */
  lemma {:induction false} FilesOfAbsent(fileDict: FileDict, c: Category)
    requires forall k :: 0 <= k < |fileDict| ==> fileDict[k].0 != c
    ensures FilesOf(fileDict, c) == []
  {
    if fileDict != [] {
      var n := |fileDict| - 1;
      FilesOfAbsent(fileDict[..n], c);
    }
  }

  /** The manifest built from a directory tree: per category, `value_counts`
      agrees with `num_files` and the rows list the category's files in
      directory order. */
  lemma ManifestMatchesListing(listing: seq<string>, subdirs: map<string, seq<File>>, c: Category)
    requires Distinct(listing)
    requires CatToFiles(listing, subdirs).Some?
    ensures var (fileDict, numFiles) := CatToFiles(listing, subdirs).value;
      var df := Framed(Flatten(fileDict), 0);
      (c in numFiles ==> Files(Only(df, c)) == subdirs[c] && Count(df, c) == numFiles[c]) &&
      (c !in numFiles ==> Only(df, c) == [])
  {
    var (fileDict, numFiles) := CatToFiles(listing, subdirs).value;
    var cats := WithoutModels(listing);
    WithoutModelsOfDistinct(listing);
    assert DistinctKeys(fileDict);
    var df := Framed(Flatten(fileDict), 0);
    ManifestCategoryFiles(fileDict, 0, c);
    if c in numFiles {
      var k :| 0 <= k < |cats| && cats[k] == c;
      FilesOfKey(fileDict, k);
      assert |Files(Only(df, c))| == |Only(df, c)|;
    } else {
      FilesOfAbsent(fileDict, c);
      assert |Files(Only(df, c))| == |Only(df, c)|;
    }
  }
}
