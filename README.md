# Oversampler: stratified split and oversampling, modelled in Dafny

`Oversampler.py` builds a manifest from a folder tree. Each sub-folder is a
category and each file in it becomes one row `(files, categories)`. The folder
`models` is not a category. The manifest is then split into validation and
training rows category by category, with `valid_pct` of each category drawn
for validation. The training rows may be oversampled: each configured
category gets extra random draws of its own rows worth a fractional budget.
The result is one combined table, validation rows first, whose boundary
`len_val` is kept in the object. A commit step can make that table the new
manifest.

The project has four modules:

- `Frame` (`frame.dfy`): rows and the DataFrame operations the code uses.
  - A row is `Row(index, file, category)`; `index` is the pandas index label.
  - Operations: selection by category (`Only`), `drop(index=…)` (`DropLabels`),
    `sample(frac)` (`Sample`, `SampleSize`, `IsDraw`) and the final
    `sample(frac=1)` shuffle (`Shuffle`).
- `Budget` (`budget.dfy`): the arithmetic of the `while amt > 0` loop of
  `oversample`.
  - `Chunks(amt)` lists the fractions the loop draws, in order.
  - `Extra(amt, n)` is the number of rows those draws add to a category of
    `n` rows.
- `FolderToDf` (`folder_to_df.dfy`): `get_cats`, `cat_to_files` and
  `file_dict_to_df`. Directory listings are inputs: `listing` is the root's
  listing and `subdirs` maps a directory to its listing.
- `Oversampling` (`oversampler.dfy`):
  - `oversample`, as the method `Oversample` with its per-category loop
    `SpendBudget`;
  - the specification predicates `OversampleOf`, `StratifiedValidation` and
    `TrainOf`;
  - the class `Oversampler`. It holds `df`, `df_oversampled`, `len_val` and
    `len_trn` as fields. Its methods are `split_val_by_pct`,
    `df_val_train_by_pct` and `copy_to_output_with_csv`, and its function is
    `category_counts`.

Randomness is left open:

- `sample(frac)` may return any without-replacement draw of the right size, in
  any order.
- The shuffle may return any permutation.
- The order in which a Python `set` is iterated is an arbitrary choice.

Every property below therefore holds whatever rows the draws pick. Fractions
are exact reals.

## Model

| member | source | states |
|---|---|---|
| FolderToDf.GetCats | Oversampler.py:21-31 | the result is the listing with its first `models` entry removed (`WithoutModels`); an absent `models` is not an error |
| FolderToDf.WithoutModelsAbsent | Oversampler.py:26-31 | a listing without `models` is returned unchanged |
| FolderToDf.WithoutModelsAt | Oversampler.py:26-31 | with `models` at position `i`, exactly that entry goes and the others keep their order |
| FolderToDf.WithoutModelsOfDistinct | Oversampler.py:21-31 | for a directory listing (no repeated names), the categories are exactly the entries other than `models`, each once |
| FolderToDf.CatToFiles | Oversampler.py:39-46 | the result exists exactly when every category has a subdirectory listing (otherwise `os.listdir` raises); the dictionary has the categories in order, each with its listing; `num_files` has the same keys and each value is its list's length |
| FolderToDf.FileDictToDf | Oversampler.py:48-60 | the nested loop builds the rows category by category, in file order within each (`Framed(Flatten(fileDict), 0)`); there are `sum(num_files.values())` rows, and row `i` has index label `i` |
| FolderToDf.FlattenLength | Oversampler.py:53-60 | the number of rows equals the total number of listed files |
| FolderToDf.FlattenRows | Oversampler.py:57-59 | `(f, c)` is a row if and only if `f` is listed under category `c` |
| FolderToDf.FlattenRowListed | Oversampler.py:57-59 | every row `(f, c)` comes from a dictionary entry of category `c` that lists `f` |
| FolderToDf.ListedFlattenRow | Oversampler.py:57-59 | every file listed in an entry gets a row with that entry's category |
| FolderToDf.ManifestCategoryFiles | Oversampler.py:57-60 | the rows of one category list its files in dictionary order |
| FolderToDf.ManifestMatchesListing | Oversampler.py:39-60 | in a manifest built from a folder tree, a category's rows are its subdirectory's files in listing order, and their count is `num_files[c]`; a name that is not a category has no rows |
| Frame.Only | Oversampler.py:114 | mask selection `df[df.categories == c]` returns at most `|t|` rows, each a row of `t` of category `c` |
| Frame.OnlyMultiset | Oversampler.py:114 | selection keeps exactly the multiplicities of the rows of that category |
| Frame.DropLabels | Oversampler.py:115 | every row `drop(index=labels)` keeps is a row of the input whose label is not dropped |
| Frame.DropMultiset | Oversampler.py:115 | `drop` zeroes exactly the multiplicities of rows whose label is dropped and keeps the rest |
| Frame.SampleSize | Oversampler.py:114 | `sample(frac)` of `n` rows takes at most `n` rows, none when `frac` is 0 and all when `frac` is 1 |
| Frame.Sample | Oversampler.py:114 | `sample(frac)` returns a without-replacement draw of `SampleSize(frac, n)` rows |
| Frame.Shuffle | Oversampler.py:115 | `sample(frac=1)` returns a permutation of its input |
| Frame.UniqueLabelsAtMostOnce | Oversampler.py:60 | in a table whose index labels are unique (as a new frame's are), no row occurs twice |
| Budget.Chunks | Oversampler.py:149-154 | every fraction the loop draws lies in (0, 1] |
| Budget.ChunksStep | Oversampler.py:150-154 | one pass of the loop takes `min(frac, amt)`, which lies in (0, 1] and is the next chunk; after the first pass `frac` is 1 whenever budget remains |
| Budget.ExtraStep | Oversampler.py:152-154 | one pass adds `SampleSize(min(frac, amt), n)` rows, and the rest of the budget adds the rest |
| Budget.ChunksCount | Oversampler.py:151-154 | for `amt > 0` the loop runs exactly ⌈amt⌉ times |
| Budget.ChunksSum | Oversampler.py:151-154 | the chunks add up to exactly `amt` (to 0 when `amt <= 0`) |
| Budget.ExtraExact | Oversampler.py:149-154 | a budget `amt` adds `floor(amt) * n` rows plus one draw of the fractional rest |
| Budget.WholesChunks | Oversampler.py:150-154 | a budget `amt > 0` is spent in exactly `floor(amt)` chunks of 1.0 |
| Budget.ExtraTie | Oversampler.py:149-154 | chunked drawing is not one rounding of `amt * n`: a budget of 1.5 on 3 rows adds 5 rows, while `round(4.5)` is 4 under the same half-to-even rule |
| Budget.WholeBudget | Oversampler.py:149-154 | a whole budget `k` adds exactly `k * n` rows |
| Budget.NoBudget | Oversampler.py:151 | a budget `amt <= 0` adds nothing |
| Budget.ExtraBound | Oversampler.py:149-154 | at most ⌈amt⌉ times the category's rows are added |
| Oversampling.SpendBudget | Oversampler.py:149-154 | the loop draws exactly the chunks of `amt`, and `Extra(amt, n)` rows in all; every drawn row is a row of the category; no row is drawn more times than there are chunks, and every row is drawn at least once per whole chunk (1.0), of which there are `floor(amt)` (`Budget.WholesChunks`), because `sample(frac=1.0)` takes every row |
| Oversampling.DrawCovers | Oversampler.py:153 | a draw of `sample(frac=1.0)` adds one more copy of every row of the category |
| Oversampling.SpendingDone | Oversampler.py:151 | when `amt > 0` fails, the chunks taken are all the chunks of the budget, `Extra(amt, n)` rows were drawn, and each is a row of the category |
| Oversampling.SpendingStep | Oversampler.py:152-154 | one pass keeps the loop state: the chunks taken followed by the chunks left are the chunks of the whole budget, and the rows drawn match them |
| Oversampling.Oversample | Oversampler.py:130-155 | with `do` false the input comes back unchanged; otherwise the input is a prefix of the result, each appended row is an input row of a configured category, each category's count grows by what its budgets buy, no row is appended more times than its category has chunks, and every row of a category is appended at least once per whole chunk of its budgets (`OversampleOf`) |
| Oversampling.AppendedStep | Oversampler.py:148-154 | spending one configured category's budget extends the appended rows by that category's draws only |
| Oversampling.AppendedCopiesStep | Oversampler.py:151-154 | after one more configured entry, each category's appended rows are still a sub-multiset of its rows repeated once per chunk drawn so far |
| Oversampling.AppendedWholesStep | Oversampler.py:148-154 | after one more configured entry, each category's appended rows still hold its rows once per whole chunk drawn so far |
| Oversampling.AppendedAll | Oversampler.py:155 | `df.append(sample)` satisfies `OversampleOf` |
| Oversampling.NChunksAtMostOne | Oversampler.py:148-154 | in a dictionary whose budgets are all at most 1.0, a category is drawn from in at most one chunk |
| Oversampling.OversampleNoRepeats | Oversampler.py:145-155 | with budgets at most 1.0 and an input without repeated rows, no row is appended twice, so none occurs more than twice in the result |
| Oversampling.OversampleWholeBudget | Oversampler.py:135-138 | a configured budget `amt > 0` appends its category's rows whole `floor(amt)` times; with `amt >= 1.0` every row of the category is appended (for `{'category2': 1.2}`, every row once plus a 20% draw) |
| Oversampling.OversampleUnlistedCount | Oversampler.py:148-155 | a category that is not configured keeps its count |
| Oversampling.OversampleListedCount | Oversampler.py:148-155 | a configured category of `n` rows ends with `n + Extra(amt, n)` rows; a budget of 1.0 doubles it |
| Oversampling.OversampleRowsFromInput | Oversampler.py:145-155 | oversampling only repeats rows of its input |
| Oversampling.DrawnForStep | Oversampler.py:113-114 | appending one category's validation draw extends the loop state by that category, leaving the others unchanged |
| Oversampling.DrawnForAll | Oversampler.py:113-114 | once every category is done, validation is stratified |
| Oversampling.ValidationCounts | Oversampler.py:112-114 | each category gives `SampleSize(valid_pct, n)` rows to validation; validation is a sub-multiset of the manifest, and has no repeated row when labels are unique |
| Oversampling.DropComplement | Oversampler.py:115 | for a manifest with unique index labels (as `file_dict_to_df` builds), `drop(index=valid_df.index)` keeps exactly the rows not in validation: kept plus validation equals the manifest as multisets |
| Oversampling.SplitPartition | Oversampler.py:112-115 | for a manifest with unique index labels (as `file_dict_to_df` builds), train before oversampling and validation partition the manifest as multisets; `|train| + |valid| == |df|`, per category too |
| Oversampling.CountPermutation | Oversampler.py:115 | shuffling keeps every category's count |
| Oversampling.TrainDisjoint | Oversampler.py:115 | every training row is a manifest row whose label is not a validation label, so validation rows never reach oversampling |
| Oversampling.UnoversampledSplit | Oversampler.py:110-116 | for a manifest with unique index labels (as `file_dict_to_df` builds), without oversampling the shuffled train and validation partition the manifest, overall and per category |
| Oversampling.OversampledTrainCounts | Oversampler.py:110-116 | for a manifest with unique index labels, with oversampling a category's training count is the rows left after validation plus what its budget buys on them |
| Oversampling.TrainAtMostTwice | Oversampler.py:110-116 | with unique labels and budgets at most 1.0, a training row occurs at most twice: once as kept and at most once as a copy |
| Oversampling.NoValidation | Oversampler.py:114 | `valid_pct = 0` gives an empty validation table |
| Oversampling.NoTraining | Oversampler.py:114-115 | for a manifest with unique index labels (as `file_dict_to_df` builds), `valid_pct = 1` gives an empty training table before oversampling |
| Oversampling.WorkedExample | Oversampler.py:97-155 | 10 rows of `cat1` and 5 of `cat2` with `valid_pct = 0.2` and `{cat1: 0.5}` give 2 + 1 validation rows and 12 + 4 training rows |
| Oversampling.CombinedParts | Oversampler.py:124-127 | in `val.append(trn)` the first `len(val)` rows are the stratified validation rows and the rest the training rows (`SplitHolds`) |
| Oversampling.Oversampler.constructor | Oversampler.py:9-19 | `categories`, `cat_to_file_dict` and `df` are built by `get_cats`, `cat_to_files` and `file_dict_to_df`, and no split is cached yet |
| Oversampling.Oversampler.CategoryCounts | Oversampler.py:91-95 | `value_counts` has a key for exactly each category present in `df`, and its value is that category's row count, between 1 and `|df|` |
| Oversampling.Oversampler.SplitValByPct | Oversampler.py:97-116 | validation is stratified (`StratifiedValidation`); train is the label-complement of validation, oversampled when `cats_to_pct` is given or `oversample` is set, then shuffled: the ghost result `over` is the oversampled table, and train is a permutation of it (`TrainFrom`, hence `TrainOf` by `TrainOfWitness`) |
| Oversampling.Oversampler.DfValTrainByPct | Oversampler.py:118-128 | `df_oversampled` is the returned table and `len_val`, `len_trn` the returned sizes; the ghost fields record the arguments of the split, so `Valid()` gives `SplitHolds`: the first `len_val` rows are a stratified validation of `df` and the remaining `len_trn` rows its training table; only the cached fields are in the `modifies` frame, so `df`, `categories` and `cat_to_file_dict` are untouched |
| Oversampling.Oversampler.StoreSplit | Oversampler.py:125-127 | the three assignments store the combined table and its two sizes, the ghost fields record the split's arguments, and a combined table satisfying `SplitHolds` leaves the object `Valid()` |
| Oversampling.Oversampler.CopyToOutputWithCsv | Oversampler.py:156-163 | with `oversample` the combined table replaces `df` and nothing else changes; the reported boundary is `len_val` |

## Left out

- Filesystem I/O is not modelled: `os.listdir`, `get_cat_files`, `copy_to_output`, `shutil.copy`/`shutil.move`, `to_csv`, `print` and `tqdm`. Listings are inputs, and `copy_to_output_with_csv` is modelled only for its `self.df` replacement.
- `get_df_from_folder` is `file_dict_to_df` applied to `cat_to_files`, both of which are modelled. It has no member of its own.
- `PATH` and `OUT` are not modelled.
- The `categories_col` argument is fixed to `'categories'`, the column the manifest has.
- Frame.SampleSize: pandas rounds `frac * n` with Python's `round` (half to even), and that is the body given. The general lemmas use only the contract `k <= n`, `frac == 0 ⇒ 0`, `frac == 1 ⇒ n`; the concrete examples `Oversampling.WorkedExample` (through `Oversampling.WorkedSizes`) and `Budget.ExtraTie` evaluate the half-to-even body.
- Fractions are exact reals, not IEEE floats. `amt -= frac` leaves no tiny remainders, so the loop count ⌈amt⌉ is exact in the model.
- Oversampling.Oversampler.CategoryCounts: returns a map. The descending-count order of the `value_counts` Series is not modelled.
- Oversampling.StratifiedValidation: says which rows each category gives up. It fixes neither the order of categories in `valid_df` (the iteration order of a Python `set`) nor that each category's rows form one contiguous block, as the per-category `append` gives; any interleaving of the categories is admitted.
- Oversampling.Oversampler.SplitValByPct requires `0 <= valid_pct <= 1`. The code never checks this itself, and pandas refuses other fractions for sampling without replacement.
- Oversampling.Oversampler.SplitValByPct, Oversampling.Oversampler.DfValTrainByPct and Oversampling.Oversample require a configuration whenever oversampling is switched on. With `oversample=True` and `cats_to_pct=None`, the code fails on `None.keys()`.
- After `copy_to_output_with_csv(oversample=True)` the manifest is the combined table, whose oversampled rows repeat their index labels, so its labels are no longer unique. The split lemmas that require `UniqueLabels` (`DropComplement`, `SplitPartition`, `UnoversampledSplit`, `OversampledTrainCounts`, `NoTraining`, `TrainAtMostTwice`, and the last clause of `ValidationCounts`) say nothing about a second split of such a manifest. There, `drop(index=valid_df.index)` removes every row sharing a drawn label, so train and validation need not add up to the manifest, and validation may hold one file twice. `SplitValByPct` itself still holds for it, since `StratifiedValidation` and `TrainFrom` do not assume unique labels.
- Oversampling.Oversampler.constructor requires every category to have a subdirectory listing; otherwise `os.listdir` raises.
- Oversampling.Oversampler.CopyToOutputWithCsv requires a cached split. Before `df_val_train_by_pct` has run, the code fails on the missing `df_oversampled` and `len_val`.
- The code checks neither `valid_pct` nor the sign of oversampling fractions, and raises no configuration error for them; the model follows the code. A fraction `<= 0` simply adds no rows (`Budget.NoBudget`).
- The code takes the category list from the directory listing in listing order, not as a set, and the model follows the code.
- The total rows added for a budget `f` are `floor(f) * n` plus one draw of `round((f - floor(f)) * n)` rows (`Budget.ExtraExact`). This is not always `round(f * n)`: at a tie the two differ, e.g. `f = 1.5`, `n = 3` adds 5 rows where `round(4.5)` is 4 (`Budget.ExtraTie`). The model follows the loop.
