# Feature-path option processing of the chemprop command line

This project models `process_common_args` in chemprop/cli/common.py. It
normalises three repeatable command-line options:

- `--atom-features-path`
- `--atom-descriptors-path`
- `--bond-features-path`

argparse collects each option (`nargs="+"`, `action="append"`) as a list of
string lists, with one inner list per occurrence on the command line. For each
of the three attributes, always in that order, the processing does this:

- An attribute that is `None` or empty is skipped.
- Otherwise every occurrence becomes a pair of molecule index and path:
  - a single value is the path for molecule 0;
  - two values are an index, read with Python's `int()`, and a path;
  - more values are an error.
- A molecule index given twice is an error.
- The resulting index→path dictionary is written back onto the same `args` object.

The first error stops the processing. Attributes already rewritten stay
rewritten.

Files:

- `wrappers.dfy`: the `Option` and `Result` datatypes.
- `py_int.dfy` (module `PyInt`): Python's `int(str)` in base 10.
  - It strips whitespace: the ASCII space, `\t`, `\n`, `\v`, `\f` and `\r`,
    and the non-ASCII characters Unicode counts as whitespace.
  - It then reads an optional sign and decimal digits, with single underscores
    allowed between digits.
  - It reads at most 4300 digits, CPython's default limit; `str(n)` has the
    same limit.
  - It is proved to round-trip with `str(n)` for every `n` that `str` can
    write, and to ignore leading zeros up to the limit.
- `common.dfy` (module `Common`):
  - the attribute values (`PathArg`) and the errors Python raises (`ArgError`);
  - the pure specification (`Resolve`, `Build`, `ProcessKey`, `RunKeys`, `ProcessPaths`);
  - the argparse `Namespace` as a class whose three path attributes are fields;
  - the loops of the source as methods (`IndexEntries`, `ProcessCommonArgs`),
    proved equal to that specification;
  - lemmas stating what the specification guarantees.

Errors are values of `ArgError`, not exceptions:

- `TooManyArguments`: an occurrence with more than two values (`ArgumentError`).
- `MissingPath`: an occurrence with no values. Unpacking it into index and path
  raises `ValueError`; argparse's `nargs="+"` never produces one.
- `InvalidIndex`: `int(index)` raises `ValueError`.
- `DuplicateIndex`: a molecule index that was already seen (`ArgumentError`).
- `EntryHasNoLength`: the attribute is already a non-empty dict, as after an
  earlier run. Iterating over it yields integer keys, and `len` of an integer
  raises `TypeError`.

The source tests a repeat with `ind_path_dict.get(int(ind), None)`. That is a
truthiness test, but a `pathlib.Path` is always truthy, so it is the same as a
membership test. The model tests membership.

## Model

| member | source | states |
|---|---|---|
| Common.ProcessCommonArgs | chemprop/cli/common.py:156-195 | The attributes become exactly what the three-key run `ProcessPaths` gives from the old attributes. The call succeeds iff that run reports no failure, and then returns the same object. A failure returns the run's error. Other attributes of `args` are unchanged, and only the three path fields are in the frame. |
| Common.IndexEntries | chemprop/cli/common.py:170-191 | The loop over one option's occurrences, starting from a fresh empty dict, returns exactly `Build(entries)`: the finished dictionary, or the error of the first occurrence that cannot be added. |
| Common.Namespace.SetPath | chemprop/cli/common.py:193 | `setattr(args, key, v)` changes that one attribute to `v` and nothing else. |
| Common.PathSet.Set | chemprop/cli/common.py:193 | After setting an attribute, it reads back as the new value, and every other attribute reads as before. |
| Common.IsFalsy | chemprop/cli/common.py:167 | `not v` holds exactly for None, an empty list and an empty dict. |
| Common.Resolve | chemprop/cli/common.py:173-185 | An occurrence is accepted iff it has one value, or two values whose first parses as an integer. The path is always the occurrence's last value. A single value means index 0, and two values mean index `int(first)`. More than two values fail with `TooManyArguments`, no values with `MissingPath`, and an index `int()` rejects with `InvalidIndex` of that text. |
| Common.ProcessKey | chemprop/cli/common.py:165-193 | A falsy attribute is returned unchanged. A non-empty dict fails with `EntryHasNoLength`. A non-empty list succeeds iff `Build` of its occurrences succeeds, and then becomes that dictionary. Any failure of a list is `Build`'s error. |
| Common.BuildSucceedsIff | chemprop/cli/common.py:170-191 | The occurrences of an option build a dictionary iff every occurrence is well formed and no two resolve to the same integer index. |
| Common.BuildSuccessSound | chemprop/cli/common.py:170-191 | A dictionary is built only from well-formed occurrences with pairwise different indices. |
| Common.BuildSuccessComplete | chemprop/cli/common.py:170-191 | Well-formed occurrences with pairwise different indices always build a dictionary. |
| Common.BuildContents | chemprop/cli/common.py:170-191 | On success, the dictionary's key set is exactly the set of the occurrences' indices, and each occurrence's index maps to that occurrence's path. |
| Common.BuildKeys | chemprop/cli/common.py:185-191 | On success, the dictionary's key set is exactly the set of the occurrences' indices. |
| Common.BuildLookup | chemprop/cli/common.py:179-191 | On success, each occurrence's index is a key, and it maps to that occurrence's path. |
| Common.BuildSize | chemprop/cli/common.py:170-191 | On success, the dictionary has exactly as many keys as there were occurrences. |
| Common.BuildFailureIsSticky | chemprop/cli/common.py:172-189 | Once the occurrences up to some point have raised an error, the later occurrences do not change the outcome. The first error raised is the one reported. |
| Common.OverlongEntryFails | chemprop/cli/common.py:173-177 | Any occurrence with more than two values makes the option fail. When the occurrences before it were fine, the error is `TooManyArguments`. |
| Common.BuildTwo | chemprop/cli/common.py:170-191 | Two well-formed occurrences fail with `DuplicateIndex` of their index when they share one, and otherwise give the two-key dictionary of their indices and paths. |
| Common.BarePathCollidesWithZero | chemprop/cli/common.py:179-189 | A bare path and the index "00" both resolve to molecule 0, so giving both is a `DuplicateIndex(0)` error. |
| Common.DistinctIndicesBuild | chemprop/cli/common.py:179-191 | A bare path and the index "1" give the dictionary {0: first path, 1: second path}. |
| Common.RunKeysOutcome | chemprop/cli/common.py:164-193 | After the first `n` keys, with no failure, each of them holds its processed value and the rest are untouched. After a failure, there is a key `j` that failed with exactly the reported error. The keys before `j` are already converted, and `j` and the keys after it are as they were. |
| Common.RunFailureIsSticky | chemprop/cli/common.py:164-193 | Once a key fails, the run over all three keys ends with exactly that state and error, so later keys are never processed. |
| Common.ProcessPathsOutcome | chemprop/cli/common.py:164-193 | The processing succeeds iff each of the three attributes can be processed, and then each holds its processed value. On failure it stops at the first failing attribute, in the fixed order atom features, atom descriptors, bond features. The earlier attributes stay converted, and the failing and later ones are unchanged. |
| Common.FalsyAttributeUntouched | chemprop/cli/common.py:167-168 | An attribute that is None, an empty list or an empty dict is left exactly as it was, whether the processing succeeds or fails. |
| Common.ProcessedAttributeContents | chemprop/cli/common.py:164-193 | After a successful processing, an attribute that held a non-empty list of occurrences holds a dictionary. Its keys are exactly the occurrences' indices, it has one key per occurrence, and each index maps to its occurrence's path. |
| PyInt.TrimStart | chemprop/cli/common.py:185 | `int()` strips leading whitespace: the result is a suffix of the input, it does not start with whitespace, and everything removed is whitespace. |
| PyInt.TrimEnd | chemprop/cli/common.py:185 | `int()` strips trailing whitespace: the result is a prefix of the input, it does not end with whitespace, and everything removed is whitespace. |
| PyInt.ParseInt | chemprop/cli/common.py:185 | Text that is an unsigned numeral of at most 4300 digits once its whitespace is stripped parses to that numeral's magnitude. |
| PyInt.ParseText | chemprop/cli/common.py:185 | An unsigned numeral of at most 4300 digits parses to its magnitude. Only a numeral, optionally after one sign, is accepted, and only a leading "-" gives a negative result. |
| PyInt.ParseNumeral | chemprop/cli/common.py:185 | A well-formed unsigned numeral (digits, with single underscores between digits) parses to its magnitude when it has at most 4300 digits, and is rejected otherwise. |
| PyInt.ParseSigned | chemprop/cli/common.py:185 | A "-" in front of a numeral within the limit negates its magnitude, and a "+" keeps it. |
| PyInt.IntTextRoundTrip | chemprop/cli/common.py:185 | `int(str(n)) == n` for every integer `n` that `str` can write (at most 4300 digits), so every such molecule index can be written on the command line. |
| PyInt.LeadingZeroIgnored | chemprop/cli/common.py:185 | A zero in front of a numeral adds one digit and keeps it a numeral. Below the limit it does not change the index it denotes, so "7" and "07" name the same molecule. |
| PyInt.LeadingZeroPastLimit | chemprop/cli/common.py:185 | A numeral of exactly 4300 digits is read, but the same numeral with one more leading zero is rejected. |
| PyInt.ParseDoubleZero | chemprop/cli/common.py:185 | `int("00") == 0`. |
| PyInt.ParseOne | chemprop/cli/common.py:185 | `int("1") == 1`. |

## Left out

- `add_common_args` (chemprop/cli/common.py:12-153) is not modelled. It only declares options, defaults and choices; the choices come from registries that are not part of this model. The one fact the model relies on is the shape it declares for the three path options (a list of string lists).
- `validate_common_args` (chemprop/cli/common.py:198-199) is not modelled, because it has an empty body.
- `find_models` (chemprop/cli/common.py:202-216) is not modelled, because it depends on the file system (`is_dir`, `rglob`).
- `LookupAction`, `uppercase`, the featurizer registries and the logger are not modelled. They are code that is not part of this model.
- The ranking losses in `chemprop.nn.metrics` are not modelled. tests/unit/test_ranking_losses.py, test_ndcg_loss.py and test_rbo_loss.py exercise them, but the implementation is not part of this model. Those tests only check floating-point tensor results.
- `Path(path)` is kept as the string that was given. pathlib's normalisation (for example `Path("")` becoming `.`) is not modelled.
- Common.ProcessCommonArgs: an error carries its kind and, for a duplicate, the integer index, not the message text. Python's message for a duplicate shows the index as it was typed, for example "00".
- The Namespace's other attributes are an opaque `otherArgs` map that is never touched. Their types and values are not modelled.
- PyInt.ParseNumeral: `int()` also accepts decimal digits of other Unicode scripts (for example Arabic-Indic digits), and the model accepts only ASCII digits.
- PyInt.ParseInt: the digit limit is the default, 4300. CPython lets it be changed or switched off (`sys.set_int_max_str_digits`, `PYTHONINTMAXSTRDIGITS`, `-X int_max_str_digits`); those settings are not modelled.
