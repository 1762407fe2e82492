/**
 * The normalisation of the repeatable feature-path options of the chemprop
 * command line (`process_common_args` in chemprop/cli/common.py).
 *
 * Each of `--atom-features-path`, `--atom-descriptors-path` and
 * `--bond-features-path` may be given several times; every occurrence carries
 * either a single path (meant for molecule 0) or a molecule index and a path.
 * argparse collects the occurrences into a list of string lists. The
 * processing step turns each such list into a dictionary from molecule index
 * to path, refusing malformed occurrences and repeated molecule indices, and
 * writes the dictionary back onto the parsed-arguments object.
 */
module Common {
  import opened Wrappers
  import opened PyInt

  /** The values that followed one occurrence of the option on the command line. */
  type Entry = seq<string>

  /** The value of one of the three attributes of the parsed arguments. */
  datatype PathArg =
    | Unset                              // None: the option was never given
    | Given(entries: seq<Entry>)         // argparse's list, one entry per occurrence
    | Indexed(paths: map<int, string>)   // the dictionary written back by the processing

  /**
   * `not v` in Python: None is false, and a list or a dict is false exactly
   * when its length is zero.
   */
  function IsFalsy(v: PathArg): (falsy: bool)
    ensures falsy <==> v.Unset? || (v.Given? && |v.entries| == 0) || (v.Indexed? && |v.paths| == 0)
  {
    match v
    case Unset => true
    case Given(entries) => entries == []
    case Indexed(paths) => paths == map[]
  }

  /** What Python raises, and why. */
  datatype ArgError =
    | TooManyArguments          // an entry with more than two values (ArgumentError)
    | MissingPath               // an empty entry: unpacking it into index and path fails (ValueError)
    | InvalidIndex(text: string) // `int(index)` fails (ValueError)
    | DuplicateIndex(index: int) // two entries for the same molecule index (ArgumentError)
    | EntryHasNoLength          // the attribute is already a non-empty dict: its entries are int keys (TypeError)

  /** The three attributes, in the order in which they are processed. */
  datatype Key = AtomFeatures | AtomDescriptors | BondFeatures

  const Keys: seq<Key> := [AtomFeatures, AtomDescriptors, BondFeatures]

  /** The part of the parsed arguments that the processing may change. */
  datatype PathSet = PathSet(atomFeatures: PathArg, atomDescriptors: PathArg, bondFeatures: PathArg)
  {
    /** `getattr(args, key)` */
    function Get(key: Key): PathArg {
      match key
      case AtomFeatures => atomFeatures
      case AtomDescriptors => atomDescriptors
      case BondFeatures => bondFeatures
    }

    /** `setattr(args, key, v)`: only that attribute changes. */
    function Set(key: Key, v: PathArg): (q: PathSet)
      ensures q.Get(key) == v
      ensures forall other :: other != key ==> q.Get(other) == Get(other)
    {
      match key
      case AtomFeatures => this.(atomFeatures := v)
      case AtomDescriptors => this.(atomDescriptors := v)
      case BondFeatures => this.(bondFeatures := v)
    }
  }

  /**
   * One entry read as a molecule index and a path: a single value is the path
   * of molecule 0, two values are an index and a path.
   */
  function Resolve(entry: Entry): (r: Result<(int, string), ArgError>)
    ensures r.Success? <==> |entry| == 1 || (|entry| == 2 && ParseInt(entry[0]).Some?)
    ensures r.Success? ==> r.value.1 == entry[|entry| - 1]
    ensures r.Success? && |entry| == 1 ==> r.value.0 == 0
    ensures r.Success? && |entry| == 2 ==> ParseInt(entry[0]) == Some(r.value.0)
    ensures |entry| > 2 ==> r == Failure(TooManyArguments)
    ensures |entry| == 0 ==> r == Failure(MissingPath)
    ensures |entry| == 2 && ParseInt(entry[0]).None? ==> r == Failure(InvalidIndex(entry[0]))
  {
    if |entry| > 2 then Failure(TooManyArguments)
    else if |entry| == 1 then Success((0, entry[0]))
    else if |entry| == 0 then Failure(MissingPath)
    else
      match ParseInt(entry[0])
      case None => Failure(InvalidIndex(entry[0]))
      case Some(index) => Success((index, entry[1]))
  }

  /** Adds one entry to the dictionary built so far, as one turn of the loop does. */
  function AddEntry(built: Result<map<int, string>, ArgError>, entry: Entry): Result<map<int, string>, ArgError> {
    match built
    case Failure(e) => Failure(e)
    case Success(dict) =>
      match Resolve(entry)
      case Failure(e) => Failure(e)
      case Success((index, path)) =>
        if index in dict then Failure(DuplicateIndex(index)) else Success(dict[index := path])
  }

  /**
   * The dictionary built from the entries in order, or the error raised at
   * the first entry that cannot be added to it.
   */
  function Build(entries: seq<Entry>): Result<map<int, string>, ArgError>
    decreases |entries|
  {
    if entries == [] then Success(map[])
    else AddEntry(Build(entries[..|entries| - 1]), entries[|entries| - 1])
  }

  /** The attribute after processing, or the error that stops the processing. */
  function ProcessKey(v: PathArg): (r: Result<PathArg, ArgError>)
    ensures IsFalsy(v) ==> r == Success(v)
    ensures v.Indexed? && v.paths != map[] ==> r == Failure(EntryHasNoLength)
    ensures v.Given? && v.entries != [] ==> (r.Success? <==> Build(v.entries).Success?)
    ensures v.Given? && v.entries != [] && r.Success? ==> r.value == Indexed(Build(v.entries).value)
    ensures v.Given? && r.Failure? ==> Build(v.entries) == Failure(r.error)
  {
    if IsFalsy(v) then Success(v)
    else
      match v
      case Unset => Success(v)
      case Indexed(_) => Failure(EntryHasNoLength)
      case Given(entries) =>
        match Build(entries)
        case Failure(e) => Failure(e)
        case Success(dict) => Success(Indexed(dict))
  }

  /** The attributes after a run, and the error that ended it early, if any. */
  datatype Run = Run(paths: PathSet, failure: Option<ArgError>)

  /** The run over the first `n` keys: it stops at the first key that fails. */
  function RunKeys(p: PathSet, n: nat): Run
    requires n <= |Keys|
  {
    if n == 0 then Run(p, None)
    else
      var r := RunKeys(p, n - 1);
      if r.failure.Some? then r
      else
        match ProcessKey(r.paths.Get(Keys[n - 1]))
        case Failure(e) => Run(r.paths, Some(e))
        case Success(v) => Run(r.paths.Set(Keys[n - 1], v), None)
  }

  function ProcessPaths(p: PathSet): Run {
    RunKeys(p, |Keys|)
  }

  // ---------------------------------------------------------------------
  // Properties of one option's entries

  ghost predicate AllResolve(entries: seq<Entry>) {
    forall j :: 0 <= j < |entries| ==> Resolve(entries[j]).Success?
  }

  ghost function IndexOf(entry: Entry): int
    requires Resolve(entry).Success?
  {
    Resolve(entry).value.0
  }

  ghost predicate DistinctIndices(entries: seq<Entry>)
    requires AllResolve(entries)
  {
    forall j, k :: 0 <= j < k < |entries| ==> IndexOf(entries[j]) != IndexOf(entries[k])
  }

  ghost function IndexSet(entries: seq<Entry>): set<int>
    requires AllResolve(entries)
  {
    set j | 0 <= j < |entries| :: IndexOf(entries[j])
  }

  /** The indices of all entries are those of all but the last, plus the last one's. */
  lemma IndexSetSnoc(entries: seq<Entry>)
    requires entries != [] && AllResolve(entries)
    ensures AllResolve(entries[..|entries| - 1])
    ensures IndexSet(entries) == IndexSet(entries[..|entries| - 1]) + {IndexOf(entries[|entries| - 1])}
  {
    var n := |entries|;
    var init := entries[..n - 1];
    assert forall j :: 0 <= j < n - 1 ==> init[j] == entries[j];
    var lhs := IndexSet(entries);
    var rhs := IndexSet(init) + {IndexOf(entries[n - 1])};
    forall x | x in lhs ensures x in rhs {
      var j :| 0 <= j < n && IndexOf(entries[j]) == x;
      if j < n - 1 { assert IndexOf(init[j]) == x; }
    }
    forall x | x in rhs ensures x in lhs {
      if x != IndexOf(entries[n - 1]) {
        var j :| 0 <= j < n - 1 && IndexOf(init[j]) == x;
        assert IndexOf(entries[j]) == x;
      }
    }
  }

  /** A successful build is the build of all entries but the last, extended by the last entry. */
  lemma BuildSnoc(entries: seq<Entry>)
    requires entries != [] && Build(entries).Success?
    ensures var init := entries[..|entries| - 1];
      var last := entries[|entries| - 1];
      && Build(init).Success?
      && Resolve(last).Success?
      && IndexOf(last) !in Build(init).value
      && Build(entries).value == Build(init).value[IndexOf(last) := last[|last| - 1]]
  {
  }

  /** All entries resolve when all but the last do and the last one does. */
  lemma AllResolveSnoc(entries: seq<Entry>)
    requires entries != []
    requires AllResolve(entries[..|entries| - 1]) && Resolve(entries[|entries| - 1]).Success?
    ensures AllResolve(entries)
  {
    var n := |entries|;
    forall j | 0 <= j < n ensures Resolve(entries[j]).Success? {
      if j < n - 1 { assert entries[j] == entries[..n - 1][j]; }
    }
  }

  /** The keys of a dictionary built from the entries are the entries' molecule indices. */
  lemma {:induction false} BuildKeys(entries: seq<Entry>)
    requires Build(entries).Success?
    ensures AllResolve(entries)
    ensures Build(entries).value.Keys == IndexSet(entries)
  {
    if entries != [] {
      var init := entries[..|entries| - 1];
      BuildSnoc(entries);
      BuildKeys(init);
      AllResolveSnoc(entries);
      IndexSetSnoc(entries);
    }
  }

  /** In a dictionary built from the entries, each entry's index maps to that entry's path. */
  lemma {:induction false} BuildLookup(entries: seq<Entry>)
    requires Build(entries).Success?
    ensures AllResolve(entries)
    ensures forall j :: 0 <= j < |entries| ==>
              && IndexOf(entries[j]) in Build(entries).value
              && Build(entries).value[IndexOf(entries[j])] == entries[j][|entries[j]| - 1]
  {
    if entries != [] {
      var n := |entries|;
      var init := entries[..n - 1];
      BuildSnoc(entries);
      BuildLookup(init);
      AllResolveSnoc(entries);
      var dict := Build(init).value;
      var result := Build(entries).value;
      var index := IndexOf(entries[n - 1]);
      forall j | 0 <= j < n
        ensures IndexOf(entries[j]) in result && result[IndexOf(entries[j])] == entries[j][|entries[j]| - 1]
      {
        if j < n - 1 {
          assert entries[j] == init[j];
          assert IndexOf(init[j]) in dict && IndexOf(init[j]) != index;
          assert result[IndexOf(init[j])] == dict[IndexOf(init[j])];
        } else {
          assert result[index] == entries[n - 1][|entries[n - 1]| - 1];
        }
      }
    }
  }

  /**
   * A dictionary built from the entries has as keys exactly the entries'
   * molecule indices, and each index maps to its entry's path.
   */
  lemma BuildContents(entries: seq<Entry>)
    requires Build(entries).Success?
    ensures AllResolve(entries)
    ensures Build(entries).value.Keys == IndexSet(entries)
    ensures forall j :: 0 <= j < |entries| ==>
              Build(entries).value[IndexOf(entries[j])] == entries[j][|entries[j]| - 1]
  {
    BuildKeys(entries);
    BuildLookup(entries);
  }

  /** A dictionary built from the entries has exactly one key per entry. */
  lemma {:induction false} BuildSize(entries: seq<Entry>)
    requires Build(entries).Success?
    ensures |Build(entries).value| == |entries|
  {
    if entries != [] {
      var init := entries[..|entries| - 1];
      BuildSize(init);
      BuildSnoc(entries);
    }
  }

  /** A successful build had well-formed entries with pairwise different indices. */
  lemma {:induction false} BuildSuccessSound(entries: seq<Entry>)
    requires Build(entries).Success?
    ensures AllResolve(entries) && DistinctIndices(entries)
  {
    if entries != [] {
      var n := |entries|;
      var init := entries[..n - 1];
      var last := entries[n - 1];
      BuildSnoc(entries);
      BuildSuccessSound(init);
      BuildKeys(init);
      AllResolveSnoc(entries);
      var dict := Build(init).value;
      forall j, k | 0 <= j < k < n ensures IndexOf(entries[j]) != IndexOf(entries[k]) {
        assert entries[j] == init[j];
        if k < n - 1 {
          assert entries[k] == init[k];
        } else {
          assert IndexOf(init[j]) in IndexSet(init);
          assert IndexOf(init[j]) in dict && IndexOf(last) !in dict;
        }
      }
    }
  }

  /** Well-formed entries with pairwise different indices always build. */
  lemma {:induction false} BuildSuccessComplete(entries: seq<Entry>)
    requires AllResolve(entries) && DistinctIndices(entries)
    ensures Build(entries).Success?
  {
    if entries != [] {
      var n := |entries|;
      var init := entries[..n - 1];
      var last := entries[n - 1];
      assert forall j :: 0 <= j < n - 1 ==> entries[j] == init[j];
      BuildSuccessComplete(init);
      BuildKeys(init);
      assert IndexOf(last) !in IndexSet(init) by {
        forall j | 0 <= j < n - 1 ensures IndexOf(init[j]) != IndexOf(last) {
          assert IndexOf(entries[j]) != IndexOf(entries[n - 1]);
        }
      }
    }
  }

  /**
   * The entries of an option build a dictionary exactly when every entry is
   * well formed and no two name the same molecule index.
   */
  lemma BuildSucceedsIff(entries: seq<Entry>)
    ensures Build(entries).Success? <==> AllResolve(entries) && DistinctIndices(entries)
  {
    if Build(entries).Success? {
      BuildSuccessSound(entries);
    } else if AllResolve(entries) && DistinctIndices(entries) {
      BuildSuccessComplete(entries);
    }
  }

  /** Once an error is raised for a prefix of the entries, later entries do not change it. */
  lemma {:induction false} BuildFailureIsSticky(entries: seq<Entry>, n: nat)
    requires n <= |entries|
    requires Build(entries[..n]).Failure?
    ensures Build(entries) == Build(entries[..n])
    decreases |entries| - n
  {
    if n < |entries| {
      assert entries[..n + 1][..n] == entries[..n];
      BuildFailureIsSticky(entries, n + 1);
    } else {
      assert entries[..n] == entries;
    }
  }

  /**
   * An entry with more than two values always makes the processing fail; when
   * the entries before it were fine, the error is the one about too many values.
   */
  lemma OverlongEntryFails(entries: seq<Entry>, j: nat)
    requires j < |entries| && |entries[j]| > 2
    ensures Build(entries).Failure?
    ensures Build(entries[..j]).Success? ==> Build(entries) == Failure(TooManyArguments)
  {
    BuildSucceedsIff(entries);
    if Build(entries[..j]).Success? {
      assert entries[..j + 1][..j] == entries[..j];
      BuildFailureIsSticky(entries, j + 1);
    }
  }

  /** Two well-formed entries: a duplicate if they share an index, else a two-key dictionary. */
  lemma BuildTwo(first: Entry, second: Entry)
    requires Resolve(first).Success? && Resolve(second).Success?
    ensures Build([first, second]) ==
      if IndexOf(first) == IndexOf(second) then Failure(DuplicateIndex(IndexOf(first)))
      else Success(map[IndexOf(first) := first[|first| - 1], IndexOf(second) := second[|second| - 1]])
  {
    var entries := [first, second];
    assert entries[..1] == [first];
    assert [first][..0] == [];
    assert Build([first]) == Success(map[IndexOf(first) := first[|first| - 1]]);
  }

  lemma ResolveDoubleZero(q: string)
    ensures Resolve(["00", q]) == Success((0, q))
  {
    ParseDoubleZero();
  }

  lemma ResolveOne(q: string)
    ensures Resolve(["1", q]) == Success((1, q))
  {
    ParseOne();
  }

  /** A bare path and the index "00" both name molecule 0: a duplicate. */
  lemma BarePathCollidesWithZero(p: string, q: string)
    ensures Build([[p], ["00", q]]) == Failure(DuplicateIndex(0))
  {
    ResolveDoubleZero(q);
    BuildTwo([p], ["00", q]);
  }

  /** A bare path and the index "1" name different molecules: one dictionary entry each. */
  lemma DistinctIndicesBuild(p: string, q: string)
    ensures Build([[p], ["1", q]]) == Success(map[0 := p, 1 := q])
  {
    ResolveOne(q);
    BuildTwo([p], ["1", q]);
  }

  // ---------------------------------------------------------------------
  // Properties of the run over the three attributes

  /** The first `j` keys were processed successfully and hold their results in `q`. */
  ghost predicate ConvertedBefore(p: PathSet, q: PathSet, j: nat)
    requires j <= |Keys|
  {
    forall i :: 0 <= i < j ==> ProcessKey(p.Get(Keys[i])) == Success(q.Get(Keys[i]))
  }

  /** The keys from index `j` on are as they were. */
  ghost predicate UntouchedFrom(p: PathSet, q: PathSet, j: nat)
    requires j <= |Keys|
  {
    forall i :: j <= i < |Keys| ==> q.Get(Keys[i]) == p.Get(Keys[i])
  }

  /** A run over the first `n` keys that has not failed leaves the other keys alone. */
  lemma {:induction false} RunKeysUntouched(p: PathSet, n: nat)
    requires n <= |Keys| && RunKeys(p, n).failure.None?
    ensures UntouchedFrom(p, RunKeys(p, n).paths, n)
  {
    if n > 0 {
      var r := RunKeys(p, n - 1);
      RunKeysUntouched(p, n - 1);
      var key := Keys[n - 1];
      var q := r.paths.Set(key, ProcessKey(r.paths.Get(key)).value);
      assert RunKeys(p, n) == Run(q, None);
      forall i | n <= i < |Keys|
        ensures q.Get(Keys[i]) == p.Get(Keys[i])
      {
        assert Keys[i] != key;
      }
    }
  }

  /** A run over the first `n` keys that has not failed holds each of them processed. */
  lemma {:induction false} RunKeysConverted(p: PathSet, n: nat)
    requires n <= |Keys| && RunKeys(p, n).failure.None?
    ensures ConvertedBefore(p, RunKeys(p, n).paths, n) && UntouchedFrom(p, RunKeys(p, n).paths, n)
  {
    RunKeysUntouched(p, n);
    if n > 0 {
      var r := RunKeys(p, n - 1);
      RunKeysConverted(p, n - 1);
      var key := Keys[n - 1];
      assert r.paths.Get(key) == p.Get(key);
      var v := ProcessKey(p.Get(key)).value;
      var q := r.paths.Set(key, v);
      assert RunKeys(p, n) == Run(q, None);
      forall i | 0 <= i < n
        ensures ProcessKey(p.Get(Keys[i])) == Success(q.Get(Keys[i]))
      {
        if i != n - 1 {
          assert Keys[i] != key;
        }
      }
    }
  }

  /** A run over the first `n` keys that failed stopped at a key that failed with its error. */
  lemma {:induction false} RunKeysStopped(p: PathSet, n: nat)
    requires n <= |Keys| && RunKeys(p, n).failure.Some?
    ensures var r := RunKeys(p, n);
      exists j :: 0 <= j < n
        && ConvertedBefore(p, r.paths, j)
        && UntouchedFrom(p, r.paths, j)
        && ProcessKey(p.Get(Keys[j])) == Failure(r.failure.value)
  {
    var r := RunKeys(p, n - 1);
    if r.failure.Some? {
      RunKeysStopped(p, n - 1);
    } else {
      RunKeysConverted(p, n - 1);
      assert r.paths.Get(Keys[n - 1]) == p.Get(Keys[n - 1]);
      assert RunKeys(p, n) == Run(r.paths, Some(ProcessKey(p.Get(Keys[n - 1])).error));
    }
  }

  /**
   * After the first `n` keys, with no failure, each of them holds its
   * processed value and the rest are untouched; after a failure, some key
   * failed with exactly that error, the keys before it are converted and it
   * and the keys after it are untouched.
   */
  lemma RunKeysOutcome(p: PathSet, n: nat)
    requires n <= |Keys|
    ensures var r := RunKeys(p, n);
      && (r.failure.None? ==> ConvertedBefore(p, r.paths, n) && UntouchedFrom(p, r.paths, n))
      && (r.failure.Some? ==>
            exists j :: 0 <= j < n
              && ConvertedBefore(p, r.paths, j)
              && UntouchedFrom(p, r.paths, j)
              && ProcessKey(p.Get(Keys[j])) == Failure(r.failure.value))
  {
    if RunKeys(p, n).failure.None? {
      RunKeysConverted(p, n);
    } else {
      RunKeysStopped(p, n);
    }
  }

  /** Once a key fails, the run ends: the remaining keys are not processed. */
  lemma {:induction false} RunFailureIsSticky(p: PathSet, n: nat)
    requires n <= |Keys|
    requires RunKeys(p, n).failure.Some?
    ensures ProcessPaths(p) == RunKeys(p, n)
    decreases |Keys| - n
  {
    if n < |Keys| {
      RunFailureIsSticky(p, n + 1);
    }
  }

  /** A key that processes to `v` after a run with no failure is set to `v`, and the run goes on. */
  lemma RunKeysAdvance(p: PathSet, n: nat, v: PathArg)
    requires n < |Keys| && RunKeys(p, n).failure.None?
    requires ProcessKey(RunKeys(p, n).paths.Get(Keys[n])) == Success(v)
    ensures RunKeys(p, n + 1) == Run(RunKeys(p, n).paths.Set(Keys[n], v), None)
  {
  }

  /** A key that fails after a run with no failure ends the whole processing with its error. */
  lemma RunKeysHalt(p: PathSet, n: nat, e: ArgError)
    requires n < |Keys| && RunKeys(p, n).failure.None?
    requires ProcessKey(RunKeys(p, n).paths.Get(Keys[n])) == Failure(e)
    ensures ProcessPaths(p) == Run(RunKeys(p, n).paths, Some(e))
  {
    RunFailureIsSticky(p, n + 1);
  }

  /**
   * The processing succeeds exactly when every attribute can be processed, and
   * then every attribute holds its processed value. Otherwise it stops at the
   * first attribute that fails, with that attribute's error: the attributes
   * before it are already converted, it and those after it are as they were.
   */
  lemma ProcessPathsOutcome(p: PathSet)
    ensures var r := ProcessPaths(p);
      && (r.failure.None? <==> forall i :: 0 <= i < |Keys| ==> ProcessKey(p.Get(Keys[i])).Success?)
      && (r.failure.None? ==> ConvertedBefore(p, r.paths, |Keys|))
      && (r.failure.Some? ==>
            exists j :: 0 <= j < |Keys|
              && ConvertedBefore(p, r.paths, j)
              && UntouchedFrom(p, r.paths, j)
              && ProcessKey(p.Get(Keys[j])) == Failure(r.failure.value))
  {
    RunKeysOutcome(p, |Keys|);
  }

  /** An attribute that is None, an empty list or an empty dict is left exactly as it was. */
  lemma FalsyAttributeUntouched(p: PathSet, key: Key)
    requires IsFalsy(p.Get(key))
    ensures ProcessPaths(p).paths.Get(key) == p.Get(key)
  {
    ProcessPathsOutcome(p);
    var i := if key == AtomFeatures then 0 else if key == AtomDescriptors then 1 else 2;
    assert Keys[i] == key;
  }

  /**
   * After a successful run, an attribute that held a non-empty list of entries
   * holds a dictionary with one key per entry: the keys are the entries'
   * molecule indices, and each index maps to its entry's path.
   */
  lemma ProcessedAttributeContents(p: PathSet, key: Key)
    requires ProcessPaths(p).failure.None?
    requires p.Get(key).Given? && p.Get(key).entries != []
    ensures var es := p.Get(key).entries;
      var q := ProcessPaths(p).paths.Get(key);
      && AllResolve(es)
      && q.Indexed?
      && q.paths.Keys == IndexSet(es)
      && |q.paths| == |es|
      && forall j :: 0 <= j < |es| ==> q.paths[IndexOf(es[j])] == es[j][|es[j]| - 1]
  {
    ProcessPathsOutcome(p);
    var i := if key == AtomFeatures then 0 else if key == AtomDescriptors then 1 else 2;
    assert Keys[i] == key;
    BuildContents(p.Get(key).entries);
    BuildSize(p.Get(key).entries);
  }

  // ---------------------------------------------------------------------
  // The parsed-arguments object and the processing itself

  /** The argparse Namespace: the three feature-path attributes and everything else. */
  class Namespace {
    var atomFeaturesPath: PathArg
    var atomDescriptorsPath: PathArg
    var bondFeaturesPath: PathArg
    /** Every other attribute, by name; the processing never touches them. */
    var otherArgs: map<string, string>

    constructor (paths: PathSet, otherArgs: map<string, string>)
      ensures Paths() == paths && this.otherArgs == otherArgs
    {
      atomFeaturesPath := paths.atomFeatures;
      atomDescriptorsPath := paths.atomDescriptors;
      bondFeaturesPath := paths.bondFeatures;
      this.otherArgs := otherArgs;
    }

    function Paths(): PathSet
      reads this
    {
      PathSet(atomFeaturesPath, atomDescriptorsPath, bondFeaturesPath)
    }

    /** `setattr(self, key, v)` */
    method SetPath(key: Key, v: PathArg)
      modifies this`atomFeaturesPath, this`atomDescriptorsPath, this`bondFeaturesPath
      ensures Paths() == old(Paths()).Set(key, v)
    {
      match key
      case AtomFeatures => atomFeaturesPath := v;
      case AtomDescriptors => atomDescriptorsPath := v;
      case BondFeatures => bondFeaturesPath := v;
    }
  }

  /** The loop that fills a fresh dictionary from one option's entries. */
  method IndexEntries(entries: seq<Entry>) returns (r: Result<map<int, string>, ArgError>)
    ensures r == Build(entries)
  {
    var indPathDict: map<int, string> := map[];
    for j := 0 to |entries|
      invariant Build(entries[..j]) == Success(indPathDict)
    {
      var indPath := entries[j];
      assert entries[..j + 1][..j] == entries[..j];
      if |indPath| > 2 {
        BuildFailureIsSticky(entries, j + 1);
        return Failure(TooManyArguments);
      }
      var index: int;
      var path: string;
      if |indPath| == 1 {
        index, path := 0, indPath[0];
      } else if |indPath| == 0 {
        BuildFailureIsSticky(entries, j + 1);
        return Failure(MissingPath);
      } else {
        var parsed := ParseInt(indPath[0]);
        if parsed.None? {
          BuildFailureIsSticky(entries, j + 1);
          return Failure(InvalidIndex(indPath[0]));
        }
        index, path := parsed.value, indPath[1];
      }
      if index in indPathDict {
        BuildFailureIsSticky(entries, j + 1);
        return Failure(DuplicateIndex(index));
      }
      indPathDict := indPathDict[index := path];
    }
    assert entries[..|entries|] == entries;
    return Success(indPathDict);
  }

  /**
   * `process_common_args(args)`: rewrites the three attributes in order and
   * returns the same object, or stops with the first error, leaving the
   * attributes already rewritten as they are. Nothing else in `args` changes.
   */
  method ProcessCommonArgs(args: Namespace) returns (result: Result<Namespace, ArgError>)
    modifies args`atomFeaturesPath, args`atomDescriptorsPath, args`bondFeaturesPath
    ensures args.Paths() == ProcessPaths(old(args.Paths())).paths
    ensures result.Success? <==> ProcessPaths(old(args.Paths())).failure.None?
    ensures result.Success? ==> result.value == args
    ensures result.Failure? ==> ProcessPaths(old(args.Paths())).failure == Some(result.error)
    ensures args.otherArgs == old(args.otherArgs)
  {
    ghost var initial := args.Paths();
    for i := 0 to |Keys|
      invariant RunKeys(initial, i) == Run(args.Paths(), None)
    {
      var key := Keys[i];
      var indsPaths := args.Paths().Get(key);
      if IsFalsy(indsPaths) {
        RunKeysAdvance(initial, i, indsPaths);
        assert args.Paths().Set(key, indsPaths) == args.Paths();
        continue;
      }
      if indsPaths.Indexed? {
        RunKeysHalt(initial, i, EntryHasNoLength);
        return Failure(EntryHasNoLength);
      }
      var built := IndexEntries(indsPaths.entries);
      if built.Failure? {
        RunKeysHalt(initial, i, built.error);
        return Failure(built.error);
      }
      RunKeysAdvance(initial, i, Indexed(built.value));
      args.SetPath(key, Indexed(built.value));
    }
    return Success(args);
  }
}
