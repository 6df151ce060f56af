/**
 * The bookkeeping of the command-line run (src/cli/run.ts): the compiler flags object
 * and its flattening into an argument list, the counters folded over the test modules
 * with the final verdict, the two memo caches handed to the compiler, and the rule for
 * what a compiler output becomes.
 *
 * A JavaScript object is modelled as a list of (key, value) entries in insertion order
 * with distinct keys: assigning an existing key replaces its value in place, assigning
 * a new key appends it. The file system and Node's `path` functions are parameters.
 */
module CliRun {
  import opened Wrappers

  type Entry = (string, seq<string>)

  predicate Distinct(e: seq<Entry>)
  {
    forall i, j | 0 <= i < j < |e| :: e[i].0 != e[j].0
  }

  /** An object whose values are option lists, such as `ICompilerFlags`. */
  type Obj = e: seq<Entry> | Distinct(e) witness []

  function Keys(e: seq<Entry>): seq<string>
  {
    if e == [] then [] else [e[0].0] + Keys(e[1..])
  }

  /** `obj[key]`. */
  function Lookup(e: seq<Entry>, key: string): (r: Option<seq<string>>)
    ensures r.Some? <==> key in Keys(e)
  {
    if e == [] then None
    else if e[0].0 == key then Some(e[0].1)
    else Lookup(e[1..], key)
  }

  /** `obj[key] = value`. */
  function Put(e: Obj, key: string, value: seq<string>): (r: Obj)
    ensures Lookup(r, key) == Some(value)
    ensures forall k | k != key :: Lookup(r, k) == Lookup(e, k)
    ensures Keys(r) == if key in Keys(e) then Keys(e) else Keys(e) + [key]
  {
    if e == [] then [(key, value)]
    else if e[0].0 == key then
      var r := [(key, value)] + e[1..];
      assert r[1..] == e[1..];
      r
    else
      var rest := Put(e[1..], key, value);
      var r := [e[0]] + rest;
      assert r[1..] == rest;
      assert Distinct(r) by {
        forall j | 0 < j < |r|
          ensures r[0].0 != r[j].0
        {
          KeyInKeys(rest, j - 1);
          assert e[0].0 !in Keys(e[1..]) by { DistinctHead(e); }
        }
      }
      r
  }

  lemma {:induction false} KeyInKeys(e: seq<Entry>, i: nat)
    requires i < |e|
    ensures e[i].0 in Keys(e)
  {
    if i > 0 {
      KeyInKeys(e[1..], i - 1);
    }
  }

  lemma {:induction false} DistinctHead(e: seq<Entry>)
    requires e != [] && Distinct(e)
    ensures e[0].0 !in Keys(e[1..])
  {
    if e[0].0 in Keys(e[1..]) {
      var i := KeyIndex(e[1..], e[0].0);
      assert false;
    }
  }

  lemma {:induction false} KeyIndex(e: seq<Entry>, key: string) returns (i: nat)
    requires key in Keys(e)
    ensures i < |e| && e[i].0 == key
  {
    if e[0].0 == key {
      i := 0;
    } else {
      var j := KeyIndex(e[1..], key);
      i := j + 1;
    }
  }

  /** `Object.assign(target, source)`: the source's entries put in order. */
  function AssignFrom(target: Obj, source: Obj): (r: Obj)
    decreases |source|
  {
    if source == [] then target
    else
      var init := source[..|source| - 1];
      assert Distinct(init);
      Put(AssignFrom(target, init), source[|source| - 1].0, source[|source| - 1].1)
  }

  /** The three flags the runner always sets. */
  const Fixed: Obj := [("--validate", []), ("--debug", []), ("--binaryFile", ["output.wasm"])]

  /**
   * Reference tracing: `--use ASC_RTRACE=1` is appended to the options of an existing
   * `--use` flag (the flag name itself is repeated among them), or `--use` is set to
   * `ASC_RTRACE=1`; no other flag changes.
   */
  function WithRtrace(f: Obj): (r: Obj)
    ensures Lookup(r, "--use") == Some(if Lookup(f, "--use").Some? then Lookup(f, "--use").value + ["--use", "ASC_RTRACE=1"] else ["ASC_RTRACE=1"])
    ensures forall k | k != "--use" :: Lookup(r, k) == Lookup(f, k)
  {
    match Lookup(f, "--use")
    case Some(use) => Put(f, "--use", use + ["--use", "ASC_RTRACE=1"])
    case None => Put(f, "--use", ["ASC_RTRACE=1"])
  }

  /** The parsed compiler arguments, overridden by the configuration's flags when given. */
  function UserFlags(ascOptions: Obj, configFlags: Option<Obj>): Obj
  {
    AssignFrom(ascOptions, if configFlags.Some? then configFlags.value else [])
  }

  /**
   * The final flags: the user's flags overridden by the fixed flags; then, unless
   * reference tracing is off, `--use ASC_RTRACE=1`; finally `--explicitStart`.
   */
  function FinalFlags(ascOptions: Obj, configFlags: Option<Obj>, nortrace: bool): Obj
  {
    var merged := AssignFrom(UserFlags(ascOptions, configFlags), Fixed);
    Put(if nortrace then merged else WithRtrace(merged), "--explicitStart", [])
  }

  /** `Object.entries(flags).reduce((args, [flag, options]) => args.concat(flag, options), [])`. */
  function FlagList(e: seq<Entry>): seq<string>
  {
    if e == [] then [] else FlagList(e[..|e| - 1]) + [e[|e| - 1].0] + e[|e| - 1].1
  }

  /** Reference definition: each flag followed by its options, entry by entry. */
  function Flatten(e: seq<Entry>): seq<string>
  {
    if e == [] then [] else [e[0].0] + e[0].1 + Flatten(e[1..])
  }

  // ---------------------------------------------------------------------------------
  // Counting
  // ---------------------------------------------------------------------------------

  datatype TestResult = TestResult(pass: bool)
  datatype GroupResult = GroupResult(pass: bool, tests: seq<TestResult>)
  datatype Warning = Warning(kind: string, message: string, stackTrace: string)

  /**
   * What one test module yields once compiled: the runner's errors after
   * instantiation, its groups after the run, and its errors after the run.
   */
  datatype ModuleRun = ModuleRun(instantiationErrors: seq<Warning>, groups: seq<GroupResult>, runErrors: seq<Warning>)

  /** `tests.filter(e => e.pass).length`. */
  function Passing(tests: seq<TestResult>): (r: nat)
    ensures r <= |tests|
  {
    if tests == [] then 0 else Passing(tests[..|tests| - 1]) + (if tests[|tests| - 1].pass then 1 else 0)
  }

  /** `groups.reduce((left, right) => left + right.tests.length, 0)`. */
  function TestTotal(groups: seq<GroupResult>): nat
  {
    if groups == [] then 0 else TestTotal(groups[..|groups| - 1]) + |groups[|groups| - 1].tests|
  }

  /** `groups.reduce((left, right) => left + right.tests.filter(e => e.pass).length, 0)`. */
  function PassTotal(groups: seq<GroupResult>): nat
  {
    if groups == [] then 0 else PassTotal(groups[..|groups| - 1]) + Passing(groups[|groups| - 1].tests)
  }

  /** `groups.reduce((left, right) => left + (right.pass ? 1 : 0), start)`. */
  function GroupPassFold(groups: seq<GroupResult>, start: int): int
  {
    if groups == [] then start else GroupPassFold(groups[1..], start + (if groups[0].pass then 1 else 0))
  }

  /** Reference definition: the passing groups. */
  function PassingGroups(groups: seq<GroupResult>): seq<GroupResult>
  {
    if groups == [] then []
    else (if groups[0].pass then [groups[0]] else []) + PassingGroups(groups[1..])
  }

  datatype Counts = Counts(tests: int, successes: int, groups: int, groupSuccesses: int, errors: seq<Warning>)

  /** What the callback adds for one module. */
  function Step(c: Counts, m: ModuleRun, runTests: bool): Counts
  {
    if !runTests then c
    else if |m.instantiationErrors| > 0 then c.(errors := c.errors + m.instantiationErrors)
    else Counts(c.tests + TestTotal(m.groups), c.successes + PassTotal(m.groups),
                c.groups + |m.groups|, GroupPassFold(m.groups, c.groupSuccesses),
                c.errors + m.runErrors)
  }

  /** The counters after the modules, in order. */
  function Totals(modules: seq<ModuleRun>, runTests: bool): Counts
  {
    if modules == [] then Counts(0, 0, 0, 0, [])
    else Step(Totals(modules[..|modules| - 1], runTests), modules[|modules| - 1], runTests)
  }

  /** The verdict. */
  function Failed(c: Counts): bool
  {
    c.tests != c.successes || |c.errors| > 0
  }

  /** The counters and the verdict of a run, updated by the compiler's callback. */
  class Summary {
    const runTests: bool
    var testCount: int
    var successCount: int
    var groupCount: int
    var groupSuccessCount: int
    var errors: seq<Warning>
    /** Modules still to report. */
    var count: int
    var failed: bool

    function Current(): Counts
      reads this
    {
      Counts(testCount, successCount, groupCount, groupSuccessCount, errors)
    }

    ghost predicate Valid()
      reads this
    {
      0 <= successCount <= testCount && 0 <= groupSuccessCount <= groupCount && 0 <= count
    }

    constructor (files: nat, runTests: bool)
      ensures this.runTests == runTests
      ensures Current() == Counts(0, 0, 0, 0, []) && count == files && !failed
      ensures Valid()
    {
      this.runTests := runTests;
      testCount, successCount, groupCount, groupSuccessCount := 0, 0, 0, 0;
      errors := [];
      count := files;
      failed := false;
    }

    /**
     * The compiler's callback for a module that compiled to a binary: fold in its
     * counts (or, when it failed to instantiate, only its errors), then count it off;
     * the verdict is set when the last module reports.
     */
    method ModuleDone(m: ModuleRun)
      requires Valid() && count > 0
      modifies this
      ensures Valid()
      ensures Current() == Step(old(Current()), m, runTests)
      ensures count == old(count) - 1
      ensures failed == if count == 0 && runTests then Failed(Current()) else old(failed)
    {
      if runTests {
        if |m.instantiationErrors| > 0 {
          errors := errors + m.instantiationErrors;
        } else {
          testCount := testCount + TestTotal(m.groups);
          successCount := successCount + PassTotal(m.groups);
          groupCount := groupCount + |m.groups|;
          groupSuccessCount := GroupPassFold(m.groups, groupSuccessCount);
          errors := errors + m.runErrors;
          StepBounded(old(Current()), m);
        }
      }
      count := count - 1;
      if count == 0 {
        if runTests {
          failed := testCount != successCount || |errors| > 0;
        }
      }
    }
  }

  /** `testEntryFiles.forEach(...)`, each module's callback in turn. */
  method RunModules(modules: seq<ModuleRun>, runTests: bool) returns (s: Summary)
    ensures s.Valid() && s.count == 0
    ensures s.Current() == Totals(modules, runTests)
    ensures s.failed <==> runTests && |modules| > 0 && Failed(Totals(modules, runTests))
  {
    s := new Summary(|modules|, runTests);
    for i := 0 to |modules|
      invariant s.Valid() && s.runTests == runTests
      invariant s.count == |modules| - i
      invariant s.Current() == Totals(modules[..i], runTests)
      invariant s.failed <==> runTests && i == |modules| && i > 0 && Failed(s.Current())
    {
      s.ModuleDone(modules[i]);
      assert modules[..i + 1][..i] == modules[..i];
    }
    assert modules[..|modules|] == modules;
  }

  // ---------------------------------------------------------------------------------
  // Compiler host callbacks
  // ---------------------------------------------------------------------------------

  datatype FileSystem = FileSystem(readdir: string -> Option<seq<string>>, readFile: string -> Option<string>)

  /** Node's `path.join`, `path.dirname`, `path.basename(p, ext)` and `path.extname`. */
  datatype Paths = Paths(
    join: (string, string) -> string,
    dirname: string -> string,
    basename: (string, string) -> string,
    extname: string -> string)

  predicate EndsWith(s: string, suffix: string)
  {
    |suffix| <= |s| && s[|s| - |suffix|..] == suffix
  }

  /**
   * `/^(?!.*\.d\.ts$).*\.ts$/.test(name)`: `.` matches no line terminator, so a name
   * holding one never matches.
   */
  predicate IsSource(name: string)
  {
    && (forall c <- name :: c != '\n' && c != '\r' && c != ' ' && c != ' ')
    && EndsWith(name, ".ts") && !EndsWith(name, ".d.ts")
  }

  /** The `filter` in `listFiles`. */
  function SourceFiles(names: seq<string>): (r: seq<string>)
    ensures forall n <- r :: n in names && IsSource(n)
    ensures forall n <- names :: IsSource(n) ==> n in r
  {
    if names == [] then []
    else (if IsSource(names[0]) then [names[0]] else []) + SourceFiles(names[1..])
  }

  /** What the compiler host remembers and what it queues for the disk. */
  class CompilerHost {
    const outputBinary: bool
    var folderMap: map<string, seq<string>>
    var fileMap: map<string, string>
    var binaries: map<nat, seq<bv8>>
    /** The writes queued by `writeFile`, as (file name, contents). */
    var pending: seq<(string, seq<bv8>)>

    constructor (outputBinary: bool)
      ensures this.outputBinary == outputBinary
      ensures folderMap == map[] && fileMap == map[] && binaries == map[] && pending == []
    {
      this.outputBinary := outputBinary;
      folderMap, fileMap, binaries, pending := map[], map[], map[], [];
    }

    /**
     * `listFiles(dirname, baseDir)`: a folder listed before is answered from the
     * cache; otherwise its source files are listed and remembered; an unreadable folder
     * gives no files and is not remembered.
     */
    method ListFiles(dirname: string, baseDir: string, fs: FileSystem, paths: Paths) returns (r: seq<string>)
      modifies this`folderMap
      ensures var folder := paths.join(baseDir, dirname);
        && (folder in old(folderMap) ==> r == old(folderMap)[folder] && folderMap == old(folderMap))
        && (folder !in old(folderMap) && fs.readdir(folder).None? ==> r == [] && folderMap == old(folderMap))
        && (folder !in old(folderMap) && fs.readdir(folder).Some? ==>
              r == SourceFiles(fs.readdir(folder).value) && folderMap == old(folderMap)[folder := r])
    {
      var folder := paths.join(baseDir, dirname);
      if folder in folderMap {
        return folderMap[folder];
      }
      var listing := fs.readdir(folder);
      if listing.None? {
        return [];
      }
      r := SourceFiles(listing.value);
      folderMap := folderMap[folder := r];
    }

    /** `readFile(filename, baseDir)`: memoised the same way; an unreadable file gives `null`. */
    method ReadFile(filename: string, baseDir: string, fs: FileSystem, paths: Paths) returns (r: Option<string>)
      modifies this`fileMap
      ensures var name := paths.join(baseDir, filename);
        && (name in old(fileMap) ==> r == Some(old(fileMap)[name]) && fileMap == old(fileMap))
        && (name !in old(fileMap) ==> r == fs.readFile(name))
        && (name !in old(fileMap) && r.None? ==> fileMap == old(fileMap))
        && (name !in old(fileMap) && r.Some? ==> fileMap == old(fileMap)[name := r.value])
    {
      var name := paths.join(baseDir, filename);
      if name in fileMap {
        return Some(fileMap[name]);
      }
      r := fs.readFile(name);
      if r.Some? {
        fileMap := fileMap[name := r.value];
      }
    }

    /**
     * `writeFile(name, contents)` while compiling test file `file`, the `i`-th: a
     * `.wasm` output is always kept as the module's binary and is written to disk only
     * when binaries are requested; any other output is always written, next to the test
     * file under the test file's base name.
     */
    method WriteFile(i: nat, file: string, name: string, contents: seq<bv8>, paths: Paths)
      modifies this`binaries, this`pending
      ensures var ext := paths.extname(name);
        var target := paths.join(paths.dirname(file), paths.basename(file, paths.extname(file)) + ext);
        && binaries == (if ext == ".wasm" then old(binaries)[i := contents] else old(binaries))
        && pending == (if ext == ".wasm" && !outputBinary then old(pending) else old(pending) + [(target, contents)])
    {
      var ext := paths.extname(name);
      if ext == ".wasm" {
        binaries := binaries[i := contents];
        if !outputBinary {
          return;
        }
      }
      var outfileName := paths.join(paths.dirname(file), paths.basename(file, paths.extname(file)) + ext);
      pending := pending + [(outfileName, contents)];
    }
  }

  // ---------------------------------------------------------------------------------
  // Lemmas
  // ---------------------------------------------------------------------------------

  /** `Object.assign` agrees with the reference: a source key wins, other keys keep the target's value. */
  lemma {:induction false} AssignFromLookup(target: Obj, source: Obj, key: string)
    ensures Lookup(AssignFrom(target, source), key)
         == if key in Keys(source) then Lookup(source, key) else Lookup(target, key)
    decreases |source|
  {
    if source != [] {
      var init := source[..|source| - 1];
      var last := source[|source| - 1];
      AssignFromLookup(target, init, key);
      KeysSnoc(init, last);
      LookupSnoc(source, key);
    }
  }

  lemma {:induction false} KeysSnoc(e: seq<Entry>, x: Entry)
    ensures Keys(e + [x]) == Keys(e) + [x.0]
  {
    if e != [] {
      assert (e + [x])[1..] == e[1..] + [x];
      KeysSnoc(e[1..], x);
    }
  }

  /** In an object the last entry's key is found only there. */
  lemma {:induction false} LookupSnoc(e: Obj, key: string)
    requires e != []
    ensures var init := e[..|e| - 1];
      Lookup(e, key) == if key == e[|e| - 1].0 then Some(e[|e| - 1].1) else Lookup(init, key)
  {
    var init := e[..|e| - 1];
    var last := e[|e| - 1];
    if |e| > 1 {
      assert e[1..][..|e[1..]| - 1] == init[1..];
      LookupSnoc(e[1..], key);
      if e[0].0 == key {
        assert key != last.0;
      }
    }
  }

  /**
   * The fixed flags survive whatever the command line and the configuration say, and
   * `--explicitStart` is always set with no options.
   */
  lemma FixedFlagsWin(ascOptions: Obj, configFlags: Option<Obj>, nortrace: bool)
    ensures var f := FinalFlags(ascOptions, configFlags, nortrace);
      && Lookup(f, "--validate") == Some([])
      && Lookup(f, "--debug") == Some([])
      && Lookup(f, "--binaryFile") == Some(["output.wasm"])
      && Lookup(f, "--explicitStart") == Some([])
  {
    var base := UserFlags(ascOptions, configFlags);
    FixedLookup(base, "--validate", []);
    FixedLookup(base, "--debug", []);
    FixedLookup(base, "--binaryFile", ["output.wasm"]);
  }

  lemma FixedLookup(base: Obj, key: string, value: seq<string>)
    requires (key, value) in Fixed
    ensures Lookup(AssignFrom(base, Fixed), key) == Some(value)
  {
    AssignFromLookup(base, Fixed, key);
    FixedEntries();
  }

  /** The keys of the fixed flags and their values. */
  lemma FixedEntries()
    ensures Keys(Fixed) == ["--validate", "--debug", "--binaryFile"]
    ensures Lookup(Fixed, "--validate") == Some([])
    ensures Lookup(Fixed, "--debug") == Some([])
    ensures Lookup(Fixed, "--binaryFile") == Some(["output.wasm"])
  {
    var rest: seq<Entry> := [("--debug", []), ("--binaryFile", ["output.wasm"])];
    var last: seq<Entry> := [("--binaryFile", ["output.wasm"])];
    assert Fixed[1..] == rest && rest[1..] == last && last[1..] == [];
    assert "--validate"[2] != "--debug"[2] && "--validate"[2] != "--binaryFile"[2];
    assert "--debug"[2] != "--binaryFile"[2];
  }

  /**
   * With reference tracing on, `--use` ends with `ASC_RTRACE=1`, after the options
   * (and a repeated `--use`) the user gave it; with it off, `--use` is as the user set it.
   */
  lemma RtraceFlag(ascOptions: Obj, configFlags: Option<Obj>, nortrace: bool)
    ensures var base := UserFlags(ascOptions, configFlags);
      var use := Lookup(FinalFlags(ascOptions, configFlags, nortrace), "--use");
      && (nortrace ==> use == Lookup(base, "--use"))
      && (!nortrace && Lookup(base, "--use").Some? ==> use == Some(Lookup(base, "--use").value + ["--use", "ASC_RTRACE=1"]))
      && (!nortrace && Lookup(base, "--use").None? ==> use == Some(["ASC_RTRACE=1"]))
  {
    AssignFromLookup(UserFlags(ascOptions, configFlags), Fixed, "--use");
  }

  lemma {:induction false} FlattenSnoc(e: seq<Entry>, x: Entry)
    ensures Flatten(e + [x]) == Flatten(e) + [x.0] + x.1
  {
    if e != [] {
      assert (e + [x])[1..] == e[1..] + [x];
      FlattenSnoc(e[1..], x);
    }
  }

  /** The reduce yields each flag followed by its options, in entry order. */
  lemma {:induction false} FlagListFlattens(e: seq<Entry>)
    ensures FlagList(e) == Flatten(e)
  {
    if e != [] {
      var init := e[..|e| - 1];
      FlagListFlattens(init);
      FlattenSnoc(init, e[|e| - 1]);
      assert init + [e[|e| - 1]] == e;
    }
  }

  /** At most as many tests pass as there are tests. */
  lemma {:induction false} PassTotalBounded(groups: seq<GroupResult>)
    ensures PassTotal(groups) <= TestTotal(groups)
  {
    if groups != [] {
      PassTotalBounded(groups[..|groups| - 1]);
    }
  }

  /** The group reduce adds one for each passing group. */
  lemma {:induction false} GroupPassFoldCounts(groups: seq<GroupResult>, start: int)
    ensures GroupPassFold(groups, start) == start + |PassingGroups(groups)|
    ensures |PassingGroups(groups)| <= |groups|
  {
    if groups != [] {
      GroupPassFoldCounts(groups[1..], start + (if groups[0].pass then 1 else 0));
    }
  }

  /** One module's step keeps passes within totals. */
  lemma StepBounded(c: Counts, m: ModuleRun)
    requires 0 <= c.successes <= c.tests && 0 <= c.groupSuccesses <= c.groups
    ensures var d := Step(c, m, true);
      0 <= d.successes <= d.tests && 0 <= d.groupSuccesses <= d.groups
  {
    PassTotalBounded(m.groups);
    GroupPassFoldCounts(m.groups, c.groupSuccesses);
  }

  /** Over any modules, successes never exceed tests nor passing groups the groups. */
  lemma {:induction false} TotalsBounded(modules: seq<ModuleRun>, runTests: bool)
    ensures var c := Totals(modules, runTests);
      0 <= c.successes <= c.tests && 0 <= c.groupSuccesses <= c.groups
  {
    if modules != [] {
      TotalsBounded(modules[..|modules| - 1], runTests);
      if runTests {
        StepBounded(Totals(modules[..|modules| - 1], runTests), modules[|modules| - 1]);
      }
    }
  }

  /**
   * A module that fails to instantiate makes the run fail, whatever the other modules
   * report: its errors are kept and errors are never dropped.
   */
  lemma {:induction false} InstantiationFailureFails(modules: seq<ModuleRun>, k: nat)
    requires k < |modules| && |modules[k].instantiationErrors| > 0
    ensures |Totals(modules, true).errors| > 0
    ensures Failed(Totals(modules, true))
  {
    var init := modules[..|modules| - 1];
    if k < |modules| - 1 {
      assert init[k] == modules[k];
      InstantiationFailureFails(init, k);
    }
  }

  /** A run whose every test passes and that collected no error does not fail. */
  lemma {:induction false} AllPassingSucceeds(modules: seq<ModuleRun>)
    requires forall m <- modules :: m.instantiationErrors == [] && m.runErrors == []
    requires forall m <- modules, g <- m.groups, t <- g.tests :: t.pass
    ensures !Failed(Totals(modules, true))
  {
    if modules != [] {
      var init := modules[..|modules| - 1];
      AllPassingSucceeds(init);
      AllPass(modules[|modules| - 1].groups);
    }
  }

  lemma {:induction false} AllPass(groups: seq<GroupResult>)
    requires forall g <- groups, t <- g.tests :: t.pass
    ensures PassTotal(groups) == TestTotal(groups)
  {
    if groups != [] {
      AllPass(groups[..|groups| - 1]);
      AllTestsPass(groups[|groups| - 1].tests);
    }
  }

  lemma {:induction false} AllTestsPass(tests: seq<TestResult>)
    requires forall t <- tests :: t.pass
    ensures Passing(tests) == |tests|
  {
    if tests != [] {
      AllTestsPass(tests[..|tests| - 1]);
    }
  }
}
