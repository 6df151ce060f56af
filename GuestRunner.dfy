/**
 * The guest runner (assembly/internal/test/run.ts): `__run` walks the registered groups
 * in order; for each one it asks the host whether the group may run, calls the
 * beforeAll hooks of the whole parent chain, runs every accepted test between the
 * beforeEach and afterEach hooks, then the afterAll hooks, and reports the end of the
 * group.
 *
 * Every host import the runner calls (createGroup, createTest, tryCall, testEnd,
 * groupEnd, finish) is modelled as an event appended to a trace. The host's answers
 * come from a `Host` value: the two filters are functions of the name, and whether a
 * callback succeeds may depend on everything that happened before (the trace so far),
 * which is as much as a guest can know about code it cannot see.
 *
 * Each run* function is written twice: once as a method that follows the source
 * statement by statement and once as a specification function; each method's
 * postcondition says the two agree, and the lemmas state the behaviour of the
 * specification functions.
 *
 * `runBeforeAll` bounds its loop by `beforeAll` but calls `beforeEach[i]`. It is modelled
 * as written (`RunBeforeAll`, with `BeforeAllReadsBeforeEach` and
 * `BeforeAllWithoutBeforeEachTraps` showing the effect) and as corrected
 * (`RunBeforeAllCorrected`), which `RunGroup` uses.
 */
module GuestRunner {
  import opened GuestContext

  /** One call from the guest into a host import. */
  datatype Event =
    | CreateGroup(name: string)
    | CreateTest(name: string)
    | TryCall(callback: Callback, succeeded: bool)
    | TestEnd(result: bool, pass: bool, negated: bool)
    | GroupEnd
    | Finish

  /** The host's side of the conversation. */
  datatype Host = Host(
    acceptGroup: string -> bool,
    acceptTest: string -> bool,
    succeeds: (seq<Event>, Callback) -> bool)

  /**
   * How a walk ended: `Ok` (go on), `Aborted` (a hook failed and the group was ended),
   * or `Trapped` (the guest read past the end of a list, which aborts the module).
   */
  datatype Status = Ok | Aborted | Trapped

  datatype Walk = Walk(trace: seq<Event>, status: Status)

  /** `finishGroup(context)`: report the end of the group (the context is not used). */
  function FinishGroup(trace: seq<Event>): seq<Event>
  {
    trace + [GroupEnd]
  }

  /** What `tryCall` of each callback in order records when all of them succeed. */
  function Successes(cbs: seq<Callback>): (r: seq<Event>)
    ensures |r| == |cbs|
    ensures forall k | 0 <= k < |cbs| :: r[k] == TryCall(cbs[k], true)
  {
    seq(|cbs|, k requires 0 <= k < |cbs| => TryCall(cbs[k], true))
  }

  lemma SuccessesConcat(a: seq<Callback>, b: seq<Callback>)
    ensures Successes(a + b) == Successes(a) + Successes(b)
  {
    assert forall k | 0 <= k < |a + b| :: Successes(a + b)[k] == (Successes(a) + Successes(b))[k];
  }

  // ---------------------------------------------------------------------------------
  // Specification functions
  // ---------------------------------------------------------------------------------

  /**
   * The list a phase's loop reads its callbacks from. As written, `runBeforeAll`
   * bounds its loop by `beforeAll.length` but calls `beforeEach[i]`; the corrected
   * runner reads `beforeAll`.
   */
  function LoopArray(ctx: TestContext, phase: Phase, corrected: bool): seq<Callback>
    reads ctx
  {
    if phase == BeforeAll && !corrected then ctx.beforeEach else ctx.Hooks(phase)
  }

  /**
   * The loop of one level: call `hooks[i]`, `hooks[i+1]`, … while the index is below
   * `bound`; the first failure ends the group; an index past the end of `hooks` traps.
   */
  function CallHooks(hooks: seq<Callback>, bound: nat, i: nat, host: Host, trace: seq<Event>): Walk
    decreases bound - i
  {
    if i >= bound then Walk(trace, Ok)
    else if i >= |hooks| then Walk(trace, Trapped)
    else
      var ok := host.succeeds(trace, hooks[i]);
      var t := trace + [TryCall(hooks[i], ok)];
      if ok then CallHooks(hooks, bound, i + 1, host, t)
      else Walk(FinishGroup(t), Aborted)
  }

  /** A run* function: the parent's walk first, then this level's loop. */
  function PhaseWalk(ctx: TestContext, phase: Phase, corrected: bool, host: Host, trace: seq<Event>): Walk
    requires ctx.Linked()
    reads ctx.Lineage()
    decreases ctx.depth
  {
    var up := if ctx.parent == null then Walk(trace, Ok)
              else PhaseWalk(ctx.parent, phase, corrected, host, trace);
    if up.status != Ok then up
    else CallHooks(LoopArray(ctx, phase, corrected), |ctx.Hooks(phase)|, 0, host, up.trace)
  }

  /** The callbacks a phase walk calls when every one succeeds, outermost group first. */
  ghost function Invoked(ctx: TestContext, phase: Phase, corrected: bool): seq<Callback>
    requires ctx.Linked()
    reads ctx.Lineage()
    decreases ctx.depth
  {
    var arr := LoopArray(ctx, phase, corrected);
    var n := |ctx.Hooks(phase)|;
    (if ctx.parent == null then [] else Invoked(ctx.parent, phase, corrected))
      + arr[..if n <= |arr| then n else |arr|]
  }

  /** No level of the walk indexes past the end of the list it reads. */
  ghost predicate InRange(ctx: TestContext, phase: Phase, corrected: bool)
    requires ctx.Linked()
    reads ctx.Lineage()
    decreases ctx.depth
  {
    (ctx.parent == null || InRange(ctx.parent, phase, corrected))
    && |ctx.Hooks(phase)| <= |LoopArray(ctx, phase, corrected)|
  }

  /**
   * Reference definition: the hook lists of a phase along the parent chain, outermost
   * group first, concatenated.
   */
  ghost function HookChain(ctx: TestContext, phase: Phase): seq<Callback>
    requires ctx.Linked()
    reads ctx.Lineage()
    decreases ctx.depth
  {
    (if ctx.parent == null then [] else HookChain(ctx.parent, phase)) + ctx.Hooks(phase)
  }

  /** `runTest(context, i)`: call the test, then report its result, pass flag and negation. */
  function TestStep(g: TestContext, i: nat, host: Host, trace: seq<Event>): seq<Event>
    requires g.Valid() && i < |g.tests|
    reads g
  {
    var result := host.succeeds(trace, g.tests[i]);
    var negated := g.negated[i];
    trace + [TryCall(g.tests[i], result), TestEnd(result, result != negated, negated)]
  }

  /** `runGroup(group)`, its beforeAll walk reading `beforeAll` (see `RunBeforeAllCorrected`). */
  function GroupRun(g: TestContext, host: Host, trace: seq<Event>): Walk
    requires g.Linked() && g.Valid()
    reads g, g.Lineage()
  {
    var t := trace + [CreateGroup(g.name)];
    if !host.acceptGroup(g.name) then Walk(t, Ok)
    else
      var b := PhaseWalk(g, BeforeAll, true, host, t);
      if b.status != Ok then b else TestsFrom(g, 0, host, b.trace)
  }

  /**
   * One turn of the test loop of `runGroup`: report the test, and when the filter
   * accepts it run the beforeEach hooks, the test and the afterEach hooks. `Ok` means
   * the loop goes on from the returned trace.
   */
  function TestTurn(g: TestContext, i: nat, host: Host, trace: seq<Event>): Walk
    requires g.Linked() && g.Valid() && i < |g.tests|
    reads g, g.Lineage()
  {
    var t := trace + [CreateTest(g.testNames[i])];
    if !host.acceptTest(g.testNames[i]) then Walk(t, Ok)
    else
      var be := PhaseWalk(g, BeforeEach, false, host, t);
      if be.status != Ok then be
      else PhaseWalk(g, AfterEach, false, host, TestStep(g, i, host, be.trace))
  }

  /** The test loop of `runGroup` from test `i` on, then afterAll and the group's end. */
  function TestsFrom(g: TestContext, i: nat, host: Host, trace: seq<Event>): Walk
    requires g.Linked() && g.Valid()
    reads g, g.Lineage()
    decreases |g.tests| - i
  {
    if i >= |g.tests| then
      var a := PhaseWalk(g, AfterAll, false, host, trace);
      if a.status != Ok then a else Walk(FinishGroup(a.trace), Ok)
    else
      var w := TestTurn(g, i, host, trace);
      if w.status != Ok then w else TestsFrom(g, i + 1, host, w.trace)
  }

  /** Every group is a well-formed context. */
  ghost predicate Ready(groups: seq<TestContext>)
    reads groups
  {
    forall g <- groups :: g.Linked() && g.Valid()
  }

  /** All contexts the runner may read: the groups and their ancestors. */
  ghost function Reach(groups: seq<TestContext>): (r: set<TestContext>)
    requires forall g <- groups :: g.Linked()
    ensures forall g <- groups :: g.Lineage() <= r
  {
    if groups == [] then {} else groups[0].Lineage() + Reach(groups[1..])
  }

  /** The loop of `__run` from group `i` on: whatever became of a group, the next one runs. */
  ghost function RunFrom(groups: seq<TestContext>, i: nat, host: Host, trace: seq<Event>): seq<Event>
    requires Ready(groups)
    reads groups, Reach(groups)
    decreases |groups| - i
  {
    if i >= |groups| then trace
    else RunFrom(groups, i + 1, host, GroupRun(groups[i], host, trace).trace)
  }

  // ---------------------------------------------------------------------------------
  // Measures of a trace
  // ---------------------------------------------------------------------------------

  /** The names of the groups created, in order. */
  function GroupNames(e: seq<Event>): seq<string>
  {
    if e == [] then []
    else GroupNames(e[..|e| - 1]) + (if e[|e| - 1].CreateGroup? then [e[|e| - 1].name] else [])
  }

  function GroupEnds(e: seq<Event>): nat
  {
    if e == [] then 0 else GroupEnds(e[..|e| - 1]) + (if e[|e| - 1].GroupEnd? then 1 else 0)
  }

  function TestEnds(e: seq<Event>): nat
  {
    if e == [] then 0 else TestEnds(e[..|e| - 1]) + (if e[|e| - 1].TestEnd? then 1 else 0)
  }

  function Finishes(e: seq<Event>): nat
  {
    if e == [] then 0 else Finishes(e[..|e| - 1]) + (if e[|e| - 1].Finish? then 1 else 0)
  }

  /**
   * Every `testEnd` directly follows the `tryCall` of its test, reports that call's
   * result, and its pass flag is the result XOR the negation flag.
   */
  ghost predicate Consistent(e: seq<Event>)
  {
    forall k | 0 <= k < |e| && e[k].TestEnd? ::
      0 < k && e[k - 1].TryCall? && e[k - 1].succeeded == e[k].result
      && e[k].pass == (e[k].result != e[k].negated)
  }

  function Names(groups: seq<TestContext>): seq<string>
  {
    if groups == [] then [] else [groups[0].name] + Names(groups[1..])
  }

  /** How many of the groups the host's group filter accepts. */
  function Accepted(groups: seq<TestContext>, host: Host): nat
  {
    if groups == [] then 0
    else (if host.acceptGroup(groups[0].name) then 1 else 0) + Accepted(groups[1..], host)
  }

  /** How many of the names the host's test filter accepts. */
  function AcceptedTests(names: seq<string>, host: Host): nat
  {
    if names == [] then 0
    else (if host.acceptTest(names[0]) then 1 else 0) + AcceptedTests(names[1..], host)
  }

  // ---------------------------------------------------------------------------------
  // The runner as written
  // ---------------------------------------------------------------------------------

  /** `runTest(context, testIndex)`. */
  method RunTest(context: TestContext, testIndex: nat, host: Host, trace: seq<Event>) returns (t: seq<Event>)
    requires context.Valid() && testIndex < |context.tests|
    ensures t == TestStep(context, testIndex, host, trace)
    ensures TestEnds(t) == TestEnds(trace) + 1
    ensures Consistent(trace) ==> Consistent(t)
  {
    var callback := context.tests[testIndex];
    var negated := context.negated[testIndex];
    var result := host.succeeds(trace, callback);
    var pass := result != negated;
    t := trace + [TryCall(callback, result), TestEnd(result, pass, negated)];
    TestStepEffects(context, testIndex, host, trace);
  }

  /** `runBeforeAll(context)` as written, calling `beforeEach[i]`. */
  method RunBeforeAll(context: TestContext, host: Host, trace: seq<Event>) returns (w: Walk)
    requires context.Linked()
    ensures w == PhaseWalk(context, BeforeAll, false, host, trace)
    decreases context.depth
  {
    var t := trace;
    if context.parent != null {
      var result := RunBeforeAll(context.parent, host, t);
      if result.status != Ok {
        return result;
      }
      t := result.trace;
    }
    ghost var t0 := t;
    var i := 0;
    while i < |context.beforeAll|
      invariant 0 <= i <= |context.beforeAll| && i <= |context.beforeEach|
      invariant CallHooks(context.beforeEach, |context.beforeAll|, i, host, t)
             == CallHooks(context.beforeEach, |context.beforeAll|, 0, host, t0)
    {
      if i >= |context.beforeEach| {
        // beforeEach[i] is past the end: the guest traps
        return Walk(t, Trapped);
      }
      var ok := host.succeeds(t, context.beforeEach[i]);
      if !ok {
        t := FinishGroup(t + [TryCall(context.beforeEach[i], false)]);
        return Walk(t, Aborted);
      }
      t := t + [TryCall(context.beforeEach[i], true)];
      i := i + 1;
    }
    return Walk(t, Ok);
  }

  /** `runBeforeEach(context)`. */
  method RunBeforeEach(context: TestContext, host: Host, trace: seq<Event>) returns (w: Walk)
    requires context.Linked()
    ensures w == PhaseWalk(context, BeforeEach, false, host, trace)
    decreases context.depth
  {
    var t := trace;
    if context.parent != null {
      var result := RunBeforeEach(context.parent, host, t);
      if result.status != Ok {
        return result;
      }
      t := result.trace;
    }
    ghost var t0 := t;
    var i := 0;
    while i < |context.beforeEach|
      invariant 0 <= i <= |context.beforeEach|
      invariant CallHooks(context.beforeEach, |context.beforeEach|, i, host, t)
             == CallHooks(context.beforeEach, |context.beforeEach|, 0, host, t0)
    {
      var ok := host.succeeds(t, context.beforeEach[i]);
      if !ok {
        t := FinishGroup(t + [TryCall(context.beforeEach[i], false)]);
        return Walk(t, Aborted);
      }
      t := t + [TryCall(context.beforeEach[i], true)];
      i := i + 1;
    }
    return Walk(t, Ok);
  }

  /** `runAfterAll(context)`. */
  method RunAfterAll(context: TestContext, host: Host, trace: seq<Event>) returns (w: Walk)
    requires context.Linked()
    ensures w == PhaseWalk(context, AfterAll, false, host, trace)
    decreases context.depth
  {
    var t := trace;
    if context.parent != null {
      var result := RunAfterAll(context.parent, host, t);
      if result.status != Ok {
        return result;
      }
      t := result.trace;
    }
    ghost var t0 := t;
    var i := 0;
    while i < |context.afterAll|
      invariant 0 <= i <= |context.afterAll|
      invariant CallHooks(context.afterAll, |context.afterAll|, i, host, t)
             == CallHooks(context.afterAll, |context.afterAll|, 0, host, t0)
    {
      var ok := host.succeeds(t, context.afterAll[i]);
      if !ok {
        t := FinishGroup(t + [TryCall(context.afterAll[i], false)]);
        return Walk(t, Aborted);
      }
      t := t + [TryCall(context.afterAll[i], true)];
      i := i + 1;
    }
    return Walk(t, Ok);
  }

  /** `runAfterEach(context)`. */
  method RunAfterEach(context: TestContext, host: Host, trace: seq<Event>) returns (w: Walk)
    requires context.Linked()
    ensures w == PhaseWalk(context, AfterEach, false, host, trace)
    decreases context.depth
  {
    var t := trace;
    if context.parent != null {
      var result := RunAfterEach(context.parent, host, t);
      if result.status != Ok {
        return result;
      }
      t := result.trace;
    }
    ghost var t0 := t;
    var i := 0;
    while i < |context.afterEach|
      invariant 0 <= i <= |context.afterEach|
      invariant CallHooks(context.afterEach, |context.afterEach|, i, host, t)
             == CallHooks(context.afterEach, |context.afterEach|, 0, host, t0)
    {
      var ok := host.succeeds(t, context.afterEach[i]);
      if !ok {
        t := FinishGroup(t + [TryCall(context.afterEach[i], false)]);
        return Walk(t, Aborted);
      }
      t := t + [TryCall(context.afterEach[i], true)];
      i := i + 1;
    }
    return Walk(t, Ok);
  }

  /**
   * The corrected `runBeforeAll`, which calls `beforeAll[i]`; with it every phase calls
   * exactly the hook chain of the group (`PhaseInvokesHookChain`).
   */
  method RunBeforeAllCorrected(context: TestContext, host: Host, trace: seq<Event>) returns (w: Walk)
    requires context.Linked()
    ensures w == PhaseWalk(context, BeforeAll, true, host, trace)
    ensures w.status != Trapped
    decreases context.depth
  {
    var t := trace;
    if context.parent != null {
      var result := RunBeforeAllCorrected(context.parent, host, t);
      if result.status != Ok {
        return result;
      }
      t := result.trace;
    }
    ghost var t0 := t;
    var i := 0;
    while i < |context.beforeAll|
      invariant 0 <= i <= |context.beforeAll|
      invariant CallHooks(context.beforeAll, |context.beforeAll|, i, host, t)
             == CallHooks(context.beforeAll, |context.beforeAll|, 0, host, t0)
    {
      var ok := host.succeeds(t, context.beforeAll[i]);
      if !ok {
        t := FinishGroup(t + [TryCall(context.beforeAll[i], false)]);
        return Walk(t, Aborted);
      }
      t := t + [TryCall(context.beforeAll[i], true)];
      i := i + 1;
    }
    w := Walk(t, Ok);
    PhaseWalkEffects(context, BeforeAll, true, host, trace);
  }

  /** `runGroup(group)`. */
  method RunGroup(group: TestContext, host: Host, trace: seq<Event>) returns (w: Walk)
    requires group.Linked() && group.Valid()
    ensures w == GroupRun(group, host, trace)
  {
    LineageAllocated(group);
    var t := trace + [CreateGroup(group.name)];
    var canRun := host.acceptGroup(group.name);
    if !canRun {
      return Walk(t, Ok);
    }
    w := RunBeforeAllCorrected(group, host, t);
    if w.status != Ok {
      return;
    }
    w := RunTests(group, host, w.trace);
  }

  /** The test loop of `runGroup`, then its afterAll hooks and the group's end. */
  method RunTests(group: TestContext, host: Host, trace: seq<Event>) returns (w: Walk)
    requires group.Linked() && group.Valid()
    ensures w == TestsFrom(group, 0, host, trace)
  {
    var t := trace;
    LineageAllocated(group);
    for i := 0 to |group.tests|
      invariant TestsFrom(group, i, host, t) == TestsFrom(group, 0, host, trace)
    {
      w := RunTestTurn(group, i, host, t);
      if w.status != Ok {
        return;
      }
      t := w.trace;
    }
    w := RunAfterAll(group, host, t);
    if w.status != Ok {
      return;
    }
    w := Walk(FinishGroup(w.trace), Ok);
  }

  /** The body of the test loop; a test the filter rejects is skipped with `continue`. */
  method RunTestTurn(group: TestContext, i: nat, host: Host, trace: seq<Event>) returns (w: Walk)
    requires group.Linked() && group.Valid() && i < |group.tests|
    ensures w == TestTurn(group, i, host, trace)
  {
    LineageAllocated(group);
    var t := trace + [CreateTest(group.testNames[i])];
    var canRun := host.acceptTest(group.testNames[i]);
    if !canRun {
      return Walk(t, Ok);
    }
    w := RunBeforeEach(group, host, t);
    if w.status != Ok {
      return;
    }
    t := RunTest(group, i, host, w.trace);
    w := RunAfterEach(group, host, t);
  }

  /**
   * `__run()`: every group in registration order, then `finish`. Every group is
   * reported by name, each accepted group ends exactly once, and the run finishes once.
   */
  method Run(groups: seq<TestContext>, host: Host) returns (trace: seq<Event>)
    requires Ready(groups)
    ensures trace == RunFrom(groups, 0, host, []) + [Finish]
    ensures Consistent(trace)
    ensures GroupNames(trace) == Names(groups) && GroupEnds(trace) == Accepted(groups, host)
    ensures Finishes(trace) == 1 && trace[|trace| - 1] == Finish
  {
    ReachAllocated(groups);
    trace := [];
    for i := 0 to |groups|
      invariant RunFrom(groups, i, host, trace) == RunFrom(groups, 0, host, [])
    {
      var w := RunGroup(groups[i], host, trace);
      assert RunFrom(groups, i, host, trace) == RunFrom(groups, i + 1, host, w.trace);
      trace := w.trace;
    }
    trace := trace + [Finish];
    RunReport(groups, host);
  }

  // ---------------------------------------------------------------------------------
  // Lemmas
  // ---------------------------------------------------------------------------------

  /**
   * Every ancestor of an allocated context is allocated, so a call that changes no
   * allocated object leaves every function of the chain as it was.
   */
  lemma {:induction false} LineageAllocated(c: TestContext)
    requires c.Linked()
    ensures forall d <- c.Lineage() :: allocated(d)
    decreases c.depth
  {
    if c.parent != null {
      LineageAllocated(c.parent);
    }
  }

  lemma {:induction false} ReachAllocated(groups: seq<TestContext>)
    requires forall g <- groups :: g.Linked()
    ensures forall c <- Reach(groups) :: allocated(c)
  {
    if groups != [] {
      LineageAllocated(groups[0]);
      ReachAllocated(groups[1..]);
    }
  }

  /** Appending one event changes each measure by that event alone. */
  lemma Snoc(t: seq<Event>, x: Event)
    ensures GroupNames(t + [x]) == GroupNames(t) + (if x.CreateGroup? then [x.name] else [])
    ensures GroupEnds(t + [x]) == GroupEnds(t) + (if x.GroupEnd? then 1 else 0)
    ensures TestEnds(t + [x]) == TestEnds(t) + (if x.TestEnd? then 1 else 0)
    ensures Finishes(t + [x]) == Finishes(t) + (if x.Finish? then 1 else 0)
    ensures Consistent(t) && !x.TestEnd? ==> Consistent(t + [x])
  {
    assert (t + [x])[..|t|] == t;
  }

  lemma TestStepEffects(g: TestContext, i: nat, host: Host, t: seq<Event>)
    requires g.Valid() && i < |g.tests|
    ensures var t' := TestStep(g, i, host, t);
      && GroupNames(t') == GroupNames(t) && GroupEnds(t') == GroupEnds(t)
      && TestEnds(t') == TestEnds(t) + 1 && Finishes(t') == Finishes(t)
      && (Consistent(t) ==> Consistent(t'))
  {
    var result := host.succeeds(t, g.tests[i]);
    var negated := g.negated[i];
    var t1 := t + [TryCall(g.tests[i], result)];
    Snoc(t, TryCall(g.tests[i], result));
    Snoc(t1, TestEnd(result, result != negated, negated));
    assert TestStep(g, i, host, t) == t1 + [TestEnd(result, result != negated, negated)];
  }

  /**
   * One level's loop calls `hooks[i..]` in order up to the bound: all of them when all
   * succeed; a prefix, the failing hook and the group's end when one fails; and it
   * traps exactly when the bound exceeds the list.
   */
  lemma {:induction false} CallHooksShape(hooks: seq<Callback>, bound: nat, i: nat, host: Host, t: seq<Event>)
    requires i <= bound && i <= |hooks|
    ensures var w := CallHooks(hooks, bound, i, host, t);
      var n := if bound <= |hooks| then bound else |hooks|;
      && (w.status == Ok ==> bound <= |hooks| && w.trace == t + Successes(hooks[i..bound]))
      && (w.status == Aborted ==>
            exists j :: i <= j < n && w.trace == t + Successes(hooks[i..j]) + [TryCall(hooks[j], false), GroupEnd])
      && (w.status == Trapped ==> |hooks| < bound && w.trace == t + Successes(hooks[i..]))
    decreases bound - i
  {
    if i >= bound {
    } else if i >= |hooks| {
    } else {
      var ok := host.succeeds(t, hooks[i]);
      var t1 := t + [TryCall(hooks[i], ok)];
      if ok {
        CallHooksShape(hooks, bound, i + 1, host, t1);
        var w := CallHooks(hooks, bound, i + 1, host, t1);
        var n := if bound <= |hooks| then bound else |hooks|;
        if w.status == Ok {
          SuccessesStep(hooks, i, bound, t);
        } else if w.status == Aborted {
          var j :| i + 1 <= j < n && w.trace == t1 + Successes(hooks[i + 1..j]) + [TryCall(hooks[j], false), GroupEnd];
          SuccessesStep(hooks, i, j, t);
        } else {
          SuccessesStep(hooks, i, |hooks|, t);
          assert hooks[i + 1..] == hooks[i + 1..|hooks|];
          assert hooks[i..] == hooks[i..|hooks|];
        }
      } else {
        assert hooks[i..i] == [];
      }
    }
  }

  lemma SuccessesStep(hooks: seq<Callback>, i: nat, j: nat, t: seq<Event>)
    requires i < j <= |hooks|
    ensures t + [TryCall(hooks[i], true)] + Successes(hooks[i + 1..j]) == t + Successes(hooks[i..j])
  {
    assert hooks[i..j] == [hooks[i]] + hooks[i + 1..j];
    SuccessesConcat([hooks[i]], hooks[i + 1..j]);
  }

  /**
   * `w`, which started from trace `t`, called `inv` in order: all of it when it went on
   * (and then no list was indexed past its end); a prefix, the failing callback and one
   * group end when a callback failed; a prefix and nothing more when it trapped.
   */
  ghost predicate Shaped(w: Walk, t: seq<Event>, inv: seq<Callback>, inRange: bool)
  {
    && (w.status == Ok ==> inRange && w.trace == t + Successes(inv))
    && (w.status == Aborted ==>
          exists j :: 0 <= j < |inv| && w.trace == t + Successes(inv[..j]) + [TryCall(inv[j], false), GroupEnd])
    && (w.status == Trapped ==>
          !inRange && exists j :: 0 <= j <= |inv| && w.trace == t + Successes(inv[..j]))
  }

  lemma CallHooksShaped(hooks: seq<Callback>, bound: nat, host: Host, t: seq<Event>)
    ensures Shaped(CallHooks(hooks, bound, 0, host, t), t,
                   hooks[..if bound <= |hooks| then bound else |hooks|], bound <= |hooks|)
  {
    CallHooksShape(hooks, bound, 0, host, t);
    var w := CallHooks(hooks, bound, 0, host, t);
    var m := if bound <= |hooks| then bound else |hooks|;
    var inv := hooks[..m];
    if w.status == Ok {
      assert hooks[0..bound] == inv;
    } else if w.status == Aborted {
      var j :| 0 <= j < m && w.trace == t + Successes(hooks[0..j]) + [TryCall(hooks[j], false), GroupEnd];
      assert inv[..j] == hooks[0..j] && inv[j] == hooks[j];
    } else {
      assert inv[..|inv|] == hooks[0..];
    }
  }

  /** A walk of the parent chain followed by one more level calls the two lists in turn. */
  lemma ShapedThen(up: Walk, t: seq<Event>, p: seq<Callback>, upRange: bool,
                   w: Walk, own: seq<Callback>, ownRange: bool)
    requires Shaped(up, t, p, upRange)
    requires up.status != Ok ==> w == up
    requires up.status == Ok ==> Shaped(w, up.trace, own, ownRange)
    ensures Shaped(w, t, p + own, upRange && ownRange)
  {
    if up.status != Ok {
      StoppedEarly(up, t, p, upRange, own, ownRange);
    } else if w.status == Ok {
      SuccessesConcat(p, own);
    } else {
      StoppedLate(t, p, w, up.trace, own, ownRange);
    }
  }

  lemma StoppedEarly(up: Walk, t: seq<Event>, p: seq<Callback>, upRange: bool, own: seq<Callback>, ownRange: bool)
    requires Shaped(up, t, p, upRange) && up.status != Ok
    ensures Shaped(up, t, p + own, upRange && ownRange)
  {
    var inv := p + own;
    if up.status == Aborted {
      var j :| 0 <= j < |p| && up.trace == t + Successes(p[..j]) + [TryCall(p[j], false), GroupEnd];
      assert inv[..j] == p[..j] && inv[j] == p[j];
    } else {
      var j :| 0 <= j <= |p| && up.trace == t + Successes(p[..j]);
      assert inv[..j] == p[..j];
    }
  }

  lemma StoppedLate(t: seq<Event>, p: seq<Callback>, w: Walk, mid: seq<Event>, own: seq<Callback>, ownRange: bool)
    requires mid == t + Successes(p)
    requires Shaped(w, mid, own, ownRange) && w.status != Ok
    ensures Shaped(w, t, p + own, ownRange)
  {
    if w.status == Aborted {
      var j :| 0 <= j < |own| && w.trace == mid + Successes(own[..j]) + [TryCall(own[j], false), GroupEnd];
      CalledPrefix(t, p, own, j);
      assert (p + own)[|p| + j] == own[j];
      assert w.trace == t + Successes((p + own)[..|p| + j]) + [TryCall((p + own)[|p| + j], false), GroupEnd];
    } else {
      var j :| 0 <= j <= |own| && w.trace == mid + Successes(own[..j]);
      CalledPrefix(t, p, own, j);
    }
  }

  /** Calling all of `p` and then a prefix of `own` calls a prefix of `p + own`. */
  lemma CalledPrefix(t: seq<Event>, p: seq<Callback>, own: seq<Callback>, j: nat)
    requires j <= |own|
    ensures t + Successes(p) + Successes(own[..j]) == t + Successes((p + own)[..|p| + j])
  {
    assert (p + own)[..|p| + j] == p + own[..j];
    SuccessesConcat(p, own[..j]);
  }

  /** A phase walk calls `Invoked` in order, in the sense of `Shaped`. */
  lemma {:induction false} PhaseWalkShape(ctx: TestContext, phase: Phase, corrected: bool, host: Host, t: seq<Event>)
    requires ctx.Linked()
    ensures Shaped(PhaseWalk(ctx, phase, corrected, host, t), t,
                   Invoked(ctx, phase, corrected), InRange(ctx, phase, corrected))
    decreases ctx.depth
  {
    var arr := LoopArray(ctx, phase, corrected);
    var n := |ctx.Hooks(phase)|;
    var up, p, upRange;
    if ctx.parent == null {
      up, p, upRange := Walk(t, Ok), [], true;
      assert t + Successes([]) == t;
    } else {
      up := PhaseWalk(ctx.parent, phase, corrected, host, t);
      p := Invoked(ctx.parent, phase, corrected);
      upRange := InRange(ctx.parent, phase, corrected);
      PhaseWalkShape(ctx.parent, phase, corrected, host, t);
    }
    if up.status == Ok {
      CallHooksShaped(arr, n, host, up.trace);
    }
    ShapedThen(up, t, p, upRange, PhaseWalk(ctx, phase, corrected, host, t),
               arr[..if n <= |arr| then n else |arr|], n <= |arr|);
  }

  /**
   * beforeEach, afterEach, afterAll and the corrected beforeAll call exactly the hook
   * lists of the parent chain, outermost group first.
   */
  lemma {:induction false} PhaseInvokesHookChain(ctx: TestContext, phase: Phase, corrected: bool)
    requires ctx.Linked()
    requires corrected || phase != BeforeAll
    ensures InRange(ctx, phase, corrected)
    ensures Invoked(ctx, phase, corrected) == HookChain(ctx, phase)
    decreases ctx.depth
  {
    if ctx.parent != null {
      PhaseInvokesHookChain(ctx.parent, phase, corrected);
    }
    var arr := LoopArray(ctx, phase, corrected);
    assert arr[..|arr|] == arr;
  }

  /** One level's loop appends only `tryCall` events and at most one group end. */
  lemma {:induction false} CallHooksEffects(hooks: seq<Callback>, bound: nat, i: nat, host: Host, t: seq<Event>)
    ensures var w := CallHooks(hooks, bound, i, host, t);
      && GroupNames(w.trace) == GroupNames(t) && TestEnds(w.trace) == TestEnds(t)
      && Finishes(w.trace) == Finishes(t)
      && GroupEnds(w.trace) == GroupEnds(t) + (if w.status == Aborted then 1 else 0)
      && (Consistent(t) ==> Consistent(w.trace))
      && (bound <= |hooks| ==> w.status != Trapped)
    decreases bound - i
  {
    if i < bound && i < |hooks| {
      var ok := host.succeeds(t, hooks[i]);
      var t1 := t + [TryCall(hooks[i], ok)];
      Snoc(t, TryCall(hooks[i], ok));
      if ok {
        CallHooksEffects(hooks, bound, i + 1, host, t1);
      } else {
        Snoc(t1, GroupEnd);
      }
    }
  }

  /**
   * A phase walk appends only `tryCall` events and one group end exactly when it
   * aborts; walks that read the list they are bounded by never trap.
   */
  lemma {:induction false} PhaseWalkEffects(ctx: TestContext, phase: Phase, corrected: bool, host: Host, t: seq<Event>)
    requires ctx.Linked()
    ensures var w := PhaseWalk(ctx, phase, corrected, host, t);
      && GroupNames(w.trace) == GroupNames(t) && TestEnds(w.trace) == TestEnds(t)
      && Finishes(w.trace) == Finishes(t)
      && GroupEnds(w.trace) == GroupEnds(t) + (if w.status == Aborted then 1 else 0)
      && (Consistent(t) ==> Consistent(w.trace))
      && ((corrected || phase != BeforeAll) ==> w.status != Trapped)
    decreases ctx.depth
  {
    var up := if ctx.parent == null then Walk(t, Ok) else PhaseWalk(ctx.parent, phase, corrected, host, t);
    if ctx.parent != null {
      PhaseWalkEffects(ctx.parent, phase, corrected, host, t);
    }
    if up.status == Ok {
      CallHooksEffects(LoopArray(ctx, phase, corrected), |ctx.Hooks(phase)|, 0, host, up.trace);
    }
  }

  /** A phase whose hook chain is empty calls nothing and goes on. */
  lemma {:induction false} EmptyChainWalk(ctx: TestContext, phase: Phase, host: Host, t: seq<Event>)
    requires ctx.Linked() && phase != BeforeAll
    requires HookChain(ctx, phase) == []
    ensures PhaseWalk(ctx, phase, false, host, t) == Walk(t, Ok)
    decreases ctx.depth
  {
    if ctx.parent != null {
      EmptyChainWalk(ctx.parent, phase, host, t);
    }
  }

  /**
   * The test loop never traps, reports no group and ends the group exactly once,
   * whether it completes or a hook aborts it.
   */
  lemma {:induction false} TestsFromEffects(g: TestContext, i: nat, host: Host, t: seq<Event>)
    requires g.Linked() && g.Valid()
    ensures var w := TestsFrom(g, i, host, t);
      && w.status != Trapped
      && GroupNames(w.trace) == GroupNames(t) && Finishes(w.trace) == Finishes(t)
      && GroupEnds(w.trace) == GroupEnds(t) + 1
      && (Consistent(t) ==> Consistent(w.trace))
    decreases |g.tests| - i
  {
    if i >= |g.tests| {
      PhaseWalkEffects(g, AfterAll, false, host, t);
      var a := PhaseWalk(g, AfterAll, false, host, t);
      if a.status == Ok {
        Snoc(a.trace, GroupEnd);
      }
    } else {
      TestTurnEffects(g, i, host, t);
      var w := TestTurn(g, i, host, t);
      if w.status == Ok {
        TestsFromEffects(g, i + 1, host, w.trace);
      }
    }
  }

  /** One turn of the test loop ends the group only when a hook fails, and never traps. */
  lemma TestTurnEffects(g: TestContext, i: nat, host: Host, t: seq<Event>)
    requires g.Linked() && g.Valid() && i < |g.tests|
    ensures var w := TestTurn(g, i, host, t);
      && w.status != Trapped
      && GroupNames(w.trace) == GroupNames(t) && Finishes(w.trace) == Finishes(t)
      && GroupEnds(w.trace) == GroupEnds(t) + (if w.status == Aborted then 1 else 0)
      && (Consistent(t) ==> Consistent(w.trace))
  {
    var t1 := t + [CreateTest(g.testNames[i])];
    Snoc(t, CreateTest(g.testNames[i]));
    if host.acceptTest(g.testNames[i]) {
      PhaseWalkEffects(g, BeforeEach, false, host, t1);
      var be := PhaseWalk(g, BeforeEach, false, host, t1);
      if be.status == Ok {
        TestStepEffects(g, i, host, be.trace);
        PhaseWalkEffects(g, AfterEach, false, host, TestStep(g, i, host, be.trace));
      }
    }
  }

  /** The trace ends with a failed call of one of `hooks`, then the group's end. */
  ghost predicate EndsWithFailedHook(trace: seq<Event>, hooks: seq<Callback>)
  {
    && |trace| >= 2 && trace[|trace| - 1] == GroupEnd
    && trace[|trace| - 2].TryCall? && !trace[|trace| - 2].succeeded
    && trace[|trace| - 2].callback in hooks
  }

  /** An aborted walk ends with the failed call of one of the callbacks it invokes. */
  lemma AbortedByHook(w: Walk, t: seq<Event>, inv: seq<Callback>, inRange: bool)
    requires Shaped(w, t, inv, inRange) && w.status == Aborted
    ensures EndsWithFailedHook(w.trace, inv)
  {
    var j :| 0 <= j < |inv| && w.trace == t + Successes(inv[..j]) + [TryCall(inv[j], false), GroupEnd];
  }

  /** A walk of `phase` stopped only because one of its hooks failed. */
  lemma WalkStoppedByHook(ctx: TestContext, phase: Phase, host: Host, t: seq<Event>)
    requires ctx.Linked() && phase != BeforeAll
    ensures var w := PhaseWalk(ctx, phase, false, host, t);
      w.status != Ok ==> w.status == Aborted && EndsWithFailedHook(w.trace, HookChain(ctx, phase))
  {
    PhaseWalkEffects(ctx, phase, false, host, t);
    PhaseWalkShape(ctx, phase, false, host, t);
    PhaseInvokesHookChain(ctx, phase, false);
    var w := PhaseWalk(ctx, phase, false, host, t);
    if w.status == Aborted {
      AbortedByHook(w, t, HookChain(ctx, phase), InRange(ctx, phase, false));
    }
  }

  /**
   * One turn of the test loop stops the loop only when a beforeEach or afterEach hook
   * fails, never because the test fails; a test the filter rejects only reports its
   * name.
   */
  lemma TestTurnOutcome(g: TestContext, i: nat, host: Host, t: seq<Event>)
    requires g.Linked() && g.Valid() && i < |g.tests|
    ensures var w := TestTurn(g, i, host, t);
      && (!host.acceptTest(g.testNames[i]) ==> w == Walk(t + [CreateTest(g.testNames[i])], Ok))
      && (w.status != Ok ==>
            w.status == Aborted && EndsWithFailedHook(w.trace, HookChain(g, BeforeEach) + HookChain(g, AfterEach)))
  {
    var t1 := t + [CreateTest(g.testNames[i])];
    if host.acceptTest(g.testNames[i]) {
      WalkStoppedByHook(g, BeforeEach, host, t1);
      var be := PhaseWalk(g, BeforeEach, false, host, t1);
      if be.status == Ok {
        WalkStoppedByHook(g, AfterEach, host, TestStep(g, i, host, be.trace));
      }
    }
  }

  /**
   * The test loop stops early only when a beforeEach, afterEach or afterAll hook fails;
   * otherwise it goes on to the group's end.
   */
  lemma {:induction false} TestsFromOutcome(g: TestContext, i: nat, host: Host, t: seq<Event>)
    requires g.Linked() && g.Valid()
    ensures var w := TestsFrom(g, i, host, t);
      && (w.status == Ok ==> |w.trace| > 0 && w.trace[|w.trace| - 1] == GroupEnd)
      && (w.status != Ok ==> w.status == Aborted && EndsWithFailedHook(w.trace,
            HookChain(g, BeforeEach) + HookChain(g, AfterEach) + HookChain(g, AfterAll)))
    decreases |g.tests| - i
  {
    var each := HookChain(g, BeforeEach) + HookChain(g, AfterEach);
    var all := HookChain(g, AfterAll);
    if i >= |g.tests| {
      WalkStoppedByHook(g, AfterAll, host, t);
      var a := PhaseWalk(g, AfterAll, false, host, t);
      if a.status != Ok {
        FailedHookWithin(a.trace, all, each + all);
      }
    } else {
      TestTurnOutcome(g, i, host, t);
      var w := TestTurn(g, i, host, t);
      if w.status == Ok {
        TestsFromOutcome(g, i + 1, host, w.trace);
      } else {
        FailedHookWithin(w.trace, each, each + all);
      }
    }
  }

  lemma FailedHookWithin(trace: seq<Event>, hooks: seq<Callback>, more: seq<Callback>)
    requires EndsWithFailedHook(trace, hooks)
    requires forall h | h in hooks :: h in more
    ensures EndsWithFailedHook(trace, more)
  {
  }

  /** Every hook in `hooks` succeeds whenever it is called. */
  ghost predicate AllSucceed(host: Host, hooks: seq<Callback>)
  {
    forall tr: seq<Event>, h: Callback | h in hooks :: host.succeeds(tr, h)
  }

  lemma {:induction false} CallHooksSucceed(hooks: seq<Callback>, i: nat, host: Host, t: seq<Event>)
    requires i <= |hooks| && AllSucceed(host, hooks)
    ensures CallHooks(hooks, |hooks|, i, host, t).status == Ok
    decreases |hooks| - i
  {
    if i < |hooks| {
      assert hooks[i] in hooks;
      CallHooksSucceed(hooks, i + 1, host, t + [TryCall(hooks[i], true)]);
    }
  }

  /** A walk whose hook chain always succeeds goes on. */
  lemma {:induction false} PhaseWalkSucceeds(ctx: TestContext, phase: Phase, host: Host, t: seq<Event>)
    requires ctx.Linked() && phase != BeforeAll
    requires AllSucceed(host, HookChain(ctx, phase))
    ensures PhaseWalk(ctx, phase, false, host, t).status == Ok
    decreases ctx.depth
  {
    var up := if ctx.parent == null then Walk(t, Ok) else PhaseWalk(ctx.parent, phase, false, host, t);
    if ctx.parent != null {
      PhaseWalkSucceeds(ctx.parent, phase, host, t);
    }
    CallHooksSucceed(ctx.Hooks(phase), 0, host, up.trace);
  }

  /**
   * A failing test does not stop the loop: when every beforeEach, afterEach and
   * afterAll hook along the chain succeeds, every accepted test reports exactly one
   * `testEnd`, whatever its own outcome, and rejected tests report none.
   */
  lemma {:induction false} EveryAcceptedTestEnds(g: TestContext, i: nat, host: Host, t: seq<Event>)
    requires g.Linked() && g.Valid() && i <= |g.tests|
    requires AllSucceed(host, HookChain(g, BeforeEach) + HookChain(g, AfterEach) + HookChain(g, AfterAll))
    ensures TestsFrom(g, i, host, t).status == Ok
    ensures TestEnds(TestsFrom(g, i, host, t).trace) == TestEnds(t) + AcceptedTests(g.testNames[i..], host)
    decreases |g.tests| - i
  {
    if i >= |g.tests| {
      PhaseWalkSucceeds(g, AfterAll, host, t);
      PhaseWalkEffects(g, AfterAll, false, host, t);
      Snoc(PhaseWalk(g, AfterAll, false, host, t).trace, GroupEnd);
    } else {
      var t1 := t + [CreateTest(g.testNames[i])];
      Snoc(t, CreateTest(g.testNames[i]));
      assert g.testNames[i..][1..] == g.testNames[i + 1..];
      if !host.acceptTest(g.testNames[i]) {
        EveryAcceptedTestEnds(g, i + 1, host, t1);
      } else {
        PhaseWalkSucceeds(g, BeforeEach, host, t1);
        PhaseWalkEffects(g, BeforeEach, false, host, t1);
        var ts := TestStep(g, i, host, PhaseWalk(g, BeforeEach, false, host, t1).trace);
        TestStepEffects(g, i, host, PhaseWalk(g, BeforeEach, false, host, t1).trace);
        PhaseWalkSucceeds(g, AfterEach, host, ts);
        PhaseWalkEffects(g, AfterEach, false, host, ts);
        EveryAcceptedTestEnds(g, i + 1, host, PhaseWalk(g, AfterEach, false, host, ts).trace);
      }
    }
  }

  /**
   * A group is reported once by name; a rejected group reports nothing else; an
   * accepted group ends exactly once; every test report is consistent with its test
   * call.
   */
  lemma GroupRunEffects(g: TestContext, host: Host, t: seq<Event>)
    requires g.Linked() && g.Valid()
    ensures var w := GroupRun(g, host, t);
      && w.status != Trapped
      && GroupNames(w.trace) == GroupNames(t) + [g.name]
      && Finishes(w.trace) == Finishes(t)
      && GroupEnds(w.trace) == GroupEnds(t) + (if host.acceptGroup(g.name) then 1 else 0)
      && (!host.acceptGroup(g.name) ==> w == Walk(t + [CreateGroup(g.name)], Ok))
      && (Consistent(t) ==> Consistent(w.trace))
  {
    var t1 := t + [CreateGroup(g.name)];
    Snoc(t, CreateGroup(g.name));
    if host.acceptGroup(g.name) {
      PhaseWalkEffects(g, BeforeAll, true, host, t1);
      var b := PhaseWalk(g, BeforeAll, true, host, t1);
      if b.status == Ok {
        TestsFromEffects(g, 0, host, b.trace);
      }
    }
  }

  /**
   * The loop of `__run` from group `i` on reports every remaining group by name, in
   * order, and ends the accepted ones.
   */
  lemma {:induction false} RunFromEffects(groups: seq<TestContext>, i: nat, host: Host, t: seq<Event>)
    requires Ready(groups) && i <= |groups|
    ensures var r := RunFrom(groups, i, host, t);
      && Finishes(r) == Finishes(t)
      && GroupNames(r) == GroupNames(t) + Names(groups[i..])
      && GroupEnds(r) == GroupEnds(t) + Accepted(groups[i..], host)
      && (Consistent(t) ==> Consistent(r))
    decreases |groups| - i
  {
    if i < |groups| {
      GroupRunEffects(groups[i], host, t);
      assert groups[i..][1..] == groups[i + 1..];
      RunFromEffects(groups, i + 1, host, GroupRun(groups[i], host, t).trace);
    }
  }

  /** The whole run, from an empty trace: every group, then `finish`. */
  lemma RunReport(groups: seq<TestContext>, host: Host)
    requires Ready(groups)
    ensures var r := RunFrom(groups, 0, host, []) + [Finish];
      && Consistent(r)
      && GroupNames(r) == Names(groups) && GroupEnds(r) == Accepted(groups, host)
      && Finishes(r) == 1 && r[|r| - 1] == Finish
  {
    RunFromEffects(groups, 0, host, []);
    Snoc(RunFrom(groups, 0, host, []), Finish);
    assert groups[0..] == groups;
  }

  /**
   * As written, a group with one beforeAll hook `h` and one beforeEach hook `e` calls
   * `e` where it should call `h`, and a group with a beforeAll hook but no beforeEach
   * hook traps; the corrected walk calls `h`.
   */
  lemma BeforeAllReadsBeforeEach(ctx: TestContext, h: Callback, e: Callback, host: Host, t: seq<Event>)
    requires ctx.Linked() && ctx.parent == null
    requires ctx.beforeAll == [h] && ctx.beforeEach == [e] && h != e
    ensures PhaseWalk(ctx, BeforeAll, false, host, t) == OneCall(e, host, t)
    ensures PhaseWalk(ctx, BeforeAll, true, host, t) == OneCall(h, host, t)
  {
    OneHook([e], host, t);
    OneHook([h], host, t);
  }

  /** What a walk over the single callback `c` does. */
  function OneCall(c: Callback, host: Host, t: seq<Event>): Walk
  {
    if host.succeeds(t, c) then Walk(t + [TryCall(c, true)], Ok)
    else Walk(t + [TryCall(c, false), GroupEnd], Aborted)
  }

  lemma OneHook(hooks: seq<Callback>, host: Host, t: seq<Event>)
    requires |hooks| == 1
    ensures CallHooks(hooks, 1, 0, host, t) == OneCall(hooks[0], host, t)
  {
    var ok := host.succeeds(t, hooks[0]);
    assert CallHooks(hooks, 1, 1, host, t + [TryCall(hooks[0], ok)]) == Walk(t + [TryCall(hooks[0], ok)], Ok);
  }

  lemma BeforeAllWithoutBeforeEachTraps(ctx: TestContext, h: Callback, host: Host, t: seq<Event>)
    requires ctx.Linked() && ctx.parent == null
    requires ctx.beforeAll == [h] && ctx.beforeEach == []
    ensures PhaseWalk(ctx, BeforeAll, false, host, t) == Walk(t, Trapped)
    ensures PhaseWalk(ctx, BeforeAll, true, host, t) == OneCall(h, host, t)
  {
    OneHook([h], host, t);
  }

  /**
   * Because `fork` copies the parent's hook lists and the walk also visits the parent,
   * a child whose parent registered beforeEach hook 1 and which added hook 2 itself
   * calls 1, 1, 2.
   */
  lemma {:induction false} InheritedHookRunsTwice(a: TestContext, b: TestContext, host: Host, t: seq<Event>)
    requires a.Linked() && a.parent == null && a.beforeEach == [1]
    requires b.Linked() && b.parent == a && b.beforeEach == a.beforeEach + [2]
    ensures HookChain(b, BeforeEach) == [1, 1, 2]
    ensures var w := PhaseWalk(b, BeforeEach, false, host, t);
      w.status == Ok ==> w.trace == t + [TryCall(1, true), TryCall(1, true), TryCall(2, true)]
  {
    PhaseWalkShape(b, BeforeEach, false, host, t);
    PhaseInvokesHookChain(b, BeforeEach, false);
  }
}
