/**
 * The guest registration functions (assembly/internal/test/describe.ts): a stack of
 * contexts with an index naming the current one, the flat `groups` registry, and the
 * `describe` / `it` / `test` / `throws` / `todo` / `xit` / `xtest` / hook registrars.
 *
 * The module-level globals of the source become the fields of one `Session` object.
 * The `tests` callback that `describe` runs is user registration code; here it is a
 * `Stmt` script, one statement per registrar call, which `Exec` runs in order.
 *
 * The descent step of `describe` is written twice: `Descend` as the source has it,
 * which always pushes, and `DescendCorrected`, which `Describe` uses. `StaleSiblingSlot`
 * shows what the former does to a second sibling group.
 */
module Registration {
  import opened GuestContext

  /** One call the user's registration code makes. */
  datatype Stmt =
    | Group(name: string, body: seq<Stmt>)                       // describe(name, () => { body })
    | Case(description: string, callback: Callback)              // it(description, callback)
    | TestCase(description: string, callback: Callback)          // test(description, callback)
    | Throwing(description: string, callback: Callback, message: string)  // throws(...)
    | TodoNote(description: string)                              // todo(description)
    | SkippedCase(description: string, callback: Callback)       // xit(description, callback)
    | SkippedTest(description: string, callback: Callback)       // xtest(description, callback)
    | Hook(phase: Phase, callback: Callback)                     // beforeEach(callback), ...

  /** How many groups a script declares, nested ones included. */
  function GroupCount(body: seq<Stmt>): nat
    decreases body
  {
    if body == [] then 0 else GroupCount(body[..|body| - 1]) + Declared(body[|body| - 1])
  }

  /** How many groups one statement declares: a `describe` and everything inside it. */
  function Declared(s: Stmt): nat
    decreases s
  {
    match s
    case Group(_, b) => 1 + GroupCount(b)
    case _ => 0
  }

  /** The lists of a fresh child: the hook lists of `l` and empty test and todo lists (see `fork`). */
  function ForkLists(l: Lists): Lists
  {
    Lists(l.beforeEach, l.beforeAll, l.afterEach, l.afterAll, [], [], [], [])
  }

  /**
   * What one statement does to the lists of the context it runs in; a nested
   * `describe` writes only to its own new context.
   */
  function Effect(l: Lists, s: Stmt): Lists
  {
    match s
    case Group(_, _) => l
    case Case(d, cb) => l.(tests := l.tests + [cb], testNames := l.testNames + [d], negated := l.negated + [false])
    case TestCase(d, cb) => l.(tests := l.tests + [cb], testNames := l.testNames + [d], negated := l.negated + [false])
    case Throwing(d, cb, _) => l.(tests := l.tests + [cb], testNames := l.testNames + [d], negated := l.negated + [true])
    case TodoNote(d) => l.(todos := l.todos + [d])
    case SkippedCase(d, _) => l.(todos := l.todos + [d])
    case SkippedTest(d, _) => l.(todos := l.todos + [d])
    case Hook(phase, cb) =>
      match phase
      case BeforeEach => l.(beforeEach := l.beforeEach + [cb])
      case BeforeAll => l.(beforeAll := l.beforeAll + [cb])
      case AfterEach => l.(afterEach := l.afterEach + [cb])
      case AfterAll => l.(afterAll := l.afterAll + [cb])
  }

  /** The statements of a body applied in order. */
  function Apply(l: Lists, body: seq<Stmt>): Lists
  {
    if body == [] then l else Effect(Apply(l, body[..|body| - 1]), body[|body| - 1])
  }

  /** Reference definition: the test callbacks a body registers directly, in order. */
  function TestsOf(body: seq<Stmt>): seq<Callback>
  {
    if body == [] then []
    else
      (match body[0]
       case Case(_, cb) => [cb]
       case TestCase(_, cb) => [cb]
       case Throwing(_, cb, _) => [cb]
       case _ => [])
      + TestsOf(body[1..])
  }

  /** Reference definition: the hooks of one phase a body registers directly, in order. */
  function HooksOf(body: seq<Stmt>, phase: Phase): seq<Callback>
  {
    if body == [] then []
    else (if body[0].Hook? && body[0].phase == phase then [body[0].callback] else []) + HooksOf(body[1..], phase)
  }

  class Session {
    const root: TestContext
    var contextStack: seq<TestContext>
    var contextStackIndex: int
    /** The registry the runner walks (declared in run.ts, filled only here). */
    var groups: seq<TestContext>

    ghost predicate Valid()
      reads this, contextStack, groups
    {
      && 0 <= contextStackIndex < |contextStack|
      && contextStack[0] == root
      && |groups| >= 1 && groups[0] == root
      && (forall c <- contextStack :: c.Linked() && c.Valid())
      && (forall g <- groups :: g.Linked() && g.Valid())
    }

    /** `currentContext()`: the context the registrars write to. */
    function CurrentContext(): TestContext
      reads this
      requires 0 <= contextStackIndex < |contextStack|
    {
      contextStack[contextStackIndex]
    }

    /** The module initialiser: the root context is the whole stack and the first group. */
    constructor ()
      ensures Valid() && fresh(root)
      ensures contextStack == [root] && contextStackIndex == 0 && groups == [root]
      ensures CurrentContext() == root
      ensures root.name == "" && root.parent == null
      ensures root.Snapshot() == Lists([], [], [], [], [], [], [], [])
    {
      var r := new TestContext();
      root := r;
      contextStack := [r];
      contextStackIndex := 0;
      groups := [r];
    }

    /**
     * The first half of `describe`: fork the current context and push the child.
     * The guard `contextStack.length >= contextStackIndex` always holds once the index
     * has been incremented, so the child is always pushed at the end of the stack, and
     * it becomes the current context only when the stack was exactly one entry longer
     * than the index (a first descent to this depth).
     */
    method Descend(name: string) returns (next: TestContext)
      requires Valid()
      modifies this`contextStack, this`contextStackIndex
      ensures Valid()
      ensures fresh(next) && next.parent == old(CurrentContext())
      ensures next.name == old(CurrentContext()).name + " " + name
      ensures next.Snapshot() == ForkLists(old(CurrentContext().Snapshot()))
      ensures contextStackIndex == old(contextStackIndex) + 1
      ensures contextStack == old(contextStack) + [next]
      ensures groups == old(groups)
      ensures CurrentContext() == next <==> old(|contextStack|) == old(contextStackIndex) + 1
    {
      var current := contextStack[contextStackIndex];
      next := new TestContext.Fork(current, name);
      contextStackIndex := contextStackIndex + 1;
      if |contextStack| >= contextStackIndex {
        contextStack := contextStack + [next];
      } else {
        // The overwrite branch (describe.ts:34) is dead: the index never exceeds the length.
        assert false;
      }
    }

    /** The second half of `describe`: pop the index and register the child. */
    method Ascend(next: TestContext)
      requires Valid() && contextStackIndex >= 1
      requires next.Linked() && next.Valid()
      modifies this`contextStackIndex, this`groups
      ensures Valid()
      ensures contextStackIndex == old(contextStackIndex) - 1
      ensures groups == old(groups) + [next]
    {
      contextStackIndex := contextStackIndex - 1;
      groups := groups + [next];
    }

    /**
     * `describe(name, body)` with the corrected descent: the new group is the current
     * context while the body runs, so it holds exactly the tests, todos and hooks the body
     * registers directly (after the hook lists it inherits), and it is appended to
     * `groups` after every group the body declares. The index is back where it was and
     * the enclosing contexts are untouched.
     */
    method Describe(name: string, body: seq<Stmt>)
      requires Valid()
      modifies this
      decreases body, 1
      ensures Valid()
      ensures contextStackIndex == old(contextStackIndex)
      ensures contextStack[..contextStackIndex + 1] == old(contextStack[..contextStackIndex + 1])
      ensures |groups| == old(|groups|) + 1 + GroupCount(body)
      ensures groups[..old(|groups|)] == old(groups)
      ensures forall j | old(|groups|) <= j < |groups| :: fresh(groups[j])
      ensures groups[|groups| - 1].parent == old(CurrentContext())
      ensures groups[|groups| - 1].name == old(CurrentContext()).name + " " + name
      ensures groups[|groups| - 1].Snapshot() == Apply(ForkLists(old(CurrentContext().Snapshot())), body)
    {
      var next := DescendCorrected(name);
      Exec(body);
      Ascend(next);
    }

    /**
     * Runs a registration script in the current context: its lists take the effect of
     * each statement in order, and every group the script declares is appended to
     * `groups`.
     */
    method Exec(body: seq<Stmt>)
      requires Valid()
      modifies this, CurrentContext()
      decreases body, 0
      ensures Valid()
      ensures contextStackIndex == old(contextStackIndex)
      ensures contextStack[..contextStackIndex + 1] == old(contextStack[..contextStackIndex + 1])
      ensures CurrentContext().Snapshot() == Apply(old(CurrentContext().Snapshot()), body)
      ensures |groups| == old(|groups|) + GroupCount(body)
      ensures groups[..old(|groups|)] == old(groups)
      ensures forall j | old(|groups|) <= j < |groups| :: fresh(groups[j])
    {
      ghost var current := CurrentContext();
      ghost var start := current.Snapshot();
      for i := 0 to |body|
        invariant Valid()
        invariant contextStackIndex == old(contextStackIndex)
        invariant contextStack[..contextStackIndex + 1] == old(contextStack[..contextStackIndex + 1])
        invariant CurrentContext() == current
        invariant current.Snapshot() == Apply(start, body[..i])
        invariant |groups| == old(|groups|) + GroupCount(body[..i])
        invariant groups[..old(|groups|)] == old(groups)
        invariant forall j | old(|groups|) <= j < |groups| :: fresh(groups[j])
      {
        assert body[..i + 1][..i] == body[..i];
        if body[i].Group? {
          Describe(body[i].name, body[i].body);
        } else {
          Register(body[i]);
        }
      }
      assert body[..|body|] == body;
    }

    /** One registrar call other than `describe`, on the current context. */
    method Register(stmt: Stmt)
      requires Valid() && !stmt.Group?
      modifies CurrentContext()
      ensures Valid()
      ensures CurrentContext().Snapshot() == Effect(old(CurrentContext().Snapshot()), stmt)
    {
      match stmt
      case Case(d, cb) =>
        It(d, cb);
      case TestCase(d, cb) =>
        Test(d, cb);
      case Throwing(d, cb, m) =>
        Throws(d, cb, m);
      case TodoNote(d) =>
        Todo(d);
      case SkippedCase(d, cb) =>
        Xit(d, cb);
      case SkippedTest(d, cb) =>
        Xtest(d, cb);
      case Hook(phase, cb) =>
        match phase
        case BeforeEach => BeforeEach(cb);
        case BeforeAll => BeforeAll(cb);
        case AfterEach => AfterEach(cb);
        case AfterAll => AfterAll(cb);
    }

    /** `todo(description)`: only the todo list grows. */
    method Todo(description: string)
      requires Valid()
      modifies CurrentContext()
      ensures Valid()
      ensures var c := CurrentContext(); var was := old(c.Snapshot());
        c.Snapshot() == was.(todos := was.todos + [description])
    {
      var ctx := CurrentContext();
      ctx.todos := ctx.todos + [description];
    }

    /** `xit(description, callback)`: a todo; the callback is dropped. */
    method Xit(description: string, callback: Callback)
      requires Valid()
      modifies CurrentContext()
      ensures Valid()
      ensures var c := CurrentContext(); var was := old(c.Snapshot());
        c.Snapshot() == was.(todos := was.todos + [description])
    {
      Todo(description);
    }

    /** `xtest(description, callback)`: a todo; the callback is dropped. */
    method Xtest(description: string, callback: Callback)
      requires Valid()
      modifies CurrentContext()
      ensures Valid()
      ensures var c := CurrentContext(); var was := old(c.Snapshot());
        c.Snapshot() == was.(todos := was.todos + [description])
    {
      Todo(description);
    }

    /** `it(description, runner)`: one entry on each of the three parallel lists. */
    method It(description: string, runner: Callback)
      requires Valid()
      modifies CurrentContext()
      ensures Valid()
      ensures var c := CurrentContext(); var was := old(c.Snapshot());
        c.Snapshot() == was.(tests := was.tests + [runner],
                             testNames := was.testNames + [description],
                             negated := was.negated + [false])
    {
      var ctx := CurrentContext();
      ctx.testNames := ctx.testNames + [description];
      ctx.tests := ctx.tests + [runner];
      ctx.negated := ctx.negated + [false];
    }

    /** `test(description, runner)`: the same as `it`. */
    method Test(description: string, runner: Callback)
      requires Valid()
      modifies CurrentContext()
      ensures Valid()
      ensures var c := CurrentContext(); var was := old(c.Snapshot());
        c.Snapshot() == was.(tests := was.tests + [runner],
                             testNames := was.testNames + [description],
                             negated := was.negated + [false])
    {
      It(description, runner);
    }

    /** `throws(description, callback, message)`: a test expected to fail; the message is unused. */
    method Throws(description: string, callback: Callback, message: string)
      requires Valid()
      modifies CurrentContext()
      ensures Valid()
      ensures var c := CurrentContext(); var was := old(c.Snapshot());
        c.Snapshot() == was.(tests := was.tests + [callback],
                             testNames := was.testNames + [description],
                             negated := was.negated + [true])
    {
      var ctx := CurrentContext();
      ctx.testNames := ctx.testNames + [description];
      ctx.tests := ctx.tests + [callback];
      ctx.negated := ctx.negated + [true];
    }

    method BeforeEach(callback: Callback)
      requires Valid()
      modifies CurrentContext()
      ensures Valid()
      ensures var c := CurrentContext(); var was := old(c.Snapshot());
        c.Snapshot() == was.(beforeEach := was.beforeEach + [callback])
    {
      var ctx := CurrentContext();
      ctx.beforeEach := ctx.beforeEach + [callback];
    }

    method BeforeAll(callback: Callback)
      requires Valid()
      modifies CurrentContext()
      ensures Valid()
      ensures var c := CurrentContext(); var was := old(c.Snapshot());
        c.Snapshot() == was.(beforeAll := was.beforeAll + [callback])
    {
      var ctx := CurrentContext();
      ctx.beforeAll := ctx.beforeAll + [callback];
    }

    method AfterEach(callback: Callback)
      requires Valid()
      modifies CurrentContext()
      ensures Valid()
      ensures var c := CurrentContext(); var was := old(c.Snapshot());
        c.Snapshot() == was.(afterEach := was.afterEach + [callback])
    {
      var ctx := CurrentContext();
      ctx.afterEach := ctx.afterEach + [callback];
    }

    method AfterAll(callback: Callback)
      requires Valid()
      modifies CurrentContext()
      ensures Valid()
      ensures var c := CurrentContext(); var was := old(c.Snapshot());
        c.Snapshot() == was.(afterAll := was.afterAll + [callback])
    {
      var ctx := CurrentContext();
      ctx.afterAll := ctx.afterAll + [callback];
    }

    /**
     * What `describe` was evidently meant to do: push the child only when the stack is
     * no longer than the new index, and otherwise overwrite the stale slot, so that the
     * child is the current context while its body runs, at every depth and for every
     * sibling. The ancestors below the new index stay where they were.
     */
    method DescendCorrected(name: string) returns (next: TestContext)
      requires Valid()
      modifies this`contextStack, this`contextStackIndex
      ensures Valid()
      ensures fresh(next) && next.parent == old(CurrentContext())
      ensures next.name == old(CurrentContext()).name + " " + name
      ensures contextStackIndex == old(contextStackIndex) + 1
      ensures next.Snapshot() == ForkLists(old(CurrentContext().Snapshot()))
      ensures contextStack[..contextStackIndex] == old(contextStack)[..contextStackIndex]
      ensures CurrentContext() == next
      ensures groups == old(groups)
    {
      var current := contextStack[contextStackIndex];
      next := new TestContext.Fork(current, name);
      contextStackIndex := contextStackIndex + 1;
      if |contextStack| <= contextStackIndex {
        contextStack := contextStack + [next];
      } else {
        contextStack := contextStack[contextStackIndex := next];
      }
    }
  }

  lemma {:induction false} TestsOfSnoc(body: seq<Stmt>, x: Stmt)
    ensures TestsOf(body + [x]) == TestsOf(body) + TestsOf([x])
    ensures forall phase :: HooksOf(body + [x], phase) == HooksOf(body, phase) + HooksOf([x], phase)
  {
    if body != [] {
      assert (body + [x])[1..] == body[1..] + [x];
      TestsOfSnoc(body[1..], x);
    }
  }

  /** The hook list of one phase. */
  function PhaseHooks(l: Lists, phase: Phase): seq<Callback>
  {
    match phase
    case BeforeEach => l.beforeEach
    case BeforeAll => l.beforeAll
    case AfterEach => l.afterEach
    case AfterAll => l.afterAll
  }

  lemma EffectCollects(l: Lists, x: Stmt, phase: Phase)
    ensures Effect(l, x).tests == l.tests + TestsOf([x])
    ensures PhaseHooks(Effect(l, x), phase) == PhaseHooks(l, phase) + HooksOf([x], phase)
  {
    assert [x][1..] == [];
  }

  /**
   * A body adds to its context exactly the test callbacks and the hooks of each phase it
   * registers directly, in order, after those already there.
   */
  lemma {:induction false} ApplyCollects(l: Lists, body: seq<Stmt>, phase: Phase)
    ensures Apply(l, body).tests == l.tests + TestsOf(body)
    ensures PhaseHooks(Apply(l, body), phase) == PhaseHooks(l, phase) + HooksOf(body, phase)
  {
    if body != [] {
      var init := body[..|body| - 1];
      var x := body[|body| - 1];
      ApplyCollects(l, init, phase);
      TestsOfSnoc(init, x);
      EffectCollects(Apply(l, init), x, phase);
      assert init + [x] == body;
    }
  }

  /** The three test lists stay parallel whatever a body registers. */
  lemma {:induction false} ApplyKeepsParallel(l: Lists, body: seq<Stmt>)
    requires |l.tests| == |l.testNames| == |l.negated|
    ensures var r := Apply(l, body); |r.tests| == |r.testNames| == |r.negated|
    ensures |Apply(l, body).tests| == |l.tests| + |TestsOf(body)|
  {
    if body != [] {
      ApplyKeepsParallel(l, body[..|body| - 1]);
      ApplyCollects(l, body, BeforeEach);
    }
  }

  /**
   * describe("A", () => {}); describe("B", () => { it("t", 7) }):
   * as written, the second group's test is registered into the first group.
   */
  method StaleSiblingSlot() returns (s: Session, a: TestContext, b: TestContext)
    ensures s.groups == [s.root, a, b]
    ensures a.name == " A" && b.name == " B"
    ensures a.tests == [7] && a.testNames == ["t"]
    ensures b.tests == [] && b.testNames == []
  {
    s := new Session();
    a := s.Descend("A");
    s.Ascend(a);
    b := s.Descend("B");
    s.It("t", 7);
    s.Ascend(b);
  }

  /** The same script with the corrected descent: the test lands in the second group. */
  method SiblingSlotCorrected() returns (s: Session, a: TestContext, b: TestContext)
    ensures s.groups == [s.root, a, b]
    ensures a.name == " A" && b.name == " B"
    ensures a.tests == [] && b.tests == [7] && b.testNames == ["t"]
  {
    s := new Session();
    s.Describe("A", []);
    s.Describe("B", [Case("t", 7)]);
    a, b := s.groups[1], s.groups[2];
  }
}
