/**
 * The guest-side group record (assembly/internal/test/TestContext.ts): a named scope
 * holding four hook lists, three parallel test lists, the todo list and a back-pointer
 * to the enclosing group.
 *
 * `name` and `parent` are written only by `fork`, right after allocation and before
 * the object is handed to anyone, so they are `const` here; that makes the parent
 * chain immutable, and its acyclicity a fact about constants (`Linked`).
 */
module GuestContext {

  /** A guest function-table index, as AssemblyScript passes `() => void` values. */
  type Callback = int

  /** The four hook phases of a group. */
  datatype Phase = BeforeAll | BeforeEach | AfterEach | AfterAll

  /** The eight lists of a context, as one value, so that a contract can say which one changed. */
  datatype Lists = Lists(
    beforeEach: seq<Callback>,
    beforeAll: seq<Callback>,
    afterEach: seq<Callback>,
    afterAll: seq<Callback>,
    tests: seq<Callback>,
    testNames: seq<string>,
    negated: seq<bool>,
    todos: seq<string>)

  class TestContext {
    const name: string
    const parent: TestContext?
    /** Number of ancestors; only there to show that the parent chain ends. */
    ghost const depth: nat

    var beforeEach: seq<Callback>
    var beforeAll: seq<Callback>
    var afterEach: seq<Callback>
    var afterAll: seq<Callback>

    var tests: seq<Callback>
    var testNames: seq<string>
    var negated: seq<bool>

    var todos: seq<string>

    /** Timestamps (f64 in the source); the runner's writes to them are not modelled. */
    var start: real
    var end: real

    /** The parent chain is finite: every parent sits strictly closer to the root. */
    ghost predicate Linked()
      decreases depth
    {
      parent != null ==> parent.depth < depth && parent.Linked()
    }

    /** This context and all of its ancestors. */
    ghost function Lineage(): (s: set<TestContext>)
      requires Linked()
      ensures this in s
      ensures parent != null ==> parent in s && parent.Lineage() <= s
      decreases depth
    {
      {this} + (if parent == null then {} else parent.Lineage())
    }

    /** The three test lists are parallel: entry i of each describes test i. */
    predicate Valid()
      reads this
    {
      |tests| == |testNames| == |negated|
    }

    function Snapshot(): Lists
      reads this
    {
      Lists(beforeEach, beforeAll, afterEach, afterAll, tests, testNames, negated, todos)
    }

    function Hooks(phase: Phase): seq<Callback>
      reads this
    {
      match phase
      case BeforeAll => beforeAll
      case BeforeEach => beforeEach
      case AfterEach => afterEach
      case AfterAll => afterAll
    }

    /** `new TestContext()`: the root group. */
    constructor ()
      ensures name == "" && parent == null && Linked()
      ensures Snapshot() == Lists([], [], [], [], [], [], [], [])
      ensures Valid()
      ensures start == 0.0 && end == 0.0
    {
      name := "";
      parent := null;
      depth := 0;
      beforeEach, beforeAll, afterEach, afterAll := [], [], [], [];
      tests, testNames, negated := [], [], [];
      todos := [];
      start, end := 0.0, 0.0;
    }

    /**
     * `p.fork(childName)`: a child whose name extends the parent's, whose hook lists
     * are copies of the parent's lists as they are now, and whose test lists start
     * empty. The parent is not touched (a constructor may modify only the new object).
     */
    constructor Fork(p: TestContext, childName: string)
      requires p.Linked()
      ensures name == p.name + " " + childName
      ensures parent == p && Linked()
      ensures beforeEach == p.beforeEach && beforeAll == p.beforeAll
      ensures afterEach == p.afterEach && afterAll == p.afterAll
      ensures tests == [] && testNames == [] && negated == [] && todos == []
      ensures Valid()
      ensures start == 0.0 && end == 0.0
    {
      name := p.name + " " + childName;
      afterAll := p.afterAll;
      afterEach := p.afterEach;
      beforeAll := p.beforeAll;
      beforeEach := p.beforeEach;
      parent := p;
      depth := p.depth + 1;
      tests, testNames, negated := [], [], [];
      todos := [];
      start, end := 0.0, 0.0;
    }
  }

  /**
   * The copies `fork` makes are independent: appending to the parent's list after the
   * fork leaves the child's list as it was.
   */
  method ForkThenAppend(p: TestContext, childName: string, hook: Callback) returns (child: TestContext)
    requires p.Linked()
    modifies p
    ensures fresh(child) && child.parent == p
    ensures child.beforeEach == old(p.beforeEach)
    ensures p.beforeEach == old(p.beforeEach) + [hook]
    ensures child.beforeEach != p.beforeEach
  {
    child := new TestContext.Fork(p, childName);
    p.beforeEach := p.beforeEach + [hook];
    assert |p.beforeEach| == |child.beforeEach| + 1;
  }
}
