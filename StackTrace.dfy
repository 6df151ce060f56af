/**
 * The stack-trace filters of the host context (src/test/TestContext.ts): a stack text is
 * split into lines at "\n", only the lines that mention a WebAssembly frame are kept,
 * and the lines are joined again. `String.prototype.split` and `Array.prototype.join`
 * are modelled exactly for a one-character separator.
 */
module StackTrace {

  /** The text `wasmFilter` looks for. */
  const Pattern: string := "wasm-function"

  /**
   * Case folding as a regular expression with the `i` flag and without `u` performs it
   * for this pattern: only ASCII letters compare equal to their other case.
   */
  function Upper(c: char): char
  {
    if 'a' <= c <= 'z' then (c as int - 32) as char else c
  }

  predicate MatchesAt(line: string, k: nat)
    requires k + |Pattern| <= |line|
  {
    forall j | 0 <= j < |Pattern| :: Upper(line[k + j]) == Upper(Pattern[j])
  }

  /** Reference definition: the pattern occurs somewhere in the line, ignoring case. */
  ghost predicate HasWasmFrame(line: string)
  {
    exists k: nat | k + |Pattern| <= |line| :: MatchesAt(line, k)
  }

  /** Scan for an occurrence starting at `from` or later. */
  function Search(line: string, from: nat): (r: bool)
    ensures r <==> exists k: nat | from <= k && k + |Pattern| <= |line| :: MatchesAt(line, k)
    decreases |line| - from
  {
    if from + |Pattern| > |line| then false
    else if MatchesAt(line, from) then true
    else Search(line, from + 1)
  }

  /** `wasmFilter(input)`. */
  function WasmFilter(line: string): (r: bool)
    ensures r <==> HasWasmFrame(line)
  {
    Search(line, 0)
  }

  /** `lines.filter(wasmFilter)`. */
  function KeepWasm(lines: seq<string>): (r: seq<string>)
    ensures forall l <- r :: l in lines && WasmFilter(l)
    ensures forall l <- lines :: WasmFilter(l) ==> l in r
    ensures |r| <= |lines|
  {
    if lines == [] then []
    else (if WasmFilter(lines[0]) then [lines[0]] else []) + KeepWasm(lines[1..])
  }

  /** `s.split("\n")`: never empty, and no piece holds the separator. */
  function Split(s: string): (r: seq<string>)
    ensures |r| >= 1
    ensures forall l <- r :: '\n' !in l
  {
    if s == [] then [""]
    else
      var rest := Split(s[1..]);
      if s[0] == '\n' then [""] + rest
      else [[s[0]] + rest[0]] + rest[1..]
  }

  /** `lines.join("\n")`. */
  function Join(lines: seq<string>): string
  {
    if |lines| == 0 then ""
    else if |lines| == 1 then lines[0]
    else lines[0] + "\n" + Join(lines[1..])
  }

  /** `getLogStackTrace()` applied to the text of the stack captured at the call. */
  function LogStackTrace(stack: string): string
  {
    Join(KeepWasm(Split(stack)[1..]))
  }

  /** `getErrorStackTrace(ex)` applied to the text of `ex.stack`. */
  function ErrorStackTrace(stack: string): string
  {
    var items := Split(stack);
    Join([items[0]] + KeepWasm(items[1..]))
  }

  // ---------------------------------------------------------------------------------

  /** Joining the pieces of a split gives back the text. */
  lemma {:induction false} JoinSplit(s: string)
    ensures Join(Split(s)) == s
  {
    if s != [] {
      var rest := Split(s[1..]);
      JoinSplit(s[1..]);
      if s[0] == '\n' {
        assert ([""] + rest)[1..] == rest;
      } else if |rest| > 1 {
        assert ([[s[0]] + rest[0]] + rest[1..])[1..] == rest[1..];
      }
    }
  }

  /** A newline-free prefix extends the first piece of the split. */
  lemma {:induction false} SplitPrefix(x: string, t: string)
    requires '\n' !in x
    ensures Split(x + t) == [x + Split(t)[0]] + Split(t)[1..]
  {
    if x != [] {
      assert (x + t)[1..] == x[1..] + t;
      SplitPrefix(x[1..], t);
      assert [x[0]] + (x[1..] + Split(t)[0]) == x + Split(t)[0];
    } else {
      assert x + t == t && x + Split(t)[0] == Split(t)[0];
      assert Split(t) == [Split(t)[0]] + Split(t)[1..];
    }
  }

  lemma SplitNewline(t: string)
    ensures Split("\n" + t) == [""] + Split(t)
  {
    assert ("\n" + t)[1..] == t;
  }

  /** Splitting a join of newline-free lines gives back the lines. */
  lemma {:induction false} SplitJoin(lines: seq<string>)
    requires |lines| >= 1
    requires forall l <- lines :: '\n' !in l
    ensures Split(Join(lines)) == lines
  {
    if |lines| == 1 {
      SplitPrefix(lines[0], "");
      assert lines[0] + "" == lines[0];
    } else {
      var tail := Join(lines[1..]);
      SplitJoin(lines[1..]);
      SplitNewline(tail);
      SplitPrefix(lines[0], "\n" + tail);
      assert lines[0] + "\n" + tail == lines[0] + ("\n" + tail);
      assert lines[0] + "" == lines[0];
    }
  }

  /** Filtering distributes over concatenation, so it keeps the order of the lines. */
  lemma {:induction false} KeepWasmAppend(a: seq<string>, b: seq<string>)
    ensures KeepWasm(a + b) == KeepWasm(a) + KeepWasm(b)
  {
    if a != [] {
      assert (a + b)[1..] == a[1..] + b;
      KeepWasmAppend(a[1..], b);
    } else {
      assert a + b == b;
    }
  }

  /** Filtering a filtered list changes nothing. */
  lemma {:induction false} KeepWasmIdempotent(lines: seq<string>)
    ensures KeepWasm(KeepWasm(lines)) == KeepWasm(lines)
  {
    if lines != [] {
      KeepWasmIdempotent(lines[1..]);
      var head := if WasmFilter(lines[0]) then [lines[0]] else [];
      KeepWasmAppend(head, KeepWasm(lines[1..]));
    }
  }

  /**
   * The lines of a log stack trace are exactly the frames after the first line that
   * mention "wasm-function", in their original order; with no such frame it is empty.
   */
  lemma LogStackTraceLines(stack: string)
    ensures var kept := KeepWasm(Split(stack)[1..]);
      && (kept != [] ==> Split(LogStackTrace(stack)) == kept)
      && (kept == [] ==> LogStackTrace(stack) == "")
  {
    var kept := KeepWasm(Split(stack)[1..]);
    if kept != [] {
      SplitJoin(kept);
    }
  }

  /**
   * The lines of an error stack trace are the first line of the error's stack, kept
   * whatever it says, followed by the later frames that mention "wasm-function".
   */
  lemma ErrorStackTraceLines(stack: string)
    ensures var items := Split(stack);
      Split(ErrorStackTrace(stack)) == [items[0]] + KeepWasm(items[1..])
  {
    var items := Split(stack);
    SplitJoin([items[0]] + KeepWasm(items[1..]));
  }
}
