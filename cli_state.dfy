/**
 * The state of the command-line tool: which rendering backends exist on a
 * platform and which of them need a build step, the tab bar of the terminal
 * interface, and the bounded, scrollable log buffers that collect the output
 * of child processes.
 */
module CliState {
  import opened Wrappers
  import opened Vectors

  // ----- Platform and backends -----

  datatype Platform = Linux | MacOS | Windows

  function SupportsMetal(p: Platform): (r: bool)
    ensures r <==> p == MacOS
  {
    p.MacOS?
  }

  /** Vulkan is offered exactly where Metal is not. */
  function SupportsVulkan(p: Platform): (r: bool)
    ensures r != SupportsMetal(p)
  {
    !p.MacOS?
  }

  datatype Backend = OpenGL | Metal | Vulkan | WebGPU | WasmExport

  /** The name a backend is shown under; no two backends share one. */
  function Label(b: Backend): (r: string)
    ensures |r| > 0
  {
    match b
    case OpenGL => "OpenGL"
    case Metal => "Metal"
    case Vulkan => "Vulkan"
    case WebGPU => "WebGPU"
    case WasmExport => "WASM Export"
  }

  /** Distinct backends are shown under distinct names. */
  lemma LabelsDistinct(a: Backend, b: Backend)
    ensures Label(a) == Label(b) ==> a == b
  {
  }

  predicate NoDuplicates<T(==)>(s: seq<T>)
  {
    forall i, j :: 0 <= i < j < |s| ==> s[i] != s[j]
  }

  /**
   * The backends offered on a platform, in menu order: OpenGL first, then
   * the platform's native API (Metal on macOS, Vulkan elsewhere), then
   * WebGPU and the WASM export. Each appears at most once.
   */
  function AvailableOn(p: Platform): (r: seq<Backend>)
    ensures OpenGL in r && WebGPU in r && WasmExport in r
    ensures (Metal in r <==> SupportsMetal(p)) && (Vulkan in r <==> SupportsVulkan(p))
    ensures (Metal in r) != (Vulkan in r)
    ensures NoDuplicates(r)
    ensures |r| == 4 && r[0] == OpenGL && r[2..] == [WebGPU, WasmExport]
  {
    var v := [OpenGL];
    var v := if SupportsMetal(p) then v + [Metal] else v;
    var v := if SupportsVulkan(p) then v + [Vulkan] else v;
    var r := v + [WebGPU, WasmExport];
    assert r == [OpenGL, if p.MacOS? then Metal else Vulkan, WebGPU, WasmExport];
    r
  }

  /** OpenGL and Vulkan load system libraries; the other three need an artifact built first. */
  function NeedsBuild(b: Backend): (r: bool)
    ensures r <==> b != OpenGL && b != Vulkan
  {
    b.Metal? || b.WebGPU? || b.WasmExport?
  }

  // ----- Tabs -----

  datatype Tab = Dashboard | Build | Run | Setup | Tests

  const AllTabs: seq<Tab> := [Dashboard, Build, Run, Setup, Tests]

  /** A tab's position in the tab bar. */
  function Index(t: Tab): (i: nat)
    ensures i < |AllTabs| && AllTabs[i] == t
  {
    match t
    case Dashboard => 0
    case Build => 1
    case Run => 2
    case Setup => 3
    case Tests => 4
  }

  /** The tab to the right, wrapping from the last to the first. */
  function Next(t: Tab): (n: Tab)
    ensures Index(n) == (Index(t) + 1) % |AllTabs|
  {
    match t
    case Dashboard => Build
    case Build => Run
    case Run => Setup
    case Setup => Tests
    case Tests => Dashboard
  }

  /** The tab to the left, wrapping from the first to the last. */
  function Prev(t: Tab): (p: Tab)
    ensures Index(p) == (Index(t) + |AllTabs| - 1) % |AllTabs|
  {
    match t
    case Dashboard => Tests
    case Build => Dashboard
    case Run => Build
    case Setup => Run
    case Tests => Setup
  }

  /** `Index` is a bijection between the tabs and 0..4. */
  lemma IndexBijective()
    ensures forall t, u :: Index(t) == Index(u) ==> t == u
    ensures forall i :: 0 <= i < |AllTabs| ==> Index(AllTabs[i]) == i
  {
  }

  /** Stepping right and then left, or left and then right, returns to the same tab. */
  lemma NextPrevRoundTrip(t: Tab)
    ensures Prev(Next(t)) == t && Next(Prev(t)) == t
  {
    IndexBijective();
  }

  // ----- Log buffer -----

  /** One line of captured output; its timestamp is not part of this model. */
  datatype LogLine = LogLine(text: string, isStderr: bool)

  /** `usize::saturating_sub`. */
  function SaturatingSub(a: nat, b: nat): nat
  {
    if a >= b then a - b else 0
  }

  /**
   * The lines after one push: when the buffer is full the oldest line is
   * dropped first, and the new line goes last. Dropping from an empty
   * buffer (a zero capacity) aborts, so that case is excluded.
   */
  function PushLines(lines: seq<LogLine>, maxLines: nat, line: LogLine): (r: seq<LogLine>)
    requires |lines| >= maxLines ==> |lines| > 0
    ensures |lines| <= maxLines ==> |r| <= maxLines
    ensures 0 < |r| <= |lines| + 1 && r[|r| - 1] == line
    ensures |lines| < maxLines ==> r == lines + [line]
    ensures |lines| >= maxLines ==> r == lines[1..] + [line]
  {
    var kept := if |lines| >= maxLines then lines[1..] else lines;
    kept + [line]
  }

  /** Everything but the new last line is a suffix of the old lines: a push never reorders or invents lines. */
  lemma PushLinesKeepsSuffix(lines: seq<LogLine>, maxLines: nat, line: LogLine)
    requires |lines| >= maxLines ==> |lines| > 0
    ensures var r := PushLines(lines, maxLines, line);
      r[..|r| - 1] == lines[|lines| + 1 - |r|..]
  {
    var r := PushLines(lines, maxLines, line);
    if |lines| >= maxLines {
      assert r[..|r| - 1] == lines[1..];
    } else {
      assert r[..|r| - 1] == lines;
    }
  }

  /** The lines after pushing `ts` one by one. */
  function PushAll(lines: seq<LogLine>, maxLines: nat, ts: seq<LogLine>): (r: seq<LogLine>)
    requires 1 <= maxLines && |lines| <= maxLines
    ensures |r| <= maxLines
    decreases |ts|
  {
    if |ts| == 0 then lines
    else PushLines(PushAll(lines, maxLines, ts[..|ts| - 1]), maxLines, ts[|ts| - 1])
  }

  /** A buffer of capacity `maxLines` holds the newest `maxLines` lines ever pushed, oldest first. */
  lemma {:induction false} PushAllKeepsNewest(lines: seq<LogLine>, maxLines: nat, ts: seq<LogLine>)
    requires 1 <= maxLines && |lines| <= maxLines
    ensures var all := lines + ts;
      PushAll(lines, maxLines, ts) == all[|all| - Min(maxLines, |all|)..]
    decreases |ts|
  {
    if |ts| > 0 {
      PushAllKeepsNewest(lines, maxLines, ts[..|ts| - 1]);
      PushAllStep(lines, maxLines, ts);
    } else {
      assert lines + ts == lines;
    }
  }

  /** The inductive step: if the first pushes leave the newest lines, so does one more. */
  lemma PushAllStep(lines: seq<LogLine>, maxLines: nat, ts: seq<LogLine>)
    requires 1 <= maxLines && |lines| <= maxLines && |ts| > 0
    requires var before := lines + ts[..|ts| - 1];
      PushAll(lines, maxLines, ts[..|ts| - 1]) == before[|before| - Min(maxLines, |before|)..]
    ensures var all := lines + ts;
      PushAll(lines, maxLines, ts) == all[|all| - Min(maxLines, |all|)..]
  {
    var init := ts[..|ts| - 1];
    var t := ts[|ts| - 1];
    var before, all := lines + init, lines + ts;
    var x := PushAll(lines, maxLines, init);
    assert all == before + [t] by {
      assert ts == init + [t];
    }
    NewestStep(before, t, all, maxLines, x);
    assert PushAll(lines, maxLines, ts) == PushLines(x, maxLines, t);
  }

  /** One push onto the newest lines of `before` gives the newest lines of `before + [t]`. */
  lemma NewestStep(before: seq<LogLine>, t: LogLine, all: seq<LogLine>, maxLines: nat, x: seq<LogLine>)
    requires all == before + [t]
    requires 1 <= maxLines && x == before[|before| - Min(maxLines, |before|)..]
    ensures PushLines(x, maxLines, t) == all[|all| - Min(maxLines, |all|)..]
  {
    if |before| >= maxLines {
      assert |x| == maxLines;
      assert PushLines(x, maxLines, t) == x[1..] + [t];
      assert x[1..] + [t] == all[|all| - maxLines..];
    } else {
      assert x == before;
      assert PushLines(x, maxLines, t) == before + [t];
      assert all[|all| - Min(maxLines, |all|)..] == all;
    }
  }

  /** Capacity 3, four pushes: the first line has been evicted. */
  lemma EvictionExample(a: LogLine, b: LogLine, c: LogLine, d: LogLine)
    ensures PushAll([], 3, [a, b, c, d]) == [b, c, d]
  {
    var ts := [a, b, c, d];
    PushAllKeepsNewest([], 3, ts);
    assert [] + ts == ts;
    assert ts[1..] == [b, c, d];
  }

  /**
   * A bounded log with a scroll position. `autoScroll` keeps the view on the
   * newest line as lines arrive; scrolling up turns it off, scrolling back
   * down to the last line turns it on again.
   */
  class LogBuffer {
    var lines: seq<LogLine>
    var scrollOffset: nat
    var autoScroll: bool
    const maxLines: nat

    /** Never more lines than the capacity, and the scroll position on a line (or 0 when empty). */
    ghost predicate Valid()
      reads this
    {
      |lines| <= maxLines && scrollOffset <= SaturatingSub(|lines|, 1)
    }

    constructor (maxLines: nat)
      ensures this.maxLines == maxLines && lines == [] && scrollOffset == 0 && autoScroll
      ensures Valid()
    {
      this.maxLines := maxLines;
      lines := [];
      scrollOffset := 0;
      autoScroll := true;
    }

    /**
     * Appends a line, evicting the oldest when full; an eviction moves the
     * view up by one line, and auto-scroll then moves it to the new last line.
     */
    method Push(text: string, isStderr: bool)
      requires Valid() && maxLines >= 1
      modifies this`lines, this`scrollOffset
      ensures Valid()
      ensures lines == PushLines(old(lines), maxLines, LogLine(text, isStderr))
      ensures autoScroll ==> scrollOffset == |lines| - 1
      ensures !autoScroll ==>
        scrollOffset == if |old(lines)| >= maxLines then SaturatingSub(old(scrollOffset), 1) else old(scrollOffset)
    {
      if |lines| >= maxLines {
        lines := lines[1..];
        scrollOffset := SaturatingSub(scrollOffset, 1);
      }
      lines := lines + [LogLine(text, isStderr)];
      if autoScroll {
        ScrollToBottom();
      }
    }

    method ScrollToBottom()
      modifies this`scrollOffset
      ensures scrollOffset == SaturatingSub(|lines|, 1)
      ensures |lines| <= maxLines ==> Valid()
    {
      scrollOffset := SaturatingSub(|lines|, 1);
    }

    /** Drops every line and moves the view to the top; auto-scroll is left as it was. */
    method Clear()
      modifies this`lines, this`scrollOffset
      ensures lines == [] && scrollOffset == 0
      ensures Valid()
    {
      lines := [];
      scrollOffset := 0;
    }

    method ScrollUp(amount: nat)
      requires Valid()
      modifies this`scrollOffset, this`autoScroll
      ensures scrollOffset == SaturatingSub(old(scrollOffset), amount) && !autoScroll
      ensures Valid()
    {
      scrollOffset := SaturatingSub(scrollOffset, amount);
      autoScroll := false;
    }

    /** Moves the view down, stopping at the last line; reaching it turns auto-scroll on. */
    method ScrollDown(amount: nat)
      requires Valid()
      modifies this`scrollOffset, this`autoScroll
      ensures scrollOffset == Min(old(scrollOffset) + amount, SaturatingSub(|lines|, 1))
      ensures autoScroll == (scrollOffset == SaturatingSub(|lines|, 1) || old(autoScroll))
      ensures Valid()
    {
      scrollOffset := Min(scrollOffset + amount, SaturatingSub(|lines|, 1));
      if scrollOffset >= SaturatingSub(|lines|, 1) {
        autoScroll := true;
      }
    }

    method ScrollToTop()
      modifies this`scrollOffset, this`autoScroll
      ensures scrollOffset == 0 && !autoScroll
      ensures |lines| <= maxLines ==> Valid()
    {
      scrollOffset := 0;
      autoScroll := false;
    }
  }

  // ----- Backend build states and the application state -----

  datatype BuildStatus =
    | NotNeeded
    | NotBuilt
    | Built(artifactPath: string, modified: Option<string>)
    | Building
    | BuildFailed(exitCode: Option<int>)

  datatype BackendState = BackendState(backend: Backend, buildStatus: BuildStatus, depsSatisfied: bool)

  /** The initial state of one backend: not built yet if it needs a build, nothing to build otherwise. */
  function InitialState(b: Backend): BackendState
  {
    BackendState(b, if NeedsBuild(b) then NotBuilt else NotNeeded, false)
  }

  /** One initial state per available backend, in menu order. */
  function NewBackendStates(p: Platform): (r: seq<BackendState>)
    ensures |r| == |AvailableOn(p)|
    ensures forall i :: 0 <= i < |r| ==>
      && r[i].backend == AvailableOn(p)[i]
      && (r[i].buildStatus == NotBuilt <==> NeedsBuild(r[i].backend))
      && (r[i].buildStatus == NotNeeded <==> !NeedsBuild(r[i].backend))
      && !r[i].depsSatisfied
  {
    var bs := AvailableOn(p);
    seq(|bs|, i requires 0 <= i < |bs| => InitialState(bs[i]))
  }

  function Backends(states: seq<BackendState>): (r: seq<Backend>)
    ensures |r| == |states| && forall i :: 0 <= i < |r| ==> r[i] == states[i].backend
  {
    seq(|states|, i requires 0 <= i < |states| => states[i].backend)
  }

  /** The backends that can run examples: all but the WASM export, in their order. */
  function RunnableBackends(states: seq<BackendState>): (r: seq<BackendState>)
    ensures forall x :: x in r <==> x in states && x.backend != WasmExport
    ensures |r| <= |states|
    ensures (forall i :: 0 <= i < |states| ==> states[i].backend != WasmExport) ==> r == states
    decreases |states|
  {
    if |states| == 0 then []
    else
      var init := RunnableBackends(states[..|states| - 1]);
      var last := states[|states| - 1];
      assert states == states[..|states| - 1] + [last];
      if last.backend.WasmExport? then init else init + [last]
  }

  /** The filter works state by state: a single state is kept exactly when it is not the WASM export. */
  lemma RunnableSingle(x: BackendState)
    ensures RunnableBackends([x]) == if x.backend == WasmExport then [] else [x]
  {
    assert [x][..0] == [];
  }

  /**
   * Filtering a concatenation filters each part, so the runnable backends
   * keep their order and each state appears as often as in the input.
   */
  lemma {:induction false} RunnableConcat(s: seq<BackendState>, t: seq<BackendState>)
    ensures RunnableBackends(s + t) == RunnableBackends(s) + RunnableBackends(t)
    decreases |t|
  {
    if |t| == 0 {
      assert s + t == s;
    } else {
      var init := t[..|t| - 1];
      var last := t[|t| - 1];
      assert (s + t)[..|s + t| - 1] == s + init;
      assert (s + t)[|s + t| - 1] == last;
      RunnableConcat(s, init);
    }
  }

  /** On every platform three backends can run examples: OpenGL, the native API, WebGPU. */
  lemma {:induction false} RunnableOnPlatform(p: Platform)
    ensures Backends(RunnableBackends(NewBackendStates(p)))
         == [OpenGL, if SupportsMetal(p) then Metal else Vulkan, WebGPU]
  {
    var s := NewBackendStates(p);
    NativeSecond(p);
    var a, b, c, d := s[0], s[1], s[2], s[3];
    assert a.backend == OpenGL && b.backend == (if SupportsMetal(p) then Metal else Vulkan);
    assert c.backend == WebGPU && d.backend == WasmExport;
    FourElements(s);
    RunnableOfFour(a, b, c, d);
  }

  /** Four states of which only the last is the WASM export: the first three stay, in order. */
  lemma RunnableOfFour(a: BackendState, b: BackendState, c: BackendState, d: BackendState)
    requires a.backend != WasmExport && b.backend != WasmExport && c.backend != WasmExport
    requires d.backend == WasmExport
    ensures RunnableBackends([a, b, c, d]) == [a, b, c]
  {
    assert RunnableBackends([a]) == [a] by {
      RunnableSingle(a);
    }
    assert RunnableBackends([a, b]) == [a, b] by {
      assert [a, b][..1] == [a];
    }
    assert RunnableBackends([a, b, c]) == [a, b, c] by {
      assert [a, b, c][..2] == [a, b];
    }
    assert [a, b, c, d][..3] == [a, b, c];
  }

  /** The second backend offered is the platform's native API. */
  lemma NativeSecond(p: Platform)
    ensures AvailableOn(p)[1] == if SupportsMetal(p) then Metal else Vulkan
  {
    var r := AvailableOn(p);
    assert r[2] == WebGPU && r[3] == WasmExport;
    if SupportsMetal(p) {
      var k :| 0 <= k < |r| && r[k] == Metal;
    } else {
      var k :| 0 <= k < |r| && r[k] == Vulkan;
    }
  }

  lemma FourElements<T>(s: seq<T>)
    requires |s| == 4
    ensures s == [s[0], s[1], s[2], s[3]]
  {
  }

  /** The part of the application state built at start-up. */
  class AppState {
    const platform: Platform
    var activeTab: Tab
    var backends: seq<BackendState>
    const buildLog: LogBuffer
    const runLog: LogBuffer
    const setupLog: LogBuffer
    const testLog: LogBuffer

    constructor (platform: Platform)
      ensures this.platform == platform && activeTab == Dashboard
      ensures backends == NewBackendStates(platform)
      ensures fresh(buildLog) && fresh(runLog) && fresh(setupLog) && fresh(testLog)
      ensures buildLog.maxLines == 5000 && runLog.maxLines == 5000 && setupLog.maxLines == 5000
      ensures testLog.maxLines == 10000
      ensures buildLog.Valid() && runLog.Valid() && setupLog.Valid() && testLog.Valid()
    {
      var build := new LogBuffer(5000);
      var run := new LogBuffer(5000);
      var setup := new LogBuffer(5000);
      var test := new LogBuffer(10000);
      assert build.Valid() && run.Valid() && setup.Valid() && test.Valid();
      this.platform := platform;
      activeTab := Dashboard;
      buildLog, runLog, setupLog, testLog := build, run, setup, test;
      backends := NewBackendStates(platform);
    }
  }
}
