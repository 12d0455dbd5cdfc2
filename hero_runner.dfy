/** The hero card's simulated agent run (`HeroAgentRunner`): six tasks that
    become running and then done one tick at a time, and a log that shows
    the last six of eight cycling lines. Each interval's firing is a method;
    the delayed reset is a count of scheduled timeouts and a method for one
    of them firing. */
module HeroRunner {
  import opened JsText

  datatype TaskStatus = Queued | Running | Done

  datatype Task = Task(id: int, name: string, status: TaskStatus)

  const InitialTasks: seq<Task> := [
    Task(1, "Analyzing requirements", Queued),
    Task(2, "Designing solution architecture", Queued),
    Task(3, "Building RAG knowledge base", Queued),
    Task(4, "Implementing automations", Queued),
    Task(5, "Deploying to production", Queued),
    Task(6, "Monitoring & optimizing", Queued)
  ]

  const LogLines: seq<string> := [
    "[agent] Initializing workflow...",
    "[agent] tool: web_search \U{2192} found 12 results",
    "[agent] tool: analyze_data \U{2192} processing...",
    "[agent] tool: code_gen \U{2192} generating module",
    "[agent] result: validation passed \U{2713}",
    "[agent] tool: deploy \U{2192} staging environment",
    "[agent] result: all tests passing",
    "[agent] status: workflow complete"
  ]

  const ReducedMotionLog: string := "[agent] Workflow completed successfully \U{2713}"

  /** The number of log lines kept on screen. */
  const LogWindow: nat := 6

  /** The task tick's `map` at index `i`: tasks before `i` done, task `i`
      running, later ones queued; ids and names kept. */
  function WithStatuses(prev: seq<Task>, i: int): (r: seq<Task>)
    ensures |r| == |prev|
    ensures forall k :: 0 <= k < |r| ==>
      && r[k].id == prev[k].id && r[k].name == prev[k].name
      && r[k].status == (if k < i then Done else if k == i then Running else Queued)
  {
    seq(|prev|, k requires 0 <= k < |prev| => prev[k].(status := if k < i then Done else if k == i then Running else Queued))
  }

  /** A tick's statuses depend on the index alone, not on the earlier statuses. */
  lemma StatusesOverwrite(prev: seq<Task>, j: int, i: int)
    ensures WithStatuses(WithStatuses(prev, j), i) == WithStatuses(prev, i)
  {
    var a := WithStatuses(WithStatuses(prev, j), i);
    var b := WithStatuses(prev, i);
    assert |a| == |b|;
    forall k | 0 <= k < |a| ensures a[k] == b[k] {
    }
  }

  /** The initial list is the list of statuses before the first task starts. */
  lemma InitialIsBeforeFirst(initial: seq<Task>)
    requires forall k :: 0 <= k < |initial| ==> initial[k].status == Queued
    ensures WithStatuses(initial, -1) == initial
  {
    var a := WithStatuses(initial, -1);
    forall k | 0 <= k < |initial| ensures a[k] == initial[k] {
    }
  }

  /** At most one task is running after any tick. */
  lemma AtMostOneRunning(prev: seq<Task>, i: int)
    ensures forall j, k :: 0 <= j < k < |prev| ==>
      !(WithStatuses(prev, i)[j].status == Running && WithStatuses(prev, i)[k].status == Running)
  {
  }

  /** The log index after `i`: `(prev + 1) % 8`. */
  function Next(i: int): (r: int)
    ensures 0 <= r < 8
  {
    (i + 1) % 8
  }

  /** The log index before `i` in the eight-line cycle. */
  function Prev(i: int): (r: int)
    requires 0 <= i < 8
    ensures 0 <= r < 8 && Next(r) == i
  {
    if i == 0 then 7 else i - 1
  }

  /** The `n` consecutive lines of the cycle that end with line `newest`. */
  function Window(lines: seq<string>, newest: int, n: nat): (r: seq<string>)
    requires |lines| == 8 && 0 <= newest < 8
    ensures |r| == n
    ensures n > 0 ==> r[n - 1] == lines[newest]
    decreases n
  {
    if n == 0 then [] else Window(lines, Prev(newest), n - 1) + [lines[newest]]
  }

  /** Dropping the oldest line of a window leaves the window one shorter. */
  lemma {:induction false} DropOldest(lines: seq<string>, newest: int, n: nat)
    requires |lines| == 8 && 0 <= newest < 8 && n >= 1
    ensures Window(lines, newest, n)[1..] == Window(lines, newest, n - 1)
    decreases n
  {
    if n > 1 {
      var p := Prev(newest);
      DropOldest(lines, p, n - 1);
      assert Window(lines, newest, n)[1..] == Window(lines, p, n - 1)[1..] + [lines[newest]];
    }
  }

  /** A window, once the next line is appended and all but the last six are
      dropped, is the window ending at the next line. */
  lemma LogAdvance(lines: seq<string>, li: int, n: nat)
    requires |lines| == 8 && 0 <= li < 8 && 1 <= n <= LogWindow
    ensures var m := if n < LogWindow then n + 1 else LogWindow;
      TakeLast(Window(lines, li, n) + [lines[Next(li)]], LogWindow) == Window(lines, Next(li), m)
  {
    var next := Next(li);
    assert Prev(next) == li;
    var grown := Window(lines, li, n) + [lines[next]];
    assert grown == Window(lines, next, n + 1);
    if n == LogWindow {
      DropOldest(lines, next, n + 1);
      assert TakeLast(grown, LogWindow) == grown[1..];
    }
  }

  class Runner {
    const reducedMotion: bool
    /** The task list the component resets to: `INITIAL_TASKS`. */
    const initialTasks: seq<Task>
    /** The cycle of log lines: `LOG_LINES`. */
    const lines: seq<string>
    var tasks: seq<Task>
    var taskIndex: nat
    var logs: seq<string>
    var logIndex: nat
    /** The reset timeouts scheduled and not yet fired. */
    var pendingResets: nat

    ghost predicate Valid()
      reads this
    {
      && |initialTasks| == 6
      && (forall k :: 0 <= k < |initialTasks| ==> initialTasks[k].status == Queued)
      && |lines| == 8
      && taskIndex <= 6
      && (tasks == WithStatuses(initialTasks, taskIndex - 1)
          || (taskIndex == 6 && tasks == WithStatuses(initialTasks, 6)))
      && logIndex < 8
      && 1 <= |logs| <= LogWindow
      && logs == Window(lines, logIndex, |logs|)
    }

    /** The component on mount. */
    constructor (reducedMotion: bool)
      ensures Valid() && this.reducedMotion == reducedMotion
      ensures initialTasks == InitialTasks && lines == LogLines
      ensures tasks == InitialTasks && taskIndex == 0 && logs == [LogLines[0]] && logIndex == 0
      ensures pendingResets == 0
    {
      this.reducedMotion := reducedMotion;
      initialTasks, lines := InitialTasks, LogLines;
      tasks, taskIndex := InitialTasks, 0;
      logs, logIndex := [LogLines[0]], 0;
      pendingResets := 0;
      InitialIsBeforeFirst(InitialTasks);
    }

    /** `resetAnimation`: the six queued tasks, index 0, the first log line
        alone and log index 0. */
    method ResetAnimation()
      requires Valid()
      modifies this
      ensures Valid()
      ensures tasks == initialTasks && taskIndex == 0 && logs == [lines[0]] && logIndex == 0
      ensures pendingResets == old(pendingResets)
    {
      tasks, taskIndex := initialTasks, 0;
      logs, logIndex := [lines[0]], 0;
      InitialIsBeforeFirst(initialTasks);
    }

    /** One of the scheduled reset timeouts fires. */
    method ResetTimerFires()
      requires Valid() && pendingResets > 0
      modifies this
      ensures Valid()
      ensures tasks == initialTasks && taskIndex == 0 && logs == [lines[0]] && logIndex == 0
      ensures pendingResets == old(pendingResets) - 1
    {
      ResetAnimation();
      pendingResets := pendingResets - 1;
    }

    /** The task interval fires (there is none under reduced motion): the
        statuses are derived from the index the tick started at, and the
        index moves on by one up to 6; a tick at 6 keeps it and schedules a
        reset. */
    method TaskTick()
      requires Valid()
      modifies this
      ensures Valid()
      ensures reducedMotion ==> tasks == old(tasks) && taskIndex == old(taskIndex) && pendingResets == old(pendingResets)
      ensures !reducedMotion ==>
        && tasks == WithStatuses(old(tasks), old(taskIndex))
        && taskIndex == (if old(taskIndex) < 6 then old(taskIndex) + 1 else old(taskIndex))
        && pendingResets == old(pendingResets) + (if old(taskIndex) == 6 then 1 else 0)
      ensures logs == old(logs) && logIndex == old(logIndex)
    {
      if reducedMotion {
        return;
      }
      var i := taskIndex;
      StatusesOverwrite(initialTasks, i - 1, i);
      StatusesOverwrite(initialTasks, 6, i);
      tasks := WithStatuses(tasks, i);
      if i + 1 > |initialTasks| {
        pendingResets := pendingResets + 1;
      } else {
        taskIndex := i + 1;
      }
    }

    /** The log interval fires (there is none under reduced motion): the
        index advances mod 8 and the next line is appended, keeping the last six. */
    method LogTick()
      requires Valid()
      modifies this
      ensures Valid()
      ensures reducedMotion ==> logs == old(logs) && logIndex == old(logIndex)
      ensures !reducedMotion ==>
        && logIndex == (old(logIndex) + 1) % 8
        && logs == TakeLast(old(logs) + [lines[(old(logIndex) + 1) % 8]], LogWindow)
      ensures logs[|logs| - 1] == lines[logIndex]
      ensures tasks == old(tasks) && taskIndex == old(taskIndex) && pendingResets == old(pendingResets)
    {
      if reducedMotion {
        return;
      }
      var li := logIndex;
      LogAdvance(lines, li, |logs|);
      logs := TakeLast(logs + [lines[(li + 1) % 8]], LogWindow);
      logIndex := (li + 1) % 8;
    }

    /** The tasks shown: all done under reduced motion. */
    function DisplayTasks(): (r: seq<Task>)
      reads this
      ensures reducedMotion ==> r == WithStatuses(initialTasks, |initialTasks|) && forall k :: 0 <= k < |r| ==> r[k].status == Done
      ensures !reducedMotion ==> r == tasks
    {
      var initial := initialTasks;
      if reducedMotion then seq(|initial|, k requires 0 <= k < |initial| => initial[k].(status := Done)) else tasks
    }

    /** The log shown: one fixed line under reduced motion. */
    function DisplayLogs(): (r: seq<string>)
      reads this
      ensures reducedMotion ==> r == [ReducedMotionLog]
      ensures !reducedMotion ==> r == logs
    {
      if reducedMotion then [ReducedMotionLog] else logs
    }
  }

  /** Under the invariant the newest log line is the line at the log index,
      the log never holds more than six lines, and at most one task is running. */
  lemma ValidRunnerShape(r: Runner)
    requires r.Valid()
    ensures r.logs[|r.logs| - 1] == r.lines[r.logIndex]
    ensures |r.logs| <= 6 && r.logIndex < 8 && |r.tasks| == 6
    ensures forall j, k :: 0 <= j < k < |r.tasks| ==> !(r.tasks[j].status == Running && r.tasks[k].status == Running)
  {
  }
}
