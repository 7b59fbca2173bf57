/**
 * The fail-fast command runner shared by both provisioning scripts (`run` in
 * setup.py, `run_command` in install.py). The observable behaviour of the
 * orchestrator process is a trace of events; the exit codes of the children
 * it starts come from an oracle, since nothing here runs a shell.
 */
module Runner {

  import opened Wrappers
  import Text

  /** One command handed to the shell and the working directory it runs in (None: the orchestrator's own). */
  datatype Step = Step(cmd: string, cwd: Option<string>)

  /** What the orchestrator does that can be observed, in order. */
  datatype Event =
    | Echo(cmd: string)              // EchoLine(variant, cmd) printed on standard output before the command starts
    | Spawn(step: Step)              // a child shell started for a step
    | Report(cmd: string, code: int) // FailureLine(variant, cmd, code) written to standard error before the process exits

  /** `run` of setup.py or `run_command` of install.py. */
  datatype Variant = SetupPy | InstallPy

  /** The exit code of the child started for `step` when `n` children have been started before it. */
  type ExitOracle = (nat, Step) -> int

  /** Exit status of the orchestrator after a failed command: `SystemExit(<message>)` and `sys.exit(1)` both give 1. */
  const FAILURE_STATUS := 1

  /** What the runner prints before starting `cmd`. */
  function EchoLine(v: Variant, cmd: string): (r: string)
    ensures |cmd| <= |r| && r[|r| - |cmd|..] == cmd
  {
    match v
    case SetupPy => "\n$ " + cmd
    case InstallPy => "[CMD] " + cmd
  }

  /** What the runner writes to standard error when `cmd` exits with `code`. */
  function FailureLine(v: Variant, cmd: string, code: int): (r: string)
    ensures v == SetupPy ==> |cmd| <= |r| && r[|r| - |cmd|..] == cmd
    ensures v == InstallPy ==> 16 + |cmd| < |r| && r[16..16 + |cmd|] == cmd && r[16 + |cmd|] == '\''
  {
    match v
    case SetupPy => "[ERROR] Command failed: " + cmd
    case InstallPy => "Error: Command '" + cmd + "' failed with exit code " + Text.Decimal(code)
  }

  /** The events of one call of the runner whose child exits with `code`. */
  function StepTrace(v: Variant, s: Step, code: int): seq<Event>
  {
    [Echo(s.cmd), Spawn(s)] + (if code == 0 then [] else [Report(s.cmd, code)])
  }

  datatype Outcome = Outcome(trace: seq<Event>, status: int)

  /**
   * Reference semantics of issuing `plan` through the runner when `n` children
   * have already been started: every step is echoed and started in order, and
   * the first non-zero exit code ends the orchestrator with FAILURE_STATUS.
   */
  function Execute(v: Variant, plan: seq<Step>, exitCode: ExitOracle, n: nat): (r: Outcome)
    ensures r.status == 0 || r.status == FAILURE_STATUS
    decreases |plan|
  {
    if plan == [] then Outcome([], 0)
    else
      var code := exitCode(n, plan[0]);
      if code != 0 then Outcome(StepTrace(v, plan[0], code), FAILURE_STATUS)
      else
        var rest := Execute(v, plan[1..], exitCode, n + 1);
        Outcome(StepTrace(v, plan[0], 0) + rest.trace, rest.status)
  }

  /** The echo names the command; so does the failure line, and install.py's also carries the child's exit code. */
  lemma LinesNameCommand(v: Variant, cmd: string, code: int)
    ensures Text.Strip(EchoLine(v, cmd), if v == SetupPy then "\n$ " else "[CMD] ", "") == Some(cmd)
    ensures v == SetupPy ==> Text.Strip(FailureLine(v, cmd, code), "[ERROR] Command failed: ", "") == Some(cmd)
    ensures v == InstallPy ==>
      var d := Text.Strip(FailureLine(v, cmd, code), "Error: Command '" + cmd + "' failed with exit code ", "");
      d.Some? && Text.ParseInt(d.value) == code
  {
    Text.StripWrapped(if v == SetupPy then "\n$ " else "[CMD] ", cmd, "");
    assert EchoLine(v, cmd) == (if v == SetupPy then "\n$ " else "[CMD] ") + cmd + "";
    if v == SetupPy {
      Text.StripWrapped("[ERROR] Command failed: ", cmd, "");
      assert FailureLine(v, cmd, code) == "[ERROR] Command failed: " + cmd + "";
    } else {
      var pre := "Error: Command '" + cmd + "' failed with exit code ";
      Text.StripWrapped(pre, Text.Decimal(code), "");
      assert FailureLine(v, cmd, code) == pre + Text.Decimal(code) + "";
      Text.DecimalRoundTrip(code);
    }
  }

  /** The steps a trace started, in the order they were started. */
  function Issued(trace: seq<Event>): (r: seq<Step>)
    ensures |r| <= |trace|
    decreases |trace|
  {
    if trace == [] then []
    else (if trace[0].Spawn? then [trace[0].step] else []) + Issued(trace[1..])
  }

  lemma {:induction false} IssuedAppend(a: seq<Event>, b: seq<Event>)
    ensures Issued(a + b) == Issued(a) + Issued(b)
    decreases |a|
  {
    if a == [] {
      assert a + b == b;
    } else {
      var ab := a + b;
      assert ab[0] == a[0];
      assert ab[1..] == a[1..] + b;
      IssuedAppend(a[1..], b);
    }
  }

  lemma IssuedStepTrace(v: Variant, s: Step, code: int)
    ensures Issued(StepTrace(v, s, code)) == [s]
  {
    var tail: seq<Event> := if code == 0 then [] else [Report(s.cmd, code)];
    var t := StepTrace(v, s, code);
    assert Issued(tail) == [] by {
      if tail != [] {
        assert tail[1..] == [];
      }
    }
    assert t[1..] == [Spawn(s)] + tail;
    assert t[1..][1..] == tail;
    assert Issued(t[1..]) == [s] + Issued(tail);
  }

  /**
   * An independent description of where a run stops: the index of the first
   * step of `plan` whose child exits non-zero, if any.
   */
  function FirstFailure(plan: seq<Step>, exitCode: ExitOracle, n: nat): (r: Option<nat>)
    ensures r.Some? ==> r.value < |plan| && exitCode(n + r.value, plan[r.value]) != 0
    ensures forall j :: 0 <= j < |plan| && (r.None? || j < r.value) ==> exitCode(n + j, plan[j]) == 0
    decreases |plan|
  {
    if plan == [] then None
    else if exitCode(n, plan[0]) != 0 then Some(0)
    else
      var r := FirstFailure(plan[1..], exitCode, n + 1);
      assert forall j :: 1 <= j < |plan| ==> plan[j] == plan[1..][j - 1];
      match r
      case None => None
      case Some(k) => Some(k + 1)
  }

  lemma PrefixCons(plan: seq<Step>, k: nat)
    requires k < |plan|
    ensures plan[..k + 1] == [plan[0]] + plan[1..][..k]
  {
  }

  /** An unconditional run: when no step fails, every step of the plan is issued once, in order, and the exit status is 0. */
  lemma {:induction false} CompletesWithoutFailure(v: Variant, plan: seq<Step>, exitCode: ExitOracle, n: nat)
    requires FirstFailure(plan, exitCode, n).None?
    ensures Issued(Execute(v, plan, exitCode, n).trace) == plan
    ensures Execute(v, plan, exitCode, n).status == 0
    decreases |plan|
  {
    if plan != [] {
      var head := StepTrace(v, plan[0], 0);
      var rest := Execute(v, plan[1..], exitCode, n + 1);
      assert exitCode(n, plan[0]) == 0;
      assert FirstFailure(plan[1..], exitCode, n + 1).None?;
      CompletesWithoutFailure(v, plan[1..], exitCode, n + 1);
      IssuedStepTrace(v, plan[0], 0);
      IssuedAppend(head, rest.trace);
      assert plan == [plan[0]] + plan[1..];
    }
  }

  /**
   * Fail-fast: when step `k` is the first to fail, exactly the steps up to and
   * including it are issued, each once and in order, and the orchestrator
   * exits with FAILURE_STATUS.
   */
  lemma {:induction false} AbortsAtFirstFailure(v: Variant, plan: seq<Step>, exitCode: ExitOracle, n: nat, k: nat)
    requires FirstFailure(plan, exitCode, n) == Some(k)
    ensures k < |plan|
    ensures Issued(Execute(v, plan, exitCode, n).trace) == plan[..k + 1]
    ensures Execute(v, plan, exitCode, n).status == FAILURE_STATUS
    decreases |plan|
  {
    var code := exitCode(n, plan[0]);
    IssuedStepTrace(v, plan[0], code);
    if code == 0 {
      var head := StepTrace(v, plan[0], 0);
      var rest := Execute(v, plan[1..], exitCode, n + 1);
      assert Execute(v, plan, exitCode, n) == Outcome(head + rest.trace, rest.status);
      assert FirstFailure(plan[1..], exitCode, n + 1) == Some(k - 1);
      AbortsAtFirstFailure(v, plan[1..], exitCode, n + 1, k - 1);
      IssuedAppend(head, rest.trace);
      PrefixCons(plan, k);
    } else {
      assert Execute(v, plan, exitCode, n) == Outcome(StepTrace(v, plan[0], code), FAILURE_STATUS);
      PrefixCons(plan, 0);
    }
  }

  /** The last thing an aborted run does is report the failing command and its exit code. */
  lemma {:induction false} ReportsFailure(v: Variant, plan: seq<Step>, exitCode: ExitOracle, n: nat, k: nat)
    requires FirstFailure(plan, exitCode, n) == Some(k)
    ensures k < |plan|
    ensures var t := Execute(v, plan, exitCode, n).trace;
      t != [] && t[|t| - 1] == Report(plan[k].cmd, exitCode(n + k, plan[k]))
    decreases |plan|
  {
    var code := exitCode(n, plan[0]);
    if code != 0 {
      assert k == 0;
      assert StepTrace(v, plan[0], code) == [Echo(plan[0].cmd), Spawn(plan[0]), Report(plan[0].cmd, code)];
    } else {
      var rest := Execute(v, plan[1..], exitCode, n + 1);
      assert Execute(v, plan, exitCode, n) == Outcome(StepTrace(v, plan[0], 0) + rest.trace, rest.status);
      assert FirstFailure(plan[1..], exitCode, n + 1) == Some(k - 1);
      ReportsFailure(v, plan[1..], exitCode, n + 1, k - 1);
      assert plan[k] == plan[1..][k - 1] && n + 1 + (k - 1) == n + k;
      LastOfAppend(StepTrace(v, plan[0], 0), rest.trace);
    }
  }

  lemma LastOfAppend<T>(a: seq<T>, b: seq<T>)
    requires b != []
    ensures a + b != [] && (a + b)[|a + b| - 1] == b[|b| - 1]
  {
  }

  /** Whatever the exit codes, the steps issued are an initial part of the plan, in the plan's order. */
  lemma IssuedIsPrefix(v: Variant, plan: seq<Step>, exitCode: ExitOracle, n: nat)
    ensures Issued(Execute(v, plan, exitCode, n).trace) <= plan
    ensures forall s :: s in Issued(Execute(v, plan, exitCode, n).trace) ==> s in plan
  {
    match FirstFailure(plan, exitCode, n)
    case None => CompletesWithoutFailure(v, plan, exitCode, n);
    case Some(k) => AbortsAtFirstFailure(v, plan, exitCode, n, k);
  }

  /** A run in which every child succeeds issues the whole plan and exits 0. */
  lemma AllSucceed(v: Variant, plan: seq<Step>, exitCode: ExitOracle, n: nat)
    requires forall j :: 0 <= j < |plan| ==> exitCode(n + j, plan[j]) == 0
    ensures Issued(Execute(v, plan, exitCode, n).trace) == plan
    ensures Execute(v, plan, exitCode, n).status == 0
  {
    CompletesWithoutFailure(v, plan, exitCode, n);
  }

  /** A run whose steps before `k` succeed and whose step `k` fails issues exactly `plan[..k + 1]` and exits non-zero. */
  lemma StopsAt(v: Variant, plan: seq<Step>, exitCode: ExitOracle, n: nat, k: nat)
    requires k < |plan|
    requires forall j :: 0 <= j < k ==> exitCode(n + j, plan[j]) == 0
    requires exitCode(n + k, plan[k]) != 0
    ensures Issued(Execute(v, plan, exitCode, n).trace) == plan[..k + 1]
    ensures Execute(v, plan, exitCode, n).status == FAILURE_STATUS
  {
    var f := FirstFailure(plan, exitCode, n);
    assert f == Some(k);
    AbortsAtFirstFailure(v, plan, exitCode, n, k);
  }

  /** Every started step was echoed immediately before it was started. */
  ghost predicate EchoedFirst(t: seq<Event>)
  {
    forall i :: 0 <= i < |t| && t[i].Spawn? ==> 0 < i && t[i - 1] == Echo(t[i].step.cmd)
  }

  lemma {:induction false} EchoBeforeSpawn(v: Variant, plan: seq<Step>, exitCode: ExitOracle, n: nat)
    ensures EchoedFirst(Execute(v, plan, exitCode, n).trace)
    decreases |plan|
  {
    if plan != [] {
      var code := exitCode(n, plan[0]);
      if code == 0 {
        EchoBeforeSpawn(v, plan[1..], exitCode, n + 1);
        var head := StepTrace(v, plan[0], 0);
        var rest := Execute(v, plan[1..], exitCode, n + 1).trace;
        var t := head + rest;
        assert head == [Echo(plan[0].cmd), Spawn(plan[0])];
        assert rest == [] || rest[0].Echo?;
        forall i | 0 <= i < |t| && t[i].Spawn?
          ensures 0 < i && t[i - 1] == Echo(t[i].step.cmd)
        {
          assert t[i] == if i < 2 then head[i] else rest[i - 2];
          if i >= 3 {
            assert t[i - 1] == rest[i - 3];
          }
        }
      }
    }
  }

  /** What is left of a run once `done` has been written and `todo` remains, with `n` children started so far. */
  function Resume(v: Variant, exitCode: ExitOracle, done: seq<Event>, todo: seq<Step>, n: nat): Outcome
  {
    var r := Execute(v, todo, exitCode, n);
    Outcome(done + r.trace, r.status)
  }

  /** One step of a straight-line script: the outcome of the whole plan, rewritten after its next step. */
  lemma Advance(v: Variant, exitCode: ExitOracle, plan: seq<Step>, n0: nat, done: seq<Event>, todo: seq<Step>, n: nat)
    requires todo != []
    requires Execute(v, plan, exitCode, n0) == Resume(v, exitCode, done, todo, n)
    ensures exitCode(n, todo[0]) != 0 ==>
      Execute(v, plan, exitCode, n0) == Outcome(done + StepTrace(v, todo[0], exitCode(n, todo[0])), FAILURE_STATUS)
    ensures exitCode(n, todo[0]) == 0 ==>
      Execute(v, plan, exitCode, n0) == Resume(v, exitCode, done + StepTrace(v, todo[0], 0), todo[1..], n + 1)
  {
    var rest := Execute(v, todo[1..], exitCode, n + 1);
    assert done + (StepTrace(v, todo[0], 0) + rest.trace) == done + StepTrace(v, todo[0], 0) + rest.trace;
  }

  /**
   * Part way through a straight-line script whose plan is `plan`: the
   * process has written `t0` and then `done`, the first `k` steps have
   * succeeded, and the outcome of the whole plan is `done` followed by the
   * outcome of the steps that are left.
   */
  ghost predicate OnTrack(p: Process, plan: seq<Step>, n0: nat, t0: seq<Event>, done: seq<Event>, k: nat)
    reads p
  {
    && p.Valid() && k <= |plan| && p.trace == t0 + done
    && Execute(p.variant, plan, p.exitCode, n0) == Resume(p.variant, p.exitCode, done, plan[k..], p.spawned)
  }

  /** The script has stopped at a failure: after `t0` it has written the whole outcome of `plan`, which ends in failure. */
  ghost predicate Aborted(p: Process, plan: seq<Step>, n0: nat, t0: seq<Event>)
    reads p
  {
    && p.Valid() && p.trace == t0 + Execute(p.variant, plan, p.exitCode, n0).trace
    && Execute(p.variant, plan, p.exitCode, n0).status == FAILURE_STATUS
  }

  /** A script on track with every step done has written the whole outcome of its plan, which is a success. */
  lemma Completed(p: Process, plan: seq<Step>, n0: nat, t0: seq<Event>, done: seq<Event>)
    requires OnTrack(p, plan, n0, t0, done, |plan|)
    ensures p.trace == t0 + Execute(p.variant, plan, p.exitCode, n0).trace
    ensures Execute(p.variant, plan, p.exitCode, n0).status == 0
  {
    assert plan[|plan|..] == [] && done + [] == done;
  }

  /**
   * `Process.Run` as one line of a straight-line script: running the plan's
   * next step either keeps the script on track, one step further, or ends
   * it with the whole outcome of the plan written.
   */
  method RunNext(p: Process, s: Step, ghost plan: seq<Step>, ghost k: nat, ghost n0: nat, ghost t0: seq<Event>, ghost done: seq<Event>)
    returns (ok: bool, ghost done': seq<Event>)
    requires OnTrack(p, plan, n0, t0, done, k) && k < |plan| && plan[k] == s
    modifies p
    ensures ok ==> OnTrack(p, plan, n0, t0, done', k + 1)
    ensures !ok ==> Aborted(p, plan, n0, t0)
  {
    assert plan[k..][1..] == plan[k + 1..];
    Advance(p.variant, p.exitCode, plan, n0, done, plan[k..], p.spawned);
    ok := p.Run(s);
    done' := done + StepTrace(p.variant, s, 0);
  }

  /** The orchestrator process: what it has printed and started so far, and the exit codes its children will have. */
  class Process {
    const variant: Variant
    const exitCode: ExitOracle
    var trace: seq<Event>
    var spawned: nat

    /** The number of children started is the number of Spawn events in the trace. */
    ghost predicate Valid()
      reads this
    {
      spawned == |Issued(trace)|
    }

    constructor (variant: Variant, exitCode: ExitOracle)
      ensures Valid()
      ensures this.variant == variant && this.exitCode == exitCode
      ensures trace == [] && spawned == 0
    {
      this.variant := variant;
      this.exitCode := exitCode;
      trace := [];
      spawned := 0;
    }

    /**
     * The runner: echo the command, start it and wait for it; on a non-zero
     * exit code report the failure, and answer false so that the caller
     * terminates with FAILURE_STATUS.
     */
    method Run(s: Step) returns (ok: bool)
      requires Valid()
      modifies this
      ensures Valid()
      ensures spawned == old(spawned) + 1
      ensures ok <==> exitCode(old(spawned), s) == 0
      ensures trace == old(trace) + StepTrace(variant, s, exitCode(old(spawned), s))
    {
      IssuedStepTrace(variant, s, exitCode(spawned, s));
      IssuedAppend(trace, StepTrace(variant, s, exitCode(spawned, s)));
      trace := trace + [Echo(s.cmd)];
      var code := exitCode(spawned, s);
      trace := trace + [Spawn(s)];
      spawned := spawned + 1;
      ok := code == 0;
      if !ok {
        trace := trace + [Report(s.cmd, code)];
      }
      assert trace == old(trace) + StepTrace(variant, s, code);
    }
  }

}
