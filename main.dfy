/**
 * The job runner: it runs named jobs in order, logging "Executing <name>"
 * before each, and stops at the first job that fails, reporting that
 * failure under the job's name.
 */
module Main {
  import opened Outcomes
  import JourneyMapping

  /** A job as the runner sees it: its name and the error its Run returns when called (None for nil). */
  datatype Runner = Runner(name: string, outcome: Option<string>)

  /** What the runner does, in order: a line written to the process log, or a call of the runner at an index. */
  datatype Event = Logged(line: string) | Invoked(index: nat)

  function ExecutingLine(name: string): string {
    "Executing " + name
  }

  /** The error the runner reports for a job that failed. */
  function RunnerFailure(name: string, cause: string): string {
    "Failed to execute runner " + name + ": " + cause
  }

  /** The index of the first runner whose Run fails, or |runners| when none fails. */
  function FirstFailedRunner(runners: seq<Runner>): (k: nat)
    ensures k <= |runners|
    ensures forall i :: 0 <= i < k ==> runners[i].outcome.None?
    ensures k < |runners| ==> runners[k].outcome.Some?
  {
    if runners == [] || runners[0].outcome.Some? then 0 else 1 + FirstFailedRunner(runners[1..])
  }

  /** How many runners are executed: all of them, or those up to and including the first that fails. */
  function Executed(runners: seq<Runner>): (n: nat)
    ensures n <= |runners|
  {
    var k := FirstFailedRunner(runners);
    if k < |runners| then k + 1 else k
  }

  /** The events of executing the first n runners: for each, its log line and then its call. */
  function Trace(runners: seq<Runner>, n: nat): seq<Event>
    requires n <= |runners|
  {
    if n == 0 then []
    else Trace(runners, n - 1) + [Logged(ExecutingLine(runners[n - 1].name)), Invoked(n - 1)]
  }

  /** Runner i's log line comes right before its call, and the calls follow the argument order. */
  lemma {:induction false} TraceShape(runners: seq<Runner>, n: nat)
    requires n <= |runners|
    ensures |Trace(runners, n)| == 2 * n
    ensures forall i :: 0 <= i < n ==>
              Trace(runners, n)[2 * i] == Logged(ExecutingLine(runners[i].name)) &&
              Trace(runners, n)[2 * i + 1] == Invoked(i)
  {
    if n > 0 {
      TraceShape(runners, n - 1);
    }
  }

  /** Only the runners among the first n are called in the trace of the first n. */
  lemma {:induction false} InvokedBelow(runners: seq<Runner>, n: nat, j: nat)
    requires n <= |runners|
    requires Invoked(j) in Trace(runners, n)
    ensures j < n
  {
    if n > 0 && Invoked(j) != Invoked(n - 1) {
      assert Invoked(j) in Trace(runners, n - 1);
      InvokedBelow(runners, n - 1, j);
    }
  }

  /** A runner is called only if every runner before it succeeded. */
  lemma NoCallAfterFailure(runners: seq<Runner>, j: nat)
    requires Invoked(j) in Trace(runners, Executed(runners))
    ensures j < |runners|
    ensures forall i :: 0 <= i < j ==> runners[i].outcome.None?
  {
    InvokedBelow(runners, Executed(runners), j);
  }

  /**
   * Runs the jobs in argument order, logging each one's name before calling
   * it, and returns at the first failure with that failure wrapped in the
   * job's name; nil when every job succeeds (in particular for no jobs).
   */
  method Run(runners: seq<Runner>) returns (err: Option<string>, trace: seq<Event>)
    ensures err.None? <==> forall i :: 0 <= i < |runners| ==> runners[i].outcome.None?
    ensures err.Some? ==>
              var k := FirstFailedRunner(runners);
              k < |runners| && err == Some(RunnerFailure(runners[k].name, runners[k].outcome.value))
    ensures trace == Trace(runners, Executed(runners))
  {
    trace := [];
    var i := 0;
    while i < |runners|
      invariant i <= FirstFailedRunner(runners)
      invariant trace == Trace(runners, i)
    {
      var r := runners[i];
      trace := trace + [Logged(ExecutingLine(r.name))];
      trace := trace + [Invoked(i)];
      if r.outcome.Some? {
        return Some(RunnerFailure(r.name, r.outcome.value)), trace;
      }
      i := i + 1;
    }
    err := None;
  }

  /** The journey mapper as a runner: its name and the error its Run returns. */
  function MapperRunner(mapper: JourneyMapping.JourneyMapper, parse: JourneyMapping.Parser, glob: Result<seq<string>>,
                        openErr: Option<string>, encodeErr: Option<string>): Runner
  {
    Runner(mapper.Name(), JourneyMapping.BuildError(parse, glob, openErr, encodeErr))
  }

  /**
   * The program runs the journey mapper alone: when a candidate fails to
   * parse, the process reports the job's name, the path and the parser's cause.
   */
  lemma ReportsParseFailure(mapper: JourneyMapping.JourneyMapper, parse: JourneyMapping.Parser, glob: Result<seq<string>>,
                            openErr: Option<string>, encodeErr: Option<string>)
    requires JourneyMapping.FirstFailure(parse, JourneyMapping.Candidates(glob)) < |JourneyMapping.Candidates(glob)|
    ensures var runners := [MapperRunner(mapper, parse, glob, openErr, encodeErr)];
            var paths := JourneyMapping.Candidates(glob);
            var k := JourneyMapping.FirstFailure(parse, paths);
            FirstFailedRunner(runners) == 0 &&
            RunnerFailure(runners[0].name, runners[0].outcome.value)
              == "Failed to execute runner journey mapper: Failed to parse " + paths[k] + ": " + parse(paths[k]).error
  {
    JourneyMapping.ParseFailureStopsBeforeOutput(parse, glob, openErr, encodeErr);
  }
}
