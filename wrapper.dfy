/**
 * The interception layer (wrapper.py): `run` replays a saved recording,
 * refuses an unrecorded command when blocking is on, or executes it, fills
 * the recording in and writes it; attribute lookup on the wrapper module
 * decides whether `run` is intercepted at all.
 */
module Wrapper {
  import opened Base
  import opened RecordingModel
  import opened Fuzzy
  import opened Store

  /** A keyword-argument value as far as `run` cares: `PIPE`, a flag, or anything the caller passed. */
  datatype KwValue = Pipe | Flag(on: bool) | Given(repr: string)

  type Kwargs = map<string, KwValue>

  /** One call of the original `subprocess.run`. */
  datatype Invocation = Invocation(args: seq<string>, otherArgs: seq<string>, stdin: Option<string>, kwargs: Kwargs)

  /** `subprocess.CompletedProcess` */
  datatype CompletedProcess = CompletedProcess(
    args: seq<string>,
    returncode: Option<int>,
    stdout: Option<string>,
    stderr: Option<string>)

  /** What a real execution gives back: its result and the microseconds it took. */
  datatype Execution = Execution(process: CompletedProcess, elapsed: int)

  /** The exceptions `run` raises itself. */
  datatype RunError =
    | Blocked(args: seq<string>)   // PVCRBlockedRunException("Blocked unrecorded command: ...")
    | DurationMissing              // TypeError: the replayed recording has no duration to wait for
    | NegativeSleep                // ValueError: the replayed duration is negative

  /** `dict.setdefault(key, value)` */
  function SetDefault(kw: Kwargs, key: string, value: KwValue): (r: Kwargs)
    ensures key in r && r.Keys == kw.Keys + {key}
    ensures r[key] == if key in kw then kw[key] else value
    ensures forall k :: k in kw ==> r[k] == kw[k]
  {
    if key in kw then kw else kw[key := value]
  }

  /**
   * The keyword arguments passed on to the real `run`: output is captured
   * when the caller redirected neither stream, and otherwise each stream the
   * caller left alone goes to `PIPE`.
   */
  function CaptureKwargs(kw: Kwargs): (r: Kwargs)
    ensures "stdout" !in kw && "stderr" !in kw ==>
      r.Keys == kw.Keys + {"capture_output"} && r["capture_output"] == Flag(true) &&
      forall k :: k in kw && k != "capture_output" ==> r[k] == kw[k]
    ensures "stdout" in kw || "stderr" in kw ==>
      && r.Keys == kw.Keys + {"stdout", "stderr"}
      && (forall k :: k in kw ==> r[k] == kw[k])
      && ("stdout" !in kw ==> r["stdout"] == Pipe)
      && ("stderr" !in kw ==> r["stderr"] == Pipe)
  {
    if "stdout" !in kw && "stderr" !in kw then kw["capture_output" := Flag(true)]
    else SetDefault(SetDefault(kw, "stdout", Pipe), "stderr", Pipe)
  }

  /** What `run` gives back for a saved recording, depending on whether it waits for the recorded duration. */
  function ReplayOutcome(f: Fields, doWait: bool): (r: Result<CompletedProcess, RunError>)
    ensures r.Success? ==> r.value == CompletedProcess(f.args, f.rc, f.stdout, f.stderr)
    ensures r.Failure? <==> doWait && (f.duration.None? || f.duration.value < 0)
  {
    if doWait && f.duration.None? then Failure(DurationMissing)
    else if doWait && f.duration.value < 0 then Failure(NegativeSleep)
    else Success(CompletedProcess(f.args, f.rc, f.stdout, f.stderr))
  }

  /**
   * The environment `run` reaches: the original `subprocess.run` (whose
   * result for the n-th call is `execute(n, invocation)`, its duration
   * included) and `time.sleep`. Both log their calls.
   */
  class Host {
    const execute: (nat, Invocation) -> Execution
    var runs: seq<Invocation>
    var sleeps: seq<int>

    constructor (execute: (nat, Invocation) -> Execution)
      ensures this.execute == execute && runs == [] && sleeps == []
    {
      this.execute := execute;
      runs := [];
      sleeps := [];
    }

    method Run(inv: Invocation) returns (ex: Execution)
      modifies this`runs
      ensures runs == old(runs) + [inv]
      ensures ex == execute(|old(runs)|, inv)
    {
      ex := execute(|runs|, inv);
      runs := runs + [inv];
    }

    /** `time.sleep`, in microseconds. */
    method Sleep(micros: int)
      modifies this`sleeps
      ensures sleeps == old(sleeps) + [micros]
    {
      sleeps := sleeps + [micros];
    }
  }

  /** The wrapper's class-level state: `pvcr_enabled`, `pvcr_do_wait`, `pvcr_block_run`, `pvcr_history`, `pvcr_orig_cls`. */
  class SubprocessWrapper {
    var enabled: bool
    var doWait: bool
    var blockRun: bool
    var store: Recordings
    const orig: Host

    /** The class defaults: disabled, waiting on replay, not blocking. */
    constructor (store: Recordings, orig: Host)
      ensures this.store == store && this.orig == orig
      ensures !enabled && doWait && !blockRun
    {
      this.store := store;
      this.orig := orig;
      enabled := false;
      doWait := true;
      blockRun := false;
    }

    /**
     * The intercepting `run`. The recording is made by the store's `append`,
     * which leaves it as the whole history, and looked up first; a saved one
     * is replayed without executing anything, an unsaved one is refused when
     * blocking is on, and otherwise the command really runs, the recording
     * takes its output, return code and duration, and is written once.
     */
    method Run(args: seq<string>, otherArgs: seq<string>, stdin: Option<string>, otherKwargs: Kwargs)
      returns (outcome: Result<CompletedProcess, RunError>, ghost recording: Recording, ghost replayed: bool)
      requires AllWellFormed(store.matchers)
      modifies store`history, store`file, orig`runs, orig`sleeps
      ensures fresh(recording) && store.history == [recording]
      ensures recording.args == NormalizeAll(args, store.matchers) && recording.stdin == stdin
      ensures recording.iteration == 1 + |old(Matching(store.history, NormalizeAll(args, store.matchers), stdin))|
      ensures var found := Lookup(old(store.file), NewKey(recording.args, stdin, recording.iteration));
        replayed == (found.Some? && store.mode != RecordAll)
      // a saved recording is replayed: nothing runs, nothing is written
      ensures replayed ==>
        && recording.Value() == Lookup(old(store.file), NewKey(recording.args, stdin, recording.iteration)).value
        && recording.saved
        && outcome == ReplayOutcome(recording.Value(), doWait)
        && store.file == old(store.file) && orig.runs == old(orig.runs)
        && orig.sleeps == old(orig.sleeps) + (if doWait && outcome.Success? then [recording.duration.value] else [])
      // an unsaved recording under blocking is refused: nothing runs, nothing is written
      ensures !replayed && (blockRun || store.blockUnrecorded) ==>
        && outcome == Failure(Blocked(args))
        && store.file == old(store.file) && orig.runs == old(orig.runs) && orig.sleeps == old(orig.sleeps)
      // otherwise the command runs once and its result is recorded and written
      ensures !replayed && !(blockRun || store.blockUnrecorded) ==>
        var inv := Invocation(args, otherArgs, stdin, CaptureKwargs(otherKwargs));
        var ex := orig.execute(|old(orig.runs)|, inv);
        && orig.runs == old(orig.runs) + [inv] && orig.sleeps == old(orig.sleeps)
        && outcome == Success(ex.process)
        && recording.Value() == Fields(recording.args, stdin, ex.process.stdout, ex.process.stderr,
                                       ex.process.returncode, Some(ex.elapsed), recording.iteration)
        && store.file == WriteFile(old(store.file), store.mode, recording.Value())
        && recording.saved == (store.mode != RecordNone)
    {
      var r := store.Append(args, stdin);
      recording := r;
      replayed := r.saved;

      if r.saved {
        outcome := Replay(r);
        return;
      }

      var shouldBlock := blockRun || store.blockUnrecorded;
      if shouldBlock {
        outcome := Failure(Blocked(args));
        return;
      }

      outcome := ExecuteAndRecord(r, args, otherArgs, stdin, otherKwargs);
    }

    /** Lines 33-43 of `run`: optionally wait for the recorded duration, then fabricate the result. */
    method Replay(r: Recording) returns (outcome: Result<CompletedProcess, RunError>)
      modifies orig`sleeps
      ensures outcome == ReplayOutcome(r.Value(), doWait)
      ensures orig.sleeps == old(orig.sleeps) + (if doWait && outcome.Success? then [r.duration.value] else [])
    {
      if doWait {
        if r.duration.None? {
          outcome := Failure(DurationMissing);
          return;
        }
        if r.duration.value < 0 {
          outcome := Failure(NegativeSleep);
          return;
        }
        orig.Sleep(r.duration.value);
      }
      outcome := Success(CompletedProcess(r.args, r.rc, r.stdout, r.stderr));
    }

    /** Lines 54-74 of `run`: execute for real, fill the recording in and write it. */
    method ExecuteAndRecord(r: Recording, args: seq<string>, otherArgs: seq<string>, stdin: Option<string>, otherKwargs: Kwargs)
      returns (outcome: Result<CompletedProcess, RunError>)
      modifies r, store`file, orig`runs
      ensures var inv := Invocation(args, otherArgs, stdin, CaptureKwargs(otherKwargs));
        var ex := orig.execute(|old(orig.runs)|, inv);
        && orig.runs == old(orig.runs) + [inv]
        && outcome == Success(ex.process)
        && r.Value() == old(r.Value()).(stdout := ex.process.stdout, stderr := ex.process.stderr,
                                          rc := ex.process.returncode, duration := Some(ex.elapsed))
        && store.file == WriteFile(old(store.file), store.mode, r.Value())
        && r.saved == (store.mode != RecordNone || old(r.saved))
    {
      var kw := otherKwargs;
      if "stdout" !in kw && "stderr" !in kw {
        kw := kw["capture_output" := Flag(true)];
      } else {
        kw := SetDefault(kw, "stdout", Pipe);
        kw := SetDefault(kw, "stderr", Pipe);
      }
      assert kw == CaptureKwargs(otherKwargs);
      var ex := orig.Run(Invocation(args, otherArgs, stdin, kw));

      ghost var before := r.Value();
      r.stdout := ex.process.stdout;
      r.stderr := ex.process.stderr;
      r.rc := ex.process.returncode;
      r.duration := Some(ex.elapsed);
      assert r.Value() == before.(stdout := ex.process.stdout, stderr := ex.process.stderr,
                                  rc := ex.process.returncode, duration := Some(ex.elapsed));

      store.Write(r);
      outcome := Success(ex.process);
    }
  }

  /** What an attribute of the wrapper module resolves to. */
  datatype Resolved =
    | InterceptingRun              // the `run` above
    | OriginalModule               // `pvcr_orig_cls` itself
    | OwnAttribute(name: string)   // an attribute the wrapper class defines
    | OriginalAttribute(name: string)  // looked up on the original `subprocess` module

  /**
   * `MetaSubprocessWrapper.__getattribute__`: `run` is intercepted only
   * while enabled; the wrapper's own attributes come next and everything
   * else falls through to the original module. `own` is the set of names the
   * wrapper class defines.
   */
  function ResolveAttribute(enabled: bool, item: string, own: set<string>): (r: Resolved)
    ensures r == InterceptingRun <==> enabled && item == "run"
    ensures r == OriginalModule <==> !(enabled && item == "run") && item == "pvcr_orig_cls"
    ensures r.OwnAttribute? <==> !(enabled && item == "run") && item != "pvcr_orig_cls" && item in own
    ensures r.OwnAttribute? || r.OriginalAttribute? ==> r.name == item
    ensures !enabled && item == "run" && "run" !in own ==> r == OriginalAttribute("run")
  {
    if enabled && item == "run" then InterceptingRun
    else if item == "pvcr_orig_cls" then OriginalModule
    else if item in own then OwnAttribute(item)
    else OriginalAttribute(item)
  }
}
