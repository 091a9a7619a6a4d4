/**
 * The outcome reducer (`main` with `check_python_version` and `check_pipewire`):
 * the stages run in a fixed order, the first one that fails decides the single
 * envelope that is printed, the stages after it never run, and the temporary
 * recording is removed on every path that created it.
 *
 * All foreign results (interpreter versions, the `pw-record` lookup, the
 * virtual-environment setup, `pw-dump`, the recording subprocess, the output
 * file and the Shazam call) are given in a `Host`; a run is the sequence of
 * observable events it causes.
 */
module Reducer {
  import opened Wrappers
  import opened PyText
  import Monitor
  import Capture
  import Recognition
  import opened Envelope

  // ---------------------------------------------------------------------------
  // Interpreter version check.

  /**
   * An interpreter version. `sys.version_info` continues with a release level and
   * a serial, which a comparison with a pair never reaches.
   */
  datatype Version = Version(major: int, minor: int, micro: int)

  const Required: seq<int> := [3, 10]

  function Tuple(v: Version): seq<int> {
    [v.major, v.minor, v.micro]
  }

  /** Python's `<` on tuples of integers: lexicographic, a proper prefix being smaller. */
  function TupleLess(a: seq<int>, b: seq<int>): bool
    decreases |a|
  {
    if a == [] then b != []
    else if b == [] then false
    else if a[0] != b[0] then a[0] < b[0]
    else TupleLess(a[1..], b[1..])
  }

  /** `sys.version_info < (3, 10)`. */
  predicate BelowRequired(v: Version) {
    TupleLess(Tuple(v), Required)
  }

  /** The version is too old exactly when it is 2.x or older, or 3.0 to 3.9. */
  lemma BelowRequiredIff(v: Version)
    ensures BelowRequired(v) <==> v.major < 3 || (v.major == 3 && v.minor < 10)
  {
    assert Tuple(v)[1..] == [v.minor, v.micro] && Required[1..] == [10];
    assert [v.minor, v.micro][1..] == [v.micro] && [10][1..] == [];
    assert TupleLess([v.micro], []) == false;
    assert TupleLess([v.minor, v.micro], [10]) == (v.minor < 10);
  }

  // ---------------------------------------------------------------------------
  // Messages.

  function VersionMessage(v: Version): string {
    "Python 3.10+ required, got " + IntText(v.major) + "." + IntText(v.minor)
  }

  const PipewireMessage := "pw-record not found. Install pipewire-audio-client-libraries"

  function VenvMessage(detail: string): string {
    "Failed to setup venv: " + detail
  }

  const CaptureMessage := "Failed to capture system audio"

  // ---------------------------------------------------------------------------
  // The host and the run.

  /** `ensure_venv()`: returned the interpreter's path, or raised with the given text. */
  datatype VenvSetup = VenvReady | VenvFailed(detail: string)

  datatype Host = Host(
    interpreter: Version,          // the interpreter that starts the script
    hasPwRecord: bool,             // `shutil.which("pw-record")` finds the tool
    venv: VenvSetup,               // the result of `ensure_venv()`
    inVenv: bool,                  // `sys.executable` lies inside the virtual environment
    venvInterpreter: Version,      // the interpreter of the virtual environment
    duration: int,                 // `--duration`
    tempPath: string,              // the name of the temporary .wav file
    dump: Monitor.PwDump,          // the `pw-dump` run
    recording: Capture.RunOutcome, // the recording subprocess
    artifact: Capture.Artifact,    // the temporary file after recording
    call: Recognition.Call)        // the Shazam call

  /** What a run does that can be observed from outside. */
  datatype Event =
    | Notified(message: string)            // a desktop notification was attempted
    | Printed(envelope: Envelope)          // the envelope was written to standard output
    | Reexecuted                           // the process replaced itself by the environment's interpreter
    | TempCreated(path: string)            // the temporary file was created
    | Recorded(invocation: Capture.Invocation)
    | RecognitionRan
    | Unlinked(path: string)               // removing the temporary file was attempted

  datatype Run = Run(events: seq<Event>, exitCode: int)

  /** The number of envelopes printed. */
  function Prints(events: seq<Event>): nat {
    if events == [] then 0
    else (if events[0].Printed? then 1 else 0) + Prints(events[1..])
  }

  lemma {:induction false} PrintsAppend(a: seq<Event>, b: seq<Event>)
    ensures Prints(a + b) == Prints(a) + Prints(b)
    decreases |a|
  {
    if a == [] {
      assert a + b == b;
    } else {
      assert (a + b)[0] == a[0] && (a + b)[1..] == a[1..] + b;
      PrintsAppend(a[1..], b);
    }
  }

  /** Whether a desktop notification was attempted. */
  predicate Notifies(events: seq<Event>) {
    exists i :: 0 <= i < |events| && events[i].Notified?
  }

  // ---------------------------------------------------------------------------
  // Reference definition: the first failing stage decides.

  /** A stage either lets the run go on or ends it with an envelope. */
  datatype Stage = Pass | Stop(envelope: Envelope)

  function VersionStage(v: Version): Stage {
    if BelowRequired(v) then Stop(Error(NoPython310, VersionMessage(v))) else Pass
  }

  function PipewireStage(found: bool): Stage {
    if found then Pass else Stop(Error(NoPipewire, PipewireMessage))
  }

  function VenvStage(setup: VenvSetup): Stage {
    match setup
    case VenvReady => Pass
    case VenvFailed(detail) => Stop(Error(RecognitionFailed, VenvMessage(detail)))
  }

  /**
   * Outside the environment the process re-executes itself with the environment's
   * interpreter; the new process repeats the version check with that interpreter,
   * finds `pw-record` again and finds the environment already set up.
   */
  function ReexecStage(h: Host): Stage {
    if h.inVenv then Pass else VersionStage(h.venvInterpreter)
  }

  function CaptureStage(h: Host): Stage {
    if Capture.Accepted(h.recording, h.artifact) then Pass
    else Stop(Error(CaptureFailed, CaptureMessage))
  }

  /** The last stage always ends the run. */
  function RecognitionEnvelope(call: Recognition.Call): Envelope {
    match Recognition.Normalise(call)
    case Matched(track) => Success(track)
    case NoMatch => NoMatch
    case Failed(message) => Error(RecognitionFailed, message)
  }

  function Stages(h: Host): seq<Stage> {
    [VersionStage(h.interpreter), PipewireStage(h.hasPwRecord), VenvStage(h.venv),
     ReexecStage(h), CaptureStage(h)]
  }

  /** The envelope of the first stage that stops, or `final` when all pass. */
  function FirstStop(stages: seq<Stage>, final: Envelope): Envelope
    decreases |stages|
  {
    if stages == [] then final
    else if stages[0].Stop? then stages[0].envelope
    else FirstStop(stages[1..], final)
  }

  /** Stage `i` is the first to stop. */
  predicate FirstStopAt(stages: seq<Stage>, i: int) {
    0 <= i < |stages| && stages[i].Stop? && forall j :: 0 <= j < i ==> stages[j] == Pass
  }

  /** The first stage that stops decides; when none stops, `final` does. */
  lemma {:induction false} FirstStopDecides(stages: seq<Stage>, final: Envelope)
    ensures (forall j :: 0 <= j < |stages| ==> stages[j] == Pass) ==> FirstStop(stages, final) == final
    ensures forall i :: FirstStopAt(stages, i) ==> FirstStop(stages, final) == stages[i].envelope
    decreases |stages|
  {
    if stages != [] {
      FirstStopDecides(stages[1..], final);
      forall i | FirstStopAt(stages, i)
        ensures FirstStop(stages, final) == stages[i].envelope
      {
        if i > 0 {
          assert FirstStopAt(stages[1..], i - 1) by {
            forall j | 0 <= j < i - 1 ensures stages[1..][j] == Pass {
              assert stages[1..][j] == stages[j + 1];
            }
          }
        }
      }
      assert (forall j :: 0 <= j < |stages| ==> stages[j] == Pass) ==>
        (forall j :: 0 <= j < |stages| - 1 ==> stages[1..][j] == Pass);
    }
  }

  /** The run reaches the capture stage: every check and the setup pass. */
  predicate ReachesCapture(h: Host) {
    !BelowRequired(h.interpreter) && h.hasPwRecord && h.venv.VenvReady? &&
    (h.inVenv || !BelowRequired(h.venvInterpreter))
  }

  /** The envelope a run prints: that of the first stage to stop, else the recognition's. */
  function Expected(h: Host): Envelope {
    FirstStop(Stages(h), RecognitionEnvelope(h.call))
  }

  /**
   * The stages decide in the order "interpreter version", "pw-record present",
   * "environment set up", "re-executed interpreter version", "capture",
   * "recognition": each failure is reported only when every earlier stage passed.
   */
  lemma StageOrder(h: Host)
    ensures BelowRequired(h.interpreter) ==>
      Expected(h) == Error(NoPython310, VersionMessage(h.interpreter))
    ensures !BelowRequired(h.interpreter) && !h.hasPwRecord ==>
      Expected(h) == Error(NoPipewire, PipewireMessage)
    ensures !BelowRequired(h.interpreter) && h.hasPwRecord && h.venv.VenvFailed? ==>
      Expected(h) == Error(RecognitionFailed, VenvMessage(h.venv.detail))
    ensures !BelowRequired(h.interpreter) && h.hasPwRecord && h.venv.VenvReady? &&
            !h.inVenv && BelowRequired(h.venvInterpreter) ==>
      Expected(h) == Error(NoPython310, VersionMessage(h.venvInterpreter))
    ensures ReachesCapture(h) && !Capture.Accepted(h.recording, h.artifact) ==>
      Expected(h) == Error(CaptureFailed, CaptureMessage)
    ensures ReachesCapture(h) && Capture.Accepted(h.recording, h.artifact) ==>
      Expected(h) == RecognitionEnvelope(h.call)
  {
    var stages := Stages(h);
    FirstStopDecides(stages, RecognitionEnvelope(h.call));
    if !ReachesCapture(h) || !Capture.Accepted(h.recording, h.artifact) {
      var i := if stages[0].Stop? then 0 else if stages[1].Stop? then 1
               else if stages[2].Stop? then 2 else if stages[3].Stop? then 3 else 4;
      assert FirstStopAt(stages, i);
    } else {
      assert forall j :: 0 <= j < |stages| ==> stages[j] == Pass;
    }
  }

  /** The invocation the capture stage issues. */
  function CaptureInvocation(h: Host): Capture.Invocation {
    Capture.Invocation(
      Capture.CaptureArgv(h.duration, Monitor.MonitorNode(h.dump), h.tempPath),
      h.duration + Capture.SupervisoryMargin)
  }

  /** The run re-executes itself: checks and setup passed outside the environment. */
  predicate Reexecutes(h: Host) {
    !BelowRequired(h.interpreter) && h.hasPwRecord && h.venv.VenvReady? && !h.inVenv
  }

  /** Reporting an envelope: errors are notified first, then the envelope is printed. */
  function Report(e: Envelope): seq<Event> {
    (if e.Error? then [Notified(e.message)] else []) + [Printed(e)]
  }

  /**
   * The events of a run, stage by stage: the re-execution if it happens; creating
   * the temporary file, recording and recognising as far as the run gets; the
   * report of the envelope; and the removal of the temporary file if it was created.
   */
  function Trace(h: Host): seq<Event> {
    (if Reexecutes(h) then [Reexecuted] else []) +
    (if ReachesCapture(h) then
       [TempCreated(h.tempPath), Recorded(CaptureInvocation(h))] +
       (if Capture.Accepted(h.recording, h.artifact) then [RecognitionRan] else [])
     else []) +
    Report(Expected(h)) +
    (if ReachesCapture(h) then [Unlinked(h.tempPath)] else [])
  }

  // ---------------------------------------------------------------------------
  // Properties of a run.

  /** The events before the report and after it: neither prints nor notifies. */
  function Before(h: Host): seq<Event> {
    (if Reexecutes(h) then [Reexecuted] else []) +
    (if ReachesCapture(h) then
       [TempCreated(h.tempPath), Recorded(CaptureInvocation(h))] +
       (if Capture.Accepted(h.recording, h.artifact) then [RecognitionRan] else [])
     else [])
  }

  function After(h: Host): seq<Event> {
    if ReachesCapture(h) then [Unlinked(h.tempPath)] else []
  }

  lemma TraceParts(h: Host)
    ensures Trace(h) == Before(h) + Report(Expected(h)) + After(h)
    ensures forall i :: 0 <= i < |Before(h)| ==> !Before(h)[i].Printed? && !Before(h)[i].Notified?
    ensures forall i :: 0 <= i < |After(h)| ==> !After(h)[i].Printed? && !After(h)[i].Notified?
  {
  }

  /** Every run prints exactly one envelope: the one the first failing stage decides. */
  lemma ExactlyOneEnvelope(h: Host)
    ensures Prints(Trace(h)) == 1
    ensures Printed(Expected(h)) in Trace(h)
  {
    var e := Expected(h);
    var note := if e.Error? then [Notified(e.message)] else [];
    TraceParts(h);
    PrintsAppend(Before(h) + Report(e), After(h));
    PrintsAppend(Before(h), Report(e));
    PrintsAppend(note, [Printed(e)]);
    NoPrints(Before(h));
    NoPrints(After(h));
    NoPrints(note);
    assert Printed(e) in Report(e);
  }

  lemma {:induction false} NoPrints(events: seq<Event>)
    requires forall i :: 0 <= i < |events| ==> !events[i].Printed?
    ensures Prints(events) == 0
    decreases |events|
  {
    if events != [] {
      assert forall i :: 0 <= i < |events| - 1 ==> events[1..][i] == events[i + 1];
      NoPrints(events[1..]);
    }
  }

  /**
   * Later stages are skipped: the environment's interpreter is started only after
   * the checks and the setup passed; the temporary file is created and the
   * recording issued only after every check passed; recognition runs only after an
   * accepted recording.
   */
  lemma LaterStagesSkipped(h: Host)
    ensures Reexecuted in Trace(h) <==> Reexecutes(h)
    ensures TempCreated(h.tempPath) in Trace(h) <==> ReachesCapture(h)
    ensures Recorded(CaptureInvocation(h)) in Trace(h) <==> ReachesCapture(h)
    ensures RecognitionRan in Trace(h) <==> ReachesCapture(h) && Capture.Accepted(h.recording, h.artifact)
  {
  }

  /**
   * The temporary file is removed on every path that created it, as the last
   * thing the run does, right after the envelope is printed; a run that created
   * no file prints its envelope last.
   */
  lemma CleanupOnEveryPath(h: Host)
    ensures Unlinked(h.tempPath) in Trace(h) <==> TempCreated(h.tempPath) in Trace(h)
    ensures ReachesCapture(h) ==>
      |Trace(h)| >= 2 && Trace(h)[|Trace(h)| - 1] == Unlinked(h.tempPath) &&
      Trace(h)[|Trace(h)| - 2] == Printed(Expected(h))
    ensures !ReachesCapture(h) ==> |Trace(h)| >= 1 && Trace(h)[|Trace(h)| - 1] == Printed(Expected(h))
  {
  }

  /** A desktop notification is attempted exactly for errors, with the error's message. */
  lemma NotifiesExactlyErrors(h: Host)
    ensures Notifies(Trace(h)) <==> Expected(h).Error?
    ensures Expected(h).Error? ==> Notified(Expected(h).message) in Trace(h)
  {
    var e := Expected(h);
    TraceParts(h);
    var t, n := Trace(h), |Before(h)|;
    if Expected(h).Error? {
      assert t[n].Notified?;
    } else {
      forall i | 0 <= i < |t| ensures !t[i].Notified? {
        if i >= n + 1 {
          assert t[i] == After(h)[i - n - 1];
        } else if i < n {
          assert t[i] == Before(h)[i];
        }
      }
    }
  }

  // ---------------------------------------------------------------------------
  // The program.

  /** `output_json(data)`: print the dict, then exit 0 for a success and 1 otherwise. */
  method OutputJson(events: seq<Event>, e: Envelope) returns (run: Run)
    ensures run.events == events + [Printed(e)]
    ensures run.exitCode == (if e.Success? then 0 else 1)
  {
    ExitCodeIffSuccess(e);
    run := Run(events + [Printed(e)], ExitCode(ToJson(e)));
  }

  /** `output_error(code, message)`: notify, then print the error envelope and exit 1. */
  method OutputError(events: seq<Event>, code: ErrorCode, message: string) returns (run: Run)
    ensures run.events == events + Report(Error(code, message))
    ensures run.exitCode == 1
  {
    run := OutputJson(events + [Notified(message)], Error(code, message));
  }

  /** `main()`: from the checks to the single printed envelope and the cleanup. */
  method RunMain(h: Host) returns (run: Run)
    ensures run.events == Trace(h)
    ensures run.exitCode == (if Expected(h).Success? then 0 else 1)
  {
    StageOrder(h);
    var events: seq<Event> := [];

    // Pre-flight checks.
    if BelowRequired(h.interpreter) {
      run := OutputError(events, NoPython310, VersionMessage(h.interpreter));
      return;
    }
    if !h.hasPwRecord {
      run := OutputError(events, NoPipewire, PipewireMessage);
      return;
    }

    // The virtual environment.
    if h.venv.VenvFailed? {
      run := OutputError(events, RecognitionFailed, VenvMessage(h.venv.detail));
      return;
    }
    if !h.inVenv {
      // The process is replaced; its successor starts again from the checks.
      events := events + [Reexecuted];
      if BelowRequired(h.venvInterpreter) {
        run := OutputError(events, NoPython310, VersionMessage(h.venvInterpreter));
        return;
      }
    }

    // Capture and recognition, with the temporary file removed afterwards.
    events := events + [TempCreated(h.tempPath)];
    var ok, issued := Capture.CaptureAudio(h.duration, h.tempPath, h.dump, h.recording, h.artifact);
    events := events + [Recorded(issued)];
    if !ok {
      run := OutputError(events, CaptureFailed, CaptureMessage);
    } else {
      events := events + [RecognitionRan];
      match Recognition.Normalise(h.call)
      case Matched(track) =>
        run := OutputJson(events, Success(track));
      case NoMatch =>
        run := OutputJson(events, NoMatch);
      case Failed(message) =>
        run := OutputError(events, RecognitionFailed, message);
    }
    // `finally`: the removal is attempted; its failure is ignored.
    run := run.(events := run.events + [Unlinked(h.tempPath)]);
  }

  // ---------------------------------------------------------------------------
  // The script as written: the version check cannot report.

  /**
   * Whether an interpreter can load the script at all. The return annotations
   * `str | None` (line 86) and `dict | None` (line 151) are evaluated when the
   * functions are defined, and `|` between types exists only from Python 3.10:
   * an older interpreter raises TypeError (before 3.6, a SyntaxError at the
   * f-strings) before `main` is reached, printing nothing on standard output.
   */
  predicate LoadsOn(v: Version) {
    v.major > 3 || (v.major == 3 && v.minor >= 10)
  }

  /** The envelopes the script as written prints for a host. */
  function PrintedAsWritten(h: Host): seq<Envelope> {
    if !LoadsOn(h.interpreter) then []
    else if Reexecutes(h) && !LoadsOn(h.venvInterpreter) then []
    else [Expected(h)]
  }

  /** As written, the `no_python310` envelope is never printed. */
  lemma AsWrittenNeverReportsOldInterpreter(h: Host)
    ensures forall e | e in PrintedAsWritten(h) :: !(e.Error? && e.code == NoPython310)
    ensures |PrintedAsWritten(h)| <= 1
  {
    BelowRequiredIff(h.interpreter);
    BelowRequiredIff(h.venvInterpreter);
    StageOrder(h);
    if PrintedAsWritten(h) != [] && Capture.Accepted(h.recording, h.artifact) && ReachesCapture(h) {
      match Recognition.Normalise(h.call)
      case Matched(_) =>
      case NoMatch =>
      case Failed(_) =>
    }
  }

  /** A host whose interpreter is Python 3.9; every later result is immaterial. */
  const Python39Host := Host(
    Version(3, 9, 18), true, VenvReady, false, Version(3, 9, 18), 5, "/tmp/capture.wav",
    Monitor.DumpRaised, Capture.LaunchFailed, Capture.Artifact(false, 0), Recognition.TimedOut)

  /** Under Python 3.9 the script as written prints nothing, where `no_python310` was meant. */
  lemma Python39PrintsNothing()
    ensures PrintedAsWritten(Python39Host) == []
    ensures Expected(Python39Host) == Error(NoPython310, "Python 3.10+ required, got 3.9")
  {
    var h := Python39Host;
    BelowRequiredIff(h.interpreter);
    StageOrder(h);
    assert IntText(3) == "3" && IntText(9) == "9";
  }

  /**
   * The run this model describes (`RunMain`) lets the version check run: an
   * interpreter below 3.10 gets exactly the `no_python310` error, notified and
   * printed, and nothing else happens.
   */
  lemma OldInterpreterIsReported(h: Host)
    requires BelowRequired(h.interpreter)
    ensures Trace(h) == [Notified(VersionMessage(h.interpreter)),
                         Printed(Error(NoPython310, VersionMessage(h.interpreter)))]
  {
    StageOrder(h);
  }
}
