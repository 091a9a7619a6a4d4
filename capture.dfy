/**
 * Bounded capture (`capture_audio`): the `timeout`-wrapped `pw-record` command
 * line, the supervisory timeout of the subprocess call, and the policy that
 * decides whether the recording counts as captured.
 */
module Capture {
  import opened Wrappers
  import opened PyText
  import Monitor

  /** Exit status of `timeout` when it had to stop the command at the deadline. */
  const CutoffExitCode := 124
  /** A recording of this many bytes or fewer is treated as empty. */
  const MinArtifactBytes := 1000
  /** Extra seconds the subprocess call waits beyond the recording duration. */
  const SupervisoryMargin := 5

  /** The fixed `pw-record` format: 44100 Hz, two channels, signed 16-bit samples. */
  const RecordFormat: seq<string> :=
    ["pw-record", "--rate", "44100", "--channels", "2", "--format", "s16"]

  /** A subprocess call as issued: its argument vector and its supervisory timeout in seconds. */
  datatype Invocation = Invocation(argv: seq<string>, timeoutSeconds: int)

  /**
   * How the subprocess call ended: the process exited with a status, the
   * supervisory timeout expired (`TimeoutExpired`), or launching or waiting
   * raised some other exception.
   */
  datatype RunOutcome = Exited(code: int) | SupervisoryTimeout | LaunchFailed

  /** The output file after the call: whether it exists and its size in bytes. */
  datatype Artifact = Artifact(present: bool, size: int)

  /** A node id is passed as `--target` only when it is a non-empty string (`if node_id:`). */
  predicate Targeted(node: Option<string>) {
    node.Some? && node.value != ""
  }

  /** The command line for recording `duration` seconds from `node` into `outputPath`. */
  function CaptureArgv(duration: int, node: Option<string>, outputPath: string): seq<string> {
    ["timeout", IntText(duration)] + RecordFormat +
    (if Targeted(node) then ["--target", node.value] else []) +
    [outputPath]
  }

  /**
   * The command line is the `timeout` wrapper with the duration, the fixed
   * `pw-record` format flags, `--target node` exactly when the node is a non-empty
   * string, and the output path last; the duration argument reads back as the
   * duration.
   */
  lemma CaptureArgvShape(duration: int, node: Option<string>, outputPath: string)
    ensures var argv := CaptureArgv(duration, node, outputPath);
      |argv| == (if Targeted(node) then 12 else 10) &&
      argv[..9] == ["timeout", IntText(duration), "pw-record", "--rate", "44100",
                    "--channels", "2", "--format", "s16"] &&
      (Targeted(node) ==> argv[9] == "--target" && argv[10] == node.value) &&
      argv[|argv| - 1] == outputPath &&
      ParseInt(argv[1]) == Some(duration)
  {
    IntTextRoundTrip(duration);
  }

  /**
   * The recording is accepted when the process exited with 0 (finished early) or
   * 124 (stopped by `timeout`) and the output file exists and is larger than
   * 1000 bytes. The file is not consulted for any other outcome.
   */
  predicate Accepted(outcome: RunOutcome, artifact: Artifact) {
    match outcome
    case Exited(code) =>
      (code == 0 || code == CutoffExitCode) && artifact.present && artifact.size > MinArtifactBytes
    case SupervisoryTimeout => false
    case LaunchFailed => false
  }

  /**
   * `capture_audio(duration, output_path)`: selects the monitor node from the
   * `pw-dump` run, builds the command line step by step, issues it with a
   * supervisory timeout of `duration + 5` seconds, and judges the result.
   */
  method CaptureAudio(duration: int, outputPath: string, dump: Monitor.PwDump,
                      outcome: RunOutcome, artifact: Artifact)
    returns (ok: bool, issued: Invocation)
    ensures issued.argv == CaptureArgv(duration, Monitor.MonitorNode(dump), outputPath)
    ensures issued.timeoutSeconds == duration + SupervisoryMargin
    ensures ok <==> Accepted(outcome, artifact)
    ensures ok <==> outcome in {Exited(0), Exited(CutoffExitCode)} &&
                    artifact.present && artifact.size > MinArtifactBytes
  {
    var nodeId := Monitor.GetMonitorNode(dump);
    var pwCmd := RecordFormat;
    if nodeId.Some? && nodeId.value != "" {
      pwCmd := pwCmd + ["--target", nodeId.value];
    }
    pwCmd := pwCmd + [outputPath];
    var cmd := ["timeout", IntText(duration)] + pwCmd;
    issued := Invocation(cmd, duration + SupervisoryMargin);

    match outcome
    case Exited(code) =>
      if code != 0 && code != CutoffExitCode {
        return false, issued;
      }
      ok := artifact.present && artifact.size > MinArtifactBytes;
    case SupervisoryTimeout =>
      ok := false;
    case LaunchFailed =>
      ok := false;
  }
}
