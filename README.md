# Music recogniser: a Dafny model of its capture-and-recognition core

The music recogniser is a one-shot script. It records a few seconds of system
audio with PipeWire's `pw-record` and sends the recording to Shazam. It prints
exactly one JSON envelope: a success record, "no match", or an error with a
code and a message. It exits with 0 for a success and with 1 for everything else.

This project models the decision logic beneath the subprocess and library
calls, module by module:

- `PyText`, `PyJson` (`pytext.dfy`, `pyjson.dfy`): the Python behaviour the
  script relies on. This covers decoded JSON values, `dict.get` with a default,
  truth testing, the `in` operator, `str()`, and the exceptions these raise.
- `Monitor` (`monitor.dfy`): choosing the monitor node from the `pw-dump`
  records. There are two ordered searches, each returning at its first hit:
  first a monitor source, then, as a fallback, a sink with ".monitor" appended
  to its id. `GetMonitorNode` is the method with the two loops. `MonitorNode` is
  the function it is proved against.
- `Capture` (`capture.dfy`): the `timeout`-wrapped `pw-record` command line
  built step by step, the supervisory timeout, and the acceptance policy.
  The exit status must be 0 or 124, and the file must exist and be larger
  than 1000 bytes.
- `Recognition` (`recognition.dfy`): turning the Shazam response, or the
  exception the call raised, into a match with per-field defaults, "no match",
  or a failure with its message.
- `Envelope` (`envelope.dfy`): the printed dict, reading it back, and the
  exit status.
- `Reducer` (`reducer.dfy`): `main` with its pre-flight checks, as a method
  over a `Host`. A `Host` holds every foreign result: interpreter versions, the
  `pw-record` lookup, the virtual-environment setup, the `pw-dump` run, the
  recording outcome, the output file and the Shazam call. A run is the sequence
  of observable events it causes (notification, printing, re-execution,
  temporary file, recording, recognition, removal). `RunMain` is proved equal to
  `Trace`, a stage-by-stage description. The lemmas then prove about `Trace`
  that exactly one envelope is printed, that the first failing stage decides it,
  that later stages are skipped, and that the temporary file is removed on
  every path that created it.

Where the usage text and the code disagree, the model follows the code:

- The success envelope carries the track `"key"` besides title, artist,
  `coverUrl` and `shazamUrl`.
- The node chosen is the first Audio/Source node whose name contains
  ".monitor", in list order. If there is none, it is the first Audio/Sink node.
  It is not the default sink that the comments mention.
- The `no_network` code is listed but never produced, so it is not part of
  `Envelope.ErrorCode`.

## Model

| member | source | states |
|---|---|---|
| `PyText.NatText` | music-recognizer/scripts/recognize.py:137 | `str()` of a non-negative integer is a non-empty digit string that starts with '0' only for 0 |
| `PyText.IntTextRoundTrip` | music-recognizer/scripts/recognize.py:137 | the duration written by `str()` reads back as the same integer, negative ones included |
| `PyText.ContainsAt` | music-recognizer/scripts/recognize.py:108 | the substring test `".monitor" in name` holds exactly when some position of the name starts a copy of ".monitor" |
| `Monitor.GetMonitorNode` | music-recognizer/scripts/recognize.py:86-123 | the two loops with early return compute exactly `MonitorNode` of the `pw-dump` run |
| `Monitor.MonitorSourceIsReturned` | music-recognizer/scripts/recognize.py:104-109 | a PipeWire node of class Audio/Source whose name contains ".monitor" is returned by the first loop as `str(id)` |
| `Monitor.SinkIsReturned` | music-recognizer/scripts/recognize.py:115-119 | a PipeWire node of class Audio/Sink is returned by the second loop as `str(id) + ".monitor"` |
| `Monitor.ReturnedNodeQualifies` | music-recognizer/scripts/recognize.py:101-119 | only dicts of type PipeWire:Interface:Node with a props dict are ever returned: the first loop only Audio/Source nodes as `str(id)`, the second only Audio/Sink nodes with ".monitor" appended |
| `Monitor.MissingClassIsSkipped` | music-recognizer/scripts/recognize.py:102-118 | a node without `info`, `props` or `media.class` is skipped by both loops, never chosen |
| `Monitor.SinkPassRaisesOnlyWhereSourcePassDoes` | music-recognizer/scripts/recognize.py:102-116 | a node the first loop looks at without raising does not raise in the second loop either |
| `Monitor.ScanLeavesAt` | music-recognizer/scripts/recognize.py:101-109 | a loop ends with the step of the first node at which it does not continue |
| `Monitor.ScanCompletes` | music-recognizer/scripts/recognize.py:101-121 | a loop runs to its end exactly when every node is skipped |
| `Monitor.ScanLeavesSomewhere` | music-recognizer/scripts/recognize.py:101-119 | a loop that does not run to its end leaves at a definite first node |
| `Monitor.SinkPassAfterCleanSourcePass` | music-recognizer/scripts/recognize.py:111-121 | once the first loop has run to its end, the fallback loop cannot raise |
| `Monitor.FirstMonitorSourceWins` | music-recognizer/scripts/recognize.py:101-109 | the first monitor source is chosen as `str(id)`, wherever it stands and whatever sinks precede it, when the nodes before it are skipped without raising |
| `Monitor.FirstSinkIsFallback` | music-recognizer/scripts/recognize.py:111-119 | when the first loop finds nothing and raises nothing, the first Audio/Sink node is chosen, as its id followed by ".monitor" |
| `Monitor.NoCandidateGivesNone` | music-recognizer/scripts/recognize.py:111-121 | with neither a monitor source nor a sink, the result is None |
| `Monitor.EarlyExceptionGivesNone` | music-recognizer/scripts/recognize.py:101-123 | an exception at a node before any monitor source is found makes the result None, whatever sinks follow |
| `Monitor.SelectionComesFromANode` | music-recognizer/scripts/recognize.py:95-123 | a chosen id is always read off one PipeWire node of a JSON list that `pw-dump` printed with exit status 0; a failed, non-zero or undecodable `pw-dump` gives None |
| `Capture.CaptureArgvShape` | music-recognizer/scripts/recognize.py:130-137 | the command is `timeout`, the duration, and `pw-record` with rate 44100, 2 channels and format s16 (9 fixed elements). `--target node` follows exactly when the node is a non-empty string. The output path comes last, and the duration argument reads back as the duration |
| `Capture.CaptureAudio` | music-recognizer/scripts/recognize.py:126-148 | issues that command for the chosen node with a supervisory timeout of duration + 5. It succeeds exactly when the process exited with 0 or 124 and the file exists with more than 1000 bytes. A supervisory timeout, a launch failure or any other status fails |
| `Recognition.Normalise` | music-recognizer/scripts/recognize.py:151-181 | no match exactly for a falsy response or a dict response with a missing or falsy track, never an error. A match exactly for a non-empty dict track with dict or missing `images`, each field passed through or defaulted ("Unknown", "Unknown Artist", "" for cover, URL and key). Timeout, missing library and other exceptions fail with their fixed or stringified message. A response without `.get` fails with Python's AttributeError text |
| `Recognition.MissingSubtitleDefaults` | music-recognizer/scripts/recognize.py:165-173 | a non-empty track dict without `subtitle`, whose `images` is a dict or absent, is still a match, with artist "Unknown Artist" (an `images` that is not a dict makes line 170 raise instead) |
| `Envelope.ToJson` | music-recognizer/scripts/recognize.py:42-52 | the error dict is exactly `{status: "error", error: code, message}`. No match is exactly `{status: "no_match"}`. The success dict has exactly the keys status, title, artist, coverUrl, shazamUrl and key |
| `Envelope.EnvelopeRoundTrip` | music-recognizer/scripts/recognize.py:42-52 | the printed dict reads back as the envelope it came from |
| `Envelope.ExitCodeIffSuccess` | music-recognizer/scripts/recognize.py:45 | the exit status is 0 exactly when the status is "success", and 1 otherwise, "no match" included |
| `Reducer.BelowRequiredIff` | music-recognizer/scripts/recognize.py:55-61 | the tuple comparison with (3, 10) fails the check exactly for major versions below 3 and for 3.0 to 3.9 |
| `Reducer.FirstStopDecides` | music-recognizer/scripts/recognize.py:189-222 | the reduction over stages gives the envelope of the first stage that stops, or the final one if every stage passes |
| `Reducer.StageOrder` | music-recognizer/scripts/recognize.py:184-222 | failures are reported in stage order: interpreter version as no_python310, missing pw-record as no_pipewire, venv failure as recognition_failed ("Failed to setup venv: …"), the re-executed interpreter's version as no_python310, capture as capture_failed. Otherwise the recognition outcome decides |
| `Reducer.ExactlyOneEnvelope` | music-recognizer/scripts/recognize.py:184-222 | every run prints exactly one envelope, the one the first failing stage decides |
| `Reducer.LaterStagesSkipped` | music-recognizer/scripts/recognize.py:189-212 | re-execution, the temporary file, the recording and the recognition happen exactly when every earlier stage passed |
| `Reducer.CleanupOnEveryPath` | music-recognizer/scripts/recognize.py:204-222 | removal of the temporary file is attempted exactly on the paths that created it, as the last event, right after the envelope is printed |
| `Reducer.NotifiesExactlyErrors` | music-recognizer/scripts/recognize.py:48-52 | a notification with the error's message is attempted exactly for error envelopes |
| `Reducer.OutputJson` | music-recognizer/scripts/recognize.py:42-45 | prints the envelope and exits with 0 for a success and 1 otherwise |
| `Reducer.OutputError` | music-recognizer/scripts/recognize.py:48-52 | notifies with the message, then prints the error envelope and exits with 1 |
| `Reducer.RunMain` | music-recognizer/scripts/recognize.py:184-222 | the sequential checks, the re-execution, the capture and the recognition with the `finally` cleanup produce exactly the events of `Trace` and the exit status of the expected envelope |
| `Reducer.AsWrittenNeverReportsOldInterpreter` | music-recognizer/scripts/recognize.py:86 | as written, no run ever prints the no_python310 envelope, and none prints more than one envelope |
| `Reducer.Python39PrintsNothing` | music-recognizer/scripts/recognize.py:86 | under Python 3.9 the script as written prints nothing, where the intended envelope is the no_python310 error "Python 3.10+ required, got 3.9" |
| `Reducer.OldInterpreterIsReported` | music-recognizer/scripts/recognize.py:55-61 | in the corrected run, an interpreter below 3.10 gets exactly a notification and the no_python310 error envelope, and nothing else happens |

## Findings

| source | as written | input that shows it | evidently intended | confidence | as-written member | corrected member |
|---|---|---|---|---|---|---|
| music-recognizer/scripts/recognize.py:86 | The PEP 604 union return annotations here (string or None) and at line 151 (dict or None) are evaluated when the functions are defined. Before Python 3.10 this raises TypeError while the module loads, so `check_python_version` never runs | run the script with a Python 3.9 interpreter, or with a virtual environment whose interpreter is 3.9 | the no_python310 error envelope, exit status 1 | not executed; high, since PEP 604 unions exist only from 3.10 | `Reducer.Python39PrintsNothing` | `Reducer.OldInterpreterIsReported` |

The rest of the model (`Reducer.RunMain`, `Reducer.Trace`) describes the corrected
run, where the version check is reached.

## Left out

- Running processes (`pw-dump`, `pw-record` under `timeout`, `notify-send`, `python -m venv`, `pip`): only their results are modelled, as fields of `Reducer.Host`.
- `os.execv` (line 201) is assumed to succeed. If it raises (an environment interpreter that cannot be executed), the OSError is not caught and the run ends with a traceback and prints no envelope. `Reducer.Host` has no field for that outcome, so `Reducer.ExactlyOneEnvelope` does not cover that path.
- Re-execution: the successor process is assumed to find `pw-record` again and to find the environment already set up. Only its interpreter version is checked again.
- Wall-clock time: the 5-second `pw-dump` timeout, the supervisory timeout of duration + 5 seconds and the 30-second recognition timeout appear only as outcomes (`DumpRaised`, `SupervisoryTimeout`, `TimedOut`) and, for the supervisory one, as the number recorded in `Capture.Invocation`.
- The Shazam library and asyncio: the call is an abstract `Recognition.Call`, either the decoded response or the exception raised.
- JSON text: `json.loads` and `json.dumps` are not modelled. Inputs are decoded values, and the envelope is the dict handed to `json.dumps`. JSON numbers with a fraction or exponent (Python floats) are not represented.
- `PyJson.Str`: for a list or a dict used as a node id, this gives a placeholder text, not Python's `repr`. A map keeps no insertion order, and pw-dump ids are integers.
- The file system: the temporary file's name, the output file's existence and size are given. Creating the temporary file is assumed to succeed. Removing it is a recorded event whose failure is ignored, as in the script.
- Command-line parsing: the duration arrives as an integer. argparse's own usage error for a non-integer duration is not modelled.
- Desktop notifications: only the attempt and its message are recorded. The title and urgency are not modelled, and delivery never affects the output.
- `sys.version_info` is modelled as (major, minor, micro). The release level and serial that follow are never reached by a comparison with the pair (3, 10).
