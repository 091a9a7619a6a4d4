/**
 * Choosing the PipeWire node to record from (`get_monitor_node`): two ordered
 * searches over the node records of `pw-dump`, each stopping at its first hit.
 * The first looks for a monitor source, the second, as a fallback, for a sink,
 * whose monitor is named by appending ".monitor" to its id. Any failure of
 * `pw-dump`, of JSON decoding, or any exception while looking at a node gives
 * None.
 */
module Monitor {
  import opened Wrappers
  import opened PyText
  import opened PyJson

  const NodeType := "PipeWire:Interface:Node"
  const SourceClass := "Audio/Source"
  const SinkClass := "Audio/Sink"
  const MonitorTag := ".monitor"

  /**
   * What running `pw-dump` gave: an exception (tool missing, its 5-second timeout),
   * or an exit status with standard output decoded as JSON (None when decoding raised).
   */
  datatype PwDump = DumpRaised | DumpExited(code: int, parsed: Option<Json>)

  /** The two searches: monitor sources first, then sinks. */
  datatype Pass = SourcePass | SinkPass

  /** What one iteration of a search loop does with one node: go on, return an id, or raise. */
  datatype Step = Continue | Return(id: string) | Raise

  /** `node.get("info", {}).get("props", {})`. */
  function PropsOf(node: Json): Eval<Json> {
    match Get(node, "info", EmptyObj)
    case Raised(m) => Raised(m)
    case Value(info) => Get(info, "props", EmptyObj)
  }

  /** `str(node.get("id"))` for a node that is a dict (a missing id renders as "None"). */
  function IdText(fields: map<string, Json>): string {
    Str(Lookup(fields, "id", JNull))
  }

  /** One iteration of the loop of the given pass over one node. */
  function Visit(pass: Pass, node: Json): Step {
    match Get(node, "type", JNull)
    case Raised(_) => Raise
    case Value(kind) =>
      if kind != JStr(NodeType) then Continue
      else
        match PropsOf(node)
        case Raised(_) => Raise
        case Value(props) =>
          match Get(props, "media.class", JStr(""))
          case Raised(_) => Raise
          case Value(mediaClass) =>
            match pass
            case SourcePass =>
              if mediaClass != JStr(SourceClass) then Continue
              else
                (match In(MonitorTag, Lookup(props.fields, "node.name", JStr("")))
                 case Raised(_) => Raise
                 case Value(tagged) => if tagged then Return(IdText(node.fields)) else Continue)
            case SinkPass =>
              if mediaClass == JStr(SinkClass) then Return(IdText(node.fields) + MonitorTag)
              else Continue
  }

  /** A whole loop of the given pass: the first node whose iteration does not continue decides. */
  function Scan(pass: Pass, nodes: seq<Json>): Step
    decreases |nodes|
  {
    if nodes == [] then Continue
    else
      var step := Visit(pass, nodes[0]);
      if step.Continue? then Scan(pass, nodes[1..]) else step
  }

  /** The result of `get_monitor_node` for the given `pw-dump` run. */
  function MonitorNode(dump: PwDump): Option<string> {
    match dump
    case DumpRaised => None
    case DumpExited(code, parsed) =>
      if code != 0 then None
      else
        match parsed
        case None => None
        case Some(doc) =>
          // Iterating any other document either raises at its first element
          // (strings, non-empty dicts) or at once (numbers, null), or finds nothing.
          if !doc.JArr? then None
          else
            match Scan(SourcePass, doc.items)
            case Return(id) => Some(id)
            case Raise => None
            case Continue =>
              match Scan(SinkPass, doc.items)
              case Return(id) => Some(id)
              case _ => None
  }

  /** The imperative search: two `for` loops with early returns. */
  method GetMonitorNode(dump: PwDump) returns (node: Option<string>)
    ensures node == MonitorNode(dump)
  {
    if dump.DumpRaised? || dump.code != 0 || dump.parsed.None? || !dump.parsed.value.JArr? {
      return None;
    }
    var nodes := dump.parsed.value.items;
    for i := 0 to |nodes|
      invariant Scan(SourcePass, nodes) == Scan(SourcePass, nodes[i..])
    {
      assert nodes[i..][1..] == nodes[i + 1..];
      var step := Visit(SourcePass, nodes[i]);
      if step.Return? {
        return Some(step.id);
      } else if step.Raise? {
        return None;
      }
    }
    for i := 0 to |nodes|
      invariant Scan(SourcePass, nodes) == Continue
      invariant Scan(SinkPass, nodes) == Scan(SinkPass, nodes[i..])
    {
      assert nodes[i..][1..] == nodes[i + 1..];
      var step := Visit(SinkPass, nodes[i]);
      if step.Return? {
        return Some(step.id);
      } else if step.Raise? {
        return None;
      }
    }
    return None;
  }

  // ---------------------------------------------------------------------------
  // Node classification, stated directly on the records.

  /** A dict whose "type" is the PipeWire node interface. */
  predicate IsPwNode(node: Json) {
    node.JObj? && Lookup(node.fields, "type", JNull) == JStr(NodeType)
  }

  /** The props dict of a node whose `info` and `props` are dicts or absent. */
  predicate HasPropsDict(node: Json) {
    PropsOf(node).Value? && PropsOf(node).value.JObj?
  }

  function MediaClass(node: Json): Json
    requires HasPropsDict(node)
  {
    Lookup(PropsOf(node).value.fields, "media.class", JStr(""))
  }

  /** A PipeWire node of class Audio/Source whose string `node.name` contains ".monitor". */
  predicate IsMonitorSource(node: Json) {
    IsPwNode(node) && HasPropsDict(node) && MediaClass(node) == JStr(SourceClass) &&
    var name := Lookup(PropsOf(node).value.fields, "node.name", JStr(""));
    name.JStr? && Contains(name.s, MonitorTag)
  }

  /** A PipeWire node of class Audio/Sink. */
  predicate IsSink(node: Json) {
    IsPwNode(node) && HasPropsDict(node) && MediaClass(node) == JStr(SinkClass)
  }

  /** The loop index `i` is where the loop of `pass` leaves: every earlier node continues. */
  predicate LeavesAt(pass: Pass, nodes: seq<Json>, i: int) {
    0 <= i < |nodes| && !Visit(pass, nodes[i]).Continue? &&
    forall j :: 0 <= j < i ==> Visit(pass, nodes[j]).Continue?
  }

  // ---------------------------------------------------------------------------
  // One node.

  /** A monitor source is returned by the first loop, as `str(id)`. */
  lemma MonitorSourceIsReturned(node: Json)
    requires IsMonitorSource(node)
    ensures Visit(SourcePass, node) == Return(IdText(node.fields))
  {
  }

  /** A sink is returned by the second loop, as its id followed by ".monitor". */
  lemma SinkIsReturned(node: Json)
    requires IsSink(node)
    ensures Visit(SinkPass, node) == Return(IdText(node.fields) + MonitorTag)
  {
  }

  /**
   * Only PipeWire nodes are ever returned: by the first loop only of class
   * Audio/Source and as `str(id)`, by the second only of class Audio/Sink and as
   * `str(id) + ".monitor"`.
   */
  lemma ReturnedNodeQualifies(pass: Pass, node: Json)
    requires Visit(pass, node).Return?
    ensures IsPwNode(node) && HasPropsDict(node)
    ensures pass == SourcePass ==>
      MediaClass(node) == JStr(SourceClass) && Visit(pass, node).id == IdText(node.fields)
    ensures pass == SinkPass ==>
      MediaClass(node) == JStr(SinkClass) && Visit(pass, node).id == IdText(node.fields) + MonitorTag
  {
  }

  /** A node record without `info`, `props` or `media.class` is skipped by both loops. */
  lemma MissingClassIsSkipped(pass: Pass, node: Json)
    requires node.JObj?
    requires var info := Lookup(node.fields, "info", EmptyObj);
      info.JObj? && var props := Lookup(info.fields, "props", EmptyObj);
      props.JObj? && "media.class" !in props.fields
    ensures Visit(pass, node) == Continue
  {
  }

  /** Where the source loop does not raise at a node, the sink loop does not either. */
  lemma SinkPassRaisesOnlyWhereSourcePassDoes(node: Json)
    requires Visit(SourcePass, node) != Raise
    ensures Visit(SinkPass, node) != Raise
  {
  }

  // ---------------------------------------------------------------------------
  // Whole loops.

  /** A loop ends with the step of the node where it leaves. */
  lemma {:induction false} ScanLeavesAt(pass: Pass, nodes: seq<Json>, i: int)
    requires LeavesAt(pass, nodes, i)
    ensures Scan(pass, nodes) == Visit(pass, nodes[i])
    decreases i
  {
    if i > 0 {
      assert LeavesAt(pass, nodes[1..], i - 1) by {
        forall j | 0 <= j < i - 1 ensures Visit(pass, nodes[1..][j]).Continue? {
          assert nodes[1..][j] == nodes[j + 1];
        }
      }
      ScanLeavesAt(pass, nodes[1..], i - 1);
    }
  }

  /** A loop runs to completion exactly when every node continues. */
  lemma {:induction false} ScanCompletes(pass: Pass, nodes: seq<Json>)
    ensures Scan(pass, nodes) == Continue <==>
      forall j :: 0 <= j < |nodes| ==> Visit(pass, nodes[j]).Continue?
    decreases |nodes|
  {
    if nodes != [] {
      ScanCompletes(pass, nodes[1..]);
      assert forall j :: 1 <= j < |nodes| ==> nodes[j] == nodes[1..][j - 1];
    }
  }

  /** A loop that does not complete leaves at some node. */
  lemma {:induction false} ScanLeavesSomewhere(pass: Pass, nodes: seq<Json>)
    requires !Scan(pass, nodes).Continue?
    ensures exists i :: LeavesAt(pass, nodes, i) && Scan(pass, nodes) == Visit(pass, nodes[i])
    decreases |nodes|
  {
    if Visit(pass, nodes[0]).Continue? {
      ScanLeavesSomewhere(pass, nodes[1..]);
      var i :| LeavesAt(pass, nodes[1..], i) && Scan(pass, nodes[1..]) == Visit(pass, nodes[1..][i]);
      assert nodes[1..][i] == nodes[i + 1];
      assert forall j :: 1 <= j < i + 1 ==> nodes[j] == nodes[1..][j - 1];
      assert LeavesAt(pass, nodes, i + 1);
    } else {
      assert LeavesAt(pass, nodes, 0);
    }
  }

  /** If the source loop runs to completion, the sink loop cannot raise. */
  lemma {:induction false} SinkPassAfterCleanSourcePass(nodes: seq<Json>)
    requires Scan(SourcePass, nodes) == Continue
    ensures Scan(SinkPass, nodes) != Raise
    decreases |nodes|
  {
    if nodes != [] {
      SinkPassRaisesOnlyWhereSourcePassDoes(nodes[0]);
      SinkPassAfterCleanSourcePass(nodes[1..]);
    }
  }

  // ---------------------------------------------------------------------------
  // The selection.

  function Dumped(nodes: seq<Json>): PwDump {
    DumpExited(0, Some(JArr(nodes)))
  }

  /**
   * The first monitor source is chosen, wherever it stands and whatever sinks
   * precede it, provided the nodes before it are skipped without raising.
   */
  lemma FirstMonitorSourceWins(nodes: seq<Json>, i: int)
    requires 0 <= i < |nodes| && IsMonitorSource(nodes[i])
    requires forall j :: 0 <= j < i ==> Visit(SourcePass, nodes[j]) == Continue
    ensures MonitorNode(Dumped(nodes)) == Some(IdText(nodes[i].fields))
  {
    MonitorSourceIsReturned(nodes[i]);
    ScanLeavesAt(SourcePass, nodes, i);
  }

  /**
   * With no monitor source and no exception in the first loop, the first sink is
   * chosen, as its id followed by ".monitor".
   */
  lemma FirstSinkIsFallback(nodes: seq<Json>, i: int)
    requires forall j :: 0 <= j < |nodes| ==> Visit(SourcePass, nodes[j]) == Continue
    requires 0 <= i < |nodes| && IsSink(nodes[i])
    requires forall j :: 0 <= j < i ==> !IsSink(nodes[j])
    ensures MonitorNode(Dumped(nodes)) == Some(IdText(nodes[i].fields) + MonitorTag)
  {
    ScanCompletes(SourcePass, nodes);
    SinkIsReturned(nodes[i]);
    forall j | 0 <= j < i ensures Visit(SinkPass, nodes[j]).Continue? {
      if !Visit(SinkPass, nodes[j]).Continue? {
        SinkPassRaisesOnlyWhereSourcePassDoes(nodes[j]);
        ReturnedNodeQualifies(SinkPass, nodes[j]);
      }
    }
    ScanLeavesAt(SinkPass, nodes, i);
  }

  /** With neither a monitor source nor a sink, and nothing raising, the result is None. */
  lemma NoCandidateGivesNone(nodes: seq<Json>)
    requires forall j :: 0 <= j < |nodes| ==> Visit(SourcePass, nodes[j]) == Continue
    requires forall j :: 0 <= j < |nodes| ==> !IsSink(nodes[j])
    ensures MonitorNode(Dumped(nodes)) == None
  {
    ScanCompletes(SourcePass, nodes);
    forall j | 0 <= j < |nodes| ensures Visit(SinkPass, nodes[j]).Continue? {
      SinkPassRaisesOnlyWhereSourcePassDoes(nodes[j]);
      if Visit(SinkPass, nodes[j]).Return? {
        ReturnedNodeQualifies(SinkPass, nodes[j]);
      }
    }
    ScanCompletes(SinkPass, nodes);
  }

  /** A node that raises before the source loop has found anything makes the result None. */
  lemma EarlyExceptionGivesNone(nodes: seq<Json>, i: int)
    requires 0 <= i < |nodes| && Visit(SourcePass, nodes[i]) == Raise
    requires forall j :: 0 <= j < i ==> Visit(SourcePass, nodes[j]) == Continue
    ensures MonitorNode(Dumped(nodes)) == None
  {
    ScanLeavesAt(SourcePass, nodes, i);
  }

  /**
   * Whatever is chosen is read off one PipeWire node of the dump: `str(id)` of an
   * Audio/Source node, or `str(id) + ".monitor"` of an Audio/Sink node. Nothing
   * is chosen when `pw-dump` fails, exits non-zero, or prints something that is not
   * a JSON list.
   */
  lemma SelectionComesFromANode(dump: PwDump)
    ensures MonitorNode(dump).Some? ==>
      dump.DumpExited? && dump.code == 0 && dump.parsed.Some? && dump.parsed.value.JArr?
    ensures MonitorNode(dump).Some? ==>
      var nodes := dump.parsed.value.items;
      exists i :: 0 <= i < |nodes| && IsPwNode(nodes[i]) && HasPropsDict(nodes[i]) &&
        ((MediaClass(nodes[i]) == JStr(SourceClass) && MonitorNode(dump).value == IdText(nodes[i].fields)) ||
         (MediaClass(nodes[i]) == JStr(SinkClass) && MonitorNode(dump).value == IdText(nodes[i].fields) + MonitorTag))
  {
    if MonitorNode(dump).Some? {
      var nodes := dump.parsed.value.items;
      var pass := if Scan(SourcePass, nodes).Return? then SourcePass else SinkPass;
      ScanLeavesSomewhere(pass, nodes);
      var i :| LeavesAt(pass, nodes, i) && Scan(pass, nodes) == Visit(pass, nodes[i]);
      ReturnedNodeQualifies(pass, nodes[i]);
    }
  }
}
