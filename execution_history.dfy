/** The execution history view: execution-start audit entries threaded
    with the entry that ends them. */
module ExecutionHistory {
  import opened Common
  import opened Specification

  /** An audit entry as the view receives it; `timestamp` is in
      milliseconds. */
  datatype LogEntry = LogEntry(
    id: string, parentId: Option<string>, action: string, timestamp: int,
    metadata: map<string, Json>)

  datatype ExecutionStatus = Succeeded | Failed | Pending

  /** One threaded execution. */
  datatype Execution = Execution(
    id: string, timestamp: int, status: ExecutionStatus, duration: Option<int>,
    input: Option<Json>, output: Option<Json>)

  const StartAction := "EXECUTION_START"
  const SuccessAction := "EXECUTION_SUCCESS"

  predicate IsStart(l: LogEntry)
  {
    l.action == StartAction
  }

  /** The entries that start an execution, in their order. */
  function Starts(logs: seq<LogEntry>): seq<LogEntry>
  {
    Filter(logs, IsStart)
  }

  /** The first entry, in array order and whatever its action, whose
      parent is `id`. */
  function FindEnd(logs: seq<LogEntry>, id: string): (r: Option<LogEntry>)
    ensures r.None? <==> forall i :: 0 <= i < |logs| ==> logs[i].parentId != Some(id)
    ensures r.Some? ==>
      exists i :: 0 <= i < |logs| && logs[i] == r.value && r.value.parentId == Some(id)
                  && (forall j :: 0 <= j < i ==> logs[j].parentId != Some(id))
  {
    if logs == [] then None
    else if logs[0].parentId == Some(id) then Some(logs[0])
    else
      var r := FindEnd(logs[1..], id);
      assert r.Some? ==>
        exists i :: 0 <= i < |logs| && logs[i] == r.value && r.value.parentId == Some(id)
                    && (forall j :: 0 <= j < i ==> logs[j].parentId != Some(id))
      by {
        if r.Some? {
          var i :| 0 <= i < |logs[1..]| && logs[1..][i] == r.value
            && (forall j :: 0 <= j < i ==> logs[1..][j].parentId != Some(id));
          assert logs[i + 1] == r.value;
          assert forall j :: 1 <= j < i + 1 ==> logs[j] == logs[1..][j - 1];
        }
      }
      assert r.None? ==> forall i :: 1 <= i < |logs| ==> logs[i] == logs[1..][i - 1];
      r
  }

  function MetadataField(m: map<string, Json>, key: string): Option<Json>
  {
    if key in m then Some(m[key]) else None
  }

  /** The threaded execution for one start entry. */
  function Thread(start: LogEntry, logs: seq<LogEntry>): (e: Execution)
    ensures e.id == start.id && e.timestamp == start.timestamp
    ensures e.input == MetadataField(start.metadata, "input")
    ensures var end := FindEnd(logs, start.id);
      && (e.status == Succeeded <==> end.Some? && end.value.action == SuccessAction)
      && (e.status == Failed <==> end.Some? && end.value.action != SuccessAction)
      && (e.status == Pending <==> end.None?)
      && (e.duration.Some? <==> end.Some?)
      && (end.Some? ==> e.duration == Some(end.value.timestamp - start.timestamp))
      && (end.Some? ==> e.output == MetadataField(end.value.metadata, "output"))
      && (end.None? ==> e.output.None?)
  {
    var end := FindEnd(logs, start.id);
    Execution(
      start.id,
      start.timestamp,
      if end.Some? && end.value.action == SuccessAction then Succeeded
      else if end.Some? then Failed
      else Pending,
      if end.Some? then Some(end.value.timestamp - start.timestamp) else None,
      MetadataField(start.metadata, "input"),
      if end.Some? then MetadataField(end.value.metadata, "output") else None)
  }

  /** `threadedLogs`: one execution per start entry, in input order. */
  function ThreadedLogs(logs: seq<LogEntry>): (r: seq<Execution>)
    ensures |r| == |Starts(logs)|
    ensures forall i :: 0 <= i < |r| ==> r[i] == Thread(Starts(logs)[i], logs)
  {
    var starts := Starts(logs);
    seq(|starts|, i requires 0 <= i < |starts| => Thread(starts[i], logs))
  }

  /** There are as many executions as start entries, and none when there
      is no start entry. */
  lemma ThreadedCount(logs: seq<LogEntry>)
    ensures |ThreadedLogs(logs)| == Count(logs, IsStart)
    ensures (forall i :: 0 <= i < |logs| ==> !IsStart(logs[i])) ==> ThreadedLogs(logs) == []
  {
    FilterCount(logs, IsStart);
  }

  /** The executions' ids are the start entries' ids in the order the
      start entries appear in the log. */
  lemma ThreadedOrder(logs: seq<LogEntry>)
    ensures SubsequenceOf(Starts(logs), logs)
    ensures forall i :: 0 <= i < |ThreadedLogs(logs)| ==>
      ThreadedLogs(logs)[i].id == Starts(logs)[i].id && IsStart(Starts(logs)[i])
  {
    FilterIsSubsequence(logs, IsStart);
  }

  /** The end entry is found by parent alone: an entry that is itself a
      start, or one listed before its start, still ends the execution, and
      as it is not a success the execution counts as failed. */
  lemma EndFoundByParentAlone(start: LogEntry, other: LogEntry)
    requires other.parentId == Some(start.id) && other.action == StartAction
    ensures Thread(start, [other, start]).status == Failed
  {
    assert FindEnd([other, start], start.id) == Some(other);
  }
}
