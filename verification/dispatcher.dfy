/** Building the CloudWatch Logs `PutLogEvents` request for one batch
    (`sendToCloudWatch`): order the batch, turn each record into an input log
    event, and attach the sequence token when there is one. */
module Dispatcher {

  import opened Optional
  import opened Records
  import opened Seqs
  import opened Sorting

  /** The settings every request is built from: the log group (`LOG_GROUP_NAME`),
      the stream created at startup, the `-json` flag, `json.Marshal` of a
      whole record, which is left uninterpreted, and the timestamp sort, of
      which only its two promises are known (`sort.Slice` picks some order
      among equal timestamps). */
  datatype Config = Config(
    logGroupName: string,
    logStreamName: string,
    useJson: bool,
    marshal: Record -> string,
    sort: TimestampSort)

  /** `cloudwatchlogs.InputLogEvent`: a message with a Unix-millisecond timestamp. */
  datatype InputLogEvent = InputLogEvent(message: string, timestamp: Int64)

  /** `cloudwatchlogs.PutLogEventsInput`; `sequenceToken` is `None` when the
      field is left unset. */
  datatype PutLogEventsInput = PutLogEventsInput(
    logGroupName: string,
    logStreamName: string,
    logEvents: seq<InputLogEvent>,
    sequenceToken: Option<string>)

  /** The event for one record: the JSON of the whole record in JSON mode,
      the record's content otherwise. */
  function ToEvent(cfg: Config, r: Record): InputLogEvent
  {
    var message := if cfg.useJson then cfg.marshal(r) else r.content;
    InputLogEvent(message, MakeMilliTimestamp(r.timestampNs))
  }

  function Encoder(cfg: Config): Record -> InputLogEvent
  {
    (r: Record) => ToEvent(cfg, r)
  }

  /** The events for `records`, one per record, in the same order. */
  function EventsOf(cfg: Config, records: seq<Record>): seq<InputLogEvent>
  {
    Map(Encoder(cfg), records)
  }

  /** The request's sequence token: only set when the process-wide token is non-empty. */
  function SequenceTokenField(token: string): Option<string>
  {
    if token != "" then Some(token) else None
  }

  /** The request `sendToCloudWatch` sends for `batch` while the process-wide
      sequence token is `token`. */
  function BuildRequest(cfg: Config, batch: seq<Record>, token: string): (req: PutLogEventsInput)
    ensures req.logGroupName == cfg.logGroupName
    ensures req.logStreamName == cfg.logStreamName
    ensures |req.logEvents| == |batch|
    ensures req.sequenceToken.Some? <==> token != ""
    ensures req.sequenceToken.Some? ==> req.sequenceToken.value == token
  {
    var sorted := cfg.sort(batch);
    assert |sorted| == |multiset(sorted)| == |multiset(batch)| == |batch|;
    PutLogEventsInput(cfg.logGroupName, cfg.logStreamName, EventsOf(cfg, sorted), SequenceTokenField(token))
  }

  /** The loop of `sendToCloudWatch` that appends one event per record of the
      (already sorted) buffer. */
  method AppendLogEvents(cfg: Config, buffer: seq<Record>) returns (events: seq<InputLogEvent>)
    ensures |events| == |buffer|
    ensures forall i :: 0 <= i < |buffer| ==>
      events[i].timestamp == MakeMilliTimestamp(buffer[i].timestampNs)
    ensures forall i :: 0 <= i < |buffer| ==>
      events[i].message == (if cfg.useJson then cfg.marshal(buffer[i]) else buffer[i].content)
    ensures events == EventsOf(cfg, buffer)
  {
    events := [];
    for k := 0 to |buffer|
      invariant |events| == k
      invariant forall i :: 0 <= i < k ==> events[i] == ToEvent(cfg, buffer[i])
    {
      var eventStr := "";
      if cfg.useJson {
        eventStr := cfg.marshal(buffer[k]);
      } else {
        eventStr := buffer[k].content;
      }
      events := events + [InputLogEvent(eventStr, MakeMilliTimestamp(buffer[k].timestampNs))];
    }
  }

  /** The request holds exactly the batch's events, each once, in some order. */
  lemma RequestEventsArePermutationOfBatch(cfg: Config, batch: seq<Record>, token: string)
    ensures multiset(BuildRequest(cfg, batch, token).logEvents) == multiset(EventsOf(cfg, batch))
  {
    MapPermutation(Encoder(cfg), cfg.sort(batch), batch);
  }

  /** CloudWatch Logs requires the events of one request in chronological
      order: the request's millisecond timestamps never decrease. */
  lemma RequestEventsInTimestampOrder(cfg: Config, batch: seq<Record>, token: string)
    ensures forall i, j :: 0 <= i < j < |BuildRequest(cfg, batch, token).logEvents| ==>
      BuildRequest(cfg, batch, token).logEvents[i].timestamp <= BuildRequest(cfg, batch, token).logEvents[j].timestamp
  {
  }

  /** Each event of the request comes from the record at the same position of
      the batch in timestamp order: its message is the record's content, or
      the record's JSON in JSON mode, and its timestamp is the record's time
      in milliseconds. */
  lemma RequestEventsFollowSortedBatch(cfg: Config, batch: seq<Record>, token: string)
    ensures var sorted := cfg.sort(batch);
      var events := BuildRequest(cfg, batch, token).logEvents;
      && SortedByTimestamp(sorted)
      && multiset(sorted) == multiset(batch)
      && |events| == |sorted|
      && forall i :: 0 <= i < |events| ==>
        && events[i].message == (if cfg.useJson then cfg.marshal(sorted[i]) else sorted[i].content)
        && events[i].timestamp == MakeMilliTimestamp(sorted[i].timestampNs)
  {
  }

  /** The unstable sort can only reorder events whose records share a
      timestamp: any sorted arrangement of the batch yields the same sequence
      of event timestamps as the request. */
  lemma EventTimestampsIndependentOfTieOrder(cfg: Config, batch: seq<Record>, token: string, other: seq<Record>)
    requires SortedByTimestamp(other) && multiset(other) == multiset(batch)
    ensures |EventsOf(cfg, other)| == |BuildRequest(cfg, batch, token).logEvents|
    ensures forall i :: 0 <= i < |other| ==>
      EventsOf(cfg, other)[i].timestamp == BuildRequest(cfg, batch, token).logEvents[i].timestamp
  {
    SortedPermutationsShareTimestamps(other, cfg.sort(batch));
  }
}
