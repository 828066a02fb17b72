/** Runs of the loop on small concrete input sequences: out-of-order records
    within one window, and two consecutive windows linked by the sequence
    token. Records and settings are left symbolic where only their order or
    their content matters. */
module Scenarios {

  import opened Optional
  import opened Records
  import opened Sorting
  import opened Dispatcher
  import opened Aggregator

  /** An arrival makes no call: the run continues from the extended accumulator. */
  lemma ArrivalThenRun(cfg: Config, s: Session, r: Record, rest: seq<Input>)
    ensures Run(cfg, Running(s), [Arrived(r)] + rest) ==
      Run(cfg, Running(Session(s.acc + [r], s.sequenceToken)), rest)
  {
  }

  /** A tick with records pending makes one call with exactly those records;
      after an accepted call the run continues from an empty accumulator
      holding the returned token. */
  lemma AcceptedTickThenRun(cfg: Config, s: Session, next: string, rest: seq<Input>)
    requires s.acc != []
    ensures var tr := Run(cfg, Running(Session([], next)), rest);
      Run(cfg, Running(s), [Tick(Accepted(next))] + rest) ==
        Trace(tr.final, [Exchange(s.acc, BuildRequest(cfg, s.acc, s.sequenceToken), Accepted(next))] + tr.exchanges)
  {
  }

  /** Sorting three records that arrived as c, a, b with a before b before c:
      with no ties, every timestamp sort gives a, b, c. */
  lemma SortThree(sort: TimestampSort, a: Record, b: Record, c: Record)
    requires a.timestampNs < b.timestampNs < c.timestampNs
    ensures sort([c, a, b]) == [a, b, c]
  {
    assert multiset([a, b, c]) == multiset([c, a, b]);
    StrictlySortedPermutationIsUnique(sort([c, a, b]), [a, b, c]);
  }

  /** The request for the window holding c, a, b lists the events of a, b, c. */
  lemma OneWindowRequest(cfg: Config, a: Record, b: Record, c: Record)
    requires a.timestampNs < b.timestampNs < c.timestampNs
    ensures BuildRequest(cfg, [c, a, b], "").logEvents == [ToEvent(cfg, a), ToEvent(cfg, b), ToEvent(cfg, c)]
    ensures BuildRequest(cfg, [c, a, b], "").sequenceToken == None
  {
    SortThree(cfg.sort, a, b, c);
  }

  /** The run for that window, with its input written as a concatenation. */
  lemma OneWindowRun(cfg: Config, a: Record, b: Record, c: Record, next: string)
    ensures Run(cfg, Start, [Arrived(c)] + ([Arrived(a)] + ([Arrived(b)] + ([Tick(Accepted(next))] + [])))) ==
      Trace(Running(Session([], next)), [Exchange([c, a, b], BuildRequest(cfg, [c, a, b], ""), Accepted(next))])
  {
    var tick := [Tick(Accepted(next))] + [];
    var last := [Arrived(b)] + tick;
    ArrivalThenRun(cfg, Session([], ""), c, [Arrived(a)] + last);
    assert [] + [c] == [c];
    ArrivalThenRun(cfg, Session([c], ""), a, last);
    assert [c] + [a] == [c, a];
    ArrivalThenRun(cfg, Session([c, a], ""), b, tick);
    assert [c, a] + [b] == [c, a, b];
    AcceptedTickThenRun(cfg, Session([c, a, b], ""), next, []);
  }

  /** Three records arriving in the order c, a, b within one window, where a
      is older than b and b older than c, are sent in one request holding
      a, b, c; being the first request, it carries no token. */
  lemma OneWindowSendsInTimestampOrder(cfg: Config, a: Record, b: Record, c: Record, next: string)
    requires a.timestampNs < b.timestampNs < c.timestampNs
    ensures var inputs := [Arrived(c), Arrived(a), Arrived(b), Tick(Accepted(next))];
      var tr := Run(cfg, Start, inputs);
      && |tr.exchanges| == 1
      && tr.exchanges[0].request.logEvents == [ToEvent(cfg, a), ToEvent(cfg, b), ToEvent(cfg, c)]
      && tr.exchanges[0].request.sequenceToken == None
      && tr.final == Running(Session([], next))
  {
    OneWindowRun(cfg, a, b, c, next);
    OneWindowRequest(cfg, a, b, c);
    assert [Arrived(c), Arrived(a), Arrived(b), Tick(Accepted(next))] ==
      [Arrived(c)] + ([Arrived(a)] + ([Arrived(b)] + ([Tick(Accepted(next))] + [])));
  }

  /** The plain-text case of the example above, with records logged at
      10:00:02, 10:00:00 and 10:00:01 on 1 January 1970 (36,000 s after the
      epoch): the messages are the contents "a", "b", "c" in timestamp order,
      stamped in milliseconds. */
  lemma OneWindowPlainMessages(cfg: Config)
    requires !cfg.useJson
    ensures var inputs := [Arrived(Record(36_002_000_000_000, "c", map[])),
                           Arrived(Record(36_000_000_000_000, "a", map[])),
                           Arrived(Record(36_001_000_000_000, "b", map[])),
                           Tick(Accepted("t1"))];
      var ex := Run(cfg, Start, inputs).exchanges;
      && |ex| == 1
      && ex[0].request.logEvents ==
           [InputLogEvent("a", 36_000_000), InputLogEvent("b", 36_001_000), InputLogEvent("c", 36_002_000)]
  {
    OneWindowSendsInTimestampOrder(cfg, Record(36_000_000_000_000, "a", map[]), Record(36_001_000_000_000, "b", map[]),
                                   Record(36_002_000_000_000, "c", map[]), "t1");
    assert MakeMilliTimestamp(36_000_000_000_000) == 36_000_000;
    assert MakeMilliTimestamp(36_001_000_000_000) == 36_001_000;
    assert MakeMilliTimestamp(36_002_000_000_000) == 36_002_000;
  }

  /** The run for two windows, with its input written as a concatenation. */
  lemma TwoWindowsRun(cfg: Config, r1: Record, r2: Record)
    ensures var tr := Run(cfg, Start, [Arrived(r1)] + ([Tick(Accepted("t1"))] + ([Arrived(r2)] + ([Tick(Accepted("t2"))] + []))));
      && |tr.exchanges| == 2
      && tr.exchanges[0].request.sequenceToken == None
      && tr.exchanges[1].request.sequenceToken == Some("t1")
      && tr.final == Running(Session([], "t2"))
  {
    var second := [Arrived(r2)] + ([Tick(Accepted("t2"))] + []);
    ArrivalThenRun(cfg, Session([], ""), r1, [Tick(Accepted("t1"))] + second);
    assert [] + [r1] == [r1];
    AcceptedTickThenRun(cfg, Session([r1], ""), "t1", second);
    ArrivalThenRun(cfg, Session([], "t1"), r2, [Tick(Accepted("t2"))] + []);
    assert [] + [r2] == [r2];
    AcceptedTickThenRun(cfg, Session([r2], "t1"), "t2", []);
  }

  /** Two windows with one record each make two calls, and the second
      carries the token returned by the first. */
  lemma SecondWindowCarriesFirstToken(cfg: Config, r1: Record, r2: Record)
    ensures var inputs := [Arrived(r1), Tick(Accepted("t1")), Arrived(r2), Tick(Accepted("t2"))];
      var tr := Run(cfg, Start, inputs);
      && |tr.exchanges| == 2
      && tr.exchanges[0].request.sequenceToken == None
      && tr.exchanges[1].request.sequenceToken == Some("t1")
      && tr.final == Running(Session([], "t2"))
  {
    TwoWindowsRun(cfg, r1, r2);
    assert [Arrived(r1), Tick(Accepted("t1")), Arrived(r2), Tick(Accepted("t2"))] ==
      [Arrived(r1)] + ([Tick(Accepted("t1"))] + ([Arrived(r2)] + ([Tick(Accepted("t2"))] + [])));
  }
}
