/** The batching loop of the bridge and the sequence-token protocol, as a
    sequential state machine. Its two events are a record arriving on the
    channel and a ticker tick; a tick with a non-empty accumulator sends one
    `PutLogEvents` request, whose outcome is an input of the step. */
module Aggregator {

  import opened Optional
  import opened Records
  import opened Dispatcher

  /** The state the loop keeps: the accumulator `loglist` and the
      process-wide `sequenceToken`. */
  datatype Session = Session(acc: seq<Record>, sequenceToken: string)

  /** The loop runs until a failed call stops the process: after a failed
      `PutLogEvents` the response carries no next token, so the unconditional
      token update cannot complete and no further step happens. */
  datatype Loop = Running(session: Session) | Halted

  /** The answer of the remote `PutLogEvents` call. */
  datatype CallOutcome = Accepted(nextSequenceToken: string) | Failed

  /** The events the loop reacts to. A tick carries the outcome the remote
      call would have, which matters only when a call is made. */
  datatype Input = Arrived(record: Record) | Tick(outcome: CallOutcome)

  /** One `PutLogEvents` call: the batch handed over, the request sent and its outcome. */
  datatype Exchange = Exchange(batch: seq<Record>, request: PutLogEventsInput, outcome: CallOutcome)

  datatype Transition = Transition(after: Loop, call: Option<Exchange>)

  /** The state after startup: empty accumulator and empty sequence token. */
  const Start: Loop := Running(Session([], ""))

  /** One iteration of the `select` loop. */
  function Step(cfg: Config, loop: Loop, input: Input): (t: Transition)
    ensures loop.Halted? ==> t == Transition(Halted, None)
    ensures loop.Running? && input.Arrived? ==>
      && t.call == None
      && t.after == Running(Session(loop.session.acc + [input.record], loop.session.sequenceToken))
    ensures loop.Running? && input.Tick? && loop.session.acc == [] ==>
      t == Transition(loop, None)
    ensures loop.Running? && input.Tick? && loop.session.acc != [] ==>
      && t.call.Some?
      && t.call.value.batch == loop.session.acc
      && t.call.value.request == BuildRequest(cfg, loop.session.acc, loop.session.sequenceToken)
      && t.call.value.outcome == input.outcome
      && (input.outcome.Accepted? ==>
            t.after == Running(Session([], input.outcome.nextSequenceToken)))
      && (input.outcome.Failed? ==> t.after == Halted)
  {
    match loop
    case Halted => Transition(Halted, None)
    case Running(s) =>
      match input
      case Arrived(r) =>
        Transition(Running(s.(acc := s.acc + [r])), None)
      case Tick(outcome) =>
        if |s.acc| <= 0 then
          Transition(loop, None)
        else
          var call := Exchange(s.acc, BuildRequest(cfg, s.acc, s.sequenceToken), outcome);
          match outcome
          case Accepted(next) => Transition(Running(Session([], next)), Some(call))
          case Failed => Transition(Halted, Some(call))
  }

  /** What a run of the loop leaves behind: its final state and every call it made, in order. */
  datatype Trace = Trace(final: Loop, exchanges: seq<Exchange>)

  function CallList(call: Option<Exchange>): seq<Exchange>
  {
    match call
    case None => []
    case Some(e) => [e]
  }

  /** The number of ticks among `inputs`. */
  function Ticks(inputs: seq<Input>): nat
  {
    if inputs == [] then 0 else (if inputs[0].Tick? then 1 else 0) + Ticks(inputs[1..])
  }

  /** The records that arrive among `inputs`, in arrival order. */
  function Arrivals(inputs: seq<Input>): seq<Record>
  {
    if inputs == [] then []
    else (if inputs[0].Arrived? then [inputs[0].record] else []) + Arrivals(inputs[1..])
  }

  /** The batches handed to the dispatcher, concatenated. */
  function Batches(exchanges: seq<Exchange>): seq<Record>
  {
    if exchanges == [] then [] else exchanges[0].batch + Batches(exchanges[1..])
  }

  /** Feeds `inputs` to the loop one after the other. Every call is triggered
      by a tick, so there are never more calls than ticks. */
  function Run(cfg: Config, loop: Loop, inputs: seq<Input>): (tr: Trace)
    ensures |tr.exchanges| <= Ticks(inputs)
    decreases |inputs|
  {
    if inputs == [] then
      Trace(loop, [])
    else
      var t := Step(cfg, loop, inputs[0]);
      var rest := Run(cfg, t.after, inputs[1..]);
      Trace(rest.final, CallList(t.call) + rest.exchanges)
  }

  /** Once stopped, the loop neither moves nor calls the service. */
  lemma {:induction false} HaltedIsFinal(cfg: Config, inputs: seq<Input>)
    ensures Run(cfg, Halted, inputs) == Trace(Halted, [])
    decreases |inputs|
  {
    if inputs != [] {
      HaltedIsFinal(cfg, inputs[1..]);
    }
  }

  /** The sequence-token chain. The first call of a run sends the token held
      at its start (none when that token is empty); every later call follows
      an accepted one and sends the token that call returned, or none when it
      returned an empty one. While the loop runs its token is the one last
      returned, and it stops exactly when a call fails. */
  lemma {:induction false} TokenChaining(cfg: Config, s: Session, inputs: seq<Input>)
    ensures var ex := Run(cfg, Running(s), inputs).exchanges;
      |ex| > 0 ==> ex[0].request.sequenceToken == SequenceTokenField(s.sequenceToken)
    ensures var ex := Run(cfg, Running(s), inputs).exchanges;
      forall i :: 0 <= i < |ex| - 1 ==>
        && ex[i].outcome.Accepted?
        && ex[i + 1].request.sequenceToken == SequenceTokenField(ex[i].outcome.nextSequenceToken)
    ensures var tr := Run(cfg, Running(s), inputs);
      tr.final.Running? ==>
        if tr.exchanges == [] then tr.final.session.sequenceToken == s.sequenceToken
        else
          && tr.exchanges[|tr.exchanges| - 1].outcome.Accepted?
          && tr.final.session.sequenceToken == tr.exchanges[|tr.exchanges| - 1].outcome.nextSequenceToken
    ensures var tr := Run(cfg, Running(s), inputs);
      tr.final.Halted? <==> tr.exchanges != [] && tr.exchanges[|tr.exchanges| - 1].outcome.Failed?
    decreases |inputs|
  {
    if inputs != [] {
      var t := Step(cfg, Running(s), inputs[0]);
      match t.after
      case Halted =>
        HaltedIsFinal(cfg, inputs[1..]);
      case Running(s') =>
        TokenChaining(cfg, s', inputs[1..]);
    }
  }

  /** Starting from startup, the first request carries no sequence token,
      and each later request carries the token the previous call returned
      whenever that token is non-empty. */
  lemma FirstRequestHasNoToken(cfg: Config, inputs: seq<Input>)
    ensures var ex := Run(cfg, Start, inputs).exchanges;
      && (|ex| > 0 ==> ex[0].request.sequenceToken == None)
      && forall i :: 0 <= i < |ex| - 1 ==>
           ex[i].outcome.Accepted? && ex[i].outcome.nextSequenceToken != "" ==>
             ex[i + 1].request.sequenceToken == Some(ex[i].outcome.nextSequenceToken)
  {
    TokenChaining(cfg, Session([], ""), inputs);
  }

  /** The record an input delivers, if any. */
  function ArrivedIn(input: Input): seq<Record>
  {
    if input.Arrived? then [input.record] else []
  }

  /** One step keeps every record: what it hands over, followed by what it
      keeps accumulated, is the old accumulator followed by the new arrival. */
  lemma StepConservesRecords(cfg: Config, s: Session, input: Input)
    ensures var t := Step(cfg, Running(s), input);
      t.after.Running? ==> Batches(CallList(t.call)) + t.after.session.acc == s.acc + ArrivedIn(input)
    ensures var t := Step(cfg, Running(s), input);
      t.after.Halted? ==> Batches(CallList(t.call)) == s.acc
  {
  }

  /** A run is its first step followed by the run of the remaining inputs. */
  lemma RunUnfolds(cfg: Config, s: Session, inputs: seq<Input>)
    requires inputs != []
    ensures var t := Step(cfg, Running(s), inputs[0]);
      var rest := Run(cfg, t.after, inputs[1..]);
      Run(cfg, Running(s), inputs) == Trace(rest.final, CallList(t.call) + rest.exchanges)
  {
  }

  /** Concatenating call lists concatenates their batches. */
  lemma {:induction false} BatchesConcat(a: seq<Exchange>, b: seq<Exchange>)
    ensures Batches(a + b) == Batches(a) + Batches(b)
    decreases |a|
  {
    if a == [] {
      assert a + b == b;
    } else {
      assert (a + b)[0] == a[0];
      assert (a + b)[1..] == a[1..] + b;
      BatchesConcat(a[1..], b);
    }
  }

  /** No record is lost or duplicated before dispatch: while the loop runs,
      the batches sent, followed by what is still accumulated, are the
      accumulated records followed by the arrivals, in arrival order. */
  lemma {:induction false} RecordsConserved(cfg: Config, s: Session, inputs: seq<Input>)
    ensures var tr := Run(cfg, Running(s), inputs);
      tr.final.Running? ==> Batches(tr.exchanges) + tr.final.session.acc == s.acc + Arrivals(inputs)
    decreases |inputs|
  {
    if inputs != [] {
      var t := Step(cfg, Running(s), inputs[0]);
      var rest := Run(cfg, t.after, inputs[1..]);
      RunUnfolds(cfg, s, inputs);
      BatchesConcat(CallList(t.call), rest.exchanges);
      assert Arrivals(inputs) == ArrivedIn(inputs[0]) + Arrivals(inputs[1..]);
      StepConservesRecords(cfg, s, inputs[0]);
      match t.after
      case Halted =>
        HaltedIsFinal(cfg, inputs[1..]);
      case Running(s') =>
        RecordsConserved(cfg, s', inputs[1..]);
        if rest.final.Running? {
          Regroup(Batches(CallList(t.call)), s'.acc, s.acc, ArrivedIn(inputs[0]),
                  Batches(rest.exchanges), Arrivals(inputs[1..]), rest.final.session.acc);
        }
    }
  }

  /** Even when a failed call stops the loop, the batches sent form a prefix
      of the accumulated records followed by the arrivals. */
  lemma {:induction false} BatchesArePrefixOfArrivals(cfg: Config, s: Session, inputs: seq<Input>)
    ensures Batches(Run(cfg, Running(s), inputs).exchanges) <= s.acc + Arrivals(inputs)
    decreases |inputs|
  {
    if inputs != [] {
      var t := Step(cfg, Running(s), inputs[0]);
      var rest := Run(cfg, t.after, inputs[1..]);
      var sent := Batches(CallList(t.call));
      RunUnfolds(cfg, s, inputs);
      BatchesConcat(CallList(t.call), rest.exchanges);
      assert Arrivals(inputs) == ArrivedIn(inputs[0]) + Arrivals(inputs[1..]);
      StepConservesRecords(cfg, s, inputs[0]);
      match t.after
      case Halted =>
        HaltedIsFinal(cfg, inputs[1..]);
        assert Batches(rest.exchanges) == [];
        PrefixOfConcat(s.acc, Arrivals(inputs));
      case Running(s') =>
        BatchesArePrefixOfArrivals(cfg, s', inputs[1..]);
        PrefixRegroup(sent, s'.acc, s.acc, ArrivedIn(inputs[0]),
                      Batches(rest.exchanges), Arrivals(inputs[1..]));
    }
  }

  lemma PrefixOfConcat(a: seq<Record>, b: seq<Record>)
    ensures a <= a + b
  {
  }

  /** Sequence algebra for one step of `RecordsConserved`. */
  lemma Regroup(sent: seq<Record>, kept: seq<Record>, acc: seq<Record>, now: seq<Record>,
                later: seq<Record>, arrivedLater: seq<Record>, pending: seq<Record>)
    requires sent + kept == acc + now
    requires later + pending == kept + arrivedLater
    ensures (sent + later) + pending == acc + (now + arrivedLater)
  {
    calc {
      (sent + later) + pending;
      sent + (later + pending);
      (sent + kept) + arrivedLater;
      acc + (now + arrivedLater);
    }
  }

  /** Sequence algebra for one step of `BatchesArePrefixOfArrivals`. */
  lemma PrefixRegroup(sent: seq<Record>, kept: seq<Record>, acc: seq<Record>, now: seq<Record>,
                      later: seq<Record>, arrivedLater: seq<Record>)
    requires sent + kept == acc + now
    requires later <= kept + arrivedLater
    ensures sent + later <= acc + (now + arrivedLater)
  {
    calc {
      acc + (now + arrivedLater);
      (acc + now) + arrivedLater;
      (sent + kept) + arrivedLater;
      sent + (kept + arrivedLater);
    }
    assert (sent + (kept + arrivedLater))[..|sent + later|] == sent + (kept + arrivedLater)[..|later|];
  }

  /** Every call sends a non-empty batch, to the configured group and stream,
      with one event per record of its batch. */
  predicate WellFormedCall(cfg: Config, e: Exchange)
  {
    && e.batch != []
    && |e.request.logEvents| == |e.batch|
    && e.request.logGroupName == cfg.logGroupName
    && e.request.logStreamName == cfg.logStreamName
  }

  /** No run of the loop ever sends an empty request, and all requests go to
      the one configured group and stream. */
  lemma {:induction false} CallsAreNonEmpty(cfg: Config, loop: Loop, inputs: seq<Input>)
    ensures forall e :: e in Run(cfg, loop, inputs).exchanges ==> WellFormedCall(cfg, e)
    decreases |inputs|
  {
    if inputs != [] {
      var t := Step(cfg, loop, inputs[0]);
      CallsAreNonEmpty(cfg, t.after, inputs[1..]);
      if t.call.Some? {
        assert loop.Running? && inputs[0].Tick? && loop.session.acc != [];
        assert WellFormedCall(cfg, t.call.value);
      }
    }
  }

  /** A window of ticks with nothing accumulated makes no call and changes nothing. */
  lemma {:induction false} IdleTicksMakeNoCall(cfg: Config, s: Session, inputs: seq<Input>)
    requires s.acc == []
    requires forall i :: 0 <= i < |inputs| ==> inputs[i].Tick?
    ensures Run(cfg, Running(s), inputs) == Trace(Running(s), [])
    decreases |inputs|
  {
    if inputs != [] {
      IdleTicksMakeNoCall(cfg, s, inputs[1..]);
    }
  }
}
