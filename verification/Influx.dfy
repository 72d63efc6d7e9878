/** The InfluxDB sink: a bounded queue that many senders fill and one writer empties in batches. */
module Influx {

  const QUEUE_CAPACITY: nat := 4096
  const MAX_BATCH: nat := 500

  /** Where the writer is: waiting for a first line, filling a batch, about to post it, or gone. */
  datatype Phase = Waiting | Filling | Posting | Stopped

  /** `accepted` lists every line that was ever put into the queue, `posted` every batch that was handed to HTTP. */
  datatype State = State(queue: seq<string>, closed: bool, enqueued: nat, dropped: nat, accepted: seq<string>,
                         phase: Phase, batch: seq<string>, posted: seq<seq<string>>, sent: nat, failed: nat)

  /** Nothing has happened yet. */
  predicate Initial(s: State) {
    && s.queue == s.accepted == s.batch == [] && s.posted == []
    && !s.closed && s.phase.Waiting?
    && s.enqueued == s.dropped == s.sent == s.failed == 0
  }

  datatype Step =
    | Send(line: string)
    | Close
    | Take
    | Ended
    | Deadline
    | Post(ok: bool)

  predicate Enabled(s: State, step: Step) {
    match step
    case Send(_) => !s.closed
    case Close => !s.closed
    case Take => (s.phase.Waiting? || s.phase.Filling?) && s.queue != []
    case Ended => (s.phase.Waiting? || s.phase.Filling?) && s.queue == [] && s.closed
    case Deadline => s.phase.Filling?
    case Post(_) => s.phase.Posting?
  }

  function Next(s: State, step: Step): State
    requires Enabled(s, step)
  {
    match step
    case Send(line) =>
      if |s.queue| < QUEUE_CAPACITY
      then s.(queue := s.queue + [line], enqueued := s.enqueued + 1, accepted := s.accepted + [line])
      else s.(dropped := s.dropped + 1)
    case Close => s.(closed := true)
    case Take =>
      s.(queue := s.queue[1..], batch := s.batch + [s.queue[0]],
         phase := if s.phase.Filling? && |s.batch| + 1 >= MAX_BATCH then Posting else Filling)
    case Ended => s.(phase := if s.phase.Waiting? then Stopped else Posting)
    case Deadline => s.(phase := Posting)
    case Post(ok) =>
      s.(posted := s.posted + [s.batch], batch := [], phase := Waiting,
         sent := s.sent + if ok then 1 else 0, failed := s.failed + if ok then 0 else 1)
  }

  ghost predicate Allowed(s: State, steps: seq<Step>)
    decreases |steps|
  {
    steps == [] || (Enabled(s, steps[0]) && Allowed(Next(s, steps[0]), steps[1..]))
  }

  function Run(s: State, steps: seq<Step>): State
    requires Allowed(s, steps)
    decreases |steps|
  {
    if steps == [] then s else Run(Next(s, steps[0]), steps[1..])
  }

  function Flatten(batches: seq<seq<string>>): seq<string> {
    if batches == [] then [] else batches[0] + Flatten(batches[1..])
  }

  lemma {:induction false} FlattenAppend(batches: seq<seq<string>>, b: seq<string>)
    ensures Flatten(batches + [b]) == Flatten(batches) + b
  {
    if batches == [] {
      assert (batches + [b])[1..] == [];
    } else {
      assert (batches + [b])[1..] == batches[1..] + [b];
      FlattenAppend(batches[1..], b);
    }
  }

  // ---------- Nothing is lost, doubled or reordered ----------

  ghost predicate Conserved(s: State) {
    Flatten(s.posted) + (s.batch + s.queue) == s.accepted
  }

  ghost predicate Bounded(s: State) {
    && |s.queue| <= QUEUE_CAPACITY
    && (forall i :: 0 <= i < |s.posted| ==> 1 <= |s.posted[i]| <= MAX_BATCH)
    && (match s.phase
        case Waiting => s.batch == []
        case Filling => 1 <= |s.batch| < MAX_BATCH
        case Posting => 1 <= |s.batch| <= MAX_BATCH
        case Stopped => s.batch == [] && s.queue == [] && s.closed)
  }

  ghost predicate Counted(s: State) {
    s.enqueued == |s.accepted| && s.sent + s.failed == |s.posted|
  }

  ghost predicate Inv(s: State) {
    Conserved(s) && Bounded(s) && Counted(s)
  }

  lemma Regroup(a: seq<string>, b: seq<string>, c: seq<string>, x: string)
    ensures a + (b + (c + [x])) == a + (b + c) + [x]
    ensures (b + [x]) + c == b + ([x] + c)
    ensures (a + b) + ([] + c) == a + (b + c)
  {
  }

  lemma NextConserves(s: State, step: Step)
    requires Conserved(s) && Enabled(s, step)
    ensures Conserved(Next(s, step))
  {
    match step
    case Send(line) => Regroup(Flatten(s.posted), s.batch, s.queue, line);
    case Take =>
      Regroup([], s.batch, s.queue[1..], s.queue[0]);
      assert [s.queue[0]] + s.queue[1..] == s.queue;
    case Post(_) =>
      FlattenAppend(s.posted, s.batch);
      Regroup(Flatten(s.posted), s.batch, s.queue, "");
    case _ =>
  }

  lemma NextKeeps(s: State, step: Step)
    requires Inv(s) && Enabled(s, step)
    ensures Inv(Next(s, step))
  {
    NextConserves(s, step);
  }

  /** How many lines were offered. */
  function Offered(steps: seq<Step>): nat {
    if steps == [] then 0 else (if steps[0].Send? then 1 else 0) + Offered(steps[1..])
  }

  lemma {:induction false} RunKeeps(s: State, steps: seq<Step>)
    requires Inv(s) && Allowed(s, steps)
    ensures Inv(Run(s, steps))
    ensures Run(s, steps).enqueued + Run(s, steps).dropped == s.enqueued + s.dropped + Offered(steps)
    decreases |steps|
  {
    if steps != [] {
      NextKeeps(s, steps[0]);
      RunKeeps(Next(s, steps[0]), steps[1..]);
    }
  }

  lemma InitialInv(s: State)
    requires Initial(s)
    ensures Inv(s) && s.enqueued + s.dropped == 0
  {
    assert Conserved(s);
    assert Bounded(s);
  }

  // ---------- Nothing is turned away without need ----------

  /** A line is dropped exactly when 4096 lines wait already; otherwise it is the last of those accepted. */
  lemma DropsExact(s: State, line: string)
    requires Bounded(s) && !s.closed
    ensures var s' := Next(s, Send(line));
            if |s.queue| == 4096
            then s' == s.(dropped := s.dropped + 1)
            else s'.dropped == s.dropped && s'.queue == s.queue + [line] && s'.accepted == s.accepted + [line]
                 && s'.enqueued == s.enqueued + 1
  {
  }

  /** How many requests succeed, and how many do not. */
  function Replies(steps: seq<Step>, ok: bool): nat {
    if steps == [] then 0 else (if steps[0] == Post(ok) then 1 else 0) + Replies(steps[1..], ok)
  }

  lemma {:induction false} RepliesCounted(s: State, steps: seq<Step>)
    requires Allowed(s, steps)
    ensures Run(s, steps).sent == s.sent + Replies(steps, true)
    ensures Run(s, steps).failed == s.failed + Replies(steps, false)
    decreases |steps|
  {
    if steps != [] {
      RepliesCounted(Next(s, steps[0]), steps[1..]);
    }
  }

  /** While there is room for every line to come, none is dropped. */
  lemma {:induction false} RoomForAll(s: State, steps: seq<Step>)
    requires Inv(s) && Allowed(s, steps) && |s.queue| + Offered(steps) <= 4096
    ensures Run(s, steps).dropped == s.dropped
    decreases |steps|
  {
    if steps != [] {
      NextKeeps(s, steps[0]);
      RoomForAll(Next(s, steps[0]), steps[1..]);
    }
  }

  /** Up to 4096 lines are all accepted, however slow the writer is. */
  lemma FewAreNeverDropped(s0: State, steps: seq<Step>)
    requires Initial(s0) && Allowed(s0, steps) && Offered(steps) <= 4096
    ensures Run(s0, steps).dropped == 0 && |Run(s0, steps).accepted| == Offered(steps)
  {
    InitialInv(s0);
    RoomForAll(s0, steps);
    RunKeeps(s0, steps);
  }

  ghost predicate Full(batches: seq<seq<string>>) {
    forall i :: 0 <= i < |batches| ==> |batches[i]| == 500
  }

  /** Only a deadline or the end of the senders cuts a batch short: without them every batch posted has 500 lines. */
  lemma {:induction false} BatchesAreFull(s: State, steps: seq<Step>)
    requires Inv(s) && Allowed(s, steps) && Deadline !in steps && Ended !in steps
    requires Full(s.posted) && (s.phase.Posting? ==> |s.batch| == 500)
    ensures Full(Run(s, steps).posted)
    decreases |steps|
  {
    if steps != [] {
      assert steps[0] in steps && forall x :: x in steps[1..] ==> x in steps;
      NextKeeps(s, steps[0]);
      BatchesAreFull(Next(s, steps[0]), steps[1..]);
    }
  }

  /** Over every interleaving of senders and writer: what was posted, then the batch, then the queue are the
      accepted lines in order; batches have 1 to 500 lines, the queue at most 4096; every offered line was
      either accepted or counted as dropped, every batch posted counted by its reply; and when the writer has stopped
      everything accepted was posted. */
  lemma QueueCorrect(s0: State, steps: seq<Step>)
    requires Initial(s0) && Allowed(s0, steps)
    ensures var s := Run(s0, steps);
            && Flatten(s.posted) + (s.batch + s.queue) == s.accepted
            && (forall i :: 0 <= i < |s.posted| ==> 1 <= |s.posted[i]| <= 500) && |s.batch| <= 500 && |s.queue| <= 4096
            && |s.accepted| == s.enqueued && s.enqueued + s.dropped == Offered(steps)
            && s.sent == Replies(steps, true) && s.failed == Replies(steps, false) && s.sent + s.failed == |s.posted|
            && (s.phase.Stopped? ==> Flatten(s.posted) == s.accepted)
  {
    InitialInv(s0);
    RunKeeps(s0, steps);
    RepliesCounted(s0, steps);
    AllPosted(Run(s0, steps));
  }

  lemma AllPosted(s: State)
    requires Inv(s)
    ensures s.phase.Stopped? ==> Flatten(s.posted) == s.accepted
  {
    if s.phase.Stopped? {
      assert Flatten(s.posted) + ([] + []) == Flatten(s.posted);
    }
  }

  // ---------- The sender and the writer ----------

  /** What the writer cannot foresee: the lines that senders offer from one moment to the next, until the last of them,
      when a deadline strikes, and which requests succeed. */
  datatype World = World(arrivals: nat -> seq<string>, lastSend: nat, strikes: nat -> bool, succeeds: nat -> bool) {
    /** The queue is closed once the last lines were offered. */
    predicate Open(clock: nat, closed: bool) {
      closed <==> clock > lastSend
    }

    function OfferedBefore(clock: nat): nat {
      if clock == 0 then 0 else OfferedBefore(clock - 1) + |arrivals(clock - 1)|
    }
  }

  class Sink {
    var queue: seq<string>
    var closed: bool
    var enqueued: nat
    var dropped: nat
    var batch: seq<string>
    var posted: seq<seq<string>>
    var sent: nat
    var failed: nat
    ghost var accepted: seq<string>

    constructor ()
      ensures Initial(Value(Waiting))
    {
      queue, closed, enqueued, dropped, batch, posted, sent, failed := [], false, 0, 0, [], [], 0, 0;
      accepted := [];
    }

    ghost function Value(phase: Phase): State
      reads this
    {
      State(queue, closed, enqueued, dropped, accepted, phase, batch, posted, sent, failed)
    }

    /** Never waits: a line that finds the queue full is counted and forgotten. */
    method TrySend(line: string, ghost phase: Phase)
      requires !closed
      modifies this`queue, this`enqueued, this`dropped, this`accepted
      ensures Value(phase) == Next(old(Value(phase)), Send(line))
    {
      if |queue| < QUEUE_CAPACITY {
        queue, enqueued := queue + [line], enqueued + 1;
        accepted := accepted + [line];
      } else {
        dropped := dropped + 1;
      }
    }

    method TakeLine(ghost phase: Phase)
      requires queue != [] && (phase.Waiting? || phase.Filling?)
      modifies this`queue, this`batch
      ensures Value(Next(old(Value(phase)), Take).phase) == Next(old(Value(phase)), Take)
    {
      batch, queue := batch + [queue[0]], queue[1..];
    }

    method PostBatch(ok: bool)
      modifies this`posted, this`batch, this`sent, this`failed
      ensures Value(Waiting) == Next(old(Value(Posting)), Post(ok))
    {
      posted, batch := posted + [batch], [];
      if ok {
        sent := sent + 1;
      } else {
        failed := failed + 1;
      }
    }

    method SendAll(lines: seq<string>, ghost phase: Phase)
      requires Inv(Value(phase)) && !phase.Stopped? && !closed
      modifies this`queue, this`enqueued, this`dropped, this`accepted
      ensures Inv(Value(phase)) && old(accepted) <= accepted && |old(queue)| <= |queue|
      ensures enqueued + dropped == old(enqueued + dropped) + |lines|
    {
      for i := 0 to |lines|
        invariant Inv(Value(phase)) && old(accepted) <= accepted && |old(queue)| <= |queue|
        invariant enqueued + dropped == old(enqueued + dropped) + i
      {
        NextKeeps(Value(phase), Send(lines[i]));
        TrySend(lines[i], phase);
      }
    }

    /** Until the writer runs again, senders offer what they have; after the last of it they are gone. */
    method Elapse(w: World, clock: nat, ghost phase: Phase) returns (next: nat)
      requires Inv(Value(phase)) && !phase.Stopped? && w.Open(clock, closed)
      modifies this`queue, this`closed, this`enqueued, this`dropped, this`accepted
      ensures Inv(Value(phase)) && w.Open(next, closed) && next == clock + if old(closed) then 0 else 1
      ensures old(closed) ==> queue == old(queue)
      ensures old(accepted) <= accepted && |old(queue)| <= |queue|
      ensures enqueued + dropped - w.OfferedBefore(next) == old(enqueued + dropped) - w.OfferedBefore(clock)
    {
      next := clock;
      if closed {
        return;
      }
      SendAll(w.arrivals(clock), phase);
      if clock == w.lastSend {
        NextKeeps(Value(phase), Close);
        closed := true;
      }
      next := clock + 1;
    }

    /** The batching loop: the deadline may strike at any time, a request may succeed or fail, and senders go on
        meanwhile. When they are gone it ends, and then everything accepted has been posted. */
    method WriterTask(w: World)
      requires !closed && Inv(Value(Waiting))
      modifies this
      ensures Inv(Value(Stopped)) && old(accepted) <= accepted && Flatten(posted) == accepted
      ensures enqueued + dropped == old(enqueued + dropped) + w.OfferedBefore(w.lastSend + 1)
    {
      var clock, tick := 0, 0;
      while queue != [] || !closed
        invariant Inv(Value(Waiting)) && w.Open(clock, closed) && clock <= w.lastSend + 1
        invariant old(accepted) <= accepted
        invariant enqueued + dropped == old(enqueued + dropped) + w.OfferedBefore(clock)
        decreases w.lastSend + 1 - clock, |queue|
      {
        if queue == [] {
          clock := Elapse(w, clock, Waiting);
        } else {
          clock, tick := FillBatch(w, clock, tick);
          clock := Elapse(w, clock, Posting);
          NextKeeps(Value(Posting), Post(w.succeeds(tick)));
          PostBatch(w.succeeds(tick));
        }
      }
      AllPosted(Value(Stopped));
    }

    ghost function AfterTake(): Phase
      reads this
    {
      if |batch| >= MAX_BATCH then Posting else Filling
    }

    /** A line if there is one; no more waiting when the deadline strikes or no line will ever come. */
    method Select(strikes: bool) returns (waiting: bool)
      requires Inv(Value(Filling))
      modifies this`queue, this`batch
      ensures Inv(Value(AfterTake()))
      ensures !waiting ==> strikes || (queue == [] && closed)
      ensures waiting ==> |queue| < |old(queue)| || (queue == old(queue) && !closed)
      ensures !waiting ==> queue == old(queue)
    {
      waiting := !strikes && !(queue == [] && closed);
      if waiting && queue != [] {
        NextKeeps(Value(Filling), Take);
        TakeLine(Filling);
      }
    }

    method TakeFirst()
      requires queue != [] && Inv(Value(Waiting))
      modifies this`queue, this`batch
      ensures Inv(Value(Filling)) && AfterTake().Filling? && |queue| < |old(queue)|
    {
      NextKeeps(Value(Waiting), Take);
      TakeLine(Waiting);
    }

    /** One turn of waiting for more: a line or the deadline, and what senders do meanwhile. */
    method Turn(w: World, clock: nat, strikes: bool) returns (clock': nat, waiting: bool)
      requires Inv(Value(Filling)) && w.Open(clock, closed)
      modifies this`queue, this`closed, this`enqueued, this`dropped, this`accepted, this`batch
      ensures Inv(Value(AfterTake())) && w.Open(clock', closed) && clock' == clock + if old(closed) then 0 else 1
      ensures old(closed) ==> |queue| < |old(queue)| || (!waiting && queue == old(queue))
      ensures !waiting ==> strikes || (queue == [] && closed)
      ensures old(accepted) <= accepted
      ensures enqueued + dropped - w.OfferedBefore(clock') == old(enqueued + dropped) - w.OfferedBefore(clock)
    {
      waiting := Select(strikes);
      clock' := Elapse(w, clock, AfterTake());
    }

    /** A first line, then more until the batch is full; only a deadline, or that no line is left and none will come,
        ends it earlier. */
    method FillBatch(w: World, clock: nat, tick: nat) returns (clock': nat, tick': nat)
      requires queue != [] && Inv(Value(Waiting)) && w.Open(clock, closed) && clock <= w.lastSend + 1
      modifies this`queue, this`closed, this`enqueued, this`dropped, this`accepted, this`batch
      ensures Inv(Value(Posting)) && w.Open(clock', closed) && clock <= clock' <= w.lastSend + 1
      ensures |batch| == 500 || (queue == [] && closed) || exists k :: tick <= k < tick' && w.strikes(k)
      ensures old(closed) ==> clock' == clock && |queue| < |old(queue)|
      ensures old(accepted) <= accepted
      ensures enqueued + dropped - w.OfferedBefore(clock') == old(enqueued + dropped) - w.OfferedBefore(clock)
    {
      clock', tick' := clock, tick;
      TakeFirst();
      var waiting := true;
      while waiting && |batch| < MAX_BATCH
        invariant Inv(Value(AfterTake())) && tick <= tick'
        invariant !waiting ==> (queue == [] && closed) || exists k :: tick <= k < tick' && w.strikes(k)
        invariant w.Open(clock', closed) && clock <= clock' <= w.lastSend + 1 && old(accepted) <= accepted
        invariant old(closed) ==> clock' == clock && |queue| < |old(queue)|
        invariant enqueued + dropped - w.OfferedBefore(clock') == old(enqueued + dropped) - w.OfferedBefore(clock)
        decreases w.lastSend + 1 - clock', |queue|, waiting
      {
        clock', waiting := Turn(w, clock', w.strikes(tick'));
        tick' := tick' + 1;
      }
      if |batch| < MAX_BATCH {
        NextKeeps(Value(Filling), Deadline);
      }
    }
  }
}
