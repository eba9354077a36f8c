/** The writer's own loops. Each method runs one call or one consumer round
    without interference and is proved to be a sequence of protocol steps, so
    everything proved about interleaved runs holds of it. */
module AsyncWriteBuffers {
  import opened WriteBuffer

  /** `n` consumer steps in a row. */
  function Rounds(s: State, io: Io, n: nat): State {
    if n == 0 then s else Consume(Rounds(s, io, n - 1), io)
  }

  lemma {:induction false} NextRound(s: State, io: Io, n: nat)
    ensures Rounds(s, io, n + 1) == Consume(Rounds(s, io, n), io)
    ensures Rounds(s, io, 0) == s
  {
  }

  lemma {:induction false} RunAppend(s: State, actions: seq<Action>, a: Action)
    ensures Run(s, actions + [a]) == Next(Run(s, actions), a)
    decreases actions
  {
    if actions == [] {
      assert actions + [a] == [a];
      assert Run(s, [a]) == Run(Next(s, a), []);
    } else {
      assert (actions + [a])[1..] == actions[1..] + [a];
      RunAppend(Next(s, actions[0]), actions[1..], a);
    }
  }

  /** Consumer rounds are runs of the protocol. */
  lemma {:induction false} RoundsAreRuns(s: State, io: Io, n: nat)
    ensures Rounds(s, io, n) == Run(s, seq(n, _ => Action.Consumer(io)))
  {
    if n > 0 {
      RoundsAreRuns(s, io, n - 1);
      assert seq(n, _ => Action.Consumer(io)) == seq(n - 1, _ => Action.Consumer(io)) + [Action.Consumer(io)];
      RunAppend(s, seq(n - 1, _ => Action.Consumer(io)), Action.Consumer(io));
    }
  }

  // ---------------------------------------------------------------- whole calls

  function FourSteps(s: State): State {
    Produce(Produce(Produce(Produce(s))))
  }

  /** A write nobody interferes with: it queues its line, at the price of the oldest
      entry when the queue is full. */
  lemma {:induction false} WriteAlone(s: State, line: string)
    requires Bounded(s) && s.producer.Idle?
    ensures var item := Terminated(line);
      FourSteps(Submit(s, line)) ==
        if s.closed then s
        else if |s.queue| < s.maxQueue then
          s.(submitted := s.submitted + [item], queue := s.queue + [Line(item)], unfinished := s.unfinished + 1)
        else
          s.(submitted := s.submitted + [item], queue := s.queue[1..] + [Line(item)], dropped := s.dropped + 1)
  {
    hide Terminated;
  }

  /** A close nobody interferes with always delivers the sentinel. */
  lemma {:induction false} CloseAlone(s: State)
    requires Bounded(s) && s.producer.Idle?
    ensures FourSteps(BeginClose(s)) ==
      if s.closed then s
      else if |s.queue| < s.maxQueue then
        s.(closed := true, queue := s.queue + [Sentinel], unfinished := s.unfinished + 1)
      else
        s.(closed := true, queue := s.queue[1..] + [Sentinel], lostAtClose := s.lostAtClose + 1)
  {
  }

  class AsyncWriteBuffer {
    const maxQueue: nat
    const batchSize: nat
    var queue: seq<Item>
    var unfinished: int
    var dropped: nat
    var written: nat
    var closed: bool
    var file: string
    var stopped: bool
    ghost var submitted: seq<string>
    ghost var pieces: seq<Piece>
    ghost var failed: nat
    ghost var torn: nat
    ghost var lostAtClose: nat
    ghost var sentinelLost: bool

    /** The protocol state with the threads at the given points. */
    ghost function At(p: WriteBuffer.Producer, c: WriteBuffer.Consumer): State
      reads this
    {
      State(maxQueue, batchSize, queue, unfinished, dropped, written, closed, file, p, c,
            submitted, pieces, failed, torn, lostAtClose, sentinelLost)
    }

    ghost function Now(): State
      reads this
    {
      At(Idle, if stopped then Stopped else Waiting)
    }

    constructor (maxQueue: int, batchSize: int)
      ensures Now() == Start(maxQueue, batchSize)
    {
      this.maxQueue := if maxQueue < 1 then 1 else maxQueue;
      this.batchSize := if batchSize < 1 then 1 else batchSize;
      queue, unfinished, dropped, written, closed, file, stopped := [], 0, 0, 0, false, "", false;
      submitted, pieces, failed, torn, lostAtClose, sentinelLost := [], [], 0, 0, 0, false;
    }

    method PutNowait(item: Item) returns (ok: bool)
      modifies this`queue, this`unfinished
      ensures ok <==> |old(queue)| < maxQueue
      ensures queue == if ok then old(queue) + [item] else old(queue)
      ensures unfinished == if ok then old(unfinished) + 1 else old(unfinished)
    {
      ok := |queue| < maxQueue;
      if ok {
        queue := queue + [item];
        unfinished := unfinished + 1;
      }
    }

    /** A whole `write` call: up to five producer steps. */
    method Write(line: string) returns (ok: bool)
      requires Bounded(Now())
      modifies this
      ensures ok <==> !old(closed)
      ensures Now() == FourSteps(Submit(old(Now()), line))
    {
      WriteAlone(Now(), line);
      hide FourSteps, Terminated;
      if closed {
        return false;
      }
      var item := Terminated(line);
      submitted := submitted + [item];
      ok := PutNowait(Line(item));
      if !ok {
        dropped := dropped + 1;
        queue := queue[1..];
        unfinished := unfinished - 1;
        ok := PutNowait(Line(item));
      }
    }

    /** A whole `close` call. */
    method Close()
      requires Bounded(Now())
      modifies this
      ensures Now() == FourSteps(BeginClose(old(Now())))
      ensures closed && sentinelLost == old(sentinelLost)
    {
      CloseAlone(Now());
      hide FourSteps;
      if closed {
        return;
      }
      closed := true;
      var ok := PutNowait(Sentinel);
      if !ok {
        queue := queue[1..];
        lostAtClose := lostAtClose + 1;
        unfinished := unfinished - 1;
        var _ := PutNowait(Sentinel);
      }
    }

    /** Takes lines for one batch; true when it met the sentinel. */
    method Collect(first: string, io: Io, ghost s0: State, ghost n0: nat)
      returns (batch: seq<string>, last: bool, ghost n: nat)
      requires batchSize >= 1
      requires At(Idle, Collecting([first])) == Rounds(s0, io, n0)
      modifies this`queue
      ensures 1 <= |batch| <= batchSize && |queue| <= |old(queue)|
      ensures At(Idle, Flushing(batch, last)) == Rounds(s0, io, n)
    {
      hide Rounds;
      batch, n := [first], n0;
      for i := 0 to batchSize - 1
        invariant |batch| == i + 1 && |queue| <= |old(queue)|
        invariant At(Idle, Collecting(batch)) == Rounds(s0, io, n)
      {
        NextRound(s0, io, n);
        n := n + 1;
        if queue == [] {
          return batch, false, n;
        }
        var next := queue[0];
        queue := queue[1..];
        if next.Sentinel? {
          return batch, true, n;
        }
        batch := batch + [next.text];
      }
      NextRound(s0, io, n);
      return batch, false, n + 1;
    }

    method FlushBatch(batch: seq<string>, last: bool, io: Io, ghost s0: State, ghost n0: nat) returns (ghost n: nat)
      requires At(Idle, Flushing(batch, last)) == Rounds(s0, io, n0)
      modifies this`file, this`written, this`pieces, this`failed, this`torn
      ensures At(Idle, Acking(|batch| + Extra(last), last)) == Rounds(s0, io, n)
    {
      hide Rounds, Concat, Prefix, Wholes, Cuts;
      NextRound(s0, io, n0);
      if io.Written? {
        NextRound(s0, io, n0 + 1);
        file := file + Concat(batch);
        pieces := pieces + Wholes(batch);
        written := written + |batch|;
        n := n0 + 2;
      } else {
        file := file + Prefix(Concat(batch), io.kept);
        pieces := pieces + Cuts(batch, io.kept);
        torn := torn + |Cuts(batch, io.kept)|;
        failed := failed + |batch|;
        n := n0 + 1;
      }
    }

    method TaskDone(tasks: nat, last: bool, io: Io, ghost s0: State, ghost n0: nat) returns (ghost n: nat)
      requires tasks >= 1 && At(Idle, Acking(tasks, last)) == Rounds(s0, io, n0)
      modifies this`unfinished
      ensures At(Idle, if last then Stopped else Waiting) == Rounds(s0, io, n)
    {
      hide Rounds;
      n := n0;
      for i := 0 to tasks
        invariant At(Idle, if i < tasks then Acking(tasks - i, last) else if last then Stopped else Waiting)
                  == Rounds(s0, io, n)
      {
        NextRound(s0, io, n);
        unfinished := unfinished - 1;
        n := n + 1;
      }
    }

    /** One round of the consumer loop on a non-empty queue, `io` being what its
        file write does. */
    method RunRound(io: Io) returns (ghost n: nat)
      requires Bounded(Now()) && !stopped && queue != []
      modifies this
      ensures Now() == Rounds(old(Now()), io, n)
      ensures stopped || |queue| < |old(queue)|
    {
      hide Rounds;
      ghost var s0 := Now();
      NextRound(s0, io, 0);
      var first := queue[0];
      queue := queue[1..];
      if first.Sentinel? {
        n := TaskDone(1, true, io, s0, 1);
        stopped := true;
        return;
      }
      var batch, last;
      batch, last, n := Collect(first.text, io, s0, 1);
      n := FlushBatch(batch, last, io, s0, n);
      n := TaskDone(|batch| + Extra(last), last, io, s0, n);
      if last {
        stopped := true;
      }
    }
  }
}
