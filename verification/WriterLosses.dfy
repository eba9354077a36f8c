/** What the line writer can lose, and exactly when: the stop marker, a line given
    up for it, and a line given up by its own `write`. */
module WriterLosses {
  import opened WriteBuffer

  /** `close` finds the queue it saw full a moment ago empty, and gives up. */
  predicate LosesSentinel(s: State, a: Action) {
    a.Producer? && s.producer.ClosingFull? && s.queue == []
  }

  /** `close` takes the oldest line out to make room for the sentinel. */
  predicate EvictsForSentinel(s: State, a: Action) {
    a.Producer? && s.producer.ClosingFull? && s.queue != []
  }

  /** `write` finds the queue it saw full a moment ago empty, and gives up. */
  predicate GivesUp(s: State, a: Action) {
    a.Producer? && s.producer.Counted? && s.queue == []
  }

  /** A line enters the queue. */
  predicate PutsLine(s: State, a: Action) {
    var t := Next(s, a);
    |t.queue| == |s.queue| + 1 && t.queue[..|s.queue|] == s.queue && t.queue[|s.queue|].Line?
  }

  // ------------------------------------------------------------------- the sentinel

  lemma {:induction false} StepLosses(s: State, a: Action)
    requires Inv(s)
    ensures Next(s, a).sentinelLost <==> s.sentinelLost || LosesSentinel(s, a)
    ensures Next(s, a).lostAtClose == s.lostAtClose + if EvictsForSentinel(s, a) then 1 else 0
    ensures Next(s, a).producer.ClosingFull? && !s.producer.ClosingFull? ==> |s.queue| == s.maxQueue
  {
    hide InOrder, LinesAccounted, FileAccounted, TasksAccounted, Concat, Cuts, Wholes, Prefix, Terminated;
  }

  /** Over every run: the sentinel is lost exactly when some producer action found
      the queue empty that the closing put had found full, and a line is lost to
      `close` exactly when that action found it non-empty. */
  lemma {:induction false} LossesExactly(s: State, acts: seq<Action>)
    requires Inv(s)
    ensures Run(s, acts).sentinelLost <==>
      s.sentinelLost || exists i :: 0 <= i < |acts| && LosesSentinel(Run(s, acts[..i]), acts[i])
    ensures Run(s, acts).lostAtClose > s.lostAtClose <==>
      exists i :: 0 <= i < |acts| && EvictsForSentinel(Run(s, acts[..i]), acts[i])
    ensures Run(s, acts).lostAtClose >= s.lostAtClose
  {
    hide Inv, Next, LosesSentinel, EvictsForSentinel;
    if acts != [] {
      var n := |acts| - 1;
      var init := acts[..n];
      RunLast(s, acts);
      RunInv(s, init);
      StepLosses(Run(s, init), acts[n]);
      LossesExactly(s, init);
      assert forall i :: 0 <= i < n ==> init[..i] == acts[..i] && init[i] == acts[i];
      if exists i :: 0 <= i < n && LosesSentinel(Run(s, init[..i]), init[i]) {
        var i :| 0 <= i < n && LosesSentinel(Run(s, init[..i]), init[i]);
        assert LosesSentinel(Run(s, acts[..i]), acts[i]);
      }
      if exists i :: 0 <= i < n && EvictsForSentinel(Run(s, init[..i]), init[i]) {
        var i :| 0 <= i < n && EvictsForSentinel(Run(s, init[..i]), init[i]);
        assert EvictsForSentinel(Run(s, acts[..i]), acts[i]);
      }
    }
  }

  /** `close` that began with room, whatever has happened since. */
  predicate Delivering(s: State) {
    && s.closed && !s.sentinelLost && s.lostAtClose == 0
    && (s.producer.Idle? || (s.producer.Closing? && |s.queue| < s.maxQueue))
  }

  lemma {:induction false} DeliveringStays(s: State, a: Action)
    requires Delivering(s)
    ensures Delivering(Next(s, a))
  {
    hide Concat, Cuts, Wholes, Prefix, Terminated;
  }

  lemma {:induction false} DeliveringRun(s: State, acts: seq<Action>)
    requires Delivering(s)
    ensures Delivering(Run(s, acts))
    decreases acts
  {
    if acts != [] {
      hide Delivering, Next;
      DeliveringStays(s, acts[0]);
      DeliveringRun(Next(s, acts[0]), acts[1..]);
    }
  }

  /** With room in the queue when `close` begins, it loses nothing under any
      interleaving. */
  lemma {:induction false} RoomDelivers(s: State, acts: seq<Action>)
    requires Inv(s) && s.producer.Idle? && !s.closed && |s.queue| < s.maxQueue
    ensures var t := Run(Next(s, Close), acts);
      !t.sentinelLost && t.lostAtClose == 0
  {
    DeliveringRun(Next(s, Close), acts);
  }

  /** The consumer, left alone while the producer stands still, empties the queue. */
  lemma {:induction false} ConsumerCatchesUp(s: State) returns (acts: seq<Action>)
    requires Inv(s) && !s.producer.Idle?
    ensures forall i :: 0 <= i < |acts| ==> acts[i].Consumer?
    ensures var t := Run(s, acts);
      t.queue == [] && t.producer == s.producer
  {
    var ios := seq(Work(s), _ => Written);
    acts := Repeat(ios);
    ConsumerFinishes(s, ios);
    hide InOrder, LinesAccounted, FileAccounted, TasksAccounted, Run;
    assert !Stopping(Run(s, acts).consumer);
  }

  /** With a full queue a schedule exists in which `close` loses the sentinel. */
  lemma {:induction false} FullCanLoseSentinel(s: State) returns (acts: seq<Action>)
    requires Inv(s) && s.producer.Idle? && !s.closed && |s.queue| == s.maxQueue
    ensures Run(Next(s, Close), acts).sentinelLost
  {
    hide Inv, Run;
    var s1 := Next(s, Close);
    var s2 := Next(s1, Producer);
    assert s2.producer.ClosingFull?;
    NextInv(s, Close);
    NextInv(s1, Producer);
    var mid := ConsumerCatchesUp(s2);
    var s3 := Run(s2, mid);
    acts := [Producer] + (mid + [Producer]);
    RunSteps(s1, Producer, mid + [Producer]);
    RunConcat(s2, mid, [Producer]);
    RunSteps(s3, Producer, []);
    RunNothing(Next(s3, Producer));
    assert [Action.Producer] + [] == [Action.Producer];
  }

  lemma {:induction false} RunNothing(s: State)
    ensures Run(s, []) == s
  {
  }

  lemma {:induction false} FullCanLoseLine(s: State) returns (acts: seq<Action>)
    requires Inv(s) && s.producer.Idle? && !s.closed && |s.queue| == s.maxQueue
    ensures Run(Next(s, Close), acts).lostAtClose > 0
  {
    hide Run;
    var s1 := Next(s, Close);
    var s2 := Next(s1, Producer);
    assert s2.producer.ClosingFull? && s2.queue == s.queue != [];
    acts := [Producer] + [Producer];
    RunSteps(s1, Producer, [Producer]);
    RunSteps(s2, Producer, []);
    RunNothing(Next(s2, Producer));
    assert [Action.Producer] + [] == [Action.Producer];
  }

  /** What the caller of `close` can check: some schedule loses the sentinel, and
      some schedule loses a line, exactly when the queue is full. */
  lemma {:induction false} CloseLosesIffFull(s: State)
    requires Inv(s) && s.producer.Idle? && !s.closed
    ensures (exists acts :: Run(Next(s, Close), acts).sentinelLost) <==> |s.queue| == s.maxQueue
    ensures (exists acts :: Run(Next(s, Close), acts).lostAtClose > 0) <==> |s.queue| == s.maxQueue
  {
    hide Run, Next;
    assert |s.queue| <= s.maxQueue;
    if |s.queue| == s.maxQueue {
      var a := FullCanLoseSentinel(s);
      var b := FullCanLoseLine(s);
    } else {
      forall acts
        ensures !Run(Next(s, Close), acts).sentinelLost && Run(Next(s, Close), acts).lostAtClose == 0
      {
        RoomDelivers(s, acts);
      }
    }
  }

  // ------------------------------------------------------------- a write's own line

  lemma {:induction false} ProducePuts(s: State)
    requires Bounded(s)
    ensures |Pending(s.producer)|
            == |Pending(Produce(s).producer)|
               + (if PutsLine(s, Producer) then 1 else 0) + (if GivesUp(s, Producer) then 1 else 0)
    ensures s.producer.Retrying? ==> Produce(s) == Put(s, Line(s.producer.line)).(producer := Idle)
  {
  }

  /** A pending line is put or given up by exactly one producer action; once it has
      evicted an older line, it is put. */
  lemma {:induction false} StepPuts(s: State, a: Action)
    requires Bounded(s)
    ensures |Next(s, a).submitted| + |Pending(s.producer)|
            == |s.submitted| + |Pending(Next(s, a).producer)|
               + (if PutsLine(s, a) then 1 else 0) + (if GivesUp(s, a) then 1 else 0)
    ensures a.Producer? && s.producer.Retrying? ==> PutsLine(s, a)
  {
    hide Concat, Cuts, Wholes, Prefix, Terminated;
    if a.Producer? {
      ProducePuts(s);
      assert Produce(s).submitted == s.submitted;
    } else if a.Consumer? {
      ConsumePuts(s, a.io);
    }
  }

  lemma {:induction false} ConsumePuts(s: State, io: Io)
    ensures var t := Consume(s, io);
      |t.queue| <= |s.queue| && t.producer == s.producer && t.submitted == s.submitted
  {
    hide Concat, Cuts, Wholes, Prefix;
  }

  function Puts(s: State, acts: seq<Action>): nat {
    if acts == [] then 0
    else
      var init := acts[..|acts| - 1];
      Puts(s, init) + if PutsLine(Run(s, init), acts[|acts| - 1]) then 1 else 0
  }

  function GiveUps(s: State, acts: seq<Action>): nat {
    if acts == [] then 0
    else
      var init := acts[..|acts| - 1];
      GiveUps(s, init) + if GivesUp(Run(s, init), acts[|acts| - 1]) then 1 else 0
  }

  /** Over every run, the lines submitted and no longer pending are those that
      entered the queue and those given up. */
  lemma {:induction false} SubmittedArePutOrGivenUp(s: State, acts: seq<Action>)
    requires Inv(s)
    ensures var t := Run(s, acts);
      |t.submitted| + |Pending(s.producer)|
        == |s.submitted| + |Pending(t.producer)| + Puts(s, acts) + GiveUps(s, acts)
  {
    if acts != [] {
      hide Inv, Next, PutsLine, GivesUp, Pending;
      var init := acts[..|acts| - 1];
      RunLast(s, acts);
      RunInv(s, init);
      SubmittedArePutOrGivenUp(s, init);
      BoundedOf(Run(s, init));
      StepPuts(Run(s, init), acts[|acts| - 1]);
    }
  }

  lemma {:induction false} BoundedOf(s: State)
    requires Inv(s)
    ensures Bounded(s)
  {
  }

  lemma {:induction false} GiveUpsCount(s: State, acts: seq<Action>)
    ensures GiveUps(s, acts) > 0 <==> exists i :: 0 <= i < |acts| && GivesUp(Run(s, acts[..i]), acts[i])
  {
    hide GivesUp, Run;
    if acts != [] {
      var n := |acts| - 1;
      var init := acts[..n];
      GiveUpsCount(s, init);
      assert forall i :: 0 <= i < n ==> init[..i] == acts[..i] && init[i] == acts[i];
      if exists i :: 0 <= i < n && GivesUp(Run(s, init[..i]), init[i]) {
        var i :| 0 <= i < n && GivesUp(Run(s, init[..i]), init[i]);
        assert GivesUp(Run(s, acts[..i]), acts[i]);
      }
    }
  }

  /** Between calls: every line submitted so far entered the queue if and only if no
      producer action found the queue empty after counting a drop. */
  lemma {:induction false} AllPutUnlessGivenUp(maxQueue: int, batchSize: int, acts: seq<Action>)
    requires Run(Start(maxQueue, batchSize), acts).producer.Idle?
    ensures var s := Start(maxQueue, batchSize);
      |Run(s, acts).submitted| == Puts(s, acts)
      <==> !exists i :: 0 <= i < |acts| && GivesUp(Run(s, acts[..i]), acts[i])
  {
    hide Inv, Run, Puts, GiveUps, GivesUp;
    StartInv(maxQueue, batchSize);
    SubmittedArePutOrGivenUp(Start(maxQueue, batchSize), acts);
    GiveUpsCount(Start(maxQueue, batchSize), acts);
  }

  /** Only the call under way and the consumer act. */
  predicate NoNewCalls(acts: seq<Action>) {
    forall i :: 0 <= i < |acts| ==> acts[i].Producer? || acts[i].Consumer?
  }

  lemma {:induction false} IdleStaysIdle(s: State, acts: seq<Action>)
    requires s.producer.Idle? && NoNewCalls(acts)
    ensures Run(s, acts).producer.Idle? && GiveUps(s, acts) == 0
  {
    if acts != [] {
      RunLast(s, acts);
      IdleStaysIdle(s, acts[..|acts| - 1]);
      hide Concat, Cuts, Wholes, Prefix, Run;
    }
  }

  lemma {:induction false} FullCanLoseOwnLine(s: State, line: string) returns (acts: seq<Action>)
    requires Inv(s) && s.producer.Idle? && !s.closed && |s.queue| == s.maxQueue
    ensures NoNewCalls(acts) && GiveUps(Next(s, Write(line)), acts) > 0
  {
    hide Inv, Run, Terminated;
    var s1 := Next(s, Write(line));
    var s2 := Next(s1, Producer);
    assert s2.producer.Counted?;
    NextInv(s, Write(line));
    NextInv(s1, Producer);
    var mid := ConsumerCatchesUp(s2);
    var init := [Producer] + mid;
    acts := init + [Producer];
    RunSteps(s1, Producer, mid);
    assert acts[..|acts| - 1] == init && acts[|acts| - 1].Producer?;
    assert GivesUp(Run(s1, init), Producer);
  }

  /** What the caller of `write` can check: some schedule loses its line before it
      was queued exactly when the queue is full. */
  lemma {:induction false} WriteGivesUpIffFull(s: State, line: string)
    requires Inv(s) && s.producer.Idle? && !s.closed
    ensures (exists acts :: NoNewCalls(acts) && GiveUps(Next(s, Write(line)), acts) > 0)
      <==> |s.queue| == s.maxQueue
  {
    assert |s.queue| <= s.maxQueue;
    if |s.queue| == s.maxQueue {
      var acts := FullCanLoseOwnLine(s, line);
    } else {
      var t := Next(s, Write(line));
      assert t.producer.Idle?;
      hide Next, Run, GiveUps;
      forall acts | NoNewCalls(acts)
        ensures GiveUps(t, acts) == 0
      {
        IdleStaysIdle(t, acts);
      }
    }
  }
}
