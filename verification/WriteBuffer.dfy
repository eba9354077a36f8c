/** The background line writer as a protocol: one producer (which also closes)
    and one consumer thread, interleaved one shared-memory action at a time over
    a bounded queue. File writes may fail; a failed batch may leave any prefix of
    its characters behind. */
module WriteBuffer {

  datatype Item = Line(text: string) | Sentinel

  // Where the producer stands inside `write` or `close`.
  datatype Producer =
    | Idle
    | FoundFull(line: string)     // the first put found the queue full
    | Counted(line: string)       // the drop has been counted
    | Evicted(line: string)       // the oldest line is out, not yet acknowledged
    | Retrying(line: string)      // about to put again
    | Closing                     // closed flag set, about to put the sentinel
    | ClosingFull                 // that put found the queue full
    | ClosingEvicted
    | ClosingRetry

  // Where the consumer stands inside its loop.
  datatype Consumer =
    | Waiting
    | Collecting(batch: seq<string>)
    | Flushing(batch: seq<string>, last: bool)
    | Counting(batch: seq<string>, last: bool)   // appended to the file, not yet counted
    | Acking(left: nat, last: bool)              // acknowledging tasks one by one
    | Stopped

  // What a write put into the file: the first `kept` characters of a line.
  datatype Piece = Piece(line: string, kept: nat) {
    predicate Whole() {
      kept >= |line|
    }

    function Text(): string {
      if Whole() then line else line[..kept]
    }
  }

  // The last six fields are history: what was ever submitted and what became of it.
  datatype State = State(
    maxQueue: nat, batchSize: nat,
    queue: seq<Item>, unfinished: int, dropped: nat, written: nat, closed: bool, file: string,
    producer: Producer, consumer: Consumer,
    submitted: seq<string>, pieces: seq<Piece>, failed: nat, torn: nat, lostAtClose: nat, sentinelLost: bool)

  function Start(maxQueue: int, batchSize: int): State {
    State(if maxQueue < 1 then 1 else maxQueue, if batchSize < 1 then 1 else batchSize,
          [], 0, 0, 0, false, "", Idle, Waiting, [], [], 0, 0, 0, false)
  }

  function Terminated(line: string): string {
    if |line| > 0 && line[|line| - 1] == '\n' then line else line + "\n"
  }

  // --------------------------------------------------------------------- steps

  function Put(s: State, item: Item): State {
    s.(queue := s.queue + [item], unfinished := s.unfinished + 1)
  }

  /** `write`, up to its first attempt to put. */
  function Submit(s: State, line: string): State {
    if !s.producer.Idle? || s.closed then s
    else
      var item := Terminated(line);
      var t := s.(submitted := s.submitted + [item]);
      if |s.queue| < s.maxQueue then Put(t, Line(item)) else t.(producer := FoundFull(item))
  }

  /** `close`, up to setting the flag. */
  function BeginClose(s: State): State {
    if !s.producer.Idle? || s.closed then s else s.(closed := true, producer := Closing)
  }

  /** The producer's next action inside a call. */
  function Produce(s: State): State {
    match s.producer
    case Idle => s
    case FoundFull(l) => s.(dropped := s.dropped + 1, producer := Counted(l))
    case Counted(l) =>
      // an empty queue makes the call give up: the line is lost
      if s.queue == [] then s.(producer := Idle) else s.(queue := s.queue[1..], producer := Evicted(l))
    case Evicted(l) => s.(unfinished := s.unfinished - 1, producer := Retrying(l))
    case Retrying(l) =>
      if |s.queue| < s.maxQueue then Put(s, Line(l)).(producer := Idle) else s.(producer := Idle)
    case Closing =>
      if |s.queue| < s.maxQueue then Put(s, Sentinel).(producer := Idle) else s.(producer := ClosingFull)
    case ClosingFull =>
      if s.queue == [] then s.(producer := Idle, sentinelLost := true)
      else s.(queue := s.queue[1..], lostAtClose := s.lostAtClose + 1, producer := ClosingEvicted)
    case ClosingEvicted => s.(unfinished := s.unfinished - 1, producer := ClosingRetry)
    case ClosingRetry =>
      if |s.queue| < s.maxQueue then Put(s, Sentinel).(producer := Idle)
      else s.(producer := Idle, sentinelLost := true)
  }

  // What a file write does: everything, or an error after `kept` characters.
  datatype Io = Written | Failed(kept: nat)

  function Concat(lines: seq<string>): string {
    if lines == [] then "" else lines[0] + Concat(lines[1..])
  }

  function Prefix(text: string, kept: nat): string {
    if kept < |text| then text[..kept] else text
  }

  function Wholes(batch: seq<string>): seq<Piece> {
    seq(|batch|, i requires 0 <= i < |batch| => Piece(batch[i], |batch[i]|))
  }

  /** The pieces that the first `kept` characters of a batch consist of. */
  function Cuts(batch: seq<string>, kept: nat): seq<Piece> {
    if batch == [] || kept == 0 then []
    else if kept < |batch[0]| then [Piece(batch[0], kept)]
    else [Piece(batch[0], |batch[0]|)] + Cuts(batch[1..], kept - |batch[0]|)
  }

  /** The consumer's next action. */
  function Consume(s: State, io: Io): State {
    match s.consumer
    case Stopped => s
    case Waiting =>
      if s.queue == [] then s
      else if s.queue[0].Sentinel? then s.(queue := s.queue[1..], consumer := Acking(1, true))
      else s.(queue := s.queue[1..], consumer := Collecting([s.queue[0].text]))
    case Collecting(b) =>
      if |b| >= s.batchSize || s.queue == [] then s.(consumer := Flushing(b, false))
      else if s.queue[0].Sentinel? then s.(queue := s.queue[1..], consumer := Flushing(b, true))
      else s.(queue := s.queue[1..], consumer := Collecting(b + [s.queue[0].text]))
    case Flushing(b, last) =>
      (match io
       case Written => s.(file := s.file + Concat(b), pieces := s.pieces + Wholes(b), consumer := Counting(b, last))
       case Failed(kept) =>
         s.(file := s.file + Prefix(Concat(b), kept), pieces := s.pieces + Cuts(b, kept),
            torn := s.torn + |Cuts(b, kept)|, failed := s.failed + |b|,
            consumer := Acking(|b| + Extra(last), last)))
    case Counting(b, last) =>
      s.(written := s.written + |b|, consumer := Acking(|b| + Extra(last), last))
    case Acking(n, last) =>
      s.(unfinished := s.unfinished - 1,
         consumer := if n > 1 then Acking(n - 1, last) else if last then Stopped else Waiting)
  }

  /** The sentinel itself is one more task to acknowledge. */
  function Extra(last: bool): nat {
    if last then 1 else 0
  }

  datatype Action = Write(line: string) | Close | Producer | Consumer(io: Io)

  function Next(s: State, a: Action): State {
    match a
    case Write(line) => Submit(s, line)
    case Close => BeginClose(s)
    case Producer => Produce(s)
    case Consumer(io) => Consume(s, io)
  }

  function Run(s: State, actions: seq<Action>): State
    decreases actions
  {
    if actions == [] then s else Run(Next(s, actions[0]), actions[1..])
  }

  // -------------------------------------------------------- in-order subsequence

  predicate Subseq(a: seq<string>, b: seq<string>) {
    if a == [] then true
    else if b == [] then false
    else (a[|a| - 1] == b[|b| - 1] && Subseq(a[..|a| - 1], b[..|b| - 1])) || Subseq(a, b[..|b| - 1])
  }

  lemma {:induction false} SubseqRefl(a: seq<string>)
    ensures Subseq(a, a)
  {
    if a != [] {
      SubseqRefl(a[..|a| - 1]);
    }
  }

  lemma {:induction false} SubseqBoth(a: seq<string>, b: seq<string>, x: string)
    requires Subseq(a, b)
    ensures Subseq(a + [x], b + [x])
  {
    assert (a + [x])[..|a|] == a && (b + [x])[..|b|] == b;
  }

  lemma {:induction false} SubseqTrans(a: seq<string>, b: seq<string>, c: seq<string>)
    requires Subseq(a, b) && Subseq(b, c)
    ensures Subseq(a, c)
    decreases |c|, |b|
  {
    if a != [] {
      var a', b', c' := a[..|a| - 1], b[..|b| - 1], c[..|c| - 1];
      if b[|b| - 1] == c[|c| - 1] && Subseq(b', c') {
        if a[|a| - 1] == b[|b| - 1] && Subseq(a', b') {
          SubseqTrans(a', b', c');
        } else {
          SubseqTrans(a, b', c');
        }
      } else {
        SubseqTrans(a, b, c');
      }
    }
  }

  lemma {:induction false} SubseqSkip(a: seq<string>, b: seq<string>, x: string)
    requires Subseq(a, b)
    ensures Subseq(a, b + [x])
  {
    assert (b + [x])[..|b|] == b;
  }

  lemma {:induction false} SubseqPrefix(x: seq<string>, y: seq<string>)
    ensures Subseq(x, x + y)
  {
    hide Subseq;
    if y == [] {
      SubseqRefl(x);
      assert x + y == x;
    } else {
      var y', last := y[..|y| - 1], y[|y| - 1];
      SubseqPrefix(x, y');
      SubseqSkip(x, x + y', last);
      assert x + y' + [last] == x + y;
    }
  }

  lemma {:induction false} SubseqExtend(a: seq<string>, b: seq<string>, z: seq<string>)
    requires Subseq(a, b)
    ensures Subseq(a + z, b + z)
  {
    hide Subseq;
    if z == [] {
      assert a + z == a && b + z == b;
    } else {
      var z', last := z[..|z| - 1], z[|z| - 1];
      SubseqExtend(a, b, z');
      SubseqBoth(a + z', b + z', last);
      assert a + z' + [last] == a + z && b + z' + [last] == b + z;
    }
  }

  /** Taking a stretch out of a sequence leaves a subsequence. */
  lemma {:induction false} SubseqCut(x: seq<string>, y: seq<string>, z: seq<string>)
    ensures Subseq(x + z, x + y + z)
  {
    SubseqPrefix(x, y);
    SubseqExtend(x, x + y, z);
  }

  /** Cutting the whole that is already a subsequence. */
  lemma {:induction false} CutStays(x: seq<string>, y: seq<string>, z: seq<string>, all: seq<string>)
    requires Subseq(x + y + z, all)
    ensures Subseq(x + z, all)
  {
    hide Subseq;
    SubseqCut(x, y, z);
    SubseqTrans(x + z, x + y + z, all);
  }

  lemma {:induction false} SubseqMember(a: seq<string>, b: seq<string>, i: nat)
    requires Subseq(a, b) && i < |a|
    ensures a[i] in b
    decreases |b|
  {
    var a', b' := a[..|a| - 1], b[..|b| - 1];
    if a[|a| - 1] == b[|b| - 1] && Subseq(a', b') {
      if i < |a| - 1 {
        SubseqMember(a', b', i);
      }
    } else {
      SubseqMember(a, b', i);
    }
  }

  // ------------------------------------------------------------------ invariants

  function Texts(q: seq<Item>): seq<string> {
    if q == [] then []
    else Texts(q[..|q| - 1]) + if q[|q| - 1].Line? then [q[|q| - 1].text] else []
  }

  lemma {:induction false} TextsAppend(q: seq<Item>, item: Item)
    ensures Texts(q + [item]) == Texts(q) + if item.Line? then [item.text] else []
  {
  }

  lemma {:induction false} TextsTail(q: seq<Item>)
    requires q != []
    ensures Texts(q) == (if q[0].Line? then [q[0].text] else []) + Texts(q[1..])
  {
    if |q| > 1 {
      TextsTail(q[..|q| - 1]);
      assert q[..|q| - 1][1..] == q[1..][..|q| - 2];
    } else {
      assert q[..0] == [] && q[1..] == [];
    }
  }

  /** Lines taken by the consumer that are not in the file yet. */
  function Held(c: Consumer): seq<string> {
    match c
    case Collecting(b) => b
    case Flushing(b, _) => b
    case _ => []
  }

  /** The line a `write` still wants to put. */
  function Pending(p: Producer): seq<string> {
    match p
    case FoundFull(l) => [l]
    case Counted(l) => [l]
    case Evicted(l) => [l]
    case Retrying(l) => [l]
    case _ => []
  }

  /** Tasks taken off the queue and not yet acknowledged. */
  function Taken(c: Consumer): nat {
    match c
    case Waiting => 0
    case Stopped => 0
    case Collecting(b) => |b|
    case Flushing(b, last) => |b| + Extra(last)
    case Counting(b, last) => |b| + Extra(last)
    case Acking(n, _) => n
  }

  function TakenByProducer(p: Producer): nat {
    if p.Evicted? || p.ClosingEvicted? then 1 else 0
  }

  /** Lines whose fate is not settled: in the batch or being counted. */
  function InFlight(c: Consumer): nat {
    match c
    case Collecting(b) => |b|
    case Flushing(b, _) => |b|
    case Counting(b, _) => |b|
    case _ => 0
  }

  /** A pending line counts as outstanding, except between counting a drop and
      evicting the line it stands for. */
  function Outstanding(p: Producer): nat {
    if p.FoundFull? || p.Evicted? || p.Retrying? then 1 else 0
  }

  predicate Stopping(c: Consumer) {
    match c
    case Flushing(_, last) => last
    case Counting(_, last) => last
    case Acking(_, last) => last
    case Stopped => true
    case _ => false
  }

  predicate ProducerClosing(p: Producer) {
    p.Closing? || p.ClosingFull? || p.ClosingEvicted? || p.ClosingRetry?
  }

  /** Queue and batch within their bounds. */
  predicate Bounded(s: State) {
    && s.maxQueue >= 1 && s.batchSize >= 1 && |s.queue| <= s.maxQueue
    && (s.producer.Evicted? || s.producer.Retrying? || s.producer.ClosingEvicted? || s.producer.ClosingRetry?
        ==> |s.queue| < s.maxQueue)
    && InFlight(s.consumer) <= s.batchSize
    && (s.consumer.Collecting? || s.consumer.Flushing? || s.consumer.Counting? ==> InFlight(s.consumer) >= 1)
    && (s.consumer.Acking? ==> s.consumer.left >= 1)
  }

  /** Unfinished tasks are the queued ones and the taken ones. */
  predicate TasksAccounted(s: State) {
    s.unfinished == |s.queue| + Taken(s.consumer) + TakenByProducer(s.producer)
  }

  /** The lines whose text, or part of it, reached the file. */
  function Origins(pieces: seq<Piece>): seq<string> {
    seq(|pieces|, i requires 0 <= i < |pieces| => pieces[i].line)
  }

  function Rendered(pieces: seq<Piece>): string {
    if pieces == [] then "" else pieces[0].Text() + Rendered(pieces[1..])
  }

  function Halves(pieces: seq<Piece>): nat {
    if pieces == [] then 0 else Halves(pieces[1..]) + if pieces[0].Whole() then 0 else 1
  }

  /** The file is what its pieces say, and half lines come from failed writes. */
  predicate FileAccounted(s: State) {
    s.file == Rendered(s.pieces) && Halves(s.pieces) <= s.failed
  }

  /** What reached the file, then what the consumer holds, then the queue, then
      the line being put, in the order submitted. */
  predicate InOrder(s: State) {
    Subseq(Pipeline(s), s.submitted)
  }

  function Pipeline(s: State): seq<string> {
    Join(Origins(s.pieces), Held(s.consumer), Texts(s.queue), Pending(s.producer))
  }

  function Join(file: seq<string>, held: seq<string>, queued: seq<string>, pending: seq<string>): seq<string> {
    file + held + queued + pending
  }

  /** No submitted line is unaccounted for. */
  predicate LinesAccounted(s: State) {
    && |s.submitted| == s.written + s.failed + InFlight(s.consumer) + |Texts(s.queue)| + s.dropped
                        + s.lostAtClose + Outstanding(s.producer)
    && |s.pieces| == s.written + s.torn + (if s.consumer.Counting? then |s.consumer.batch| else 0)
  }

  /** The sentinel is last in the queue, is taken last, and is put once. */
  predicate Shutdown(s: State) {
    && (forall i :: 0 <= i < |s.queue| && s.queue[i].Sentinel? ==> i == |s.queue| - 1 && s.closed && s.producer.Idle?)
    && (Stopping(s.consumer) ==> s.queue == [] && s.closed && s.producer.Idle?)
    && (ProducerClosing(s.producer) ==> s.closed)
    && (Pending(s.producer) != [] ==> !s.closed)
    && (s.lostAtClose > 0 ==> s.closed)
    && s.lostAtClose <= (if s.producer.Closing? || s.producer.ClosingFull? then 0 else 1)
    && (s.closed && s.producer.Idle? ==>
          s.sentinelLost || Stopping(s.consumer) || (s.queue != [] && s.queue[|s.queue| - 1].Sentinel?))
    && (s.sentinelLost ==> s.closed && s.producer.Idle? && !Stopping(s.consumer) && s.lostAtClose == 0
                           && forall i :: 0 <= i < |s.queue| ==> s.queue[i].Line?)
  }

  predicate Inv(s: State) {
    Bounded(s) && TasksAccounted(s) && InOrder(s) && LinesAccounted(s) && FileAccounted(s) && Shutdown(s)
  }

  lemma {:induction false} StartInv(maxQueue: int, batchSize: int)
    ensures Inv(Start(maxQueue, batchSize))
  {
  }

  // ------------------------------------------------- moving lines along the pipeline

  lemma {:induction false} JoinTake(f: seq<string>, h: seq<string>, x: string, q: seq<string>, p: seq<string>)
    ensures Join(f, h, [x] + q, p) == Join(f, h + [x], q, p)
  {
  }

  lemma {:induction false} JoinFlush(f: seq<string>, h: seq<string>, q: seq<string>, p: seq<string>)
    ensures Join(f, h, q, p) == Join(f + h, [], q, p)
  {
  }

  lemma {:induction false} JoinPut(f: seq<string>, h: seq<string>, q: seq<string>, x: string)
    ensures Join(f, h, q, [x]) == Join(f, h, q + [x], []) == Join(f, h, q, []) + [x]
  {
  }

  lemma {:induction false} JoinEvict(f: seq<string>, h: seq<string>, x: string, q: seq<string>, p: seq<string>,
                                     all: seq<string>)
    requires Subseq(Join(f, h, [x] + q, p), all)
    ensures Subseq(Join(f, h, q, p), all)
  {
    hide Subseq;
    assert Join(f, h, [x] + q, p) == (f + h) + [x] + (q + p);
    CutStays(f + h, [x], q + p, all);
    assert Join(f, h, q, p) == (f + h) + (q + p);
  }

  lemma {:induction false} JoinGiveUp(f: seq<string>, h: seq<string>, q: seq<string>, p: seq<string>, all: seq<string>)
    requires Subseq(Join(f, h, q, p), all)
    ensures Subseq(Join(f, h, q, []), all)
  {
    hide Subseq;
    assert Join(f, h, q, p) == (f + h + q) + p + [];
    CutStays(f + h + q, p, [], all);
    assert Join(f, h, q, []) == (f + h + q) + [];
  }

  lemma {:induction false} JoinFail(f: seq<string>, kept: seq<string>, rest: seq<string>, q: seq<string>,
                                    p: seq<string>, all: seq<string>)
    requires Subseq(Join(f, kept + rest, q, p), all)
    ensures Subseq(Join(f + kept, [], q, p), all)
  {
    hide Subseq;
    assert Join(f, kept + rest, q, p) == (f + kept) + rest + (q + p);
    CutStays(f + kept, rest, q + p, all);
    assert Join(f + kept, [], q, p) == (f + kept) + (q + p);
  }

  // ---------------------------------------------------- every step keeps the order

  lemma {:induction false} SubmitKeepsOrder(s: State, line: string)
    requires InOrder(s)
    ensures InOrder(Submit(s, line))
  {
    hide Subseq, Texts, Join, Origins, Terminated;
    if s.producer.Idle? && !s.closed {
      var item := Terminated(line);
      SubseqBoth(Pipeline(s), s.submitted, item);
      TextsAppend(s.queue, Line(item));
      JoinPut(Origins(s.pieces), Held(s.consumer), Texts(s.queue), item);
    }
  }

  lemma {:induction false} ProduceKeepsOrder(s: State)
    requires InOrder(s) && Bounded(s) && Shutdown(s)
    ensures InOrder(Produce(s))
  {
    hide Subseq, Texts, Join, Origins;
    var h, p := Held(s.consumer), Pending(s.producer);
    if (s.producer.Counted? || s.producer.ClosingFull?) && s.queue != [] {
      TextsTail(s.queue);
      JoinEvict(Origins(s.pieces), h, s.queue[0].text, Texts(s.queue[1..]), p, s.submitted);
    } else if s.producer.Counted? {
      JoinGiveUp(Origins(s.pieces), h, Texts(s.queue), p, s.submitted);
    } else if s.producer.Retrying? {
      TextsAppend(s.queue, Line(s.producer.line));
      JoinPut(Origins(s.pieces), h, Texts(s.queue), s.producer.line);
    } else {
      TextsAppend(s.queue, Sentinel);
      assert Texts(s.queue + [Sentinel]) == Texts(s.queue);
    }
  }

  lemma {:induction false} TakeKeepsOrder(s: State, io: Io)
    requires InOrder(s) && (s.consumer.Waiting? || s.consumer.Collecting?)
    ensures InOrder(Consume(s, io))
  {
    hide Subseq, Texts, Join, Origins;
    if s.queue != [] {
      TextsTail(s.queue);
      if s.queue[0].Line? {
        JoinTake(Origins(s.pieces), Held(s.consumer), s.queue[0].text, Texts(s.queue[1..]), Pending(s.producer));
        assert [] + [s.queue[0].text] == [s.queue[0].text];
      } else {
        assert Texts(s.queue) == Texts(s.queue[1..]);
      }
    }
  }

  lemma {:induction false} FlushKeepsOrder(s: State, io: Io)
    requires InOrder(s) && s.consumer.Flushing?
    ensures InOrder(Consume(s, io))
  {
    hide Subseq, Texts, Join, Concat, Prefix;
    var b, f := s.consumer.batch, Origins(s.pieces);
    if io.Failed? {
      var n := |Cuts(b, io.kept)|;
      CutsOrigins(b, io.kept);
      assert b[..n] + b[n..] == b;
      assert Origins(s.pieces + Cuts(b, io.kept)) == f + b[..n];
      JoinFail(f, b[..n], b[n..], Texts(s.queue), Pending(s.producer), s.submitted);
    } else {
      assert Origins(s.pieces + Wholes(b)) == f + b;
      JoinFlush(f, b, Texts(s.queue), Pending(s.producer));
    }
  }

  lemma {:induction false} ConsumeKeepsOrder(s: State, io: Io)
    requires InOrder(s)
    ensures InOrder(Consume(s, io))
  {
    hide Subseq, Texts, Join, Origins;
    if s.consumer.Waiting? || s.consumer.Collecting? {
      TakeKeepsOrder(s, io);
    } else if s.consumer.Flushing? {
      FlushKeepsOrder(s, io);
    } else {
      assert Pipeline(Consume(s, io)) == Pipeline(s);
    }
  }

  // ------------------------------------------------------------ the file's contents

  lemma {:induction false} CutsOrigins(batch: seq<string>, kept: nat)
    ensures |Cuts(batch, kept)| <= |batch| && Origins(Cuts(batch, kept)) == batch[..|Cuts(batch, kept)|]
  {
    if batch != [] && kept >= |batch[0]| && kept > 0 {
      CutsOrigins(batch[1..], kept - |batch[0]|);
    }
  }

  lemma {:induction false} RenderedAppend(a: seq<Piece>, b: seq<Piece>)
    ensures Rendered(a + b) == Rendered(a) + Rendered(b) && Halves(a + b) == Halves(a) + Halves(b)
  {
    if a == [] {
      assert a + b == b;
    } else {
      assert (a + b)[1..] == a[1..] + b;
      RenderedAppend(a[1..], b);
    }
  }

  /** A failed write leaves the text of its cuts, at most the last of them half. */
  lemma {:induction false} CutsRender(batch: seq<string>, kept: nat)
    ensures Rendered(Cuts(batch, kept)) == Prefix(Concat(batch), kept) && Halves(Cuts(batch, kept)) <= 1
  {
    if batch != [] && kept > 0 {
      var first, cuts := batch[0], Cuts(batch, kept);
      if kept >= |first| {
        CutsRender(batch[1..], kept - |first|);
        assert cuts[1..] == Cuts(batch[1..], kept - |first|);
      } else {
        assert cuts[1..] == [];
      }
    }
  }

  lemma {:induction false} WholesRender(batch: seq<string>)
    ensures Rendered(Wholes(batch)) == Concat(batch) && Halves(Wholes(batch)) == 0
  {
    if batch != [] {
      WholesRender(batch[1..]);
      assert Wholes(batch)[1..] == Wholes(batch[1..]);
    }
  }

  lemma {:induction false} ConsumeKeepsFile(s: State, io: Io)
    requires Bounded(s) && FileAccounted(s)
    ensures FileAccounted(Consume(s, io))
  {
    if s.consumer.Flushing? {
      var b := s.consumer.batch;
      if io.Failed? {
        CutsRender(b, io.kept);
        RenderedAppend(s.pieces, Cuts(b, io.kept));
      } else {
        WholesRender(b);
        RenderedAppend(s.pieces, Wholes(b));
      }
    }
  }

  // -------------------------------------------------- every step keeps the accounts

  /** The queue's line count when an item is put or taken. */
  lemma {:induction false} TextsCount(q: seq<Item>, item: Item)
    ensures |Texts(q + [item])| == |Texts(q)| + if item.Line? then 1 else 0
    ensures q != [] ==> |Texts(q)| == |Texts(q[1..])| + if q[0].Line? then 1 else 0
  {
    TextsAppend(q, item);
    if q != [] {
      TextsTail(q);
    }
  }

  lemma {:induction false} SubmitKeepsAccounts(s: State, line: string)
    requires Bounded(s) && TasksAccounted(s) && LinesAccounted(s)
    ensures Bounded(Submit(s, line)) && TasksAccounted(Submit(s, line)) && LinesAccounted(Submit(s, line))
  {
    hide Texts;
    TextsCount(s.queue, Line(Terminated(line)));
  }

  lemma {:induction false} WriteKeepsAccounts(s: State)
    requires !ProducerClosing(s.producer)
    requires Bounded(s) && TasksAccounted(s) && LinesAccounted(s) && Shutdown(s)
    ensures Bounded(Produce(s)) && TasksAccounted(Produce(s)) && LinesAccounted(Produce(s))
  {
    hide Texts;
    TextsCount(s.queue, if s.producer.Retrying? then Line(s.producer.line) else Sentinel);
  }

  lemma {:induction false} CloseKeepsAccounts(s: State)
    requires ProducerClosing(s.producer)
    requires Bounded(s) && TasksAccounted(s) && LinesAccounted(s) && Shutdown(s)
    ensures Bounded(Produce(s)) && TasksAccounted(Produce(s)) && LinesAccounted(Produce(s))
  {
    hide Texts;
    TextsCount(s.queue, Sentinel);
  }

  lemma {:induction false} TakeKeepsBounds(s: State, io: Io)
    requires s.consumer.Waiting? || s.consumer.Collecting?
    requires Bounded(s) && TasksAccounted(s)
    ensures Bounded(Consume(s, io)) && TasksAccounted(Consume(s, io))
  {
  }

  lemma {:induction false} TakeKeepsLines(s: State, io: Io)
    requires s.consumer.Waiting? || s.consumer.Collecting?
    requires LinesAccounted(s)
    ensures LinesAccounted(Consume(s, io))
  {
    hide Texts;
    TextsCount(s.queue, Sentinel);
  }

  lemma {:induction false} SettleKeepsAccounts(s: State, io: Io)
    requires !s.consumer.Waiting? && !s.consumer.Collecting?
    requires Bounded(s) && TasksAccounted(s) && LinesAccounted(s)
    ensures Bounded(Consume(s, io)) && TasksAccounted(Consume(s, io)) && LinesAccounted(Consume(s, io))
  {
    hide Texts, Concat, Cuts, Prefix;
  }

  lemma {:induction false} SubmitKeepsShutdown(s: State, line: string)
    requires Bounded(s) && Shutdown(s)
    ensures Shutdown(Submit(s, line)) && Shutdown(BeginClose(s))
  {
  }

  lemma {:induction false} ProduceKeepsShutdown(s: State)
    requires Bounded(s) && Shutdown(s)
    ensures Shutdown(Produce(s))
  {
  }

  lemma {:induction false} TakeKeepsShutdown(s: State, io: Io)
    requires s.consumer.Waiting? || s.consumer.Collecting?
    requires Bounded(s) && Shutdown(s)
    ensures Shutdown(Consume(s, io))
  {
    var t := Consume(s, io);
    assert t.queue == s.queue || (s.queue != [] && t.queue == s.queue[1..]);
    if Stopping(t.consumer) {
      assert s.queue[0].Sentinel?;
    }
  }

  lemma {:induction false} ConsumeKeepsShutdown(s: State, io: Io)
    requires Bounded(s) && Shutdown(s)
    ensures Shutdown(Consume(s, io))
  {
    if s.consumer.Waiting? || s.consumer.Collecting? {
      TakeKeepsShutdown(s, io);
    } else {
      SettlingLeavesQueue(s, io);
    }
  }

  /** Past the collecting, the consumer touches neither queue nor flags. */
  lemma {:induction false} SettlingLeavesQueue(s: State, io: Io)
    requires !s.consumer.Waiting? && !s.consumer.Collecting?
    ensures var t := Consume(s, io);
      && t.queue == s.queue && t.closed == s.closed && t.producer == s.producer
      && t.lostAtClose == s.lostAtClose && t.sentinelLost == s.sentinelLost
      && Stopping(t.consumer) == Stopping(s.consumer)
  {
  }

  lemma {:induction false} NextInv(s: State, a: Action)
    requires Inv(s)
    ensures Inv(Next(s, a))
  {
    hide Subseq, Rendered, Halves, Texts, Join, Origins, Concat, Cuts, Wholes, Prefix;
    match a
    case Write(line) =>
      SubmitKeepsOrder(s, line);
      SubmitKeepsAccounts(s, line);
      SubmitKeepsShutdown(s, line);
    case Close =>
      assert Pipeline(Next(s, a)) == Pipeline(s);
      SubmitKeepsShutdown(s, "");
    case Producer =>
      ProduceKeepsOrder(s);
      if ProducerClosing(s.producer) {
        CloseKeepsAccounts(s);
      } else {
        WriteKeepsAccounts(s);
      }
      ProduceKeepsShutdown(s);
    case Consumer(io) =>
      ConsumeKeepsOrder(s, io);
      ConsumeKeepsFile(s, io);
      if s.consumer.Waiting? || s.consumer.Collecting? {
        TakeKeepsBounds(s, io);
        TakeKeepsLines(s, io);
      } else {
        SettleKeepsAccounts(s, io);
      }
      ConsumeKeepsShutdown(s, io);
  }

  lemma {:induction false} RunInv(s: State, actions: seq<Action>)
    requires Inv(s)
    ensures Inv(Run(s, actions))
    decreases actions
  {
    hide Subseq;
    if actions != [] {
      NextInv(s, actions[0]);
      RunInv(Next(s, actions[0]), actions[1..]);
    }
  }

  // ------------------------------------------------------------------ main results

  /** Any interleaving from the start: what reached the file, the consumer's
      batch, the queue and the line being put are, in this order, a subsequence
      of the submitted lines; queue and batch stay within their bounds. */
  lemma {:induction false} OrderAndBounds(maxQueue: int, batchSize: int, actions: seq<Action>)
    ensures var s := Run(Start(maxQueue, batchSize), actions);
      && Subseq(Origins(s.pieces) + Held(s.consumer) + Texts(s.queue) + Pending(s.producer), s.submitted)
      && |s.queue| <= s.maxQueue && InFlight(s.consumer) <= s.batchSize
  {
    hide Subseq;
    StartInv(maxQueue, batchSize);
    RunInv(Start(maxQueue, batchSize), actions);
  }

  /** Between calls and before `close`, every submitted line is written, failed,
      in flight, queued or counted as dropped; none of these twice. */
  lemma {:induction false} NothingUnaccounted(maxQueue: int, batchSize: int, actions: seq<Action>)
    ensures var s := Run(Start(maxQueue, batchSize), actions);
      s.producer.Idle? && !s.closed ==>
        && |s.submitted| == s.written + s.failed + InFlight(s.consumer) + |s.queue| + s.dropped
        && s.unfinished == |s.queue| + Taken(s.consumer)
  {
    hide Subseq;
    var s := Run(Start(maxQueue, batchSize), actions);
    StartInv(maxQueue, batchSize);
    RunInv(Start(maxQueue, batchSize), actions);
    if s.producer.Idle? && !s.closed {
      AllLines(s.queue);
    }
  }

  lemma {:induction false} AllLines(q: seq<Item>)
    requires forall i :: 0 <= i < |q| ==> q[i].Line?
    ensures |Texts(q)| == |q|
  {
    if q != [] {
      AllLines(q[..|q| - 1]);
    }
  }

  /** When `flush` sees no unfinished task, every submitted line is on disk, in a
      failed batch, or counted as dropped (or was evicted by `close`), and the
      file holds the written lines, and what failed batches left, in order. */
  lemma {:induction false} FlushMeansSettled(s: State)
    requires Inv(s) && s.unfinished == 0 && s.producer.Idle?
    ensures s.queue == [] && (s.consumer.Waiting? || s.consumer.Stopped?)
    ensures |s.submitted| == s.written + s.failed + s.dropped + s.lostAtClose
    ensures |s.pieces| == s.written + s.torn && Subseq(Origins(s.pieces), s.submitted)
    ensures s.file == Rendered(s.pieces)
  {
    hide Subseq;
    assert Pipeline(s) == Origins(s.pieces);
  }

  // ------------------------------------------------------------------------ drain

  /** Consumer steps left before it has nothing to do. */
  function Work(s: State): nat {
    6 * |s.queue| +
    match s.consumer
    case Waiting => 0
    case Stopped => 0
    case Collecting(b) => |b| + 4
    case Flushing(b, last) => |b| + Extra(last) + 2
    case Counting(b, last) => |b| + Extra(last) + 1
    case Acking(n, _) => n
  }

  predicate Drained(s: State) {
    s.consumer.Stopped? || (s.consumer.Waiting? && s.queue == [])
  }

  lemma {:induction false} ConsumeMakesProgress(s: State, io: Io)
    requires Bounded(s) && !Drained(s)
    ensures Work(Consume(s, io)) < Work(s)
  {
  }

  function Repeat(ios: seq<Io>): seq<Action> {
    seq(|ios|, i requires 0 <= i < |ios| => Consumer(ios[i]))
  }

  /** The consumer alone, given enough steps, runs out of work. */
  lemma {:induction false} ConsumerFinishes(s: State, ios: seq<Io>)
    requires Inv(s) && |ios| >= Work(s)
    ensures var t := Run(s, Repeat(ios));
      Inv(t) && Drained(t) && t.producer == s.producer && t.dropped == s.dropped
      && t.submitted == s.submitted && t.lostAtClose == s.lostAtClose
    decreases ios
  {
    hide Subseq, Texts, LinesAccounted, InOrder, TasksAccounted;
    if Drained(s) {
      DrainedStays(s, ios);
    } else {
      ConsumeMakesProgress(s, ios[0]);
      NextInv(s, Consumer(ios[0]));
      assert Repeat(ios)[0] == Consumer(ios[0]) && Repeat(ios)[1..] == Repeat(ios[1..]);
      ConsumerFinishes(Consume(s, ios[0]), ios[1..]);
    }
  }

  /** With no further writes the consumer empties the queue within `Work(s)`
      steps, whatever the file writes do; every queued line is then written or
      failed, and nothing more is dropped. */
  lemma {:induction false} ConsumerDrains(s: State, ios: seq<Io>)
    requires Inv(s) && s.producer.Idle? && |ios| >= Work(s)
    ensures var t := Run(s, Repeat(ios));
      && Drained(t) && t.queue == [] && t.unfinished == 0
      && t.dropped == s.dropped && t.submitted == s.submitted
      && t.written + t.failed == s.written + s.failed + InFlight(s.consumer) + |Texts(s.queue)|
  {
    hide Subseq;
    ConsumerFinishes(s, ios);
    assert Texts([]) == [];
  }

  lemma {:induction false} DrainedStays(s: State, ios: seq<Io>)
    requires Inv(s) && Drained(s)
    ensures Run(s, Repeat(ios)) == s && s.queue == []
    decreases ios
  {
    hide Subseq;
    if ios != [] {
      assert Repeat(ios)[0] == Consumer(ios[0]) && Repeat(ios)[1..] == Repeat(ios[1..]);
      DrainedStays(s, ios[1..]);
    }
  }

  // ------------------------------------------------------------------------ close

  /** After `close` and a drain the consumer has stopped, unless the sentinel was
      never put; at most one line was evicted by `close`, and only to make room
      for a sentinel that did arrive. */
  lemma {:induction false} CloseLosesAtMostOne(s: State)
    requires Inv(s) && s.closed && s.producer.Idle? && Drained(s)
    ensures s.lostAtClose <= 1
    ensures |s.submitted| == s.written + s.failed + s.dropped + s.lostAtClose
    ensures s.consumer.Stopped? <==> !s.sentinelLost
    ensures s.lostAtClose == 1 ==> s.consumer.Stopped?
  {
  }

  /** A sentinel that was never put leaves the consumer waiting for good: no
      action of either thread can stop it any more. */
  lemma {:induction false} LostSentinelNeverStops(s: State, actions: seq<Action>)
    requires Inv(s) && s.sentinelLost
    ensures Run(s, actions).sentinelLost && !Run(s, actions).consumer.Stopped?
    decreases actions
  {
    hide Subseq;
    if actions != [] {
      NextInv(s, actions[0]);
      LostSentinelNeverStops(Next(s, actions[0]), actions[1..]);
    }
  }

  /** Such a state can be reached: a queue of one, full when `close` looks, and
      emptied before it evicts. */
  lemma {:induction false} SentinelCanBeLost()
    ensures Run(Start(1, 1), [Write("a"), Close, Producer, Consumer(Written), Producer]).sentinelLost
  {
    var s0 := Start(1, 1);
    var s1 := Next(s0, Write("a"));
    assert |s1.queue| == 1 && s1.queue[0].Line?;
    var s2 := Next(s1, Close);
    var s3 := Next(s2, Producer);
    assert s3.producer == ClosingFull;
    var s4 := Next(s3, Consumer(Written));
    assert s4.queue == [];
    var s5 := Next(s4, Producer);
    var acts := [Write("a"), Close, Producer, Consumer(Written), Producer];
    assert acts[1..] == [Close, Producer, Consumer(Written), Producer];
    assert acts[1..][1..] == [Producer, Consumer(Written), Producer];
    assert acts[1..][1..][1..] == [Consumer(Written), Producer];
    assert acts[1..][1..][1..][1..] == [Producer];
    assert Run(s0, acts) == Run(s1, acts[1..]) == Run(s2, acts[1..][1..]) == Run(s3, acts[1..][1..][1..])
           == Run(s4, [Producer]) == Run(s5, []);
  }

  /** A write may give up its own line although the queue is empty again: it
      found the queue full, and the consumer was faster than its eviction. */
  lemma {:induction false} WriteCanGiveUp()
    ensures var s := Run(Start(1, 1), [Write("a"), Write("b"), Producer, Consumer(Written), Producer]);
      && s.submitted == ["a\n", "b\n"] && s.producer.Idle? && !s.closed
      && s.queue == [] && s.dropped == 1 && Held(s.consumer) == ["a\n"] && s.file == ""
  {
    var s0 := Start(1, 1);
    var s1 := Next(s0, Write("a"));
    assert Terminated("a") == "a\n" && Terminated("b") == "b\n";
    assert s1.queue == [Line("a\n")];
    var s2 := Next(s1, Write("b"));
    assert s2.producer == FoundFull("b\n") && s2.submitted == ["a\n", "b\n"];
    var s3 := Next(s2, Producer);
    var s4 := Next(s3, Consumer(Written));
    assert s4.queue == [] && s4.consumer == Collecting(["a\n"]);
    var s5 := Next(s4, Producer);
    assert s5 == s4.(producer := Idle);
    var acts := [Write("a"), Write("b"), Producer, Consumer(Written), Producer];
    assert acts[1..] == [Write("b"), Producer, Consumer(Written), Producer];
    assert acts[1..][1..] == [Producer, Consumer(Written), Producer];
    assert acts[1..][1..][1..] == [Consumer(Written), Producer];
    assert acts[1..][1..][1..][1..] == [Producer];
    assert Run(s0, acts) == Run(s1, acts[1..]) == Run(s2, acts[1..][1..]) == Run(s3, acts[1..][1..][1..])
           == Run(s4, [Producer]) == Run(s5, []);
  }

  // ------------------------------------------------------------------- taking runs apart

  lemma {:induction false} RunConcat(s: State, a: seq<Action>, b: seq<Action>)
    ensures Run(s, a + b) == Run(Run(s, a), b)
    decreases a
  {
    if a == [] {
      assert a + b == b;
    } else {
      assert (a + b)[1..] == a[1..] + b;
      RunConcat(Next(s, a[0]), a[1..], b);
    }
  }

  lemma {:induction false} RunSteps(s: State, a: Action, rest: seq<Action>)
    ensures Run(s, [a] + rest) == Run(Next(s, a), rest)
  {
    assert ([a] + rest)[1..] == rest;
  }

  lemma {:induction false} RunLast(s: State, acts: seq<Action>)
    requires acts != []
    ensures var init := acts[..|acts| - 1];
      Run(s, acts) == Next(Run(s, init), acts[|acts| - 1])
  {
    var init, last := acts[..|acts| - 1], acts[|acts| - 1];
    assert acts == init + [last];
    RunConcat(s, init, [last]);
    RunSteps(Run(s, init), last, []);
    assert [last] + [] == [last];
  }
}
