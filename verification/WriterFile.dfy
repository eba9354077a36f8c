/** What the line writer's file holds: which text, and exactly when a line of it is
    cut. */
module WriterFile {
  import opened WriteBuffer

  /** The file is made of pieces of submitted lines, in order: whole lines, and at
      most one half line for each line of a failed batch. */
  lemma {:induction false} FileHoldsSubmittedText(maxQueue: int, batchSize: int, actions: seq<Action>, i: nat)
    requires i < |Run(Start(maxQueue, batchSize), actions).pieces|
    ensures var s := Run(Start(maxQueue, batchSize), actions);
      && s.file == Rendered(s.pieces) && Subseq(Origins(s.pieces), s.submitted) && Halves(s.pieces) <= s.failed
      && s.pieces[i].line in s.submitted
      && |s.pieces[i].line| > 0 && s.pieces[i].line[|s.pieces[i].line| - 1] == '\n'
  {
    hide Subseq, Run, Rendered, Halves, Texts;
    var s := Run(Start(maxQueue, batchSize), actions);
    StartInv(maxQueue, batchSize);
    RunInv(Start(maxQueue, batchSize), actions);
    SubmittedAreTerminated(Start(maxQueue, batchSize), actions);
    FileIsInOrder(s);
    SubseqMember(Origins(s.pieces), s.submitted, i);
  }

  // ------------------------------------------------------------------- half lines

  /** A write of the batch that stops after `kept` characters stops inside a line. */
  ghost predicate MidLine(batch: seq<string>, kept: nat) {
    exists j :: 0 <= j < |batch| && |Concat(batch[..j])| < kept < |Concat(batch[..j])| + |batch[j]|
  }

  lemma {:induction false} MidLineLater(batch: seq<string>, kept: nat)
    requires batch != [] && kept >= |batch[0]|
    ensures MidLine(batch, kept) <==> MidLine(batch[1..], kept - |batch[0]|)
  {
    var rest, left := batch[1..], kept - |batch[0]|;
    forall j | 0 <= j < |rest|
      ensures batch[j + 1] == rest[j] && |Concat(batch[..j + 1])| == |batch[0]| + |Concat(rest[..j])|
    {
      assert batch[..j + 1][1..] == rest[..j];
    }
    if MidLine(batch, kept) {
      var j :| 0 <= j < |batch| && |Concat(batch[..j])| < kept < |Concat(batch[..j])| + |batch[j]|;
      if j > 0 {
        assert rest[j - 1] == batch[j - 1 + 1];
        assert |Concat(rest[..j - 1])| < left < |Concat(rest[..j - 1])| + |rest[j - 1]|;
      }
    }
    if MidLine(rest, left) {
      var j :| 0 <= j < |rest| && |Concat(rest[..j])| < left < |Concat(rest[..j])| + |rest[j]|;
      assert |Concat(batch[..j + 1])| < kept < |Concat(batch[..j + 1])| + |batch[j + 1]|;
    }
  }

  /** A failed write leaves a half line exactly when it stops inside a line. */
  lemma {:induction false} CutInsideLine(batch: seq<string>, kept: nat)
    ensures Halves(Cuts(batch, kept)) == if MidLine(batch, kept) then 1 else 0
  {
    if batch != [] {
      var cuts := Cuts(batch, kept);
      assert Concat(batch[..0]) == "";
      if kept < |batch[0]| {
        if kept > 0 {
          assert cuts[1..] == [];
          assert |Concat(batch[..0])| < kept < |Concat(batch[..0])| + |batch[0]|;
        }
      } else {
        CutInsideLine(batch[1..], kept - |batch[0]|);
        MidLineLater(batch, kept);
        if kept > 0 {
          assert cuts[1..] == Cuts(batch[1..], kept - |batch[0]|);
        } else {
          assert Cuts(batch[1..], 0) == [];
        }
      }
    }
  }

  /** A file write that fails inside a line. */
  ghost predicate TearsLine(s: State, a: Action) {
    a.Consumer? && a.io.Failed? && s.consumer.Flushing? && MidLine(s.consumer.batch, a.io.kept)
  }

  lemma {:induction false} StepTears(s: State, a: Action)
    ensures Halves(Next(s, a).pieces) == Halves(s.pieces) + if TearsLine(s, a) then 1 else 0
  {
    hide Concat, Cuts, Wholes, Prefix, Terminated, Halves, MidLine;
    if a.Consumer? && s.consumer.Flushing? {
      var b := s.consumer.batch;
      if a.io.Failed? {
        CutInsideLine(b, a.io.kept);
        RenderedAppend(s.pieces, Cuts(b, a.io.kept));
      } else {
        WholesRender(b);
        RenderedAppend(s.pieces, Wholes(b));
      }
    }
  }

  /** Over every run: half lines appear exactly when some file write fails inside a
      line. */
  lemma {:induction false} HalvesExactly(s: State, actions: seq<Action>)
    ensures Halves(Run(s, actions).pieces) > Halves(s.pieces) <==>
      exists i :: 0 <= i < |actions| && TearsLine(Run(s, actions[..i]), actions[i])
    ensures Halves(Run(s, actions).pieces) >= Halves(s.pieces)
  {
    hide Next, TearsLine, Halves;
    if actions != [] {
      var n := |actions| - 1;
      var init := actions[..n];
      RunLast(s, actions);
      StepTears(Run(s, init), actions[n]);
      HalvesExactly(s, init);
      assert forall i :: 0 <= i < n ==> init[..i] == actions[..i] && init[i] == actions[i];
      if exists i :: 0 <= i < n && TearsLine(Run(s, init[..i]), init[i]) {
        var i :| 0 <= i < n && TearsLine(Run(s, init[..i]), init[i]);
        assert TearsLine(Run(s, actions[..i]), actions[i]);
      }
    }
  }

  lemma {:induction false} NoHalves(pieces: seq<Piece>)
    ensures Halves(pieces) == 0 <==> forall i :: 0 <= i < |pieces| ==> pieces[i].Whole()
    ensures Halves(pieces) == 0 <==> Rendered(pieces) == Concat(Origins(pieces))
    ensures |Rendered(pieces)| <= |Concat(Origins(pieces))|
  {
    if pieces != [] {
      var p, rest := pieces[0], pieces[1..];
      NoHalves(rest);
      assert Origins(pieces)[1..] == Origins(rest) && Origins(pieces)[0] == p.line;
      assert forall i :: 0 < i < |pieces| ==> pieces[i] == rest[i - 1];
      assert Concat(Origins(pieces)) == p.line + Concat(Origins(rest));
      if !p.Whole() {
        assert |Rendered(pieces)| < |Concat(Origins(pieces))|;
      } else if Rendered(pieces) == Concat(Origins(pieces)) {
        assert Rendered(rest) == (p.line + Rendered(rest))[|p.line|..];
        assert Concat(Origins(rest)) == (p.line + Concat(Origins(rest)))[|p.line|..];
      }
    }
  }

  /** The file is exactly whole submitted lines, in order, if and only if no file write
      of the run failed inside a line; a write that failed between two lines, or
      wrote nothing, does no harm. */
  lemma {:induction false} FileHoldsWholeLines(maxQueue: int, batchSize: int, actions: seq<Action>)
    ensures var start := Start(maxQueue, batchSize);
      var s := Run(start, actions);
      && (s.file == Concat(Origins(s.pieces)) <==>
            !exists i :: 0 <= i < |actions| && TearsLine(Run(start, actions[..i]), actions[i]))
      && (s.file == Concat(Origins(s.pieces)) <==> forall i :: 0 <= i < |s.pieces| ==> s.pieces[i].Whole())
      && Subseq(Origins(s.pieces), s.submitted) && |s.pieces| >= s.written
      && (s.failed == 0 ==> s.file == Concat(Origins(s.pieces)))
  {
    hide Subseq, TearsLine;
    var start := Start(maxQueue, batchSize);
    var s := Run(start, actions);
    StartInv(maxQueue, batchSize);
    RunInv(start, actions);
    FileIsInOrder(s);
    HalvesExactly(start, actions);
    NoHalves(s.pieces);
  }

  /** Part of the order invariant: what the file came from, without what is still
      on its way. */
  lemma {:induction false} FileIsInOrder(s: State)
    requires InOrder(s)
    ensures Subseq(Origins(s.pieces), s.submitted)
  {
    hide Subseq;
    var rest := Held(s.consumer) + Texts(s.queue) + Pending(s.producer);
    assert Pipeline(s) == Origins(s.pieces) + rest + [];
    CutStays(Origins(s.pieces), rest, [], s.submitted);
    assert Origins(s.pieces) + [] == Origins(s.pieces);
  }

  // ------------------------------------------------------------------------ glueing

  /** The file only grows: whatever a write left, whole or not, stays, and the next
      text goes right behind it. */
  lemma {:induction false} FileOnlyGrows(s: State, actions: seq<Action>)
    requires Inv(s)
    ensures var t, n := Run(s, actions), |s.pieces|;
      n <= |t.pieces| && t.pieces[..n] == s.pieces && t.file == s.file + Rendered(t.pieces[n..])
  {
    var t, n := Run(s, actions), |s.pieces|;
    PiecesOnlyGrow(s, actions);
    RunInv(s, actions);
    assert t.pieces == t.pieces[..n] + t.pieces[n..];
    RenderedAppend(t.pieces[..n], t.pieces[n..]);
  }

  lemma {:induction false} PiecesOnlyGrow(s: State, actions: seq<Action>)
    ensures var t := Run(s, actions);
      |s.pieces| <= |t.pieces| && t.pieces[..|s.pieces|] == s.pieces
    decreases actions
  {
    if actions != [] {
      var s1 := Next(s, actions[0]);
      StepGrows(s, actions[0]);
      PiecesOnlyGrow(s1, actions[1..]);
      hide Next;
      assert Run(s, actions).pieces[..|s1.pieces|][..|s.pieces|] == s.pieces;
    }
  }

  lemma {:induction false} StepGrows(s: State, a: Action)
    ensures |s.pieces| <= |Next(s, a).pieces| && Next(s, a).pieces[..|s.pieces|] == s.pieces
  {
    hide Concat, Cuts, Wholes, Prefix, Terminated;
  }

  /** A quiet state: nothing queued, nothing under way. */
  predicate Quiet(s: State) {
    && s.producer.Idle? && s.consumer.Waiting? && s.queue == [] && !s.closed && s.maxQueue >= 1 && s.batchSize >= 1
  }

  /** One line through a quiet writer, up to the end of its file write. */
  lemma {:induction false} OneLine(s: State, line: string, io: Io)
    requires Quiet(s)
    ensures var item := Terminated(line);
      var t := Run(s, [Write(line), Consumer(io), Consumer(io), Consumer(io)]);
      && t.file == s.file + (if io.Written? then item else Prefix(item, io.kept))
      && t.submitted == s.submitted + [item]
      && (io.Failed? ==>
            var u := Next(t, Consumer(io));
            Quiet(u) && u == t.(unfinished := s.unfinished, consumer := Waiting))
  {
    hide Terminated;
    var item, c := Terminated(line), Consumer(io);
    var s1 := Next(s, Write(line));
    assert s1.queue == [Line(item)] && s1.submitted == s.submitted + [item];
    var s2 := Next(s1, c);
    assert s2.consumer == Collecting([item]) && s2.queue == [];
    var s3 := Next(s2, c);
    assert s3.consumer == Flushing([item], false);
    var s4 := Next(s3, c);
    assert [item][1..] == [] && Concat([item]) == item + Concat([]) == item;
    RunSteps(s, Write(line), [c, c, c]);
    RunSteps(s1, c, [c, c]);
    RunSteps(s2, c, [c]);
    RunSteps(s3, c, []);
    assert [c] + [] == [c];
  }

  /** The next line is glued to whatever a failed write left behind. */
  lemma {:induction false} NextLineIsGlued(s: State, first: string, second: string, kept: nat)
    requires Quiet(s)
    ensures var w, f := Consumer(Written), Consumer(Failed(kept));
      var t := Run(s, [Write(first), f, f, f, f, Write(second), w, w, w]);
      && t.file == s.file + Prefix(Terminated(first), kept) + Terminated(second)
      && t.submitted == s.submitted + [Terminated(first), Terminated(second)]
  {
    var w, f := Consumer(Written), Consumer(Failed(kept));
    var head, tail := [Write(first), f, f, f], [Write(second), w, w, w];
    OneLine(s, first, Failed(kept));
    var s1 := Run(s, head);
    var s2 := Next(s1, f);
    OneLine(s2, second, Written);
    hide Run, Next, Quiet, Prefix, Terminated;
    RunSteps(s1, f, tail);
    RunConcat(s, head, [f] + tail);
    assert head + ([f] + tail) == [Write(first), f, f, f, f, Write(second), w, w, w];
  }

  /** A failed write can leave half a line; the file then holds a line that was
      never submitted. */
  lemma {:induction false} HalfLineIsGlued()
    ensures var w, f := Consumer(Written), Consumer(Failed(1));
      var s := Run(Start(1, 1), [Write("ab"), f, f, f, f, Write("c"), w, w, w]);
      s.file == "ac\n" && s.submitted == ["ab\n", "c\n"]
  {
    hide Run;
    NextLineIsGlued(Start(1, 1), "ab", "c", 1);
    assert Terminated("ab") == "ab\n" && Terminated("c") == "c\n" && Prefix("ab\n", 1) == "a";
  }

  /** A line is submitted as it is, with a line break added only where it has none. */
  lemma {:induction false} TerminatedOnce(line: string)
    ensures var t := Terminated(line);
      && |t| > 0 && t[|t| - 1] == '\n' && |line| <= |t| <= |line| + 1 && t[..|line|] == line
      && (t == line <==> line != "" && line[|line| - 1] == '\n') && Terminated(t) == t
  {
  }

  lemma {:induction false} OnlyWritesSubmit(s: State, a: Action)
    ensures var t := Next(s, a).submitted;
      t == s.submitted || (a.Write? && t == s.submitted + [Terminated(a.line)])
  {
    hide Terminated, Concat, Wholes, Cuts;
  }

  lemma {:induction false} SubmittedAreTerminated(s: State, actions: seq<Action>)
    requires forall l :: l in s.submitted ==> |l| > 0 && l[|l| - 1] == '\n'
    ensures forall l :: l in Run(s, actions).submitted ==> |l| > 0 && l[|l| - 1] == '\n'
    decreases actions
  {
    if actions != [] {
      hide Next;
      OnlyWritesSubmit(s, actions[0]);
      SubmittedAreTerminated(Next(s, actions[0]), actions[1..]);
    }
  }
}
