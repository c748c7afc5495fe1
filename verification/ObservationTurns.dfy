/** What an invocation that still owns its window does to the stored row, step by step. */
module ObservationTurns {
  import opened Wrappers
  import opened Observation
  import opened ObservationRuns
  import opened ObservationStreaks

  /** The invocation owns the row and works on what is stored. */
  predicate Owner(s: State, id: nat, pc: Pc) {
    && id in s.active && s.active[id].pc == pc && s.row == Some(Row(id, s.active[id].copy))
  }

  lemma OneMore(s: State, steps: seq<Step>, step: Step)
    ensures After(s, steps + [step]) == Apply(After(s, steps), step)
  {
    assert (steps + [step])[..|steps|] == steps;
  }

  /** A new invocation takes the row over, as it is or with the initial window; it works on it exactly while it runs
      under the supported policy, in a segment of its own in which nothing counts yet. */
  lemma OpensExactly(s: State, id: nat, policy: Policy)
    requires id !in s.tokens && id !in s.active
    ensures var s', stored := Apply(s, Open(id, policy)),
                              if s.row.Some? then s.row.value.payload else Initial(policy, s.wall);
            && s'.row == Some(Row(id, stored)) && s'.readLog == s.readLog && s'.tokens == s.tokens + {id}
            && (id in s'.active <==> stored.status == Running && stored.policy.version == POLICY_VERSION)
            && (id in s'.active ==>
                  && s'.active[id].pc == Opened && s'.active[id].copy.consecutive == 0
                  && s'.active[id].copy == stored.(consecutive := 0, samples := InterruptAll(stored.samples)))
            && (forall u :: u != id ==> (u in s'.active <==> u in s.active))
            && (forall u :: u in s.active ==> s'.active[u] == s.active[u])
  {
  }

  /** Time is left at both looks of the head, and room for one more sample. */
  predicate MaySample(v: Invocation, h: Head) {
    && |v.copy.samples| < v.copy.policy.maxSamples
    && h.first.wall < v.copy.deadline && h.first.again < PhaseDeadline(v.copy) && h.first.mono < v.monoDeadline
    && h.third.wall < v.copy.deadline && h.third.again < PhaseDeadline(v.copy) && h.third.mono < v.monoDeadline
  }

  /** The head of the loop takes a sample exactly with time and room left; otherwise the window is closed. */
  lemma HeadsExactly(s: State, id: nat, h: Head)
    requires Owner(s, id, Looping) && HeadOrdered(s, h, Asked(s.active[id], h))
    ensures var v, s' := s.active[id], Apply(s, PassHead(id, h));
            && s'.row == s.row && s'.readLog == s.readLog && s'.tokens == s.tokens
            && s'.wall == h.started && s'.mono == h.third.mono
            && s'.active == s.active[id := if MaySample(v, h)
                                           then v.(pc := Appended, copy := Append(v.copy, id, h.started))
                                           else v.(pc := Closing, copy := Close(v.copy))]
  {
  }

  /** The five steps of one turn. */
  function Turn(id: nat, h: Head, o: Observed, finished: real, first: Reading, second: Reading): (steps: seq<Step>) {
    [PassHead(id, h), SaveAppended(id), ReadCluster(id), AbsorbSample(id, o, finished, first, second), SaveJudged(id)]
  }

  lemma TurnIs(s: State, id: nat, h: Head, o: Observed, finished: real, first: Reading, second: Reading)
    ensures After(s, Turn(id, h, o, finished, first, second))
            == Apply(Apply(Apply(Apply(Apply(s, PassHead(id, h)), SaveAppended(id)), ReadCluster(id)),
                           AbsorbSample(id, o, finished, first, second)), SaveJudged(id))
  {
    hide Apply;
    var a, b, c := PassHead(id, h), SaveAppended(id), ReadCluster(id);
    var d, e := AbsorbSample(id, o, finished, first, second), SaveJudged(id);
    OneMore(s, [], a);
    OneMore(s, [a], b);
    OneMore(s, [a, b], c);
    OneMore(s, [a, b, c], d);
    OneMore(s, [a, b, c, d], e);
    assert [] + [a] == [a] && [a] + [b] == [a, b] && [a, b] + [c] == [a, b, c] && [a, b, c] + [d] == [a, b, c, d];
    assert [a, b, c, d] + [e] == Turn(id, h, o, finished, first, second);
  }

  /** Only the row, the invocation and the log differ. */
  predicate With(s: State, s': State, id: nat, row: Window, v: Invocation, log: seq<nat>) {
    && s'.row == Some(Row(id, row)) && s'.active == s.active[id := v] && s'.readLog == log && s'.tokens == s.tokens
  }

  lemma SavesAppended(s: State, id: nat)
    requires id in s.active && s.active[id].pc == Appended && s.row.Some? && s.row.value.token == id
    ensures var v, s' := s.active[id], Apply(s, SaveAppended(id));
            With(s, s', id, v.copy, v.(pc := Permitted), s.readLog) && s'.wall == s.wall && s'.mono == s.mono
  {
  }

  lemma ReadsOnce(s: State, id: nat)
    requires Owner(s, id, Permitted)
    ensures var v, s' := s.active[id], Apply(s, ReadCluster(id));
            && With(s, s', id, v.copy, v.(pc := Awaiting), s.readLog + [|v.copy.samples|])
            && s'.wall == s.wall && s'.mono == s.mono
  {
  }

  lemma Absorbs(s: State, id: nat, o: Observed, finished: real, first: Reading, second: Reading)
    requires Owner(s, id, Awaiting) && s.active[id].copy.samples != [] && s.wall <= finished
    requires ReadingAfter(finished, s.mono, first) && ReadingAfter(first.again, first.mono, second)
    ensures var v, s' := s.active[id], Apply(s, AbsorbSample(id, o, finished, first, second));
            With(s, s', id, v.copy, v.(pc := Judged, copy := Absorb(v.copy, v.monoDeadline, o, finished, first,
                                                                    second)), s.readLog)
  {
    hide Absorb;
  }

  lemma SavesJudged(s: State, id: nat)
    requires id in s.active && s.active[id].pc == Judged && s.row.Some? && s.row.value.token == id
    ensures var v, s' := s.active[id], Apply(s, SaveJudged(id));
            With(s, s', id, v.copy, v.(pc := if v.copy.status == Running then Looping else Closing), s.readLog)
  {
  }

  /** A turn with time and room left reads the cluster once, stores what the sample made of the window, and goes on
      exactly while the window runs. */
  lemma TurnIsStored(s: State, id: nat, h: Head, o: Observed, finished: real, first: Reading, second: Reading)
    requires Owner(s, id, Looping) && HeadOrdered(s, h, Asked(s.active[id], h)) && MaySample(s.active[id], h)
    requires h.started <= finished && ReadingAfter(finished, h.third.mono, first)
    requires ReadingAfter(first.again, first.mono, second)
    ensures var v, s' := s.active[id], After(s, Turn(id, h, o, finished, first, second));
            var w := Absorb(Append(v.copy, id, h.started), v.monoDeadline, o, finished, first, second);
            With(s, s', id, w, v.(pc := if w.status == Running then Looping else Closing, copy := w),
                 s.readLog + [|v.copy.samples| + 1])
  {
    hide Apply, After, Absorb, HeadOrdered, MaySample;
    TurnIs(s, id, h, o, finished, first, second);
    HeadsExactly(s, id, h);
    var s1 := Apply(s, PassHead(id, h));
    SavesAppended(s1, id);
    var s2 := Apply(s1, SaveAppended(id));
    ReadsOnce(s2, id);
    var s3 := Apply(s2, ReadCluster(id));
    Absorbs(s3, id, o, finished, first, second);
    var s4 := Apply(s3, AbsorbSample(id, o, finished, first, second));
    SavesJudged(s4, id);
    var s5 := Apply(s4, SaveJudged(id));
    assert s5.active == s.active[id := s5.active[id]];
  }

  /** An invocation that has left its loop stores the window as it is and is over; one that lost the row changes
      nothing. */
  lemma ClosesExactly(s: State, id: nat)
    requires id in s.active && s.active[id].pc == Closing
    ensures var s' := Apply(s, SaveClosed(id));
            && id !in s'.active && s'.readLog == s.readLog
            && (if s.row.Some? && s.row.value.token == id then s'.row == Some(Row(id, s.active[id].copy))
                else s'.row == s.row)
  {
  }
}
