/** How the collect node carries out a decision: every request is authorised before the first is read. */
module CollectTheorems {
  import opened Wrappers
  import opened Budget
  import opened Resampling
  import opened Investigation

  /** The checkpoint after the node, when it ends without collecting everything or with everything collected. */
  predicate Left(m: Machine, m': Machine, phase: Phase) {
    && m'.graph == m.graph.(phase := phase) && m'.fetch.Resting? && m'.pc == m.pc
    && m'.invoked == m.invoked && m'.collected == m.collected
  }

  /** The node goes on at `fetch`. */
  predicate GoesOnAt(m: Machine, m': Machine, fetch: Fetch) {
    m' == m.(fetch := fetch, budget := m'.budget)
  }

  /** Request `i` of the decision is done: the next one is due, or the investigation decides again. */
  predicate DoneWith(m: Machine, m': Machine, i: nat) {
    if i + 1 < |m.graph.pending| then GoesOnAt(m, m', Fetching(i + 1)) else Left(m, m', Investigating)
  }

  /** Nothing requested is nothing to do; otherwise the first request is authorised next. */
  lemma EntersExactly(m: Machine)
    requires m.graph.phase.Collecting? && m.fetch.Resting?
    ensures var m' := Next(m, EnterCollect);
            && m'.budget == m.budget
            && if m.graph.pending == [] then Left(m, m', Investigating) else GoesOnAt(m, m', Scheduling(0))
  {
  }

  /** One request after the other is authorised; the first one that is denied ends the investigation before anything
      was read, and after the last one the readings start. */
  lemma SchedulesExactly(m: Machine, f: nat, answers: seq<HumanAnswer>, now: real)
    requires m.fetch.Scheduling? && InCollect(m, m.fetch.index)
    ensures var i, m' := m.fetch.index, Next(m, Schedule(f, answers, now)); var ask := m.graph.pending[i];
            var (b, r) := Authorize(m.budget, ReadRequest(m.graph.step, i), f, ask.request, ask.query, m.graph.reason,
                                    answers, now);
            && m'.budget == b
            && (if r.Denied? then Left(m, m', Finished)
                else GoesOnAt(m, m', if i + 1 < |m.graph.pending| then Scheduling(i + 1) else Fetching(0)))
  {
    hide Authorize;
  }

  /** The saved answer of a reading. */
  predicate Answered(b: Budget, ticket: nat) {
    ticket < |b.calls| && b.calls[ticket].settled.Some? && b.calls[ticket].settled.value.answer.ToolAnswer?
  }

  /** A reading is made on the grant of its request. A new one is awaited; one that was answered before is taken over
      unless the target changed; everything else ends the investigation. */
  lemma FetchesExactly(m: Machine, f: nat, changed: bool)
    requires m.fetch.Fetching? && InCollect(m, m.fetch.index)
    ensures var i, m' := m.fetch.index, Next(m, FetchNext(f, changed));
            var id, ask := ReadRequest(m.graph.step, i), m.graph.pending[i];
            if id !in m.budget.grants then m'.budget == m.budget && Left(m, m', Finished)
            else
              var (b, r) := CallTool(m.budget, id, f, ask.request, ask.query, m.budget.grants[id].1);
              && m'.budget == b
              && (if r.ReadResult? && r.grant.Fresh? then GoesOnAt(m, m', Awaiting(i, r.grant.ticket))
                  else if r.ReadResult? && r.grant.Replayed? && Answered(b, r.grant.ticket) && !changed
                  then DoneWith(m, m', i)
                  else Left(m, m', Finished))
  {
    hide CallTool;
  }

  /** The answer of a reading is saved as it came and done with, failed or not; only a changed target ends the
      investigation. */
  lemma ReturnsExactly(m: Machine, elapsed: real, failed: bool, collectedAt: real, changed: bool)
    requires m.fetch.Awaiting? && m.fetch.ticket < |m.budget.calls|
    requires m.budget.calls[m.fetch.ticket].settled.None?
    ensures var ticket, m' := m.fetch.ticket, Next(m, ToolReturns(elapsed, failed, collectedAt, changed));
            && |m'.budget.calls| == |m.budget.calls| && m'.budget.calls[ticket].settled.Some?
            && m'.budget.calls[ticket].settled.value.answer == ToolAnswer(failed, collectedAt)
            && (if changed then Left(m, m', Finished) else DoneWith(m, m', m.fetch.index))
  {
  }
}
