/** An investigation changes its budget only by the edits the results about readings are about. */
module InvestigationHistory {
  import opened Wrappers
  import opened Budget
  import opened Resampling
  import opened Investigation
  import opened InvestigationProofs

  /** The edits that a run of the investigation makes, in order. */
  ghost function History(m: Machine, events: seq<Event>): (edits: seq<SamplingEdit>)
    decreases |events|
  {
    if events == [] then []
    else
      var before := events[..|events| - 1];
      var edit := EditOf(AfterEvents(m, before), events[|events| - 1]);
      History(m, before) + (if edit.Some? then [edit.value] else [])
  }

  lemma AppendEdit(b: Budget, edits: seq<SamplingEdit>, edit: Option<SamplingEdit>)
    ensures AfterSampling(b, edits + (if edit.Some? then [edit.value] else []))
            == Applied(AfterSampling(b, edits), edit)
  {
    if edit.Some? {
      assert (edits + [edit.value])[..|edits|] == edits;
    } else {
      assert edits + [] == edits;
    }
  }

  /** Whatever happens, the budget of an investigation is the result of a history of grants, granted reads, answers
      and other edits. */
  lemma {:induction false} BudgetIsHistory(m: Machine, events: seq<Event>)
    ensures AfterEvents(m, events).budget == AfterSampling(m.budget, History(m, events))
    decreases |events|
  {
    hide Next, EditOf, Applied;
    if events != [] {
      var before := events[..|events| - 1];
      BudgetIsHistory(m, before);
      EventIsEdit(AfterEvents(m, before), events[|events| - 1]);
      AppendEdit(m.budget, History(m, before), EditOf(AfterEvents(m, before), events[|events| - 1]));
    }
  }

  /** In every run each grant has its ground and each reading its grant. */
  lemma InvestigationSamplesOk(events: seq<Event>)
    ensures SamplingOk(AfterEvents(START, events).budget)
  {
    EmptyOk();
    BudgetIsHistory(START, events);
    AlwaysOk(EMPTY, History(START, events));
  }

  /** In every run, two readings of one query have different generations and rest on different grounds. */
  lemma ReadingsHaveOwnGround(events: seq<Event>, i: nat, j: nat)
    requires var calls := AfterEvents(START, events).budget.calls;
             i < j < |calls| && calls[i].purpose.ToolRead? && calls[j].purpose.ToolRead?
             && calls[i].purpose.query == calls[j].purpose.query
    ensures var calls := AfterEvents(START, events).budget.calls;
            calls[i].purpose.generation != calls[j].purpose.generation
            && calls[i].purpose.basis != calls[j].purpose.basis
  {
    EmptyOk();
    BudgetIsHistory(START, events);
    RepeatsHaveOwnGround(EMPTY, History(START, events), i, j);
  }

  /** In every run, every reading was authorised by an edit of that run that issued its grant on a ground that held
      then and that no earlier grant of the query had used. */
  lemma ReadingsWereJustified(events: seq<Event>, j: nat) returns (k: nat)
    requires var calls := AfterEvents(START, events).budget.calls; j < |calls| && calls[j].purpose.ToolRead?
    ensures var c, edits := AfterEvents(START, events).budget.calls[j], History(START, events);
            k < |edits| && c.request.Some?
            && exists g :: Issues(AfterSampling(EMPTY, edits[..k]), edits[k], c.request.value.0, g)
                           && g.query == c.purpose.query && g.generation == c.purpose.generation
                           && g.basis == c.purpose.basis
  {
    BudgetIsHistory(START, events);
    k := ReadingWasJustified(History(START, events), j);
  }
}
