/** From the end of a database restore on the agent to the report the server receives
    (internal/agent/runner.go, internal/server/agentreg/service.go). */
module AgentReports {
  import opened RestorePhases
  import opened DatabaseRestore
  import RestoreStore
  import RestoreProtocol

  /** The RunResult of a finished restore: CANCELLED as soon as the run's context is done, and the code
      of a classified repository error in place of the pipeline's own. */
  function ReportOf(o: Outcome, contextDone: bool, repositoryCode: Option<ErrorCode>): RestoreStore.Report
    requires !o.Inspected?
  {
    match o
    case Completed(phase, _) => RestoreStore.Report(Succeeded, NoError, Some(phase))
    case Refused(code, phase, _) =>
      RestoreStore.Report(if contextDone then Cancelled else Failed, repositoryCode.GetOr(code), Some(phase))
  }

  /** Every end of the pipeline is an honest report in the sense of the protocol. */
  lemma PipelineReportsHonestly(o: Outcome, contextDone: bool, repositoryCode: Option<ErrorCode>, before: Option<Content>,
                                after: Option<Content>, repo: map<string, Manifest>, log: seq<Event>, artifact: Option<Export>, chosen: Content)
    requires !o.Inspected? && Faithful(o, before, after, repo, log, artifact)
    requires artifact.Some? ==> artifact.value.content == chosen
    ensures RestoreProtocol.HonestReport(ReportOf(o, contextDone, repositoryCode),
                                         RestoreProtocol.Exec(before, true, false, None), after, chosen)
  {
    FaithfulIsTruthful(o, before, after, repo, log, artifact);
  }

  /** End to end for one undisturbed run: however the calls of the restore turn out, the row of a run that
      has not ended settles on a phase that is truthful about the target, and it releases the occupancy
      unless the rollback failed. */
  lemma EndToEnd(task: Task, c: Calls, before: Option<Content>, after: Option<Content>, repo: map<string, Manifest>, log: seq<Event>,
                 contextDone: bool, repositoryCode: Option<ErrorCode>, row: RestoreStore.Row)
    requires Faithful(Verdict(task, false, c, before), before, after, repo, log, Chosen(c))
    requires Chosen(c).Some? ==> Chosen(c).value.content == row.order.chosen
    requires !IsTerminal(row.status) && !IsTerminalPhase(row.phase)
    ensures var o := Verdict(task, false, c, before);
            var settled := RestoreStore.DeliverResult(row, ReportOf(o, contextDone, repositoryCode));
            && settled.phase == o.phase && Truthful(settled.phase, before, after, row.order.chosen)
            && (ReleasesOccupancy(settled.phase) <==> o.phase != PhaseRollbackFailed)
            && (settled.status == Succeeded <==> o.Completed?)
            && (o.phase == PhaseRollbackFailed ==> settled.status == Failed && settled.code == RollbackFailedCode)
            && (settled.status == Cancelled <==> contextDone && o.Refused? && o.phase != PhaseRollbackFailed)
  {
    FaithfulIsTruthful(Verdict(task, false, c, before), before, after, repo, log, Chosen(c));
  }
}
