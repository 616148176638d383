/** A worker load ends in two places: the loader announces it, the session keeps its rows or takes them back. */
module LoadedDatasets {
  import opened LoadTickets
  import opened LoadTicketSafety
  import opened LoadOutcomes
  import opened LoadTransactions
  import opened FileLoading

  /**
   The completion of the current load reaches the loader and its session. The terminal scheduled has the session's
   outcome; it names the load's dataset exactly when the session holds the rows written there, and nothing exactly when
   the session holds the datasets it held before the load.
   */
  method EndWorkerLoad(loader: FileLoader, session: Session, startOk: bool, replayOk: bool, path: string)
    returns (outcome: Outcome, produced: seq<nat>)
    requires Flags(loader.View()) && loader.ctx.Some? && session.Valid() && session.flight != Grounded
    requires session.flight.id == loader.ctx.value.dataset
    requires session.flight.Refilling? <==> loader.ctx.value.replacing
    modifies loader, session
    ensures |loader.pendingTerminals| == |old(loader.pendingTerminals)| + 1
    ensures var t := loader.pendingTerminals[|loader.pendingTerminals| - 1];
      && Schedules(old(loader.View()), loader.View(), t)
      && t.ticket == old(loader.ctx).value.ticket && t.outcome == outcome && t.produced == produced
      && (t.produced == [] || t.produced == [old(loader.ctx).value.dataset])
    ensures produced == [] ==> session.datasets == old(session.base)
    ensures produced != [] ==>
      var id := old(loader.ctx).value.dataset;
      && id in session.datasets && session.datasets - {id} == old(session.base) - {id}
      && session.datasets[id].rows == old(session.written) && session.datasets[id].path == path
  {
    var stop := loader.cancelMode;
    loader.OnWorkerFinished(loader.loadGeneration, startOk, replayOk);
    outcome, produced := session.Finish(stop, startOk, replayOk, path);
  }
}
