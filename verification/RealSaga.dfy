/** Workers, workflows, journal and provider tables in one: the calls of a run get the effects that
    the tables really have at the time. */
module RealSaga {
  import opened Records
  import opened WorkflowState
  import opened EndToEnd
  import opened Saga
  import Erp
  import LotLedger
  import Tables = ToolSystem

  // An event, with the day on which a tool call takes place; or a change to the tables by others.
  datatype Dated = Dated(e: Event, today: int) | Outside(after: Erp.Tables)

  predicate IsCall(d: Dated) { d.Dated? && (d.e.Execute? || d.e.Compensate?) }

  function ActOf(d: Dated): Tables.Act
    requires IsCall(d) || d.Outside?
  {
    match d
    case Outside(after) => Tables.External(after)
    case Dated(Execute(inv, _, _, _), today) => Tables.Exec(inv, today)
    case Dated(Compensate(c, _), today) => Tables.Undo(c, today)
  }

  function Events(run: seq<Dated>): seq<Event> {
    if run == [] then [] else (if run[0].Dated? then [run[0].e] else []) + Events(run[1..])
  }

  function Acts(run: seq<Dated>): seq<Tables.Act> {
    if run == [] then [] else (if IsCall(run[0]) || run[0].Outside? then [ActOf(run[0])] else []) + Acts(run[1..])
  }

  // Every call reports what its effect does to the tables it meets, or that they reject it; others
  // change what the ledger leaves to them.
  predicate Real(s: Tables.System, run: seq<Dated>)
    decreases |run|
  {
    run == [] ||
    if IsCall(run[0]) then
      run[0].e.effect == Tables.ResultOf(Tables.OutcomeOf(s, ActOf(run[0]))) && Real(Tables.Next(s, ActOf(run[0])), run[1..])
    else if run[0].Outside? then Tables.ExternalOk(s.db, run[0].after) && Real(Tables.Next(s, ActOf(run[0])), run[1..])
    else Real(s, run[1..])
  }

  // The journal that the workers see is the journal beside the tables.
  lemma {:induction false} JournalsAgree(w: World, s: Tables.System, run: seq<Dated>)
    requires w.journal.rows == s.rows && Real(s, run)
    ensures EndToEnd.Run(w, Events(run)).journal.rows == Tables.Run(s, Acts(run)).rows
    decreases |run|
  {
    hide Journal.RowsAfter, Tables.OutcomeOf, Tables.ExternalOk;
    if run != [] {
      var d := run[0];
      EventsHead(run);
      ActsHead(run);
      hide Events, Acts;
      if IsCall(d) {
        CallsAgree(s, d);
        JournalsAgree(Next(w, d.e), Tables.Next(s, ActOf(d)), run[1..]);
      } else if d.Outside? {
        JournalsAgree(w, Tables.Next(s, ActOf(d)), run[1..]);
      } else {
        JournalsAgree(Next(w, d.e), s, run[1..]);
      }
    }
  }

  lemma EventsHead(run: seq<Dated>)
    requires run != []
    ensures if run[0].Dated? then Events(run) != [] && Events(run)[0] == run[0].e && Events(run)[1..] == Events(run[1..])
            else Events(run) == Events(run[1..])
  {}

  lemma ActsHead(run: seq<Dated>)
    requires run != []
    ensures if IsCall(run[0]) || run[0].Outside? then Acts(run) != [] && Acts(run)[0] == ActOf(run[0]) && Acts(run)[1..] == Acts(run[1..])
            else Acts(run) == Acts(run[1..])
  {}

  lemma CallsAgree(s: Tables.System, d: Dated)
    requires IsCall(d) && d.e.effect == Tables.ResultOf(Tables.OutcomeOf(s, ActOf(d)))
    ensures Tables.CallOf(s, ActOf(d)) == CallOf(d.e)
  {
    hide Tables.ExecOutcome, Tables.UndoOutcome;
  }

  lemma {:induction false} ActsAreAllowed(s: Tables.System, run: seq<Dated>)
    requires Real(s, run)
    ensures Tables.AllowedRun(s, Acts(run))
    decreases |run|
  {
    hide Tables.Next, Tables.ExternalOk, Tables.OutcomeOf;
    if run != [] {
      ActsHead(run);
      if IsCall(run[0]) || run[0].Outside? {
        ActsAreAllowed(Tables.Next(s, ActOf(run[0])), run[1..]);
      } else {
        ActsAreAllowed(s, run[1..]);
      }
    }
  }

  // In every careful run over balanced tables both hold of one and the same journal: workflows are all
  // or nothing, and every lot's allocated quantity is the sum of its rows, within the lot.
  lemma SagaOverTables(db: Erp.Tables, run: seq<Dated>, inputOf: Key -> ToolInput, id: WorkflowId, i: nat, lot: RowId)
    requires LotLedger.LedgerOk(db) && Real(Tables.System(db, map[]), run)
    requires PossibleRun(START, Events(run)) && CarefulRun(START, Events(run), inputOf)
    requires var w := EndToEnd.Run(START, Events(run)); IsStep(w.db, id, i) && w.db[id].steps[i].tool.Some?
    ensures var w, t := EndToEnd.Run(START, Events(run)), Tables.Run(Tables.System(db, map[]), Acts(run));
            var status, step := w.db[id].workflow.status, w.db[id].steps[i];
            && t.rows == w.journal.rows
            && (status == WfSucceeded ==> step.key.Some? && Live(w.journal, step.key.value))
            && (status == WfCompensated && step.key.Some? ==> !Live(w.journal, step.key.value))
            && (lot in t.db.lots ==>
                  t.db.lots[lot].inUse == LotLedger.Total(t.db.allocations, lot, t.db.nextId)
                  && 0 <= t.db.lots[lot].inUse <= t.db.lots[lot].quantity)
  {
    JournalsAgree(START, Tables.System(db, map[]), run);
    AllOrNothing(Events(run), inputOf, id, i);
    ActsAreAllowed(Tables.System(db, map[]), run);
    hide LotLedger.LedgerOk, Live;
    Tables.LedgerIsConserved(db, Acts(run), lot);
  }
}
