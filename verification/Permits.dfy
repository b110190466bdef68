/** Which commands reach the execution ledger and the client, said over whole runs. */
module Permits {
  import opened Types
  import opened Tables
  import opened Execution
  import Texts
  import Receipts

  /** The checks of a command that all pass: everything it names is there, the role may control the entity and
      use the command, the entity can be controlled and supports it, and the integration can be reached. */
  predicate Allowing(checks: Checks, command: string) {
    && checks.resolved && checks.permission.Granted? && checks.permission.canControl
    && command in checks.permission.allowed
    && checks.controllable && checks.supported && checks.connected
  }

  /** The caller's checks passed at this move. */
  predicate Passes(m: Move, id: nat, command: string) {
    m.id == id && m.step.Check? && Allowing(m.step.checks, command)
  }

  ghost predicate HasPassed(moves: seq<Move>, id: nat, command: string) {
    exists k :: 0 <= k < |moves| && Passes(moves[k], id, command)
  }

  predicate BeyondChecks(pc: Pc) {
    match pc
    case Start => false
    case Admitted => false
    case Answered(_) => false
    case Finished => false
    case _ => true
  }

  ghost predicate CallVouched(w: World, moves: seq<Move>, call: Call, id: nat) {
    && id in w.callers && RequestOf(w.callers[id]) == call.request && OrderOf(w.callers[id]) == call.order
    && HasPassed(moves, id, call.order.identity.command)
  }

  ghost predicate Explained(w: World, moves: seq<Move>, call: Call) {
    exists id :: CallVouched(w, moves, call, id)
  }

  /** Whoever is beyond the checks has passed them, and so has whoever made a call. */
  ghost predicate Vouched(w: World, moves: seq<Move>) {
    && (forall id :: id in w.callers && BeyondChecks(w.callers[id].pc) ==>
          HasPassed(moves, id, OrderOf(w.callers[id]).identity.command))
    && (forall i :: 0 <= i < |w.calls| ==> Explained(w, moves, w.calls[i]))
  }

  lemma PassedMore(moves: seq<Move>, m: Move, id: nat, command: string)
    ensures HasPassed(moves + [m], id, command) <==> HasPassed(moves, id, command) || Passes(m, id, command)
  {
    var all := moves + [m];
    if HasPassed(moves, id, command) {
      var k :| 0 <= k < |moves| && Passes(moves[k], id, command);
      assert Passes(all[k], id, command);
    }
    assert all[|moves|] == m;
  }

  /** A step touches no caller but its own, and no caller's command. */
  lemma OthersStay(w: World, m: Move, id: nat)
    requires id != m.id
    ensures id in Take(w, m).callers <==> id in w.callers
    ensures id in w.callers ==> Take(w, m).callers[id] == w.callers[id]
  {
    if m.id in w.callers {
      match m.step
      case FirstTransaction(_) =>
      case Check(_, _) =>
      case Begin(_) =>
      case CallClient(_) =>
      case Complete(_, _) =>
      case AppendAudit(_, _) =>
      case SecondTransaction(_) =>
      case _ =>
    }
  }

  lemma ModeStays(w: World, m: Move)
    requires m.id in w.callers
    ensures m.id in Take(w, m).callers && Take(w, m).callers[m.id].mode == w.callers[m.id].mode
  {
    match m.step
    case FirstTransaction(_) =>
    case Check(_, _) =>
    case Begin(_) =>
    case CallClient(_) =>
    case Complete(_, _) =>
    case AppendAudit(_, _) =>
    case SecondTransaction(_) =>
    case _ =>
  }

  lemma SameCommand(w: World, m: Move, id: nat)
    requires id in w.callers
    ensures id in Take(w, m).callers && Take(w, m).callers[id].mode == w.callers[id].mode
  {
    if id == m.id {
      ModeStays(w, m);
    } else {
      OthersStay(w, m, id);
    }
  }

  lemma TransactionsStayBehind(w: World, id: nat, step: Step)
    requires id in w.callers && (step.FirstTransaction? || step.SecondTransaction?)
    requires !BeyondChecks(w.callers[id].pc)
    ensures id in Exec(w, id, step).callers && !BeyondChecks(Exec(w, id, step).callers[id].pc)
  {
    if step.FirstTransaction? && w.callers[id].pc == Start && w.callers[id].mode.Sync? {
      FirstEnds(w, id, step.told);
    }
  }

  lemma FirstEnds(w: World, id: nat, told: bool)
    requires id in w.callers && w.callers[id].mode.Sync?
    ensures id in DoFirst(w, id, told).callers
    ensures var pc := DoFirst(w, id, told).callers[id].pc; pc.Finished? || pc.Answered? || pc.Admitted?
  {
    SettleEnds(w, id, told, Outcome.Rejected(InvalidCursor, w.cursor));
    SettleEnds(w, id, told, Outcome.Rejected(ValidationFailed, w.cursor));
  }

  lemma SettleEnds(w: World, id: nat, told: bool, outcome: Outcome)
    requires id in w.callers && w.callers[id].mode.Sync?
    ensures id in Settle(w, id, told, outcome).callers
    ensures var pc := Settle(w, id, told, outcome).callers[id].pc; pc.Finished? || pc.Answered?
  {
  }

  /** Only a passing check brings a caller beyond the checks. */
  lemma OnlyByPassing(w: World, m: Move)
    requires m.id in Take(w, m).callers && BeyondChecks(Take(w, m).callers[m.id].pc)
    ensures m.id in w.callers
    ensures BeyondChecks(w.callers[m.id].pc) || Passes(m, m.id, OrderOf(w.callers[m.id]).identity.command)
  {
    if m.id in w.callers && !BeyondChecks(w.callers[m.id].pc) {
      if m.step.FirstTransaction? || m.step.SecondTransaction? {
        TransactionsStayBehind(w, m.id, m.step);
      } else if m.step.Check? && w.callers[m.id].pc == Admitted {
        ChecksDecide(w, m.id, m.step.checks, m.step.target);
      }
    }
  }

  /** Only a caller beyond the checks calls, and it calls with its own command. */
  lemma OnlyBeyondCalls(w: World, m: Move)
    ensures var calls := Take(w, m).calls;
            calls == w.calls
            || (m.id in w.callers && BeyondChecks(w.callers[m.id].pc) && |calls| == |w.calls| + 1
                && calls[..|w.calls|] == w.calls
                && calls[|w.calls|].request == RequestOf(w.callers[m.id])
                && calls[|w.calls|].order == OrderOf(w.callers[m.id]))
  {
    match m.step
    case CallClient(_) =>
    case _ =>
  }

  lemma CallStays(w: World, moves: seq<Move>, m: Move, call: Call, id: nat)
    requires CallVouched(w, moves, call, id)
    ensures CallVouched(Take(w, m), moves + [m], call, id)
  {
    SameCommand(w, m, id);
    PassedMore(moves, m, id, call.order.identity.command);
  }

  lemma StepVouches(w: World, moves: seq<Move>, m: Move)
    requires Vouched(w, moves)
    ensures Vouched(Take(w, m), moves + [m])
  {
    var w' := Take(w, m);
    OnlyBeyondCalls(w, m);
    forall id | id in w'.callers && BeyondChecks(w'.callers[id].pc)
      ensures HasPassed(moves + [m], id, OrderOf(w'.callers[id]).identity.command)
    {
      if id == m.id {
        OnlyByPassing(w, m);
        SameCommand(w, m, id);
      } else {
        OthersStay(w, m, id);
      }
      PassedMore(moves, m, id, OrderOf(w'.callers[id]).identity.command);
    }
    forall i | 0 <= i < |w'.calls| ensures Explained(w', moves + [m], w'.calls[i]) {
      if i < |w.calls| {
        var id :| CallVouched(w, moves, w.calls[i], id);
        assert w'.calls[i] == w'.calls[..|w.calls|][i];
        CallStays(w, moves, m, w.calls[i], id);
      } else {
        assert i == |w.calls|;
        SameCommand(w, m, m.id);
        PassedMore(moves, m, m.id, OrderOf(w.callers[m.id]).identity.command);
        assert CallVouched(w', moves + [m], w'.calls[i], m.id);
      }
    }
  }

  lemma {:induction false} RunVouches(moves: seq<Move>)
    ensures Vouched(Run(EMPTY, moves), moves)
    decreases |moves|
  {
    if moves != [] {
      var front, last := moves[..|moves| - 1], moves[|moves| - 1];
      RunVouches(front);
      StepVouches(Run(EMPTY, front), front, last);
      assert moves == front + [last];
    }
  }

  /** Behind every call to the client, in every run, stands a caller of that command whose checks all passed:
      whoever may not control the entity never reaches it. */
  lemma EveryCallWasPermitted(moves: seq<Move>, i: nat)
    requires i < |Run(EMPTY, moves).calls|
    ensures var w := Run(EMPTY, moves);
            exists id, k :: 0 <= k < |moves| && moves[k].id == id && moves[k].step.Check?
                            && id in w.callers && RequestOf(w.callers[id]) == w.calls[i].request
                            && OrderOf(w.callers[id]) == w.calls[i].order
                            && Allowing(moves[k].step.checks, w.calls[i].order.identity.command)
  {
    RunVouches(moves);
    var w := Run(EMPTY, moves);
    assert Explained(w, moves, w.calls[i]);
    var id :| CallVouched(w, moves, w.calls[i], id);
    var k :| 0 <= k < |moves| && Passes(moves[k], id, w.calls[i].order.identity.command);
  }

  /** The audit row takes the result unless it is another command's or says succeeded already. */
  predicate Recordable(w: World, c: Caller) {
    var request := RequestOf(c);
    request in w.audit ==>
      w.audit[request].identity == OrderOf(c).identity && w.audit[request].result != AuditSucceeded
  }

  /** The checks, case by case. When all pass, the command goes on and nothing else changes. Otherwise it ends
      there, without a trace in the ledger or a call; a missing or insufficient permission, an entity that
      cannot be controlled and a command that it does not support are audited as denied, an integration that
      cannot be reached as failed; and what cannot be looked up is not audited at all. */
  lemma ChecksDecide(w: World, id: nat, checks: Checks, target: bool)
    requires id in w.callers && w.callers[id].pc == Admitted
    ensures var c, w' := w.callers[id], Exec(w, id, Check(checks, target));
            var command, request := OrderOf(c).identity.command, RequestOf(c);
            && w'.ledger == w.ledger && w'.calls == w.calls && w'.receipts == w.receipts
            && w'.callers == w.callers[id := c.(pc := if Allowing(checks, command) then Permitted else Finished)]
            && (Allowing(checks, command) || !checks.resolved || checks.permission.Unreadable? ==> w'.audit == w.audit)
            && (!Allowing(checks, command) && checks.resolved && !checks.permission.Unreadable?
                && target && Recordable(w, c) ==>
                  var permitted := checks.permission.Granted? && checks.permission.canControl
                                   && command in checks.permission.allowed
                                   && checks.controllable && checks.supported;
                  w'.audit == w.audit[request := AuditRow(OrderOf(c).identity,
                                                          if permitted then AuditFailed else AuditDenied)])
  {
  }

  /** The ledger and the audit after the client has answered: accepted is succeeded, refused is rejected, and an
      error leaves the outcome unknown; everything but an acceptance is audited as failed and told as an error. */
  lemma AnswersAreRecorded(w: World, id: nat, answer: Answer)
    requires id in w.callers && w.callers[id].pc == Called(answer)
    requires var c := w.callers[id];
             && RequestOf(c) in w.ledger && w.ledger[RequestOf(c)] == LedgerRow(OrderOf(c), Pending)
             && Recordable(w, c)
    ensures var c, completed := w.callers[id], Exec(w, id, Complete(true, true));
            var audited, request := Exec(completed, id, AppendAudit(true, true)), RequestOf(c);
            var status := if answer == ClientAccepted then Succeeded
                          else if answer == ClientRefused then Execution.Status.Rejected else Unknown;
            && audited.ledger == w.ledger[request := LedgerRow(OrderOf(c), status)]
            && audited.audit == w.audit[request := AuditRow(OrderOf(c).identity,
                                                            if answer == ClientAccepted then AuditSucceeded
                                                            else AuditFailed)]
            && audited.callers == w.callers[id := c.(pc := if answer == ClientAccepted then Returned else Finished)]
            && audited.calls == w.calls && audited.receipts == w.receipts
  {
    var c := w.callers[id];
    var completed := Exec(w, id, Complete(true, true));
    assert completed.callers[id] == c.(pc := Completed(answer)) && completed.audit == w.audit;
    var audited := Exec(completed, id, AppendAudit(true, true));
    assert audited.callers == w.callers[id := audited.callers[id]];
  }

  /** What Begin finds decides: a new request is claimed; the same command that has succeeded is replayed; any
      other row (pending, rejected, unknown, or another command's) ends the caller without a call. */
  lemma BeginDecides(w: World, id: nat)
    requires id in w.callers && w.callers[id].pc == Permitted
    ensures var c, w' := w.callers[id], Exec(w, id, Begin(true));
            var request := RequestOf(c);
            && w'.calls == w.calls && w'.audit == w.audit && w'.receipts == w.receipts
            && (if request !in w.ledger
                then w'.ledger == w.ledger[request := LedgerRow(OrderOf(c), Pending)] && w'.callers[id].pc == Claimed
                else && w'.ledger == w.ledger
                     && w'.callers[id].pc == if w.ledger[request] == LedgerRow(OrderOf(c), Succeeded) then Replaying
                                             else Finished)
  {
  }

  /** A pushed command at its first transaction: a used key is answered from its receipt; otherwise a cursor
      beyond the server's and an invalid change are rejected for good, if their key fits the column, and
      everything else is admitted. A key with U+0000 is an error. */
  lemma FirstTransactionDecides(w: World, id: nat, mode: Mode)
    requires mode.Sync? && id !in w.callers
    ensures var w' := Presented(w, id, mode, true);
            var change, k := mode.change, Tables.ReceiptKey(mode.device, mode.change.key);
            var valid := change.wellFormed && 16 <= Texts.Bytes(change.key) <= 255
                         && Texts.Trim(change.entity) != "" && Texts.Trim(change.command) != "";
            var storable := 16 <= |change.key| <= 255;
            && w'.ledger == w.ledger && w'.audit == w.audit && w'.calls == w.calls && id in w'.callers
            && var pc := w'.callers[id].pc;
               if '\0' in change.key then pc == Finished && w'.receipts == w.receipts
               else if k in w.receipts then
                 && w'.receipts == w.receipts && pc.Answered?
                 && (w.receipts[k].device == mode.device && w.receipts[k].pushed == OfHome(change) ==>
                       pc.reply == Receipts.Replay(w.receipts[k].outcome, w.cursor))
                 && (w.receipts[k].device != mode.device || w.receipts[k].pushed != OfHome(change) ==>
                       pc.reply.Answer? && pc.reply.outcome.Rejected? && pc.reply.outcome.code == IdempotencyKeyReuse)
               else if mode.base <= w.cursor && valid then pc == Admitted && w'.receipts == w.receipts
               else if !storable then pc == Finished && w'.receipts == w.receipts
               else
                 var outcome := Outcome.Rejected(if mode.base > w.cursor then InvalidCursor
                     else ValidationFailed, w.cursor);
                 && pc == Answered(Receipts.Answer(outcome))
                 && w'.receipts == w.receipts[k := Receipt(mode.device, OfHome(change), outcome)]
  {
    PresentedIs(w, id, mode, true);
  }

  /** A crash can strike a caller at any point, and other changes can come in between: both leave ledger, audit and
      calls as they are; a crash leaves the receipts too, and another change may file its own under a free key. */
  lemma CrashesAnywhere(w: World, id: nat, at: Tables.ReceiptKey, receipt: Receipt, ticks: nat)
    requires id in w.callers && at !in w.receipts && receipt.pushed.OfTables? && Receipts.Filable(at, receipt)
    ensures Exec(w, id, Crash) == w.(callers := w.callers[id := w.callers[id].(pc := Finished)])
    ensures Exec(w, id, OtherChange(at, receipt, ticks)) ==
              w.(cursor := w.cursor + ticks, receipts := w.receipts[at := receipt])
  {
  }
}
