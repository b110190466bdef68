/** Exactly-once external commands: any number of callers, interleaved step by step, with a crash possible
    between any two steps. */
module Execution {
  import opened Types
  import opened Texts
  import opened Tables
  import opened Receipts
  import Runs

  // ---- what is stored

  /** The columns by which an audit row recognises its command. */
  datatype Identity = Identity(user: Id, device: Option<Id>, integration: Id, entity: string, command: string,
                               summary: string)

  /** A command with everything its fingerprint digests; `rest` is what the audit summary leaves out. */
  datatype Order = Order(identity: Identity, rest: string)

  datatype Status = Pending | Succeeded | Rejected | Unknown

  /** A row of ha_command_executions; the fingerprint is an injective digest of the order. */
  datatype LedgerRow = LedgerRow(order: Order, status: Status)

  datatype AuditResult = AuditSucceeded | AuditFailed | AuditDenied

  datatype AuditRow = AuditRow(identity: Identity, result: AuditResult)

  /** What the Home Assistant client reported: accepted, refused, or an error with the effect unknown. */
  datatype Answer = ClientAccepted | ClientRefused | ClientFailed

  datatype Call = Call(request: Id, order: Order, answer: Answer)

  type Ledger = map<Id, LedgerRow>
  type Audit = map<Id, AuditRow>

  /** Begin: INSERT ... ON CONFLICT DO NOTHING, else read the row that is there. */
  function Begun(ledger: Ledger, request: Id, order: Order): (r: (Ledger, LedgerRow, bool))
    ensures r.2 <==> request !in ledger
    ensures r.0 == if r.2 then ledger[request := r.1] else ledger
    ensures request in r.0 && r.0[request] == r.1
  {
    if request in ledger then (ledger, ledger[request], false)
    else
      var row := LedgerRow(order, Pending);
      (ledger[request := row], row, true)
  }

  /** Complete: UPDATE ... WHERE fingerprint matches AND status = 'pending'; None when no row is affected. */
  function Completing(ledger: Ledger, request: Id, order: Order, status: Status): Option<Ledger> {
    if request in ledger && ledger[request] == LedgerRow(order, Pending)
    then Some(ledger[request := LedgerRow(order, status)]) else None
  }

  /** Append: a succeeded result is never overwritten; None when the row belongs to another command or
      the audited entity is gone. */
  function Appending(audit: Audit, request: Id, identity: Identity, result: AuditResult, target: bool): Option<Audit> {
    if !target then None
    else if request !in audit then Some(audit[request := AuditRow(identity, result)])
    else if audit[request].identity != identity then None
    else if audit[request].result == AuditSucceeded then Some(audit)
    else Some(audit[request := AuditRow(identity, result)])
  }

  class ExecutionRepository {
    var rows: Ledger

    constructor ()
      ensures rows == map[]
    {
      rows := map[];
    }

    method Begin(request: Id, order: Order) returns (execution: LedgerRow, created: bool)
      modifies this
      ensures (rows, execution, created) == Begun(old(rows), request, order)
    {
      if request !in rows {
        rows := rows[request := LedgerRow(order, Pending)];
        return rows[request], true;
      }
      return rows[request], false;
    }

    method Complete(request: Id, order: Order, status: Status) returns (affected: bool)
      modifies this
      ensures affected <==> Completing(old(rows), request, order, status).Some?
      ensures rows == if affected then Completing(old(rows), request, order, status).value else old(rows)
    {
      affected := false;
      if request in rows && rows[request].order == order && rows[request].status == Pending {
        rows := rows[request := rows[request].(status := status)];
        affected := true;
      }
    }
  }

  class AuditRepository {
    var rows: Audit

    constructor ()
      ensures rows == map[]
    {
      rows := map[];
    }

    method Append(request: Id, identity: Identity, result: AuditResult, target: bool) returns (affected: bool)
      modifies this
      ensures affected <==> Appending(old(rows), request, identity, result, target).Some?
      ensures rows == if affected then Appending(old(rows), request, identity, result, target).value else old(rows)
    {
      if !target {
        return false;
      }
      if request !in rows {
        rows := rows[request := AuditRow(identity, result)];
        return true;
      }
      if rows[request].identity != identity {
        return false;
      }
      rows := rows[request :=
          AuditRow(identity, if rows[request].result == AuditSucceeded then AuditSucceeded else result)];
      affected := true;
    }
  }

  // ---- callers

  /** A command asked for directly, or pushed by a device of a user. */
  datatype Mode =
    | Direct(request: Id, order: Order)
    | Sync(device: Id, user: Id, base: int, change: HomeChange)

  /** decodeSyncCommand: the request id is the change id. */
  function OrderFor(user: Id, device: Id, change: HomeChange): Order {
    Order(Identity(user, Some(device), change.integration, change.entity, change.command, change.summary),
          change.details)
  }

  predicate IsOrderOf(order: Order, device: Id, change: HomeChange) {
    order == OrderFor(order.identity.user, device, change)
  }

  /** Where a caller stands: between which two steps of processExternalHomeAssistantChange and ExecuteCommand. */
  datatype Pc =
    | Start                       // a sync change, before its first transaction
    | Admitted                    // before the permission, capability and integration checks
    | Permitted                   // before Begin
    | Claimed                     // Begin created the ledger row
    | Called(answer: Answer)      // the client has answered
    | Completed(answer: Answer)   // the ledger row is terminal
    | Replaying                   // Begin found a succeeded row of the same command
    | Returned                    // the command has succeeded; a sync change still has to settle
    | Answered(reply: Reply)      // a sync change, with its reply
    | Finished                    // anything else: an error, or a direct caller's end

  datatype Caller = Caller(mode: Mode, pc: Pc)

  function RequestOf(c: Caller): Id {
    if c.mode.Direct? then c.mode.request else c.mode.change.request
  }

  function OrderOf(c: Caller): Order {
    if c.mode.Direct? then c.mode.order else OrderFor(c.mode.user, c.mode.device, c.mode.change)
  }

  /** `cursor` is that of the family's change log. */
  datatype World = World(
    ledger: Ledger,
    audit: Audit,
    receipts: Filing,
    cursor: nat,
    calls: seq<Call>,
    callers: map<nat, Caller>)

  // ---- the checks before a command

  /** The permission of the caller's role on the entity: missing, unreadable, or what it allows. */
  datatype Permission = NoPermission | Unreadable | Granted(canControl: bool, allowed: set<string>)

  /** What a command meets: whether device, integration and entity are there and the change decodes to a command;
      the permission; whether the entity is controllable and supports the command with its parameters; and
      whether the integration is enabled and its token readable. */
  datatype Checks = Checks(resolved: bool, permission: Permission, controllable: bool, supported: bool, connected: bool)

  datatype Verdict = Proceed | Refuse(result: AuditResult) | Fail

  function Judge(checks: Checks, command: string): Verdict {
    if !checks.resolved then Fail
    else match checks.permission
      case NoPermission => Refuse(AuditDenied)
      case Unreadable => Fail
      case Granted(canControl, allowed) =>
        if !canControl || !checks.controllable || command !in allowed then Refuse(AuditDenied)
        else if !checks.supported then Refuse(AuditDenied)
        else if !checks.connected then Refuse(AuditFailed)
        else Proceed
  }

  /** validateChange */
  predicate ValidHome(change: HomeChange) {
    change.wellFormed && ValidKey(change.key) && Trim(change.entity) != "" && Trim(change.command) != ""
  }

  // ---- steps

  /** One step of one caller. `applied` and `told` say whether a statement took effect and whether its
      caller learned that it did: a lost connection can separate the two. */
  datatype Step =
    | Arrive(mode: Mode)
    | FirstTransaction(told: bool)
    | Check(checks: Checks, target: bool)
    | Begin(told: bool)
    | CallClient(answer: Answer)
    | Complete(applied: bool, told: bool)
    | AppendAudit(applied: bool, told: bool)
    | SecondTransaction(told: bool)
    | Crash
    | OtherChange(at: ReceiptKey, receipt: Receipt, ticks: nat)

  function At(w: World, id: nat, pc: Pc): World
    requires id in w.callers
  {
    w.(callers := w.callers[id := w.callers[id].(pc := pc)])
  }

  /** The end of a transaction that commits: its caller may not learn of it. */
  function Ending(told: bool, reply: Reply): Pc {
    if told then Answered(reply) else Finished
  }

  /** PutIdempotency as the transaction's last statement. */
  function Settle(w: World, id: nat, told: bool, outcome: Outcome): World
    requires id in w.callers && w.callers[id].mode.Sync?
  {
    var m := w.callers[id].mode;
    if !StorableKey(m.change.key) then At(w, id, Finished)
    else
      var receipt := Receipt(m.device, OfHome(m.change), outcome);
      At(w, id, Ending(told, Reply.Answer(outcome))).(receipts :=
          w.receipts[ReceiptKey(m.device, m.change.key) := receipt])
  }

  function DoFirst(w: World, id: nat, told: bool): World
    requires id in w.callers && w.callers[id].mode.Sync?
  {
    var m := w.callers[id].mode;
    var found := Lookup(w.receipts, m.device, OfHome(m.change), m.base, w.cursor);
    if !Readable(m.change.key) then At(w, id, Finished)
    else if found.Some? then At(w, id, Ending(told, found.value))
    else if m.base > w.cursor then Settle(w, id, told, Outcome.Rejected(InvalidCursor, w.cursor))
    else if !ValidHome(m.change) then Settle(w, id, told, Outcome.Rejected(ValidationFailed, w.cursor))
    else At(w, id, if told then Admitted else Finished)
  }

  function DoBegin(w: World, id: nat, told: bool): World
    requires id in w.callers
  {
    var c := w.callers[id];
    var (ledger, row, created) := Begun(w.ledger, RequestOf(c), OrderOf(c));
    var pc :=
      if !told then Finished
      else if created then Claimed
      else if row.order != OrderOf(c) then Finished
      else if row.status == Succeeded then Replaying
      else Finished;
    At(w, id, pc).(ledger := ledger)
  }

  function StatusOf(answer: Answer): Status {
    match answer
    case ClientAccepted => Succeeded
    case ClientRefused => Status.Rejected
    case ClientFailed => Unknown
  }

  function DoCall(w: World, id: nat, answer: Answer): World
    requires id in w.callers
  {
    var c := w.callers[id];
    At(w, id, Called(answer)).(calls := w.calls + [Call(RequestOf(c), OrderOf(c), answer)])
  }

  function DoComplete(w: World, id: nat, applied: bool, told: bool): World
    requires id in w.callers && w.callers[id].pc.Called?
  {
    var c := w.callers[id];
    var done := Completing(w.ledger, RequestOf(c), OrderOf(c), StatusOf(c.pc.answer));
    if !applied || done.None? then At(w, id, Finished)
    else At(w, id, if told then Completed(c.pc.answer) else Finished).(ledger := done.value)
  }

  predicate AtAudit(pc: Pc) {
    pc.Completed? || pc == Replaying
  }

  function DoAudit(w: World, id: nat, applied: bool, told: bool): World
    requires id in w.callers && AtAudit(w.callers[id].pc)
  {
    var c := w.callers[id];
    var ok := c.pc == Replaying || c.pc.answer == ClientAccepted;
    var done := Appending(w.audit, RequestOf(c), OrderOf(c).identity,
                          if ok then AuditSucceeded else AuditFailed, applied);
    if done.None? then At(w, id, Finished)
    else At(w, id, if told && ok then Returned else Finished).(audit := done.value)
  }

  /** The checks: a refusal is audited before it is returned. */
  function DoCheck(w: World, id: nat, checks: Checks, target: bool): World
    requires id in w.callers
  {
    var c := w.callers[id];
    match Judge(checks, OrderOf(c).identity.command)
    case Proceed => At(w, id, Permitted)
    case Fail => At(w, id, Finished)
    case Refuse(result) =>
      match Appending(w.audit, RequestOf(c), OrderOf(c).identity, result, target)
      case None => At(w, id, Finished)
      case Some(audit) => At(w, id, Finished).(audit := audit)
  }

  function DoSecond(w: World, id: nat, told: bool): World
    requires id in w.callers
  {
    var m := w.callers[id].mode;
    if m.Direct? || !Readable(m.change.key) then At(w, id, Finished)
    else
      var found := Lookup(w.receipts, m.device, OfHome(m.change), m.base, w.cursor);
      if found.Some? then At(w, id, Ending(told, found.value))
      else Settle(w, id, told, Outcome.Accepted(0, w.cursor))
  }

  /** Other changes move the log's cursor and file receipts, none of them for a command. */
  function DoOther(w: World, at: ReceiptKey, receipt: Receipt, ticks: nat): World {
    if at in w.receipts || receipt.pushed.OfHome? || !Filable(at, receipt) then w.(cursor := w.cursor + ticks)
    else w.(cursor := w.cursor + ticks, receipts := w.receipts[at := receipt])
  }

  /** A step that its caller is not ready for does nothing. */
  function Exec(w: World, id: nat, step: Step): World {
    if step.Arrive? then
      if id in w.callers then w
      else w.(callers := w.callers[id := Caller(step.mode, if step.mode.Sync? then Start else Admitted)])
    else if step.OtherChange? then DoOther(w, step.at, step.receipt, step.ticks)
    else if id !in w.callers then w
    else
      var pc := w.callers[id].pc;
      match step
      case FirstTransaction(told) => if pc == Start && w.callers[id].mode.Sync? then DoFirst(w, id, told) else w
      case Check(checks, target) => if pc == Admitted then DoCheck(w, id, checks, target) else w
      case Begin(told) => if pc == Permitted then DoBegin(w, id, told) else w
      case CallClient(answer) => if pc == Claimed then DoCall(w, id, answer) else w
      case Complete(applied, told) => if pc.Called? then DoComplete(w, id, applied, told) else w
      case AppendAudit(applied, told) => if AtAudit(pc) then DoAudit(w, id, applied, told) else w
      case SecondTransaction(told) => if pc == Returned then DoSecond(w, id, told) else w
      case Crash => At(w, id, Finished)
      case _ => w
  }

  // ---- the invariant

  ghost predicate CalledOnce(w: World) {
    forall i, j :: 0 <= i < j < |w.calls| ==> w.calls[i].request != w.calls[j].request
  }

  ghost predicate CallOf(w: World, request: Id, order: Order, answer: Answer) {
    Call(request, order, answer) in w.calls
  }

  ghost predicate NoCall(w: World, request: Id) {
    forall i :: 0 <= i < |w.calls| ==> w.calls[i].request != request
  }

  /** Calls have a ledger row, and a terminal row has the call that its status reports. */
  ghost predicate LedgerTells(w: World) {
    && (forall i :: 0 <= i < |w.calls| ==>
          w.calls[i].request in w.ledger && w.ledger[w.calls[i].request].order == w.calls[i].order)
    && (forall r :: r in w.ledger && w.ledger[r].status != Pending ==>
          exists answer :: CallOf(w, r, w.ledger[r].order, answer) && w.ledger[r].status == StatusOf(answer))
  }

  predicate Holds(pc: Pc) {
    pc == Claimed || pc.Called?
  }

  predicate Owns(w: World, c: Caller, status: Status) {
    RequestOf(c) in w.ledger && w.ledger[RequestOf(c)] == LedgerRow(OrderOf(c), status)
  }

  predicate Audited(w: World, request: Id, order: Order) {
    request in w.audit && w.audit[request] == AuditRow(order.identity, AuditSucceeded)
  }

  ghost predicate CallerOk(w: World, c: Caller) {
    match c.pc
    case Claimed => Owns(w, c, Pending) && NoCall(w, RequestOf(c))
    case Called(answer) => Owns(w, c, Pending) && CallOf(w, RequestOf(c), OrderOf(c), answer)
    case Completed(answer) => Owns(w, c, StatusOf(answer))
    case Replaying => Owns(w, c, Succeeded)
    case Returned => Owns(w, c, Succeeded) && Audited(w, RequestOf(c), OrderOf(c))
    case Answered(reply) => c.mode.Sync? && InReceipts(w.receipts, c.mode.device, OfHome(c.mode.change), reply)
    case _ => true
  }

  ghost predicate CallersOk(w: World) {
    && (forall id :: id in w.callers ==> CallerOk(w, w.callers[id]))
    && (forall a, b ::
          a in w.callers && b in w.callers && a != b && Holds(w.callers[a].pc) && Holds(w.callers[b].pc) ==>
          RequestOf(w.callers[a]) != RequestOf(w.callers[b]))
  }

  predicate AcceptedCommand(receipt: Receipt) {
    receipt.pushed.OfHome? && receipt.outcome.Accepted?
  }

  /** The ledger says succeeded for the receipt's command, and so does its audit row. */
  predicate Done(w: World, receipt: Receipt)
    requires receipt.pushed.OfHome?
  {
    var request := receipt.pushed.command.request;
    && request in w.ledger && w.ledger[request].status == Succeeded
    && IsOrderOf(w.ledger[request].order, receipt.device, receipt.pushed.command)
    && Audited(w, request, w.ledger[request].order)
  }

  /** Accepted receipts mean that the command is done. */
  ghost predicate ReceiptsOk(w: World) {
    && Filed(w.receipts)
    && forall k :: k in w.receipts && AcceptedCommand(w.receipts[k]) ==> Done(w, w.receipts[k])
  }

  ghost predicate Safe(w: World) {
    CalledOnce(w) && LedgerTells(w) && CallersOk(w) && ReceiptsOk(w)
  }

  /** What no step undoes: rows keep their command, a terminal status and a succeeded audit are final,
      receipts, calls and callers stay. */
  ghost predicate Keeps(w: World, w': World) {
    && (forall r :: r in w.ledger ==> r in w'.ledger && w'.ledger[r].order == w.ledger[r].order)
    && (forall r :: r in w.ledger && w.ledger[r].status != Pending ==> w'.ledger[r] == w.ledger[r])
    && (forall r :: r in w.audit && w.audit[r].result == AuditSucceeded ==> r in w'.audit && w'.audit[r] == w.audit[r])
    && KeepsReceipts(w.receipts, w'.receipts)
    && w.calls <= w'.calls
    && (forall id :: id in w.callers ==> id in w'.callers && w'.callers[id].mode == w.callers[id].mode)
  }

  /** The other callers' positions do not depend on what else a step adds. */
  ghost predicate OthersKept(w: World, w': World, id: nat) {
    && id in w.callers && id in w'.callers
    && w'.callers == w.callers[id := w'.callers[id]]
    && w'.callers[id].mode == w.callers[id].mode
  }

  // ---- each step keeps it

  /** Steps that touch neither ledger nor calls. */
  lemma QuietStep(w: World, w': World, id: nat)
    requires Safe(w) && OthersKept(w, w', id) && Keeps(w, w')
    requires w'.ledger == w.ledger && w'.calls == w.calls
    requires CallerOk(w', w'.callers[id]) && (Holds(w'.callers[id].pc) ==> Holds(w.callers[id].pc))
    requires ReceiptsOk(w')
    ensures Safe(w')
  {
    forall other | other in w'.callers ensures CallerOk(w', w'.callers[other]) {
      assert other != id ==> CallerOk(w, w.callers[other]);
    }
  }

  lemma SettleKeeps(w: World, id: nat, told: bool, outcome: Outcome)
    requires Safe(w) && id in w.callers && w.callers[id].mode.Sync?
    requires KeyOf(w.callers[id].mode.device, OfHome(w.callers[id].mode.change)) !in w.receipts
    requires outcome.Rejected? ==> outcome.code != IdempotencyKeyReuse
    requires outcome.Accepted? ==> w.callers[id].pc == Returned
    ensures Safe(Settle(w, id, told, outcome)) && Keeps(w, Settle(w, id, told, outcome))
  {
    var w' := Settle(w, id, told, outcome);
    assert CallerOk(w, w.callers[id]);
    if StorableKey(w.callers[id].mode.change.key) {
      SettleFiles(w, id, told, outcome);
    } else {
      assert w' == At(w, id, Finished);
    }
    QuietStep(w, w', id);
  }

  /** The new receipt is in order, and so is the caller who is told of it. */
  lemma SettleFiles(w: World, id: nat, told: bool, outcome: Outcome)
    requires id in w.callers && w.callers[id].mode.Sync? && CallerOk(w, w.callers[id]) && ReceiptsOk(w)
    requires StorableKey(w.callers[id].mode.change.key)
    requires KeyOf(w.callers[id].mode.device, OfHome(w.callers[id].mode.change)) !in w.receipts
    requires outcome.Rejected? ==> outcome.code != IdempotencyKeyReuse
    requires outcome.Accepted? ==> w.callers[id].pc == Returned
    ensures var w' := Settle(w, id, told, outcome);
            ReceiptsOk(w') && KeepsReceipts(w.receipts, w'.receipts) && CallerOk(w', w'.callers[id])
  {
    var w' := Settle(w, id, told, outcome);
    var m := w.callers[id].mode;
    var k := ReceiptKey(m.device, m.change.key);
    assert w'.receipts == w.receipts[k := Receipt(m.device, OfHome(m.change), outcome)];
    assert outcome.Accepted? ==> Done(w, w'.receipts[k]);
    forall other | other in w'.receipts
      ensures Filable(other, w'.receipts[other])
              && (AcceptedCommand(w'.receipts[other]) ==> Done(w', w'.receipts[other])) {
      if other != k {
        assert Filable(other, w.receipts[other]);
      }
    }
  }

  /** A reply that is read from the receipts. */
  lemma ReadKeeps(w: World, id: nat, told: bool)
    requires Safe(w) && id in w.callers && w.callers[id].mode.Sync?
    requires var m := w.callers[id].mode; Lookup(w.receipts, m.device, OfHome(m.change), m.base, w.cursor).Some?
    ensures var m := w.callers[id].mode;
            var w' := At(w, id, Ending(told, Lookup(w.receipts, m.device, OfHome(m.change), m.base, w.cursor).value));
            Safe(w') && Keeps(w, w')
  {
    var m := w.callers[id].mode;
    LookupIsFiled(w.receipts, m.device, OfHome(m.change), m.base, w.cursor);
    QuietStep(w, At(w, id, Ending(told, Lookup(w.receipts, m.device, OfHome(m.change), m.base, w.cursor).value)), id);
  }

  lemma FirstKeeps(w: World, id: nat, told: bool)
    requires Safe(w) && id in w.callers && w.callers[id].pc == Start && w.callers[id].mode.Sync?
    ensures Safe(DoFirst(w, id, told)) && Keeps(w, DoFirst(w, id, told))
  {
    var m := w.callers[id].mode;
    if Readable(m.change.key) && Lookup(w.receipts, m.device, OfHome(m.change), m.base, w.cursor).Some? {
      ReadKeeps(w, id, told);
    } else if Readable(m.change.key) && m.base > w.cursor {
      SettleKeeps(w, id, told, Outcome.Rejected(InvalidCursor, w.cursor));
    } else if Readable(m.change.key) && !ValidHome(m.change) {
      SettleKeeps(w, id, told, Outcome.Rejected(ValidationFailed, w.cursor));
    } else {
      QuietStep(w, At(w, id, if Readable(m.change.key) && told then Admitted else Finished), id);
    }
  }

  lemma CheckKeeps(w: World, id: nat, checks: Checks, target: bool)
    requires Safe(w) && id in w.callers && w.callers[id].pc == Admitted
    ensures Safe(DoCheck(w, id, checks, target)) && Keeps(w, DoCheck(w, id, checks, target))
  {
    QuietStep(w, DoCheck(w, id, checks, target), id);
  }

  lemma AuditKeeps(w: World, id: nat, applied: bool, told: bool)
    requires Safe(w) && id in w.callers && AtAudit(w.callers[id].pc)
    ensures Safe(DoAudit(w, id, applied, told)) && Keeps(w, DoAudit(w, id, applied, told))
  {
    assert CallerOk(w, w.callers[id]);
    QuietStep(w, DoAudit(w, id, applied, told), id);
  }

  lemma SecondKeeps(w: World, id: nat, told: bool)
    requires Safe(w) && id in w.callers && w.callers[id].pc == Returned
    ensures Safe(DoSecond(w, id, told)) && Keeps(w, DoSecond(w, id, told))
  {
    var m := w.callers[id].mode;
    if m.Direct? || !Readable(m.change.key) {
      QuietStep(w, DoSecond(w, id, told), id);
    } else if Lookup(w.receipts, m.device, OfHome(m.change), m.base, w.cursor).Some? {
      ReadKeeps(w, id, told);
    } else {
      SettleKeeps(w, id, told, Outcome.Accepted(0, w.cursor));
    }
  }

  lemma BeginKeeps(w: World, id: nat, told: bool)
    requires Safe(w) && id in w.callers && w.callers[id].pc == Permitted
    ensures Safe(DoBegin(w, id, told)) && Keeps(w, DoBegin(w, id, told))
  {
    var w' := DoBegin(w, id, told);
    var c := w.callers[id];
    if RequestOf(c) in w.ledger {
      QuietStep(w, w', id);
    } else {
      forall other | other in w'.callers ensures CallerOk(w', w'.callers[other]) {
        assert other != id ==> CallerOk(w, w.callers[other]);
      }
      forall other | other in w.callers && Holds(w.callers[other].pc)
        ensures RequestOf(w.callers[other]) != RequestOf(c) {
        assert CallerOk(w, w.callers[other]);
      }
    }
  }

  lemma CallKeeps(w: World, id: nat, answer: Answer)
    requires Safe(w) && id in w.callers && w.callers[id].pc == Claimed
    ensures Safe(DoCall(w, id, answer)) && Keeps(w, DoCall(w, id, answer))
  {
    var w' := DoCall(w, id, answer);
    assert CallerOk(w, w.callers[id]);
    assert w'.calls[|w.calls|] == Call(RequestOf(w.callers[id]), OrderOf(w.callers[id]), answer);
    forall other | other in w'.callers ensures CallerOk(w', w'.callers[other]) {
      assert other != id ==> CallerOk(w, w.callers[other]);
    }
    forall r | r in w'.ledger && w'.ledger[r].status != Pending
      ensures exists a :: CallOf(w', r, w'.ledger[r].order, a) && w'.ledger[r].status == StatusOf(a)
    {
      var a :| CallOf(w, r, w.ledger[r].order, a) && w.ledger[r].status == StatusOf(a);
      assert CallOf(w', r, w'.ledger[r].order, a);
    }
  }

  lemma CompleteKeeps(w: World, id: nat, applied: bool, told: bool)
    requires Safe(w) && id in w.callers && w.callers[id].pc.Called?
    ensures Safe(DoComplete(w, id, applied, told)) && Keeps(w, DoComplete(w, id, applied, told))
  {
    var w' := DoComplete(w, id, applied, told);
    var c := w.callers[id];
    assert CallerOk(w, c);
    if applied {
      assert CallOf(w', RequestOf(c), OrderOf(c), c.pc.answer);
      forall other | other in w'.callers ensures CallerOk(w', w'.callers[other]) {
        assert other != id ==> CallerOk(w, w.callers[other]);
      }
      forall r | r in w'.ledger && w'.ledger[r].status != Pending
        ensures exists a :: CallOf(w', r, w'.ledger[r].order, a) && w'.ledger[r].status == StatusOf(a)
      {
        if r != RequestOf(c) {
          var a :| CallOf(w, r, w.ledger[r].order, a) && w.ledger[r].status == StatusOf(a);
          assert CallOf(w', r, w'.ledger[r].order, a);
        }
      }
    } else {
      QuietStep(w, w', id);
    }
  }

  lemma StepKeeps(w: World, id: nat, step: Step)
    requires Safe(w)
    ensures Safe(Exec(w, id, step)) && Keeps(w, Exec(w, id, step))
  {
    if id in w.callers {
      var pc := w.callers[id].pc;
      match step
      case FirstTransaction(told) => if pc == Start && w.callers[id].mode.Sync? { FirstKeeps(w, id, told); }
      case Check(checks, target) => if pc == Admitted { CheckKeeps(w, id, checks, target); }
      case Begin(told) => if pc == Permitted { BeginKeeps(w, id, told); }
      case CallClient(answer) => if pc == Claimed { CallKeeps(w, id, answer); }
      case Complete(applied, told) => if pc.Called? { CompleteKeeps(w, id, applied, told); }
      case AppendAudit(applied, told) => if AtAudit(pc) { AuditKeeps(w, id, applied, told); }
      case SecondTransaction(told) => if pc == Returned { SecondKeeps(w, id, told); }
      case Crash => QuietStep(w, At(w, id, Finished), id);
      case _ => UnrelatedKeeps(w, id, step);
    } else {
      UnrelatedKeeps(w, id, step);
    }
  }

  lemma UnrelatedKeeps(w: World, id: nat, step: Step)
    requires Safe(w) && (step.Arrive? || step.OtherChange? || id !in w.callers)
    ensures Safe(Exec(w, id, step)) && Keeps(w, Exec(w, id, step))
  {
    if step.Arrive? && id !in w.callers {
      ArriveKeeps(w, id, Caller(step.mode, if step.mode.Sync? then Start else Admitted));
    } else if step.OtherChange? {
      OtherKeeps(w, Exec(w, id, step));
    }
  }

  lemma ArriveKeeps(w: World, id: nat, c: Caller)
    requires Safe(w) && id !in w.callers && (c.pc == Start || c.pc == Admitted)
    ensures Safe(w.(callers := w.callers[id := c]))
  {
    var w' := w.(callers := w.callers[id := c]);
    forall other | other in w'.callers ensures CallerOk(w', w'.callers[other]) {
      assert other in w.callers ==> CallerOk(w, w.callers[other]);
    }
    SameLedger(w, w');
  }

  lemma SameLedger(w: World, w': World)
    requires LedgerTells(w) && w'.ledger == w.ledger && w'.calls == w.calls
    ensures LedgerTells(w')
  {
    forall r | r in w'.ledger && w'.ledger[r].status != Pending
      ensures exists a :: CallOf(w', r, w'.ledger[r].order, a) && w'.ledger[r].status == StatusOf(a)
    {
      var a :| CallOf(w, r, w.ledger[r].order, a) && w.ledger[r].status == StatusOf(a);
      assert CallOf(w', r, w'.ledger[r].order, a);
    }
  }

  /** Whatever else files receipts, as long as none is for a command. */
  lemma OtherKeeps(w: World, w': World)
    requires Safe(w) && w'.ledger == w.ledger && w'.calls == w.calls && w'.audit == w.audit && w'.callers == w.callers
    requires Filed(w'.receipts) && KeepsReceipts(w.receipts, w'.receipts)
    requires forall k :: k in w'.receipts && k !in w.receipts ==> w'.receipts[k].pushed.OfTables?
    ensures Safe(w') && Keeps(w, w')
  {
    SameLedger(w, w');
    forall other | other in w'.callers ensures CallerOk(w', w'.callers[other]) {
      assert CallerOk(w, w.callers[other]);
    }
  }

  // ---- any interleaving

  datatype Move = Move(id: nat, step: Step)

  function Take(w: World, m: Move): World {
    Exec(w, m.id, m.step)
  }

  /** Any interleaving of any callers' steps and crashes. */
  function Run(w: World, moves: seq<Move>): World {
    Runs.Run(Take, w, moves)
  }

  /** Every interleaving keeps the invariant and undoes nothing. */
  lemma RunKeeps(w: World, moves: seq<Move>)
    requires Safe(w)
    ensures Safe(Run(w, moves)) && Keeps(w, Run(w, moves))
  {
    forall w, m | Safe(w) ensures Safe(Take(w, m)) && Keeps(w, Take(w, m)) {
      StepKeeps(w, m.id, m.step);
    }
    forall a, b, c | Keeps(a, b) && Keeps(b, c) ensures Keeps(a, c) {
      KeepsTransitive(a, b, c);
    }
    Runs.RunKeeps(Take, Safe, Keeps, w, moves);
  }

  lemma KeepsTransitive(a: World, b: World, c: World)
    requires Keeps(a, b) && Keeps(b, c)
    ensures Keeps(a, c)
  {
  }

  const EMPTY := World(map[], map[], map[], 0, [], map[])

  function CallsTo(calls: seq<Call>, request: Id): nat {
    if calls == [] then 0
    else CallsTo(calls[..|calls| - 1], request) + if calls[|calls| - 1].request == request then 1 else 0
  }

  lemma {:induction false} NoneCalled(calls: seq<Call>, request: Id)
    requires forall i :: 0 <= i < |calls| ==> calls[i].request != request
    ensures CallsTo(calls, request) == 0
  {
    if calls != [] {
      NoneCalled(calls[..|calls| - 1], request);
    }
  }

  lemma {:induction false} AtMostOneCall(calls: seq<Call>, request: Id)
    requires forall i, j :: 0 <= i < j < |calls| ==> calls[i].request != calls[j].request
    ensures CallsTo(calls, request) == if exists i :: 0 <= i < |calls| && calls[i].request == request then 1 else 0
  {
    if calls != [] {
      var front := calls[..|calls| - 1];
      AtMostOneCall(front, request);
      if exists i :: 0 <= i < |calls| && calls[i].request == request {
        var i :| 0 <= i < |calls| && calls[i].request == request;
        if i < |front| {
          assert front[i].request == request;
        }
      }
      if calls[|calls| - 1].request == request {
        NoneCalled(front, request);
      }
    }
  }

  /** In every reachable state the client has been called at most once for a request id, whatever keys,
      devices and retries were involved. */
  lemma ClientIsCalledAtMostOnce(moves: seq<Move>, request: Id)
    ensures CallsTo(Run(EMPTY, moves).calls, request) <= 1
  {
    RunKeeps(EMPTY, moves);
    AtMostOneCall(Run(EMPTY, moves).calls, request);
  }

  /** A ledger row passes from pending to one terminal status and never changes again, and keeps the
      command it was created for. */
  lemma LedgerSettlesOnce(first: seq<Move>, second: seq<Move>, request: Id)
    ensures var mid, end := Run(EMPTY, first), Run(EMPTY, first + second);
            request in mid.ledger ==>
              && request in end.ledger && end.ledger[request].order == mid.ledger[request].order
              && (mid.ledger[request].status != Pending ==> end.ledger[request] == mid.ledger[request])
  {
    Runs.RunSplits(Take, EMPTY, first, second);
    RunKeeps(EMPTY, first);
    RunKeeps(Run(EMPTY, first), second);
  }

  /** Wherever an accepted receipt of an external command exists, now or later: the ledger says succeeded
      for that command, exactly one call was made and it was accepted, and the audit row of the request is
      this command's and says succeeded; all of it stays so. */
  lemma AcceptedReceiptMeansDoneOnce(first: seq<Move>, second: seq<Move>, k: ReceiptKey)
    ensures var mid, end := Run(EMPTY, first), Run(EMPTY, first + second);
            k in mid.receipts && AcceptedCommand(mid.receipts[k]) ==>
              && k in end.receipts && end.receipts[k] == mid.receipts[k]
              && Done(end, end.receipts[k])
              && var request := end.receipts[k].pushed.command.request;
              && CallsTo(end.calls, request) == 1
                   && Call(request, end.ledger[request].order, ClientAccepted) in end.calls
  {
    Runs.RunSplits(Take, EMPTY, first, second);
    RunKeeps(EMPTY, first);
    RunKeeps(Run(EMPTY, first), second);
    var end := Run(EMPTY, first + second);
    if k in end.receipts && AcceptedCommand(end.receipts[k]) {
      var request := end.receipts[k].pushed.command.request;
      DoneOnce(end, request, end.ledger[request].order);
    }
  }

  lemma DoneOnce(w: World, request: Id, order: Order)
    requires CalledOnce(w) && LedgerTells(w)
    requires request in w.ledger && w.ledger[request] == LedgerRow(order, Succeeded)
    ensures CallsTo(w.calls, request) == 1 && Call(request, order, ClientAccepted) in w.calls
  {
    var answer :| CallOf(w, request, order, answer) && Succeeded == StatusOf(answer);
    assert answer == ClientAccepted;
    var i :| 0 <= i < |w.calls| && w.calls[i] == Call(request, order, ClientAccepted);
    AtMostOneCall(w.calls, request);
  }

  /** A second command under a used request id is never sent: Begin finds the other command's row. */
  lemma AnotherCommandIsRefused(w: World, id: nat, told: bool)
    requires Safe(w) && id in w.callers && w.callers[id].pc == Permitted
    requires RequestOf(w.callers[id]) in w.ledger && w.ledger[RequestOf(w.callers[id])].order != OrderOf(w.callers[id])
    ensures var w' := Exec(w, id, Begin(told));
            w'.callers[id].pc == Finished && w'.ledger == w.ledger && w'.calls == w.calls
  {
  }

  // ---- presented again

  /** What a device's command is answered when it is presented at once after everything else. */
  function Presented(w: World, id: nat, mode: Mode, told: bool): World {
    Exec(Exec(w, id, Arrive(mode)), id, FirstTransaction(told))
  }

  lemma PresentedIs(w: World, id: nat, mode: Mode, told: bool)
    requires id !in w.callers && mode.Sync?
    ensures Presented(w, id, mode, told) == DoFirst(w.(callers := w.callers[id := Caller(mode, Start)]), id, told)
  {
  }

  /** A pushed command that was answered is answered the same for good: after any run, presenting it again
      under any cursor replays its first outcome (or refuses the reused key again), and adds nothing to the
      ledger, the audit, the calls and the receipts. */
  lemma AnsweredCommandIsReplayed(w: World, between: seq<Move>, asked: nat, id: nat, base: int)
    requires Safe(w) && asked in w.callers && w.callers[asked].pc.Answered?
    requires id !in Run(w, between).callers
    ensures w.callers[asked].mode.Sync?
    ensures var mode, reply := w.callers[asked].mode, w.callers[asked].pc.reply;
            var later := Run(w, between);
            var again := Presented(later, id, mode.(base := base), true);
            && again == later.(callers := again.callers)
            && id in again.callers && again.callers[id].pc.Answered?
            && if KeyReused(reply) then KeyReused(again.callers[id].pc.reply)
               else again.callers[id].pc.reply == Replay(Told(reply), later.cursor)
  {
    assert CallerOk(w, w.callers[asked]);
    RunKeeps(w, between);
    var mode, reply := w.callers[asked].mode, w.callers[asked].pc.reply;
    SettledIsReplayed(w, Run(w, between), id, mode.(base := base), reply);
  }

  lemma SettledIsReplayed(w: World, later: World, id: nat, mode: Mode, reply: Reply)
    requires mode.Sync? && Filed(w.receipts) && InReceipts(w.receipts, mode.device, OfHome(mode.change), reply)
    requires KeepsReceipts(w.receipts, later.receipts) && id !in later.callers
    ensures var again := Presented(later, id, mode, true);
            && again == later.(callers := again.callers)
            && id in again.callers && again.callers[id].pc.Answered?
            && if KeyReused(reply) then KeyReused(again.callers[id].pc.reply)
               else again.callers[id].pc.reply == Replay(Told(reply), later.cursor)
  {
    LookupAgain(w.receipts, later.receipts, mode.device, OfHome(mode.change), reply, mode.base, later.cursor);
    assert Filable(ReceiptKey(mode.device, mode.change.key), w.receipts[ReceiptKey(mode.device, mode.change.key)]);
    PresentedIs(later, id, mode, true);
  }

  /** A key that holds a receipt refuses every other change, and keeps the receipt it holds. */
  lemma ReusedKeyIsRefused(w: World, id: nat, mode: Mode)
    requires Safe(w) && id !in w.callers && mode.Sync?
    requires var k := ReceiptKey(mode.device, mode.change.key);
             k in w.receipts && w.receipts[k].pushed != OfHome(mode.change)
    ensures var refused := Presented(w, id, mode, true);
            && refused == w.(callers := refused.callers)
            && id in refused.callers && refused.callers[id].pc.Answered? && KeyReused(refused.callers[id].pc.reply)
  {
    var k := ReceiptKey(mode.device, mode.change.key);
    assert Filable(k, w.receipts[k]);
    PresentedIs(w, id, mode, true);
  }
}
