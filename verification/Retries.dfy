/** When a retry settles a command that was carried out, and states in which none does. */
module Retries {
  import opened Types
  import opened Tables
  import opened Receipts
  import opened Execution
  import Permits
  import Runs

  /** Everything a retry does once the ledger row is terminal; steps it does not get to do nothing. */
  function Retried(w: World, id: nat, mode: Mode, checks: Checks, target: bool): World {
    var begun := Exec(Exec(Presented(w, id, mode, true), id, Check(checks, target)), id, Begin(true));
    Exec(Exec(begun, id, AppendAudit(target, true)), id, SecondTransaction(true))
  }

  /** What stands between a retry and its receipt. */
  predicate MaySettle(w: World, mode: Mode, checks: Checks, target: bool)
    requires mode.Sync?
  {
    var request, identity := mode.change.request, OrderFor(mode.user, mode.device, mode.change).identity;
    && mode.base <= w.cursor && ValidHome(mode.change) && StorableKey(mode.change.key)
    && Permits.Allowing(checks, mode.change.command)
    && target && (request in w.audit ==> w.audit[request].identity == identity)
  }

  /** A crash after the call is settled by a retry of the same command, without another call, exactly when the
      change still passes its first transaction and all the checks that a new command would have to pass, its
      audited entity is there, its key fits its column, and no other command has left an audit row under the
      same request id. */
  lemma RetrySettles(w: World, id: nat, mode: Mode, checks: Checks, target: bool)
    requires Safe(w) && id !in w.callers && mode.Sync? && ReceiptKey(mode.device, mode.change.key) !in w.receipts
    requires var request := mode.change.request;
             request in w.ledger
                 && w.ledger[request] == LedgerRow(OrderFor(mode.user, mode.device, mode.change), Succeeded)
    ensures var ended, k := Retried(w, id, mode, checks, target), ReceiptKey(mode.device, mode.change.key);
            && ended.calls == w.calls && ended.ledger == w.ledger
            && (k in ended.receipts && ended.receipts[k].outcome.Accepted? <==> MaySettle(w, mode, checks, target))
            && (MaySettle(w, mode, checks, target) ==>
                  ended.receipts ==
                      w.receipts[k := Receipt(mode.device, OfHome(mode.change), Outcome.Accepted(0, w.cursor))])
  {
    var arrived := w.(callers := w.callers[id := Caller(mode, Start)]);
    PresentedIs(w, id, mode, true);
    var presented := Presented(w, id, mode, true);
    if presented.callers[id].pc == Admitted {
      assert presented == AfterAdmission(w, id, mode);
      AdmittedRetry(w, id, mode, checks, target);
    } else {
      StuckStays(presented, id, checks, target);
    }
  }

  /** A caller that has ended takes no further step. */
  lemma StuckStays(w: World, id: nat, checks: Checks, target: bool)
    requires id in w.callers && (w.callers[id].pc.Answered? || w.callers[id].pc.Finished?)
    ensures var begun := Exec(Exec(w, id, Check(checks, target)), id, Begin(true));
            Exec(Exec(begun, id, AppendAudit(target, true)), id, SecondTransaction(true)) == w
  {
  }

  lemma AdmittedRetry(w: World, id: nat, mode: Mode, checks: Checks, target: bool)
    requires Fresh(w, mode)
    requires var request := mode.change.request;
             request in w.ledger
                 && w.ledger[request] == LedgerRow(OrderFor(mode.user, mode.device, mode.change), Succeeded)
    ensures var admitted := AfterAdmission(w, id, mode);
            var begun := Exec(Exec(admitted, id, Check(checks, target)), id, Begin(true));
            var ended := Exec(Exec(begun, id, AppendAudit(target, true)), id, SecondTransaction(true));
            var k := ReceiptKey(mode.device, mode.change.key);
            && ended.calls == w.calls && ended.ledger == w.ledger
            && (if MaySettle(w, mode, checks, target)
                then ended.receipts == w.receipts[k :=
                    Receipt(mode.device, OfHome(mode.change), Outcome.Accepted(0, w.cursor))]
                else ended.receipts == w.receipts)
  {
    var admitted := AfterAdmission(w, id, mode);
    var checked := Exec(admitted, id, Check(checks, target));
    if Permits.Allowing(checks, mode.change.command) {
      assert checked == w.(callers := w.callers[id := Caller(mode, Permitted)]);
      var begun := Exec(checked, id, Begin(true));
      assert begun == w.(callers := w.callers[id := Caller(mode, Replaying)]);
      ReplayingRetry(w, id, mode, target);
    } else {
      assert checked.callers[id].pc == Finished;
      EndedStays(checked, id, target);
    }
  }

  lemma EndedStays(w: World, id: nat, target: bool)
    requires id in w.callers && w.callers[id].pc.Finished?
    ensures Exec(Exec(Exec(w, id, Begin(true)), id, AppendAudit(target, true)), id, SecondTransaction(true)) == w
  {
  }

  lemma ReplayingRetry(w: World, id: nat, mode: Mode, target: bool)
    requires mode.Sync? && ReceiptKey(mode.device, mode.change.key) !in w.receipts && Readable(mode.change.key)
    ensures var begun := w.(callers := w.callers[id := Caller(mode, Replaying)]);
            var ended := Exec(Exec(begun, id, AppendAudit(target, true)), id, SecondTransaction(true));
            var request, k := mode.change.request, ReceiptKey(mode.device, mode.change.key);
            var order := OrderFor(mode.user, mode.device, mode.change);
            && ended.calls == w.calls && ended.ledger == w.ledger
            && (if StorableKey(mode.change.key) && target
                  && (request in w.audit ==> w.audit[request].identity == order.identity)
                then ended.receipts == w.receipts[k :=
                    Receipt(mode.device, OfHome(mode.change), Outcome.Accepted(0, w.cursor))]
                else ended.receipts == w.receipts)
  {
    var begun := w.(callers := w.callers[id := Caller(mode, Replaying)]);
    var audited := Exec(begun, id, AppendAudit(target, true));
    assert audited.receipts == w.receipts && audited.calls == w.calls && audited.ledger == w.ledger
        && audited.cursor == w.cursor;
    assert audited.callers[id].mode == mode;
  }

  // ---- states in which no retry settles

  /** All checks pass for the command. */
  function Granting(command: string): Checks {
    Checks(true, Granted(true, {command}), true, true, true)
  }

  const WITHDRAWN: Checks := Checks(true, NoPermission, true, true, true)

  /** One command is refused and audited; another one under the same request id is sent and accepted, and its
      caller crashes. */
  function Mixup(request: Id, a: Order, mode: Mode): seq<Move>
    requires mode.Sync?
  {
    [Move(1, Arrive(Direct(request, a))), Move(1, Check(WITHDRAWN, true))] + Accepting(2, mode)
  }

  /** A pushed command up to the point where it is done and nobody knows it. */
  function Accepting(id: nat, mode: Mode): seq<Move>
    requires mode.Sync?
  {
    [Move(id, Arrive(mode)), Move(id, FirstTransaction(true)), Move(id, Check(Granting(mode.change.command), true)),
     Move(id, Begin(true)), Move(id, CallClient(ClientAccepted)), Move(id, Complete(true, false))]
  }

  function AfterAccepting(w: World, id: nat, mode: Mode): World
    requires mode.Sync?
  {
    var order := OrderFor(mode.user, mode.device, mode.change);
    w.(ledger := w.ledger[mode.change.request := LedgerRow(order, Succeeded)],
       calls := w.calls + [Call(mode.change.request, order, ClientAccepted)],
       callers := w.callers[id := Caller(mode, Finished)])
  }

  function AfterAdmission(w: World, id: nat, mode: Mode): World {
    w.(callers := w.callers[id := Caller(mode, Admitted)])
  }

  function AfterClaim(w: World, id: nat, mode: Mode): World
    requires mode.Sync?
  {
    w.(ledger := w.ledger[mode.change.request := LedgerRow(OrderFor(mode.user, mode.device, mode.change), Pending)],
       callers := w.callers[id := Caller(mode, Claimed)])
  }

  /** The change is new, its cursor is possible, and it is valid. */
  predicate Fresh(w: World, mode: Mode) {
    && mode.Sync? && ReceiptKey(mode.device, mode.change.key) !in w.receipts
    && mode.base <= w.cursor && ValidHome(mode.change) && Readable(mode.change.key)
  }

  lemma AdmissionReached(w: World, id: nat, mode: Mode)
    requires Fresh(w, mode) && id !in w.callers
    ensures Presented(w, id, mode, true) == AfterAdmission(w, id, mode)
  {
    PresentedIs(w, id, mode, true);
  }

  lemma ClaimReached(w: World, id: nat, mode: Mode)
    requires mode.Sync? && mode.change.request !in w.ledger
    ensures Exec(Exec(AfterAdmission(w, id, mode), id, Check(Granting(mode.change.command), true)), id, Begin(true)) ==
            AfterClaim(w, id, mode)
  {
    var checked := Exec(AfterAdmission(w, id, mode), id, Check(Granting(mode.change.command), true));
    assert checked == w.(callers := w.callers[id := Caller(mode, Permitted)]);
  }

  lemma CompletionReached(w: World, id: nat, mode: Mode)
    requires mode.Sync?
    ensures Exec(Exec(AfterClaim(w, id, mode), id, CallClient(ClientAccepted)), id, Complete(true, false)) ==
            AfterAccepting(w, id, mode)
  {
    var called := Exec(AfterClaim(w, id, mode), id, CallClient(ClientAccepted));
    assert called.callers[id] == Caller(mode, Called(ClientAccepted));
  }

  lemma AcceptingReaches(w: World, id: nat, mode: Mode)
    requires Fresh(w, mode) && id !in w.callers && mode.change.request !in w.ledger
    ensures Run(w, Accepting(id, mode)) == AfterAccepting(w, id, mode)
  {
    AdmissionReached(w, id, mode);
    ClaimReached(w, id, mode);
    CompletionReached(w, id, mode);
    AcceptingPairs(w, id, mode, AfterAdmission(w, id, mode), AfterClaim(w, id, mode), AfterAccepting(w, id, mode));
  }

  lemma AcceptingPairs(w: World, id: nat, mode: Mode, x: World, y: World, z: World)
    requires mode.Sync? && Presented(w, id, mode, true) == x
    requires Exec(Exec(x, id, Check(Granting(mode.change.command), true)), id, Begin(true)) == y
    requires Exec(Exec(y, id, CallClient(ClientAccepted)), id, Complete(true, false)) == z
    ensures Run(w, Accepting(id, mode)) == z
  {
    Runs.ThreePairs(Take, w, Accepting(id, mode), x, y, z);
  }

  /** The command was accepted, and its caller crashed. Then the user's permission is withdrawn: every retry is
      refused and audited as denied, although the command was carried out. */
  lemma WithdrawnPermissionBlocks(mode: Mode, id: nat)
    requires mode.Sync? && mode.base <= 0 && ValidHome(mode.change) && StorableKey(mode.change.key) && id != 1
    ensures var w := Run(EMPTY, Accepting(1, mode));
            var ended, request := Retried(w, id, mode, WITHDRAWN, true), mode.change.request;
            && Safe(w) && w.calls == [Call(request, OrderFor(mode.user, mode.device, mode.change), ClientAccepted)]
            && request in w.ledger && w.ledger[request].status == Succeeded
            && ReceiptKey(mode.device, mode.change.key) !in ended.receipts
            && request in ended.audit && ended.audit[request].result == AuditDenied
  {
    AcceptingReaches(EMPTY, 1, mode);
    RunKeeps(EMPTY, Accepting(1, mode));
    RetrySettles(AfterAccepting(EMPTY, 1, mode), id, mode, WITHDRAWN, true);
    RefusedRetry(AfterAccepting(EMPTY, 1, mode), id, mode);
  }

  /** A command under a key that is long enough in bytes and too short in characters is carried out, and no retry
      ever gets a receipt for it. */
  lemma WideKeyBlocks(mode: Mode, id: nat, checks: Checks, target: bool)
    requires mode.Sync? && mode.base <= 0 && ValidHome(mode.change) && Readable(mode.change.key)
             && !StorableKey(mode.change.key)
    requires id != 1
    ensures var w := Run(EMPTY, Accepting(1, mode));
            && Safe(w) && w.calls ==
                 [Call(mode.change.request, OrderFor(mode.user, mode.device, mode.change), ClientAccepted)]
            && ReceiptKey(mode.device, mode.change.key) !in Retried(w, id, mode, checks, target).receipts
  {
    AcceptingReaches(EMPTY, 1, mode);
    RunKeeps(EMPTY, Accepting(1, mode));
    RetryRefused(AfterAccepting(EMPTY, 1, mode), id, mode, checks, target);
  }

  lemma RefusedRetry(w: World, id: nat, mode: Mode)
    requires Fresh(w, mode) && id !in w.callers && mode.change.request !in w.audit
    ensures var ended, request := Retried(w, id, mode, WITHDRAWN, true), mode.change.request;
            request in ended.audit && ended.audit[request].result == AuditDenied && ended.receipts == w.receipts
  {
    PresentedIs(w, id, mode, true);
    var admitted := AfterAdmission(w, id, mode);
    assert Presented(w, id, mode, true) == admitted;
    var checked := Exec(admitted, id, Check(WITHDRAWN, true));
    assert checked.callers[id].pc == Finished;
    EndedStays(checked, id, true);
  }

  function AfterRefusal(request: Id, a: Order): World {
    EMPTY.(audit := map[request := AuditRow(a.identity, AuditDenied)],
           callers := map[1 := Caller(Direct(request, a), Finished)])
  }

  lemma RefusalReaches(request: Id, a: Order)
    ensures Run(EMPTY, [Move(1, Arrive(Direct(request, a))), Move(1, Check(WITHDRAWN, true))]) ==
            AfterRefusal(request, a)
  {
    var w := Exec(EMPTY, 1, Arrive(Direct(request, a)));
    assert w == EMPTY.(callers := map[1 := Caller(Direct(request, a), Admitted)]);
    Runs.RunShort(Take, EMPTY, Move(1, Arrive(Direct(request, a))), Move(1, Check(WITHDRAWN, true)));
  }

  /** Another command's refusal under the same request id blocks every retry, whatever it is allowed. */
  lemma RetryIsBlocked(request: Id, a: Order, mode: Mode, id: nat, checks: Checks, target: bool)
    requires mode.Sync? && mode.change.request == request
             && a.identity != OrderFor(mode.user, mode.device, mode.change).identity
    requires mode.base <= 0 && ValidHome(mode.change) && StorableKey(mode.change.key) && id > 2
    ensures var w := Run(EMPTY, Mixup(request, a, mode));
            && Safe(w) && w.calls == [Call(request, OrderFor(mode.user, mode.device, mode.change), ClientAccepted)]
            && ReceiptKey(mode.device, mode.change.key) !in Retried(w, id, mode, checks, target).receipts
  {
    RefusalReaches(request, a);
    AcceptingReaches(AfterRefusal(request, a), 2, mode);
    Runs.RunSplits(Take, EMPTY, [Move(1, Arrive(Direct(request, a))), Move(1, Check(WITHDRAWN, true))],
                   Accepting(2, mode));
    RunKeeps(EMPTY, Mixup(request, a, mode));
    var w := AfterAccepting(AfterRefusal(request, a), 2, mode);
    RetryRefused(w, id, mode, checks, target);
  }

  lemma RetryRefused(w: World, id: nat, mode: Mode, checks: Checks, target: bool)
    requires Fresh(w, mode) && id !in w.callers && !MaySettle(w, mode, checks, target)
    requires var request := mode.change.request;
             request in w.ledger
                 && w.ledger[request] == LedgerRow(OrderFor(mode.user, mode.device, mode.change), Succeeded)
    ensures ReceiptKey(mode.device, mode.change.key) !in Retried(w, id, mode, checks, target).receipts
  {
    PresentedIs(w, id, mode, true);
    assert Presented(w, id, mode, true) == AfterAdmission(w, id, mode);
    AdmittedRetry(w, id, mode, checks, target);
  }
}
