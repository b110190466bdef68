/** Push, processExternalHomeAssistantChange and ExecuteCommand as the code runs them, while others run too. */
module ExecutionStore {
  import opened Types
  import opened Tables
  import opened Receipts
  import opened Database
  import opened Execution
  import SyncSpec
  import SyncStore
  import World
  import Household
  import Permits
  import Runs

  /** A step after everything that has happened. */
  lemma Took(start: Household.House, moves: seq<Household.Move>, move: Household.Move)
    requires Household.Safe(start)
    ensures Household.Exec(Household.Run(start, moves), move) == Household.Run(start, moves + [move])
  {
    Runs.RunMore(Household.Exec, start, moves, move);
  }

  lemma OtherLeaves(w: Execution.World, id: nat, step: Step, mine: nat)
    requires mine in w.callers && id != mine
    ensures mine in Exec(w, id, step).callers && Exec(w, id, step).callers[mine] == w.callers[mine]
  {
    if id in w.callers {
      match step
      case FirstTransaction(_) =>
      case Check(_, _) =>
      case Begin(_) =>
      case CallClient(_) =>
      case Complete(_, _) =>
      case AppendAudit(_, _) =>
      case SecondTransaction(_) =>
      case _ =>
    }
  }

  /** The family's database as this process's statements find it, and the external world. */
  class House {
    const db: Database
    const executions: ExecutionRepository
    const audits: AuditRepository
    var rest: World.Family   // the tables that no statement here touches
    var calls: seq<Call>
    var callers: map<nat, Caller>

    constructor (db: Database, rest: World.Family)
      ensures this.db == db && fresh(executions) && fresh(audits)
      ensures State() == Household.House(World.OnDb(rest, db.State()), map[], map[], [], map[])
    {
      this.db, this.rest := db, rest;
      calls, callers := [], map[];
      executions := new ExecutionRepository();
      audits := new AuditRepository();
    }

    function State(): Household.House
      reads this, db, executions, audits
    {
      Household.House(World.OnDb(rest, db.State()), executions.rows, audits.rows, calls, callers)
    }

    ghost predicate Reached(start: Household.House, moves: seq<Household.Move>, id: nat, pc: Pc)
      reads this, db, executions, audits
    {
      && Household.Safe(start) && State() == Household.Run(start, moves)
      && id in callers && callers[id].pc == pc
    }

    /** It is the same command, wherever it stands. */
    ghost predicate SameCaller(was: map<nat, Caller>, id: nat)
      reads this
    {
      id in was && id in callers && callers[id].mode == was[id].mode
    }

    // ---- interference

    /** Another device pushes a change. */
    method SomebodyPushes() returns (ghost move: Household.Move)
      requires Household.Safe(State())
      modifies db
      ensures State() == Household.Exec(old(State()), move)
    {
      var device: Id := *;
      var base: int := *;
      var ch: Change := *;
      var today: Day := *;
      var tx := new SyncStore.Transaction(db, device, today);
      var _, fault := tx.ProcessChange(base, ch);
      move := Household.Write(World.Push(device, base, ch, today, fault));
    }

    /** Another caller takes any step, or crashes. */
    method SomebodySteps(mine: Option<nat>) returns (ghost moves: seq<Household.Move>)
      modifies this, db, executions, audits
      ensures moves == [] ==> State() == old(State())
      ensures moves != [] ==> |moves| == 1 && State() == Household.Exec(old(State()), moves[0])
      ensures Undisturbed(old(callers), mine)
    {
      var id: nat := *;
      var step: Step := *;
      if mine == Some(id) || step.OtherChange? {
        return [];
      }
      var w := Exec(Household.SiteOf(State()), id, step);
      if mine.Some? && mine.value in callers {
        OtherLeaves(Household.SiteOf(State()), id, step, mine.value);
      }
      executions.rows, audits.rows, db.receipts, calls, callers := w.ledger, w.audit, w.receipts, w.calls, w.callers;
      moves := [Household.Take(id, step)];
    }

    method Somebody(mine: Option<nat>, ghost start: Household.House, ghost moves: seq<Household.Move>)
      returns (ghost all: seq<Household.Move>)
      requires Household.Safe(start) && State() == Household.Run(start, moves)
      modifies this, db, executions, audits
      ensures State() == Household.Run(start, all) && Undisturbed(old(callers), mine)
    {
      all := moves;
      if * {
        ghost var move := SomebodyPushes();
        Took(start, moves, move);
        all := moves + [move];
      } else {
        ghost var step := SomebodySteps(mine);
        if step != [] {
          Took(start, moves, step[0]);
          all := moves + [step[0]];
        }
      }
    }

    ghost predicate Undisturbed(was: map<nat, Caller>, mine: Option<nat>)
      reads this
    {
      mine.Some? && mine.value in was ==> mine.value in callers && callers[mine.value] == was[mine.value]
    }

    /** Between any two statements the others may do anything, any number of times. */
    method Others(mine: Option<nat>, ghost start: Household.House, ghost moves: seq<Household.Move>)
      returns (ghost all: seq<Household.Move>)
      requires Household.Safe(start) && State() == Household.Run(start, moves)
      modifies this, db, executions, audits
      ensures State() == Household.Run(start, all) && Undisturbed(old(callers), mine)
    {
      all := moves;
      var n: nat := *;
      while n > 0
        invariant State() == Household.Run(start, all) && Undisturbed(old(callers), mine)
      {
        n := n - 1;
        all := Somebody(mine, start, all);
      }
    }

    // ---- the steps of one command

    method Goto(id: nat, pc: Pc)
      requires id in callers
      modifies this`callers
      ensures callers == old(callers)[id := old(callers)[id].(pc := pc)]
    {
      callers := callers[id := callers[id].(pc := pc)];
    }

    method ArriveOf(id: nat, mode: Mode)
      requires id !in callers
      modifies this`callers
      ensures State() == Household.Exec(old(State()), Household.Take(id, Arrive(mode)))
      ensures callers == old(callers)[id := Caller(mode, if mode.Sync? then Start else Admitted)]
    {
      callers := callers[id := Caller(mode, if mode.Sync? then Start else Admitted)];
    }

    /** PutIdempotency, the transaction's last statement, and its commit. */
    method SettleOf(id: nat, told: bool, outcome: Outcome)
      requires id in callers && callers[id].mode.Sync?
      modifies this`callers, db`receipts
      ensures Household.SiteOf(State()) == Execution.Settle(old(Household.SiteOf(State())), id, told, outcome)
      ensures db.State() == old(db.State()).(receipts := db.receipts)
    {
      var m := callers[id].mode;
      if !StorableKey(m.change.key) {
        Goto(id, Finished);
      } else {
        db.receipts := db.receipts[ReceiptKey(m.device, m.change.key) := Receipt(m.device, OfHome(m.change), outcome)];
        Goto(id, Ending(told, Reply.Answer(outcome)));
      }
    }

    /** The closure readReplay. */
    method ReadReplay(m: Mode) returns (found: Option<Reply>, unread: bool)
      requires m.Sync?
      ensures unread <==> !Readable(m.change.key)
      ensures !unread ==> found == Lookup(db.receipts, m.device, OfHome(m.change), m.base, Cursor(db.State()))
    {
      if !Readable(m.change.key) {
        return None, true;
      }
      var k := ReceiptKey(m.device, m.change.key);
      if k !in db.receipts {
        return None, false;
      }
      if db.receipts[k].device != m.device || db.receipts[k].pushed != OfHome(m.change) {
        return Some(Reply.Answer(Outcome.Rejected(IdempotencyKeyReuse, if m.base < 0 then 0 else m.base))), false;
      }
      return Some(Replay(db.receipts[k].outcome, Cursor(db.State()))), false;
    }

    method FirstTransactionOf(id: nat, told: bool)
      requires id in callers && callers[id].pc == Start && callers[id].mode.Sync?
      modifies this`callers, db`receipts
      ensures State() == Household.Exec(old(State()), Household.Take(id, FirstTransaction(told)))
      ensures SameCaller(old(callers), id)
    {
      var m := callers[id].mode;
      var cursor := Cursor(db.State());
      var found, unread := ReadReplay(m);
      if unread {
        Goto(id, Finished);
      } else if found.Some? {
        Goto(id, Ending(told, found.value));
      } else if m.base > cursor {
        SettleOf(id, told, Outcome.Rejected(InvalidCursor, cursor));
      } else if !ValidHome(m.change) {
        SettleOf(id, told, Outcome.Rejected(ValidationFailed, cursor));
      } else {
        Goto(id, if told then Admitted else Finished);
      }
    }

    /** The permission, capability and integration checks: a refusal is audited, and neither ledger nor client
        is touched. */
    method CheckOf(id: nat, checks: Checks, target: bool) returns (ok: bool)
      requires id in callers && callers[id].pc == Admitted
      modifies this`callers, audits
      ensures State() == Household.Exec(old(State()), Household.Take(id, Check(checks, target)))
      ensures ok <==> Permits.Allowing(checks, OrderOf(old(callers)[id]).identity.command)
      ensures SameCaller(old(callers), id) && callers[id].pc == if ok then Permitted else Finished
    {
      var c := callers[id];
      match Judge(checks, OrderOf(c).identity.command)
      case Proceed =>
        Goto(id, Permitted);
        ok := true;
      case Refuse(result) =>
        var _ := audits.Append(RequestOf(c), OrderOf(c).identity, result, target);
        Goto(id, Finished);
        ok := false;
      case Fail =>
        Goto(id, Finished);
        ok := false;
    }

    method BeginOf(id: nat, told: bool)
      requires id in callers && callers[id].pc == Permitted
      modifies this`callers, executions
      ensures State() == Household.Exec(old(State()), Household.Take(id, Begin(told)))
      ensures SameCaller(old(callers), id)
      ensures callers[id].pc == Claimed || callers[id].pc == Replaying || callers[id].pc == Finished
    {
      var c := callers[id];
      var row, created := executions.Begin(RequestOf(c), OrderOf(c));
      if !told {
        Goto(id, Finished);
      } else if created {
        Goto(id, Claimed);
      } else if row.order == OrderOf(c) && row.status == Succeeded {
        Goto(id, Replaying);
      } else {
        Goto(id, Finished);
      }
    }

    method CallOfClient(id: nat) returns (answer: Answer)
      requires id in callers && callers[id].pc == Claimed
      modifies this`callers, this`calls
      ensures State() == Household.Exec(old(State()), Household.Take(id, CallClient(answer)))
      ensures SameCaller(old(callers), id) && callers[id].pc == Called(answer)
    {
      answer := *;
      calls := calls + [Call(RequestOf(callers[id]), OrderOf(callers[id]), answer)];
      Goto(id, Called(answer));
    }

    method CompleteOf(id: nat, applied: bool, told: bool)
      requires id in callers && callers[id].pc.Called?
      modifies this`callers, executions
      ensures State() == Household.Exec(old(State()), Household.Take(id, Complete(applied, told)))
      ensures SameCaller(old(callers), id) && (callers[id].pc.Completed? || callers[id].pc == Finished)
    {
      var c := callers[id];
      var affected := false;
      if applied {
        affected := executions.Complete(RequestOf(c), OrderOf(c), StatusOf(c.pc.answer));
      }
      Goto(id, if affected && told then Completed(c.pc.answer) else Finished);
    }

    method AuditOf(id: nat, applied: bool, told: bool) returns (ok: bool)
      requires id in callers && AtAudit(callers[id].pc)
      modifies this`callers, audits
      ensures State() == Household.Exec(old(State()), Household.Take(id, AppendAudit(applied, told)))
      ensures SameCaller(old(callers), id) && callers[id].pc == if ok then Returned else Finished
    {
      var c := callers[id];
      ok := c.pc == Replaying || c.pc.answer == ClientAccepted;
      var affected := audits.Append(RequestOf(c), OrderOf(c).identity,
                                    if ok then AuditSucceeded else AuditFailed, applied);
      ok := affected && told && ok;
      Goto(id, if ok then Returned else Finished);
    }

    method SecondTransactionOf(id: nat, told: bool)
      requires id in callers && callers[id].pc == Returned && callers[id].mode.Sync?
      modifies this`callers, db`receipts
      ensures State() == Household.Exec(old(State()), Household.Take(id, SecondTransaction(told)))
      ensures SameCaller(old(callers), id)
    {
      var m := callers[id].mode;
      var found, unread := ReadReplay(m);
      if unread {
        Goto(id, Finished);
      } else if found.Some? {
        Goto(id, Ending(told, found.value));
      } else {
        SettleOf(id, told, Outcome.Accepted(0, Cursor(db.State())));
      }
    }

    // ---- ExecuteCommand

    /** The client and its receipt: from the claimed ledger row to a terminal one. */
    method Invoke(id: nat, ghost start: Household.House, ghost before: seq<Household.Move>)
      returns (ghost moves: seq<Household.Move>)
      requires Reached(start, before, id, Claimed)
      modifies this, db, executions, audits
      ensures SameCaller(old(callers), id) && Reached(start, moves, id, callers[id].pc)
      ensures callers[id].pc.Completed? || callers[id].pc == Finished
    {
      var told, applied: bool := *, *;
      moves := Others(Some(id), start, before);
      var answer := CallOfClient(id);
      Took(start, moves, Household.Take(id, CallClient(answer)));
      moves := Others(Some(id), start, moves + [Household.Take(id, CallClient(answer))]);
      CompleteOf(id, applied, told);
      Took(start, moves, Household.Take(id, Complete(applied, told)));
      moves := moves + [Household.Take(id, Complete(applied, told))];
    }

    /** The audit: success is reported only once it is recorded. */
    method Record(id: nat, ghost start: Household.House, ghost before: seq<Household.Move>)
      returns (ok: bool, ghost moves: seq<Household.Move>)
      requires id in callers && AtAudit(callers[id].pc) && Reached(start, before, id, callers[id].pc)
      modifies this, db, executions, audits
      ensures SameCaller(old(callers), id) && Reached(start, moves, id, if ok then Returned else Finished)
    {
      var told, applied: bool := *, *;
      moves := Others(Some(id), start, before);
      ok := AuditOf(id, applied, told);
      Took(start, moves, Household.Take(id, AppendAudit(applied, told)));
      moves := moves + [Household.Take(id, AppendAudit(applied, told))];
    }

    /** Begin, and what follows from the row it finds. */
    method Perform(id: nat, ghost start: Household.House, ghost before: seq<Household.Move>)
      returns (ok: bool, ghost moves: seq<Household.Move>)
      requires Reached(start, before, id, Permitted)
      modifies this, db, executions, audits
      ensures SameCaller(old(callers), id) && Reached(start, moves, id, if ok then Returned else Finished)
    {
      var told: bool := *;
      BeginOf(id, told);
      Took(start, before, Household.Take(id, Begin(told)));
      moves := before + [Household.Take(id, Begin(told))];
      if callers[id].pc == Claimed {
        moves := Invoke(id, start, moves);
      }
      if callers[id].pc == Finished {
        return false, moves;
      }
      ok, moves := Record(id, start, moves);
    }

    /** ExecuteCommand, amid any interference: it is a run of the protocol, and it goes beyond the checks only
        when they pass. */
    method ExecuteCommand(id: nat, checks: Checks, ghost start: Household.House, ghost before: seq<Household.Move>)
      returns (ok: bool, ghost moves: seq<Household.Move>)
      requires Reached(start, before, id, Admitted)
      modifies this, db, executions, audits
      ensures SameCaller(old(callers), id) && Reached(start, moves, id, if ok then Returned else Finished)
      ensures !Permits.Allowing(checks, OrderOf(old(callers)[id]).identity.command) ==>
                !ok && calls == old(calls) && executions.rows == old(executions.rows)
    {
      var target: bool := *;
      ok := CheckOf(id, checks, target);
      Took(start, before, Household.Take(id, Check(checks, target)));
      moves := before + [Household.Take(id, Check(checks, target))];
      if ok {
        moves := Others(Some(id), start, moves);
        ok, moves := Perform(id, start, moves);
      }
    }

    // ---- a pushed command

    /** The command between its two transactions, and the second of them. */
    method ExecuteAndSettle(id: nat, checks: Checks, ghost start: Household.House)
      returns (reply: Reply, ghost moves: seq<Household.Move>)
      requires Household.Safe(start) && State() == start
      requires id in callers && callers[id].pc == Admitted && callers[id].mode.Sync?
      modifies this, db, executions, audits
      ensures State() == Household.Run(start, moves) && reply == Household.ReplyOf(State(), id)
    {
      Household.RunNothing(start);
      moves := Others(Some(id), start, []);
      var ok;
      ok, moves := ExecuteCommand(id, checks, start, moves);
      if ok {
        var told: bool := *;
        moves := Others(Some(id), start, moves);
        SecondTransactionOf(id, told);
        Took(start, moves, Household.Take(id, SecondTransaction(told)));
        moves := moves + [Household.Take(id, SecondTransaction(told))];
      }
      reply := if callers[id].pc.Answered? then callers[id].pc.reply else Aborted;
    }

    /** processExternalHomeAssistantChange: two short transactions around the command. */
    method ProcessExternalChange(sender: Household.Sender, command: HomeChange, checks: Checks)
      returns (reply: Reply, ghost told: bool, ghost during: seq<Household.Move>)
      requires Household.Safe(State())
      modifies this, db, executions, audits
      ensures (State(), reply) ==
                Household.Present(old(State()), sender, OfHome(command),
                                  Household.Around([], 0, SyncSpec.NoFault, told, during))
    {
      var id, first := Household.Unused(callers), *;
      told, during := first, [];
      PresentCommand(id, sender, command, first);
      if callers[id].pc == Admitted {
        reply, during := ExecuteAndSettle(id, checks, State());
      } else {
        Household.RunNothing(State());
        reply := if callers[id].pc.Answered? then callers[id].pc.reply else Aborted;
      }
    }

    /** The command arrives and makes its first transaction. */
    method PresentCommand(id: nat, sender: Household.Sender, command: HomeChange, told: bool)
      requires Household.Safe(State()) && id !in callers
      modifies this`callers, db`receipts
      ensures State() == Household.Arrived(old(State()), id, sender, command, told)
      ensures id in callers && callers[id].mode == Household.ModeOf(sender, command)
    {
      ArriveOf(id, Household.ModeOf(sender, command));
      FirstTransactionOf(id, told);
    }

    // ---- push

    /** One change, of either kind, after whatever the others have done. */
    method ProcessOne(sender: Household.Sender, pushed: Pushed, today: Day, ghost replies: seq<Reply>)
      returns (reply: Reply, ghost around: Household.Around)
      requires Household.Safe(State()) && !Household.Stopped(replies)
      modifies this, db, executions, audits
      ensures Household.PushNext((old(State()), replies), sender, pushed, around) == (State(), replies + [reply])
    {
      ghost var start := State();
      Household.RunNothing(start);
      ghost var before := Others(None, start, []);
      match pushed
      case OfTables(ch) =>
        var tx := new SyncStore.Transaction(db, sender.device, today);
        ghost var fault;
        reply, fault := tx.ProcessChange(sender.base, ch);
        around := Household.Around(before, today, fault, true, []);
      case OfHome(command) =>
        var checks: Checks := *;
        ghost var told, during;
        reply, told, during := ProcessExternalChange(sender, command, checks);
        around := Household.Around(before, 0, SyncSpec.NoFault, told, during);
        SameAround(Household.Run(start, before), sender, command, around);
    }

    /** The push has come as far as its replies tell. */
    ghost predicate HasPushed(begun: Household.House, sender: Household.Sender, changes: seq<Pushed>,
                              arounds: seq<Household.Around>, replies: seq<Reply>)
      reads this, db, executions, audits
    {
      && Household.Safe(begun) && |replies| == |arounds| <= |changes|
      && (State(), replies) == Household.PushAll(begun, sender, changes[..|arounds|], arounds)
    }

    /** The next change of a push. */
    method ProcessNext(sender: Household.Sender, changes: seq<Pushed>, today: Day, replies: seq<Reply>,
                       ghost begun: Household.House, ghost arounds: seq<Household.Around>)
      returns (all: seq<Reply>, ghost around: Household.Around)
      requires HasPushed(begun, sender, changes, arounds, replies)
      requires |replies| < |changes| && !Household.Stopped(replies)
      modifies this, db, executions, audits
      ensures HasPushed(begun, sender, changes, arounds + [around], all)
      ensures |all| == |replies| + 1 && replies <= all
    {
      var reply;
      reply, around := ProcessOne(sender, changes[|replies|], today, replies);
      Household.PushMore(begun, sender, changes, arounds, |replies|, around);
      all := replies + [reply];
    }

    /** Push: the response lists one result for each change, in order up to the first that fails as a whole,
        and the highest cursor told. */
    method Push(sender: Household.Sender, changes: seq<Pushed>, today: Day)
      returns (replies: seq<Reply>, cursor: int, ghost arounds: seq<Household.Around>)
      requires Household.Safe(State())
      modifies this, db, executions, audits
      ensures HasPushed(old(State()), sender, changes, arounds, replies)
      ensures |replies| < |changes| ==> Household.Stopped(replies)
      ensures IsHighest(cursor, sender.base, replies)
    {
      ghost var begun := State();
      replies, arounds := [], [];
      while |replies| < |changes| && !Household.Stopped(replies)
        invariant HasPushed(begun, sender, changes, arounds, replies)
        decreases |changes| - |replies|
      {
        ghost var around;
        replies, around := ProcessNext(sender, changes, today, replies, begun, arounds);
        arounds := arounds + [around];
      }
      cursor := HighestCursor(sender.base, replies);
    }
  }

  /** The cursor of a response: the highest that one of its results tells, at least the client's own. */
  predicate IsHighest(cursor: int, base: int, replies: seq<Reply>) {
    && base <= cursor
    && (forall i :: 0 <= i < |replies| && !replies[i].Aborted? ==> Highest(replies[i]) <= cursor)
    && (cursor == base || exists i :: 0 <= i < |replies| && !replies[i].Aborted? && Highest(replies[i]) == cursor)
  }

  method HighestCursor(base: int, replies: seq<Reply>) returns (cursor: int)
    ensures IsHighest(cursor, base, replies)
  {
    cursor := base;
    for i := 0 to |replies|
      invariant base <= cursor
      invariant forall j :: 0 <= j < i && !replies[j].Aborted? ==> Highest(replies[j]) <= cursor
      invariant cursor == base || exists j :: 0 <= j < i && !replies[j].Aborted? && Highest(replies[j]) == cursor
    {
      if !replies[i].Aborted? && Highest(replies[i]) > cursor {
        cursor := Highest(replies[i]);
      }
    }
  }

  lemma SameAround(h: Household.House, sender: Household.Sender, command: HomeChange, around: Household.Around)
    requires Household.Safe(h)
    ensures Household.Present(h, sender, OfHome(command), around) ==
              Household.Present(h, sender, OfHome(command),
                                Household.Around([], 0, SyncSpec.NoFault, around.told, around.during))
  {
  }

  function Highest(reply: Reply): int
    requires !reply.Aborted?
  {
    match reply
    case Replay(_, cursor) => cursor
    case Answer(Accepted(_, cursor)) => cursor
    case Answer(Conflicted(_, _, cursor)) => cursor
    case Answer(Rejected(_, cursor)) => cursor
  }
}
