/** Single-charge model inference: concurrent callers, lost locks and crashes between any two statements. */
module Inference {
  import opened Types
  import Runs

  /** (family, user, request id) */
  type RequestKey = nat
  type Input = string
  type Output = string

  datatype Status = Processing | Running | Complete(output: Output) | Failed

  /** A row of processing_ai_results; the input hash is injective, so the input stands for it. */
  datatype Row = Row(input: Input, status: Status)

  /** One call of the provider, and what it gave: None for an error. */
  datatype Charge = Charge(key: RequestKey, input: Input, output: Option<Output>)

  datatype Pc =
    | Start
    | Inserted(ours: bool)      // the INSERT has returned; `ours` when it inserted the row
    | Matched(ours: bool)       // the row has this input and was not complete
    | Locked(ours: bool)        // the advisory lock was obtained
    | Fresh                      // re-read under the lock: still processing, and our own row
    | Selected                   // status set to running
    | Slotted                    // a slot is free
    | Called(output: Option<Output>)
    | Done(reply: Option<Output>)

  datatype Caller = Caller(key: RequestKey, input: Input, pc: Pc)

  datatype World = World(
    rows: map<RequestKey, Row>,
    locks: map<RequestKey, nat>,
    charges: seq<Charge>,
    callers: map<nat, Caller>)

  /** `applied` and `told`: whether a statement took effect, and whether its caller learned of it. */
  datatype Step =
    | Arrive(key: RequestKey, input: Input)
    | Insert(told: bool)
    | Read
    | Lock
    | Reread
    | Select(applied: bool, told: bool)
    | Slot(free: bool, applied: bool)
    | Infer(output: Option<Output>)
    | Persist(applied: bool, told: bool)
    | Crash
    | LoseLock   // the connection that holds it dies; its caller goes on

  function At(w: World, id: nat, pc: Pc): World
    requires id in w.callers
  {
    w.(callers := w.callers[id := w.callers[id].(pc := pc)])
  }

  function Unlocked(w: World, id: nat): World
    requires id in w.callers
  {
    var key := w.callers[id].key;
    if key in w.locks && w.locks[key] == id then w.(locks := w.locks - {key}) else w
  }

  function Finish(w: World, id: nat, reply: Option<Output>): World
    requires id in w.callers
  {
    At(Unlocked(w, id), id, Done(reply))
  }

  function DoInsert(w: World, id: nat, told: bool): World
    requires id in w.callers
  {
    var c := w.callers[id];
    var ours := c.key !in w.rows;
    var w' := if ours then w.(rows := w.rows[c.key := Row(c.input, Processing)]) else w;
    At(w', id, if told then Inserted(ours) else Done(None))
  }

  function DoRead(w: World, id: nat, ours: bool): World
    requires id in w.callers && w.callers[id].key in w.rows
  {
    var c := w.callers[id];
    var row := w.rows[c.key];
    if row.input != c.input then At(w, id, Done(None))
    else if row.status.Complete? then At(w, id, Done(Some(row.status.output)))
    else At(w, id, Matched(ours))
  }

  function DoLock(w: World, id: nat, ours: bool): World
    requires id in w.callers
  {
    var key := w.callers[id].key;
    if key in w.locks then At(w, id, Done(None))
    else At(w, id, Locked(ours)).(locks := w.locks[key := id])
  }

  function DoReread(w: World, id: nat, ours: bool): World
    requires id in w.callers && w.callers[id].key in w.rows
  {
    var row := w.rows[w.callers[id].key];
    if row.status.Complete? then Finish(w, id, Some(row.status.output))
    else if row.status != Processing || !ours then Finish(w, id, None)
    else At(w, id, Fresh)
  }

  function SetStatus(w: World, id: nat, status: Status): World
    requires id in w.callers && w.callers[id].key in w.rows
  {
    var key := w.callers[id].key;
    w.(rows := w.rows[key := w.rows[key].(status := status)])
  }

  function DoSelect(w: World, id: nat, applied: bool, told: bool): World
    requires id in w.callers && w.callers[id].key in w.rows
  {
    if !applied || w.rows[w.callers[id].key].status != Processing then Finish(w, id, None)
    else if !told then Finish(SetStatus(w, id, Running), id, None)
    else At(SetStatus(w, id, Running), id, Selected)
  }

  function DoSlot(w: World, id: nat, free: bool, applied: bool): World
    requires id in w.callers && w.callers[id].key in w.rows
  {
    if free then At(w, id, Slotted)
    else Finish(if applied then SetStatus(w, id, Failed) else w, id, None)
  }

  function DoInfer(w: World, id: nat, output: Option<Output>): World
    requires id in w.callers
  {
    var c := w.callers[id];
    At(w, id, Called(output)).(charges := w.charges + [Charge(c.key, c.input, output)])
  }

  function DoPersist(w: World, id: nat, output: Option<Output>, applied: bool, told: bool): World
    requires id in w.callers && w.callers[id].key in w.rows
  {
    var status := if output.Some? then Complete(output.value) else Failed;
    Finish(if applied then SetStatus(w, id, status) else w, id, if applied && told then output else None)
  }

  function Exec(w: World, id: nat, step: Step): World {
    if step.Arrive? then
      if id in w.callers then w else w.(callers := w.callers[id := Caller(step.key, step.input, Start)])
    else if id !in w.callers then w
    else
      var c := w.callers[id];
      var known := c.key in w.rows;
      match (step, c.pc)
      case (Insert(told), Start) => DoInsert(w, id, told)
      case (Read, Inserted(ours)) => if known then DoRead(w, id, ours) else w
      case (Lock, Matched(ours)) => DoLock(w, id, ours)
      case (Reread, Locked(ours)) => if known then DoReread(w, id, ours) else w
      case (Select(applied, told), Fresh) => if known then DoSelect(w, id, applied, told) else w
      case (Slot(free, applied), Selected) => if known then DoSlot(w, id, free, applied) else w
      case (Infer(output), Slotted) => DoInfer(w, id, output)
      case (Persist(applied, told), Called(output)) => if known then DoPersist(w, id, output, applied, told) else w
      case (Crash, _) => if c.pc.Done? then w else Finish(w, id, None)
      case (LoseLock, _) => Unlocked(w, id)
      case _ => w
  }

  // ---- the invariant

  /** The caller whose INSERT created the row, while it is still about to use it. */
  predicate Owner(pc: Pc) {
    match pc
    case Inserted(ours) => ours
    case Matched(ours) => ours
    case Locked(ours) => ours
    case Fresh => true
    case Selected => true
    case Slotted => true
    case Called(_) => true
    case _ => false
  }

  ghost predicate Uncharged(w: World, key: RequestKey) {
    forall i :: 0 <= i < |w.charges| ==> w.charges[i].key != key
  }

  ghost predicate ChargedOnce(w: World) {
    forall i, j :: 0 <= i < j < |w.charges| ==> w.charges[i].key != w.charges[j].key
  }

  /** A complete row holds what its one charge gave for its input; a row still processing has none. */
  ghost predicate RowsTell(w: World) {
    && (forall key :: key in w.rows && w.rows[key].status.Complete? ==>
          Charge(key, w.rows[key].input, Some(w.rows[key].status.output)) in w.charges)
    && (forall key :: key in w.rows && w.rows[key].status == Processing ==> Uncharged(w, key))
    && (forall i :: 0 <= i < |w.charges| ==> w.charges[i].key in w.rows)
  }

  ghost predicate CallerOk(w: World, c: Caller) {
    match c.pc
    case Start => true
    case Inserted(ours) => c.key in w.rows && (ours ==> w.rows[c.key].input == c.input)
    case Matched(_) => c.key in w.rows && w.rows[c.key].input == c.input
    case Locked(_) => c.key in w.rows && w.rows[c.key].input == c.input
    case Fresh => c.key in w.rows && w.rows[c.key].input == c.input
    case Selected => c.key in w.rows && w.rows[c.key] == Row(c.input, Running) && Uncharged(w, c.key)
    case Slotted => c.key in w.rows && w.rows[c.key] == Row(c.input, Running) && Uncharged(w, c.key)
    case Called(output) =>
        c.key in w.rows && w.rows[c.key] == Row(c.input, Running) && Charge(c.key, c.input, output) in w.charges
    case Done(reply) => reply.Some? ==> c.key in w.rows && w.rows[c.key] == Row(c.input, Complete(reply.value))
  }

  ghost predicate CallersOk(w: World) {
    && (forall id :: id in w.callers ==> CallerOk(w, w.callers[id]))
    && (forall a, b ::
          a in w.callers && b in w.callers && a != b && Owner(w.callers[a].pc) && Owner(w.callers[b].pc) ==>
          w.callers[a].key != w.callers[b].key)
  }

  ghost predicate Safe(w: World) {
    ChargedOnce(w) && RowsTell(w) && CallersOk(w)
  }

  /** What no step undoes: a row keeps its input, a complete row its output, and charges stay. */
  ghost predicate Keeps(w: World, w': World) {
    && (forall key :: key in w.rows ==> key in w'.rows && w'.rows[key].input == w.rows[key].input)
    && (forall key :: key in w.rows && w.rows[key].status.Complete? ==> w'.rows[key] == w.rows[key])
    && w.charges <= w'.charges
  }

  // ---- each step keeps it

  ghost predicate OthersKept(w: World, w': World, id: nat) {
    && id in w.callers && id in w'.callers
    && w'.callers == w.callers[id := w'.callers[id]]
    && w'.callers[id].key == w.callers[id].key && w'.callers[id].input == w.callers[id].input
  }

  /** Steps that write no row and charge nothing. */
  lemma QuietStep(w: World, w': World, id: nat)
    requires Safe(w) && OthersKept(w, w', id)
    requires w'.rows == w.rows && w'.charges == w.charges
    requires CallerOk(w', w'.callers[id]) && (Owner(w'.callers[id].pc) ==> Owner(w.callers[id].pc))
    ensures Safe(w') && Keeps(w, w')
  {
    forall other | other in w'.callers ensures CallerOk(w', w'.callers[other]) {
      assert other != id ==> CallerOk(w, w.callers[other]);
    }
  }

  /** A caller that owns its row writes the row's status. */
  lemma StatusStep(w: World, w': World, id: nat, status: Status)
    requires Safe(w) && OthersKept(w, w', id) && Owner(w.callers[id].pc)
    requires var key := w.callers[id].key;
             && key in w.rows && !w.rows[key].status.Complete? && status != Processing
             && w'.rows == w.rows[key := w.rows[key].(status := status)] && w'.charges == w.charges
             && (status.Complete? ==> Charge(key, w.rows[key].input, Some(status.output)) in w.charges)
    requires CallerOk(w', w'.callers[id])
    ensures Safe(w') && Keeps(w, w')
  {
    var key := w.callers[id].key;
    forall other | other in w'.callers ensures CallerOk(w', w'.callers[other]) {
      if other != id {
        assert CallerOk(w, w.callers[other]);
        assert Owner(w.callers[other].pc) ==> w.callers[other].key != key;
      }
    }
  }

  lemma InsertKeeps(w: World, id: nat, told: bool)
    requires Safe(w) && id in w.callers && w.callers[id].pc == Start
    ensures Safe(DoInsert(w, id, told)) && Keeps(w, DoInsert(w, id, told))
  {
    var w' := DoInsert(w, id, told);
    var c := w.callers[id];
    if c.key in w.rows {
      QuietStep(w, w', id);
    } else {
      forall other | other in w'.callers ensures CallerOk(w', w'.callers[other]) {
        assert other != id ==> CallerOk(w, w.callers[other]);
      }
      forall other | other in w.callers && Owner(w.callers[other].pc) ensures w.callers[other].key != c.key {
        assert CallerOk(w, w.callers[other]);
      }
    }
  }

  lemma SelectKeeps(w: World, id: nat, applied: bool, told: bool)
    requires Safe(w) && id in w.callers && w.callers[id].pc == Fresh && w.callers[id].key in w.rows
    ensures Safe(DoSelect(w, id, applied, told)) && Keeps(w, DoSelect(w, id, applied, told))
  {
    var w' := DoSelect(w, id, applied, told);
    assert CallerOk(w, w.callers[id]);
    if applied && w.rows[w.callers[id].key].status == Processing {
      StatusStep(w, w', id, Running);
    } else {
      QuietStep(w, w', id);
    }
  }

  lemma SlotKeeps(w: World, id: nat, free: bool, applied: bool)
    requires Safe(w) && id in w.callers && w.callers[id].pc == Selected && w.callers[id].key in w.rows
    ensures Safe(DoSlot(w, id, free, applied)) && Keeps(w, DoSlot(w, id, free, applied))
  {
    var w' := DoSlot(w, id, free, applied);
    assert CallerOk(w, w.callers[id]);
    if !free && applied {
      StatusStep(w, w', id, Failed);
    } else {
      QuietStep(w, w', id);
    }
  }

  lemma InferKeeps(w: World, id: nat, output: Option<Output>)
    requires Safe(w) && id in w.callers && w.callers[id].pc == Slotted
    ensures Safe(DoInfer(w, id, output)) && Keeps(w, DoInfer(w, id, output))
  {
    var w' := DoInfer(w, id, output);
    var c := w.callers[id];
    assert CallerOk(w, c);
    assert w'.charges[|w.charges|] == Charge(c.key, c.input, output);
    forall other | other in w'.callers ensures CallerOk(w', w'.callers[other]) {
      assert other != id ==> CallerOk(w, w.callers[other]);
    }
    forall key | key in w'.rows && w'.rows[key].status == Processing ensures Uncharged(w', key) {
      assert Uncharged(w, key);
    }
  }

  lemma PersistKeeps(w: World, id: nat, output: Option<Output>, applied: bool, told: bool)
    requires Safe(w) && id in w.callers && w.callers[id].pc == Called(output) && w.callers[id].key in w.rows
    ensures Safe(DoPersist(w, id, output, applied, told)) && Keeps(w, DoPersist(w, id, output, applied, told))
  {
    var w' := DoPersist(w, id, output, applied, told);
    assert CallerOk(w, w.callers[id]);
    if applied {
      StatusStep(w, w', id, if output.Some? then Complete(output.value) else Failed);
    } else {
      QuietStep(w, w', id);
    }
  }

  lemma ArriveKeeps(w: World, id: nat, c: Caller)
    requires Safe(w) && id !in w.callers && c.pc == Start
    ensures Safe(w.(callers := w.callers[id := c]))
  {
    var w' := w.(callers := w.callers[id := c]);
    forall other | other in w'.callers ensures CallerOk(w', w'.callers[other]) {
      assert other in w.callers ==> CallerOk(w, w.callers[other]);
    }
  }

  lemma ReadKeeps(w: World, id: nat, ours: bool)
    requires Safe(w) && id in w.callers && w.callers[id].pc == Inserted(ours) && w.callers[id].key in w.rows
    ensures Safe(DoRead(w, id, ours)) && Keeps(w, DoRead(w, id, ours))
  {
    QuietStep(w, DoRead(w, id, ours), id);
  }

  lemma LockKeeps(w: World, id: nat, ours: bool)
    requires Safe(w) && id in w.callers && w.callers[id].pc == Matched(ours)
    ensures Safe(DoLock(w, id, ours)) && Keeps(w, DoLock(w, id, ours))
  {
    assert CallerOk(w, w.callers[id]);
    QuietStep(w, DoLock(w, id, ours), id);
  }

  lemma RereadKeeps(w: World, id: nat, ours: bool)
    requires Safe(w) && id in w.callers && w.callers[id].pc == Locked(ours) && w.callers[id].key in w.rows
    ensures Safe(DoReread(w, id, ours)) && Keeps(w, DoReread(w, id, ours))
  {
    assert CallerOk(w, w.callers[id]);
    QuietStep(w, DoReread(w, id, ours), id);
  }

  lemma LeaveKeeps(w: World, id: nat)
    requires Safe(w) && id in w.callers
    ensures Safe(Finish(w, id, None)) && Keeps(w, Finish(w, id, None))
    ensures Safe(Unlocked(w, id)) && Keeps(w, Unlocked(w, id))
  {
    assert CallerOk(w, w.callers[id]);
    QuietStep(w, Finish(w, id, None), id);
    QuietStep(w, Unlocked(w, id), id);
  }

  lemma StepKeeps(w: World, id: nat, step: Step)
    requires Safe(w)
    ensures Safe(Exec(w, id, step)) && Keeps(w, Exec(w, id, step))
  {
    if step.Arrive? {
      if id !in w.callers {
        ArriveKeeps(w, id, Caller(step.key, step.input, Start));
      }
    } else if id in w.callers {
      var c := w.callers[id];
      var known := c.key in w.rows;
      if step.Crash? || step.LoseLock? {
        LeaveKeeps(w, id);
      } else if step.Lock? && c.pc.Matched? {
        LockKeeps(w, id, c.pc.ours);
      } else if step.Insert? && c.pc.Start? {
        InsertKeeps(w, id, step.told);
      } else if step.Infer? && c.pc.Slotted? {
        InferKeeps(w, id, step.output);
      } else if known {
        KnownKeeps(w, id, step);
      }
    }
  }

  lemma KnownKeeps(w: World, id: nat, step: Step)
    requires Safe(w) && id in w.callers && w.callers[id].key in w.rows
    requires step.Read? || step.Reread? || step.Select? || step.Slot? || step.Persist? || Exec(w, id, step) == w
    ensures Safe(Exec(w, id, step)) && Keeps(w, Exec(w, id, step))
  {
    var pc := w.callers[id].pc;
    if step.Read? && pc.Inserted? {
      ReadKeeps(w, id, pc.ours);
    } else if step.Reread? && pc.Locked? {
      RereadKeeps(w, id, pc.ours);
    } else if step.Select? && pc.Fresh? {
      SelectKeeps(w, id, step.applied, step.told);
    } else if step.Slot? && pc.Selected? {
      SlotKeeps(w, id, step.free, step.applied);
    } else if step.Persist? && pc.Called? {
      PersistKeeps(w, id, pc.output, step.applied, step.told);
    }
  }

  // ---- any interleaving

  datatype Move = Move(id: nat, step: Step)

  function Take(w: World, m: Move): World {
    Exec(w, m.id, m.step)
  }

  /** Any interleaving of any callers' steps and crashes. */
  function Run(w: World, moves: seq<Move>): World {
    Runs.Run(Take, w, moves)
  }

  /** Every interleaving keeps the invariant and undoes nothing. */
  lemma RunKeeps(w: World, moves: seq<Move>)
    requires Safe(w)
    ensures Safe(Run(w, moves)) && Keeps(w, Run(w, moves))
  {
    forall w, m | Safe(w) ensures Safe(Take(w, m)) && Keeps(w, Take(w, m)) {
      StepKeeps(w, m.id, m.step);
    }
    forall a, b, c | Keeps(a, b) && Keeps(b, c) ensures Keeps(a, c) {
      KeepsTransitive(a, b, c);
    }
    Runs.RunKeeps(Take, Safe, Keeps, w, moves);
  }

  lemma KeepsTransitive(a: World, b: World, c: World)
    requires Keeps(a, b) && Keeps(b, c)
    ensures Keeps(a, c)
  {
  }

  const EMPTY := World(map[], map[], [], map[])

  function ChargesFor(charges: seq<Charge>, key: RequestKey): seq<Charge> {
    if charges == [] then []
    else
      var last := charges[|charges| - 1];
      ChargesFor(charges[..|charges| - 1], key) + if last.key == key then [last] else []
  }

  lemma {:induction false} ChargesAtMostOne(charges: seq<Charge>, key: RequestKey)
    requires forall i, j :: 0 <= i < j < |charges| ==> charges[i].key != charges[j].key
    ensures |ChargesFor(charges, key)| <= 1
    ensures (forall i :: 0 <= i < |charges| ==> charges[i].key != key) <==> ChargesFor(charges, key) == []
    ensures forall c :: c in charges && c.key == key ==> ChargesFor(charges, key) == [c]
  {
    if charges != [] {
      var front := charges[..|charges| - 1];
      ChargesAtMostOne(front, key);
      assert forall i :: 0 <= i < |front| ==> front[i] == charges[i];
      forall c | c in charges && c.key == key ensures ChargesFor(charges, key) == [c] {
        assert c in front || c == charges[|charges| - 1];
      }
    }
  }

  /** Whatever the callers do and wherever they crash: inference runs at most once for a key; a complete row
      means exactly one run, on its input, with its output; and that stays so. */
  lemma ChargedAtMostOnce(first: seq<Move>, second: seq<Move>, key: RequestKey)
    ensures var mid, end := Run(EMPTY, first), Run(EMPTY, first + second);
            && |ChargesFor(end.charges, key)| <= 1
            && (key in mid.rows && mid.rows[key].status.Complete? ==>
                  && key in end.rows && end.rows[key] == mid.rows[key]
                  && ChargesFor(end.charges, key) ==
                       [Charge(key, mid.rows[key].input, Some(mid.rows[key].status.output))])
  {
    RunKeeps(EMPTY, first);
    Runs.RunSplits(Take, EMPTY, first, second);
    RunKeeps(Run(EMPTY, first), second);
    ChargesAtMostOne(Run(EMPTY, first + second).charges, key);
  }

  /** Every caller that is answered is answered with the one stored result for its input. */
  lemma AnswersAgree(moves: seq<Move>, a: nat, b: nat)
    ensures var w := Run(EMPTY, moves);
            a in w.callers && b in w.callers && w.callers[a].key == w.callers[b].key
            && w.callers[a].pc.Done? && w.callers[a].pc.reply.Some? && w.callers[b].pc.Done?
                 && w.callers[b].pc.reply.Some? ==>
              w.callers[a].pc.reply == w.callers[b].pc.reply && w.callers[a].input == w.callers[b].input
  {
    RunKeeps(EMPTY, moves);
    var w := Run(EMPTY, moves);
    if a in w.callers && b in w.callers {
      assert CallerOk(w, w.callers[a]) && CallerOk(w, w.callers[b]);
    }
  }

  /** A caller that comes after completion gets the stored result for the same input, an error for another
      one, and charges nothing. */
  lemma LaterCallerReads(w: World, id: nat, key: RequestKey, input: Input)
    requires Safe(w) && id !in w.callers && key in w.rows && w.rows[key].status.Complete?
    ensures var w' := Exec(Exec(Exec(w, id, Arrive(key, input)), id, Insert(true)), id, Read);
            && w'.rows == w.rows && w'.charges == w.charges
            && w'.callers[id].pc == Done(if w.rows[key].input == input then Some(w.rows[key].status.output) else None)
  {
    var c := Caller(key, input, Start);
    assert Exec(w, id, Arrive(key, input)) == w.(callers := w.callers[id := c]);
    assert Exec(Exec(w, id, Arrive(key, input)), id, Insert(true)) ==
        w.(callers := w.callers[id := c.(pc := Inserted(false))]);
  }

  // ---- what each caller is told

  /** A result that is stored and confirmed is told to the caller who was charged for it; an error of the provider is
      stored as failed and told as an error; and a result that is not known to be stored is not told. */
  lemma ChargedCallerIsAnswered(w: World, id: nat, output: Option<Output>, applied: bool, told: bool)
    requires id in w.callers && w.callers[id].pc == Called(output) && w.callers[id].key in w.rows
    ensures var c, w' := w.callers[id], Exec(w, id, Persist(applied, told));
            && w'.charges == w.charges
            && w'.callers == w.callers[id := c.(pc := Done(if applied && told then output else None))]
            && w'.rows == if applied then w.rows[c.key := Row(w.rows[c.key].input,
                                                             if output.Some? then Complete(output.value) else Failed)]
                          else w.rows
  {
  }

  /** The one who gets as far as the provider: the request was new, its lock and a slot were free. */
  lemma UndisturbedRequestIsAnswered(w: World, id: nat, key: RequestKey, input: Input, output: Option<Output>)
    requires id !in w.callers && key !in w.rows && key !in w.locks
    ensures var moves := [Move(id, Arrive(key, input)), Move(id, Insert(true)), Move(id, Read), Move(id, Lock),
                          Move(id, Reread), Move(id, Select(true, true)), Move(id, Slot(true, true)),
                          Move(id, Infer(output)), Move(id, Persist(true, true))];
            var after := w.(rows := w.rows[key := Row(input, if output.Some? then Complete(output.value) else Failed)],
                            charges := w.charges + [Charge(key, input, output)],
                            callers := w.callers[id := Caller(key, input, Done(output))]);
            Run(w, moves).rows == after.rows && Run(w, moves).charges == after.charges
            && Run(w, moves).callers == after.callers && Run(w, moves).locks == w.locks
  {
    var first := [Move(id, Arrive(key, input)), Move(id, Insert(true)), Move(id, Read)];
    var second := [Move(id, Lock), Move(id, Reread), Move(id, Select(true, true))];
    var third := [Move(id, Slot(true, true)), Move(id, Infer(output)), Move(id, Persist(true, true))];
    var matched := w.(rows := w.rows[key := Row(input, Processing)],
                      callers := w.callers[id := Caller(key, input, Matched(true))]);
    var selected := w.(rows := w.rows[key := Row(input, Running)], locks := w.locks[key := id],
                       callers := w.callers[id := Caller(key, input, Selected)]);
    ClaimsRequest(w, id, key, input, matched);
    SelectsRequest(w, id, key, input, matched, selected);
    ChargesRequest(w, id, key, input, output, selected);
    Runs.RunThree(Take, w, first[0], first[1], first[2]);
    Runs.RunThree(Take, matched, second[0], second[1], second[2]);
    Runs.RunThree(Take, selected, third[0], third[1], third[2]);
    Runs.RunSplits(Take, w, first, second);
    Runs.RunSplits(Take, w, first + second, third);
    assert first + second + third ==
           [Move(id, Arrive(key, input)), Move(id, Insert(true)), Move(id, Read), Move(id, Lock),
            Move(id, Reread), Move(id, Select(true, true)), Move(id, Slot(true, true)),
            Move(id, Infer(output)), Move(id, Persist(true, true))];
  }

  lemma ClaimsRequest(w: World, id: nat, key: RequestKey, input: Input, matched: World)
    requires id !in w.callers && key !in w.rows
    requires matched == w.(rows := w.rows[key := Row(input, Processing)],
                           callers := w.callers[id := Caller(key, input, Matched(true))])
    ensures Exec(Exec(Exec(w, id, Arrive(key, input)), id, Insert(true)), id, Read) == matched
  {
    var arrived := Exec(w, id, Arrive(key, input));
    assert arrived == w.(callers := w.callers[id := Caller(key, input, Start)]);
    var inserted := Exec(arrived, id, Insert(true));
    assert inserted == w.(rows := w.rows[key := Row(input, Processing)],
                          callers := w.callers[id := Caller(key, input, Inserted(true))]);
  }

  lemma SelectsRequest(w: World, id: nat, key: RequestKey, input: Input, matched: World, selected: World)
    requires key !in w.locks
    requires matched == w.(rows := w.rows[key := Row(input, Processing)],
                           callers := w.callers[id := Caller(key, input, Matched(true))])
    requires selected == w.(rows := w.rows[key := Row(input, Running)], locks := w.locks[key := id],
                            callers := w.callers[id := Caller(key, input, Selected)])
    ensures Exec(Exec(Exec(matched, id, Lock), id, Reread), id, Select(true, true)) == selected
  {
    var locked := Exec(matched, id, Lock);
    assert locked == matched.(locks := w.locks[key := id],
                              callers := w.callers[id := Caller(key, input, Locked(true))]);
    var reread := Exec(locked, id, Reread);
    assert reread == locked.(callers := w.callers[id := Caller(key, input, Fresh)]);
  }

  lemma ChargesRequest(w: World, id: nat, key: RequestKey, input: Input, output: Option<Output>, selected: World)
    requires key !in w.locks
    requires selected == w.(rows := w.rows[key := Row(input, Running)], locks := w.locks[key := id],
                            callers := w.callers[id := Caller(key, input, Selected)])
    ensures var after := Exec(Exec(Exec(selected, id, Slot(true, true)), id, Infer(output)), id, Persist(true, true));
            && after.rows == w.rows[key := Row(input, if output.Some? then Complete(output.value) else Failed)]
            && after.charges == w.charges + [Charge(key, input, output)]
            && after.callers == w.callers[id := Caller(key, input, Done(output))] && after.locks == w.locks
  {
    var slotted := Exec(selected, id, Slot(true, true));
    assert slotted == selected.(callers := w.callers[id := Caller(key, input, Slotted)]);
    var called := Exec(slotted, id, Infer(output));
    assert called == slotted.(charges := w.charges + [Charge(key, input, output)],
                              callers := w.callers[id := Caller(key, input, Called(output))]);
  }

  /** Everyone else is told the stored result or an error, and neither charges nor writes: another input under the
      key, a lock that is held, a row that is not the caller's own or no longer fresh. Only a caller who finds no free
      slot writes: its row has failed. */
  lemma OthersAreTurnedAway(w: World, id: nat, ours: bool)
    requires id in w.callers && w.callers[id].key in w.rows
    ensures var c, row := w.callers[id], w.rows[w.callers[id].key];
            var told := Done(if row.status.Complete? then Some(row.status.output) else None);
            && (c.pc == Inserted(ours) && row.input != c.input ==>
                  Exec(w, id, Read) == w.(callers := w.callers[id := c.(pc := Done(None))]))
            && (c.pc == Inserted(ours) && row.input == c.input && row.status.Complete? ==>
                  Exec(w, id, Read) == w.(callers := w.callers[id := c.(pc := told)]))
            && (c.pc == Matched(ours) && c.key in w.locks ==>
                  Exec(w, id, Lock) == w.(callers := w.callers[id := c.(pc := Done(None))]))
            && (c.pc == Locked(ours) && (row.status != Processing || !ours) ==>
                  var w' := Exec(w, id, Reread);
                  w'.rows == w.rows && w'.charges == w.charges && w'.callers == w.callers[id := c.(pc := told)])
            && (c.pc == Selected ==>
                  var w' := Exec(w, id, Slot(false, true));
                  w'.rows == w.rows[c.key := Row(row.input, Failed)] && w'.charges == w.charges
                  && w'.callers == w.callers[id := c.(pc := Done(None))])
  {
  }

  /** A crash can strike anyone at any point, and a lock can be lost: nothing that is stored changes. */
  lemma CrashesAnywhere(w: World, id: nat)
    requires id in w.callers && !w.callers[id].pc.Done?
    ensures var crashed, lost := Exec(w, id, Crash), Exec(w, id, LoseLock);
            && crashed.rows == w.rows && crashed.charges == w.charges
            && crashed.callers == w.callers[id := w.callers[id].(pc := Done(None))]
            && lost.rows == w.rows && lost.charges == w.charges && lost.callers == w.callers
            && (w.callers[id].key in lost.locks ==> lost.locks[w.callers[id].key] != id)
  {
  }
}
