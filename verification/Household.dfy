/** A family's tables and its Home Assistant commands together: pushes that mix both, among all other writers. */
module Household {
  import opened Types
  import opened Tables
  import opened Receipts
  import opened Ledger
  import SyncSpec
  import SyncSafety
  import World
  import Database
  import Execution
  import History
  import Runs

  /** The family's tables, the execution ledger and the audit, the calls that left the house, and everyone who
      is running a command. */
  datatype House = House(
    family: World.Family,
    ledger: Execution.Ledger,
    audit: Execution.Audit,
    calls: seq<Execution.Call>,
    callers: map<nat, Execution.Caller>)

  /** What the command protocol sees: the receipts are those of the family's tables. */
  function SiteOf(h: House): Execution.World {
    Execution.World(h.ledger, h.audit, h.family.home.db.receipts, Cursor(h.family.home.db), h.calls, h.callers)
  }

  function OnSite(h: House, w: Execution.World): House {
    House(World.OnDb(h.family, h.family.home.db.(receipts := w.receipts)), w.ledger, w.audit, w.calls, w.callers)
  }

  /** One transaction of another writer, or one step of a command. */
  datatype Move = Write(action: World.Action) | Take(id: nat, step: Execution.Step)

  ghost function Exec(h: House, m: Move): House {
    match m
    case Write(action) => h.(family := World.Exec(h.family, action))
    case Take(id, step) => if step.OtherChange? then h else OnSite(h, Execution.Exec(SiteOf(h), id, step))
  }

  ghost predicate Safe(h: House) {
    World.FamilyInv(h.family) && Execution.Safe(SiteOf(h))
  }

  ghost predicate Keeps(h: House, h': House) {
    World.Develops(h.family, h'.family) && Execution.Keeps(SiteOf(h), SiteOf(h'))
  }

  // ---- every move keeps everything

  /** A command's step files receipts for commands only. */
  lemma OnlyHomeReceipts(w: Execution.World, id: nat, step: Execution.Step, k: ReceiptKey)
    requires !step.OtherChange? && k in Execution.Exec(w, id, step).receipts && k !in w.receipts
    ensures Execution.Exec(w, id, step).receipts[k].pushed.OfHome?
  {
  }

  lemma SameCursor(w: Execution.World, id: nat, step: Execution.Step)
    requires !step.OtherChange?
    ensures Execution.Exec(w, id, step).cursor == w.cursor
  {
  }

  lemma FilingKeeps(f: World.Family, receipts: Filing)
    requires World.FamilyInv(f) && Filed(receipts) && KeepsReceipts(f.home.db.receipts, receipts)
    requires forall k :: k in receipts && k !in f.home.db.receipts ==> receipts[k].pushed.OfHome?
    ensures var f' := World.OnDb(f, f.home.db.(receipts := receipts)); World.FamilyInv(f') && World.Develops(f, f')
  {
    var db := f.home.db.(receipts := receipts);
    forall k | k in receipts && Booking(receipts[k]) ensures Backed(receipts[k], db.log) {
      assert k in f.home.db.receipts && Booking(f.home.db.receipts[k]);
    }
    History.MetadataEvolves(f.home.db, db);
    World.DbStepKeeps(f, db);
  }

  /** A state of the protocol that it reaches without other writers, put back beside the family's tables. */
  lemma OnSiteKeeps(h: House, w: Execution.World)
    requires Safe(h) && Execution.Safe(w) && Execution.Keeps(SiteOf(h), w) && w.cursor == SiteOf(h).cursor
    requires forall k :: k in w.receipts && k !in h.family.home.db.receipts ==> w.receipts[k].pushed.OfHome?
    ensures Safe(OnSite(h, w)) && Keeps(h, OnSite(h, w)) && SiteOf(OnSite(h, w)) == w
  {
    assert SiteOf(OnSite(h, w)) == w;
    FilingKeeps(h.family, w.receipts);
  }

  lemma TakeKeeps(h: House, id: nat, step: Execution.Step)
    requires Safe(h)
    ensures Safe(Exec(h, Take(id, step))) && Keeps(h, Exec(h, Take(id, step)))
  {
    if step.OtherChange? {
      World.SameFamily(h.family);
    } else {
      var w := Execution.Exec(SiteOf(h), id, step);
      Execution.StepKeeps(SiteOf(h), id, step);
      SameCursor(SiteOf(h), id, step);
      forall k | k in w.receipts && k !in h.family.home.db.receipts ensures w.receipts[k].pushed.OfHome? {
        OnlyHomeReceipts(SiteOf(h), id, step, k);
      }
      OnSiteKeeps(h, w);
    }
  }

  lemma WriteKeeps(h: House, action: World.Action)
    requires Safe(h)
    ensures Safe(Exec(h, Write(action))) && Keeps(h, Exec(h, Write(action)))
  {
    World.StepKeeps(h.family, action);
    var h' := Exec(h, Write(action));
    forall k | k in SiteOf(h').receipts && k !in SiteOf(h).receipts ensures SiteOf(h').receipts[k].pushed.OfTables? {
      World.OnlyTableReceipts(h.family, action, k);
    }
    Execution.OtherKeeps(SiteOf(h), SiteOf(h'));
  }

  lemma KeepsTransitive(a: House, b: House, c: House)
    requires Keeps(a, b) && Keeps(b, c)
    ensures Keeps(a, c)
  {
    World.DevelopsTransitive(a.family, b.family, c.family);
    Execution.KeepsTransitive(SiteOf(a), SiteOf(b), SiteOf(c));
  }

  lemma Same(h: House)
    ensures Keeps(h, h)
  {
    World.SameFamily(h.family);
  }

  lemma MovesKeep()
    ensures Runs.Keeping(Exec, Safe, Keeps)
  {
    forall h, m | Safe(h) ensures Safe(Exec(h, m)) && Keeps(h, Exec(h, m)) {
      match m
      case Write(action) => WriteKeeps(h, action);
      case Take(id, step) => TakeKeeps(h, id, step);
    }
    forall h ensures Keeps(h, h) {
      Same(h);
    }
    forall a, b, c | Keeps(a, b) && Keeps(b, c) ensures Keeps(a, c) {
      KeepsTransitive(a, b, c);
    }
  }

  /** Any interleaving of all writers and of any number of commands, with any failures and crashes. */
  ghost function Run(h: House, moves: seq<Move>): (r: House)
    requires Safe(h)
    ensures Safe(r)
  {
    MovesKeep();
    Runs.RunKeeps(Exec, Safe, Keeps, h, moves);
    Runs.Run(Exec, h, moves)
  }

  /** Every interleaving keeps the invariants of both, and undoes nothing that either keeps. */
  lemma RunKeeps(h: House, moves: seq<Move>)
    requires Safe(h)
    ensures Safe(Run(h, moves)) && Keeps(h, Run(h, moves))
  {
    MovesKeep();
    Runs.RunKeeps(Exec, Safe, Keeps, h, moves);
  }

  lemma RunSplits(h: House, first: seq<Move>, second: seq<Move>)
    requires Safe(h)
    ensures Run(h, first + second) == Run(Run(h, first), second)
  {
    Runs.RunSplits(Exec, h, first, second);
  }

  function Founded(sequence: nat, foreign: set<Key>): House {
    House(World.Founded(sequence, foreign), map[], map[], [], map[])
  }

  lemma FoundedSafe(sequence: nat, foreign: set<Key>)
    ensures Safe(Founded(sequence, foreign))
  {
    World.FoundedInv(sequence, foreign);
    var w := SiteOf(Founded(sequence, foreign));
    assert w.calls == [];
  }

  // ---- a push

  /** What surrounds one change of a push: what others do before it; for a change of the tables the day and the
      failure of its transaction; for a command whether the answer of its first transaction arrives, and every
      move from then on, its own and those of others. */
  datatype Around = Around(before: seq<Move>, today: Day, fault: SyncSpec.Fault, told: bool, during: seq<Move>)

  /** The push request: the device, its user, and the cursor it bases the changes on. */
  datatype Sender = Sender(device: Id, user: Id, base: int)

  /** A name for a new caller. */
  function Unused(callers: map<nat, Execution.Caller>): (id: nat)
    ensures id !in callers
  {
    var ids := Database.Ascend(callers.Keys);
    assert forall x :: x in callers ==> x in ids;
    if ids == [] then 0 else ids[|ids| - 1] + 1
  }

  function ModeOf(sender: Sender, command: HomeChange): Execution.Mode {
    Execution.Sync(sender.device, sender.user, sender.base, command)
  }

  function ReplyOf(h: House, id: nat): Reply {
    if id in h.callers && h.callers[id].pc.Answered? then h.callers[id].pc.reply else Aborted
  }

  /** The command arrives and makes its first transaction. */
  ghost function Arrived(h: House, id: nat, sender: Sender, command: HomeChange, told: bool): (r: House)
    requires Safe(h)
    ensures Safe(r)
  {
    var arrive := Execution.Arrive(ModeOf(sender, command));
    TakeKeeps(h, id, arrive);
    TakeKeeps(Exec(h, Take(id, arrive)), id, Execution.FirstTransaction(told));
    Exec(Exec(h, Take(id, arrive)), Take(id, Execution.FirstTransaction(told)))
  }

  lemma ArrivedKeeps(h: House, id: nat, sender: Sender, command: HomeChange, told: bool)
    requires Safe(h)
    ensures Keeps(h, Arrived(h, id, sender, command, told))
  {
    var arrive := Execution.Arrive(ModeOf(sender, command));
    TakeKeeps(h, id, arrive);
    TakeKeeps(Exec(h, Take(id, arrive)), id, Execution.FirstTransaction(told));
    KeepsTransitive(h, Exec(h, Take(id, arrive)), Arrived(h, id, sender, command, told));
  }

  /** processChange for one change, from the moment it is taken up. */
  ghost function Present(h: House, sender: Sender, pushed: Pushed, around: Around): (r: (House, Reply))
    requires Safe(h)
    ensures Safe(r.0)
  {
    match pushed
    case OfTables(ch) =>
      var write := World.Push(sender.device, sender.base, ch, around.today, around.fault);
      WriteKeeps(h, write);
      (Exec(h, Write(write)),
       SyncSpec.Process(h.family.home.db, sender.device, sender.base, ch, around.today, around.fault).1)
    case OfHome(command) =>
      var id := Unused(h.callers);
      var arrived := Arrived(h, id, sender, command, around.told);
      if ReplyOf(arrived, id).Aborted? then
        var ended := Run(arrived, around.during);
        (ended, ReplyOf(ended, id))
      else (arrived, ReplyOf(arrived, id))
  }

  lemma PresentKeeps(h: House, sender: Sender, pushed: Pushed, around: Around)
    requires Safe(h)
    ensures Keeps(h, Present(h, sender, pushed, around).0)
  {
    match pushed
    case OfTables(ch) =>
      WriteKeeps(h, World.Push(sender.device, sender.base, ch, around.today, around.fault));
    case OfHome(command) =>
      var arrived := Arrived(h, Unused(h.callers), sender, command, around.told);
      ArrivedKeeps(h, Unused(h.callers), sender, command, around.told);
      RunKeeps(arrived, around.during);
      KeepsTransitive(h, arrived, Run(arrived, around.during));
  }

  /** One more change, unless the push has failed. */
  ghost function PushNext(before: (House, seq<Reply>), sender: Sender, pushed: Pushed, around: Around)
    : (r: (House, seq<Reply>))
    requires Safe(before.0)
    ensures Safe(r.0)
  {
    if Stopped(before.1) then before
    else
      var last := Present(Run(before.0, around.before), sender, pushed, around);
      (last.0, before.1 + [last.1])
  }

  lemma NextKeeps(before: (House, seq<Reply>), sender: Sender, pushed: Pushed, around: Around)
    requires Safe(before.0)
    ensures Keeps(before.0, PushNext(before, sender, pushed, around).0)
  {
    Same(before.0);
    var taken := Run(before.0, around.before);
    RunKeeps(before.0, around.before);
    PresentKeeps(taken, sender, pushed, around);
    KeepsTransitive(before.0, taken, Present(taken, sender, pushed, around).0);
  }

  /** Push: the changes in order, amid everything else, up to the first that fails. */
  ghost function PushAll(h: House, sender: Sender, changes: seq<Pushed>, arounds: seq<Around>): (r: (House, seq<Reply>))
    requires Safe(h) && |arounds| == |changes|
    ensures Safe(r.0)
  {
    if changes == [] then (h, [])
    else
      var n := |changes| - 1;
      PushNext(PushAll(h, sender, changes[..n], arounds[..n]), sender, changes[n], arounds[n])
  }

  lemma {:induction false} PushKeeps(h: House, sender: Sender, changes: seq<Pushed>, arounds: seq<Around>)
    requires Safe(h) && |arounds| == |changes|
    ensures Keeps(h, PushAll(h, sender, changes, arounds).0)
    decreases |changes|
  {
    if changes == [] {
      Same(h);
    } else {
      var n := |changes| - 1;
      var before := PushAll(h, sender, changes[..n], arounds[..n]);
      PushKeeps(h, sender, changes[..n], arounds[..n]);
      NextKeeps(before, sender, changes[n], arounds[n]);
      KeepsTransitive(h, before.0, PushNext(before, sender, changes[n], arounds[n]).0);
    }
  }

  lemma PushMore(h: House, sender: Sender, changes: seq<Pushed>, arounds: seq<Around>, n: nat, next: Around)
    requires Safe(h) && n < |changes| && |arounds| == n
    ensures PushAll(h, sender, changes[..n + 1], arounds + [next]) ==
              PushNext(PushAll(h, sender, changes[..n], arounds), sender, changes[n], next)
  {
    assert changes[..n + 1][..n] == changes[..n];
    assert (arounds + [next])[..n] == arounds;
  }

  predicate Stopped(replies: seq<Reply>) {
    replies != [] && replies[|replies| - 1].Aborted?
  }

  predicate Successful(replies: seq<Reply>) {
    forall i :: 0 <= i < |replies| ==> !replies[i].Aborted?
  }

  // ---- what a push settles

  /** An answer, of whatever change, is in the receipts. */
  lemma PresentSettles(h: House, sender: Sender, pushed: Pushed, around: Around)
    requires Safe(h)
    ensures var done := Present(h, sender, pushed, around);
            !done.1.Aborted? ==> InReceipts(done.0.family.home.db.receipts, sender.device, pushed, done.1)
  {
    match pushed
    case OfTables(ch) =>
      SyncSafety.ProcessSettles(h.family.home.db, sender.device, sender.base, ch, around.today, around.fault);
    case OfHome(command) =>
      var id := Unused(h.callers);
      var arrived := Arrived(h, id, sender, command, around.told);
      ArrivedMode(h, id, sender, command, around.told);
      AnswerIsFiled(arrived, id, sender, command);
      RunKeeps(arrived, around.during);
      if ReplyOf(arrived, id).Aborted? {
        AnswerIsFiled(Run(arrived, around.during), id, sender, command);
      }
  }

  lemma ArrivedMode(h: House, id: nat, sender: Sender, command: HomeChange, told: bool)
    requires Safe(h) && id !in h.callers
    ensures var arrived := Arrived(h, id, sender, command, told);
            id in arrived.callers && arrived.callers[id].mode == ModeOf(sender, command)
  {
    var h1 := Exec(h, Take(id, Execution.Arrive(ModeOf(sender, command))));
    TakeKeeps(h, id, Execution.Arrive(ModeOf(sender, command)));
    TakeKeeps(h1, id, Execution.FirstTransaction(told));
    assert SiteOf(h1).callers[id].mode == ModeOf(sender, command);
  }

  lemma AnswerIsFiled(h: House, id: nat, sender: Sender, command: HomeChange)
    requires Safe(h) && id in h.callers && h.callers[id].mode == ModeOf(sender, command)
    ensures !ReplyOf(h, id).Aborted? ==>
              InReceipts(h.family.home.db.receipts, sender.device, OfHome(command), ReplyOf(h, id))
  {
    assert Execution.CallerOk(SiteOf(h), SiteOf(h).callers[id]);
  }

  ghost predicate AllSettled(receipts: Filing, device: Id, changes: seq<Pushed>, replies: seq<Reply>) {
    |replies| == |changes| && forall i :: 0 <= i < |changes| ==> InReceipts(receipts, device, changes[i], replies[i])
  }

  /** A push that reached its end has a receipt for each of its changes, of either kind. */
  lemma {:induction false} PushSettles(h: House, sender: Sender, changes: seq<Pushed>, arounds: seq<Around>)
    requires Safe(h) && |arounds| == |changes|
    ensures var done := PushAll(h, sender, changes, arounds);
            Successful(done.1) ==> AllSettled(done.0.family.home.db.receipts, sender.device, changes, done.1)
    decreases |changes|
  {
    if changes != [] {
      var n := |changes| - 1;
      PushSettles(h, sender, changes[..n], arounds[..n]);
      NextSettles(PushAll(h, sender, changes[..n], arounds[..n]), sender, changes, arounds[n]);
    }
  }

  lemma NextSettles(before: (House, seq<Reply>), sender: Sender, changes: seq<Pushed>, around: Around)
    requires Safe(before.0) && changes != []
    requires Successful(before.1) ==>
               AllSettled(before.0.family.home.db.receipts, sender.device, changes[..|changes| - 1], before.1)
    ensures var done := PushNext(before, sender, changes[|changes| - 1], around);
            Successful(done.1) ==> AllSettled(done.0.family.home.db.receipts, sender.device, changes, done.1)
  {
    var pushed := changes[|changes| - 1];
    var done := PushNext(before, sender, pushed, around);
    if Successful(done.1) {
      PrefixSuccessful(before.1, done.1);
      NextKeeps(before, sender, pushed, around);
      PresentSettles(Run(before.0, around.before), sender, pushed, around);
      OneMoreSettled(before.0, done.0, sender.device, changes, before.1, done.1[|before.1|]);
    }
  }

  lemma PrefixSuccessful(front: seq<Reply>, all: seq<Reply>)
    requires front <= all && Successful(all)
    ensures Successful(front)
  {
    forall i | 0 <= i < |front| ensures !front[i].Aborted? {
      assert front[i] == all[i];
    }
  }

  /** Settled changes stay settled, and one more joins them. */
  lemma OneMoreSettled(h: House, later: House, device: Id, changes: seq<Pushed>, replies: seq<Reply>, reply: Reply)
    requires Safe(h) && Keeps(h, later)
    requires changes != [] && AllSettled(h.family.home.db.receipts, device, changes[..|changes| - 1], replies)
    requires InReceipts(later.family.home.db.receipts, device, changes[|changes| - 1], reply)
    ensures AllSettled(later.family.home.db.receipts, device, changes, replies + [reply])
  {
    var n := |changes| - 1;
    forall i | 0 <= i < n ensures InReceipts(later.family.home.db.receipts, device, changes[i], replies[i]) {
      assert InReceipts(h.family.home.db.receipts, device, changes[..n][i], replies[i]);
      LookupAgain(h.family.home.db.receipts, later.family.home.db.receipts, device, changes[i], replies[i], 0, 0);
    }
  }

  // ---- the same push again

  /** Nothing but the list of those who ask has changed. */
  ghost predicate NothingWritten(h: House, h': House) {
    h' == h.(callers := h'.callers)
  }

  /** The answer to a change that was answered before. */
  predicate RepeatsReply(first: Reply, second: Reply) {
    if KeyReused(first) then KeyReused(second)
    else !first.Aborted? && second.Replay? && second.original == Told(first)
  }

  /** A settled change, presented again at any time, writes nothing and tells its first outcome. */
  lemma PresentAgain(h: House, later: House, sender: Sender, pushed: Pushed, reply: Reply, around: Around)
    requires Safe(h) && Safe(later) && Keeps(h, later)
    requires InReceipts(h.family.home.db.receipts, sender.device, pushed, reply)
    requires around.told && !around.fault.Outside?
    ensures var again := Present(later, sender, pushed, around);
            NothingWritten(later, again.0) && RepeatsReply(reply, again.1)
  {
    match pushed
    case OfTables(ch) =>
      SyncSafety.SettledForGood(h.family.home.db, later.family.home.db, sender.device, sender.base, ch, reply,
                                around.today, around.fault);
    case OfHome(command) =>
      CommandAgain(h, later, Unused(later.callers), sender, command, reply);
  }

  lemma CommandAgain(h: House, later: House, id: nat, sender: Sender, command: HomeChange, reply: Reply)
    requires Safe(h) && Safe(later) && Keeps(h, later) && id !in later.callers
    requires InReceipts(h.family.home.db.receipts, sender.device, OfHome(command), reply)
    ensures var again := Arrived(later, id, sender, command, true);
            NothingWritten(later, again) && !ReplyOf(again, id).Aborted? && RepeatsReply(reply, ReplyOf(again, id))
  {
    Execution.SettledIsReplayed(SiteOf(h), SiteOf(later), id, ModeOf(sender, command), reply);
    ArrivedIs(later, id, sender, command, true);
  }

  lemma ArrivedIs(h: House, id: nat, sender: Sender, command: HomeChange, told: bool)
    requires Safe(h) && id !in h.callers
    ensures Arrived(h, id, sender, command, told) ==
            OnSite(h, Execution.Presented(SiteOf(h), id, ModeOf(sender, command), told))
  {
    var arrive := Execution.Arrive(ModeOf(sender, command));
    var h1 := Exec(h, Take(id, arrive));
    assert SiteOf(h1) == Execution.Exec(SiteOf(h), id, arrive);
  }

  /** No transaction of the attempt is lost as a whole. */
  predicate Connected(arounds: seq<Around>) {
    forall i :: 0 <= i < |arounds| ==> arounds[i].told && !arounds[i].fault.Outside?
  }

  /** One change more is answered as before, and writes nothing in whatever state the others have left. */
  ghost predicate RepeatedNext(before: (House, seq<Reply>), sender: Sender, pushed: Pushed, around: Around,
                               reply: Reply)
    requires Safe(before.0)
  {
    var again := PushNext(before, sender, pushed, around);
    && |again.1| == |before.1| + 1 && before.1 <= again.1 && RepeatsReply(reply, again.1[|before.1|])
    && NothingWritten(Run(before.0, around.before), again.0)
  }

  /** So it is with each change of the push. */
  ghost predicate Repeated(h: House, sender: Sender, changes: seq<Pushed>, arounds: seq<Around>, replies: seq<Reply>)
    requires Safe(h) && |arounds| == |changes| == |replies|
    decreases |changes|
  {
    changes == [] ||
    var n := |changes| - 1;
    && Repeated(h, sender, changes[..n], arounds[..n], replies[..n])
    && RepeatedNext(PushAll(h, sender, changes[..n], arounds[..n]), sender, changes[n], arounds[n], replies[n])
  }

  lemma {:induction false} RepeatSettled(h: House, later: House, sender: Sender, changes: seq<Pushed>,
                                         replies: seq<Reply>, arounds: seq<Around>)
    requires Safe(h) && Safe(later) && Keeps(h, later)
    requires AllSettled(h.family.home.db.receipts, sender.device, changes, replies)
    requires |arounds| == |changes| && Connected(arounds)
    ensures Repeated(later, sender, changes, arounds, replies)
    ensures !Stopped(PushAll(later, sender, changes, arounds).1)
    decreases |changes|
  {
    if changes != [] {
      var n := |changes| - 1;
      forall i | 0 <= i < n
        ensures InReceipts(h.family.home.db.receipts, sender.device, changes[..n][i], replies[..n][i]) {
        assert InReceipts(h.family.home.db.receipts, sender.device, changes[i], replies[i]);
      }
      RepeatSettled(h, later, sender, changes[..n], replies[..n], arounds[..n]);
      PushKeeps(later, sender, changes[..n], arounds[..n]);
      LastAgain(h, later, PushAll(later, sender, changes[..n], arounds[..n]), sender, changes, replies, arounds[n]);
    }
  }

  lemma LastAgain(h: House, later: House, before: (House, seq<Reply>), sender: Sender, changes: seq<Pushed>,
                  replies: seq<Reply>, around: Around)
    requires Safe(h) && Safe(later) && Safe(before.0) && Keeps(h, later) && Keeps(later, before.0) && !Stopped(before.1)
    requires changes != [] && AllSettled(h.family.home.db.receipts, sender.device, changes, replies)
    requires around.told && !around.fault.Outside?
    ensures var n := |changes| - 1;
            && RepeatedNext(before, sender, changes[n], around, replies[n])
            && !Stopped(PushNext(before, sender, changes[n], around).1)
  {
    var n := |changes| - 1;
    var taken := Run(before.0, around.before);
    RunKeeps(before.0, around.before);
    KeepsTransitive(h, later, before.0);
    KeepsTransitive(h, before.0, taken);
    assert InReceipts(h.family.home.db.receipts, sender.device, changes[n], replies[n]);
    PresentAgain(h, taken, sender, changes[n], replies[n], around);
  }

  /** Push is idempotent. A push of changes and commands that reached its end is repeated after any run of
      anything, and again amid anything: every change is answered with its first outcome, and its own steps add
      nothing to any table, to the ledger, to the audit or to the calls. */
  lemma RepeatedPushWritesNothing(h: House, sender: Sender, base: int, changes: seq<Pushed>,
                                  arounds: seq<Around>, between: seq<Move>, arounds': seq<Around>)
    requires Safe(h) && |arounds| == |changes| && |arounds'| == |changes| && Connected(arounds')
    requires Successful(PushAll(h, sender, changes, arounds).1)
    ensures var first := PushAll(h, sender, changes, arounds);
            && |first.1| == |changes|
            && Repeated(Run(first.0, between), sender.(base := base), changes, arounds', first.1)
  {
    var first := PushAll(h, sender, changes, arounds);
    PushSettles(h, sender, changes, arounds);
    RunKeeps(first.0, between);
    RepeatSettled(first.0, Run(first.0, between), sender.(base := base), changes, first.1, arounds');
  }

  predicate Alone(arounds: seq<Around>) {
    forall i :: 0 <= i < |arounds| ==> arounds[i].before == []
  }

  /** When nobody else does anything during the repetition, the house is as it was. */
  lemma {:induction false} QuietRepetition(h: House, sender: Sender, changes: seq<Pushed>, arounds: seq<Around>,
                                           replies: seq<Reply>)
    requires Safe(h) && |arounds| == |changes| == |replies| && Repeated(h, sender, changes, arounds, replies)
    requires Alone(arounds)
    ensures NothingWritten(h, PushAll(h, sender, changes, arounds).0)
    decreases |changes|
  {
    if changes == [] {
      assert PushAll(h, sender, changes, arounds).0 == h;
    } else {
      var n := |changes| - 1;
      assert Alone(arounds[..n]) && arounds[n].before == [];
      QuietRepetition(h, sender, changes[..n], arounds[..n], replies[..n]);
      QuietNext(h, PushAll(h, sender, changes[..n], arounds[..n]), sender, changes[n], arounds[n], replies[n]);
    }
  }

  lemma QuietNext(h: House, before: (House, seq<Reply>), sender: Sender, pushed: Pushed, around: Around, reply: Reply)
    requires Safe(before.0) && around.before == [] && NothingWritten(h, before.0)
    requires RepeatedNext(before, sender, pushed, around, reply)
    ensures NothingWritten(h, PushNext(before, sender, pushed, around).0)
  {
    RunNothing(before.0);
  }

  lemma RunNothing(h: House)
    requires Safe(h)
    ensures Run(h, []) == h
  {
    assert Runs.Run(Exec, h, []) == h;
  }

  // ---- commands among all writers

  /** Amid all writers of the family too, the client is called at most once for a request id; and wherever an
      accepted receipt of a command exists, that one call was accepted, and ledger and audit say so, for good. */
  lemma CommandsAreDoneOnce(sequence: nat, foreign: set<Key>, first: seq<Move>, second: seq<Move>, request: Id,
                            k: ReceiptKey)
    ensures Safe(Founded(sequence, foreign))
    ensures var mid, end := Run(Founded(sequence, foreign), first), Run(Founded(sequence, foreign), first + second);
            var receipts := mid.family.home.db.receipts;
            && Execution.CallsTo(end.calls, request) <= 1
            && (k in receipts && Execution.AcceptedCommand(receipts[k]) ==>
                  var done := receipts[k].pushed.command.request;
                  && k in end.family.home.db.receipts && end.family.home.db.receipts[k] == receipts[k]
                  && Execution.Done(SiteOf(end), receipts[k])
                  && Execution.CallsTo(end.calls, done) == 1
                  && Execution.Call(done, end.ledger[done].order, Execution.ClientAccepted) in end.calls)
  {
    FoundedSafe(sequence, foreign);
    RunSplits(Founded(sequence, foreign), first, second);
    RunKeeps(Run(Founded(sequence, foreign), first), second);
    var end := Run(Founded(sequence, foreign), first + second);
    Execution.AtMostOneCall(end.calls, request);
    var receipts := end.family.home.db.receipts;
    if k in receipts && Execution.AcceptedCommand(receipts[k]) {
      var done := receipts[k].pushed.command.request;
      assert Execution.Done(SiteOf(end), receipts[k]);
      Execution.DoneOnce(SiteOf(end), done, end.ledger[done].order);
    }
  }
}
