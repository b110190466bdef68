/** First-writer-wins publication of the deployment secrets by processes that start together and may crash. */
module Secrets {
  import opened Types
  import opened Texts
  import Runs

  datatype Field = JwtSecret | RefreshTokenPepper | HaTokenKey

  /** The three secrets; in a configuration, "" marks a field that the environment does not set. */
  datatype Keys = Keys(jwt: string, pepper: string, ha: string)

  function Get(k: Keys, f: Field): string {
    match f
    case JwtSecret => k.jwt
    case RefreshTokenPepper => k.pepper
    case HaTokenKey => k.ha
  }

  /** `production` and `otherwiseValid` summarise the rest of the configuration. */
  datatype Config = Config(explicit: Keys, production: bool, otherwiseValid: bool)

  // ---- configuration values

  predicate Example(value: string) {
    Trim(value) in {"replace-with-at-least-32-random-bytes", "replace-with-long-random-secret",
                    "change-this-key-to-exactly-32byt"}
  }

  /** validateSecrets */
  predicate ValidKeys(k: Keys, production: bool) {
    && (production ==> !Example(k.jwt) && !Example(k.pepper) && !Example(k.ha))
    && Bytes(k.jwt) >= 32 && Bytes(k.pepper) >= 32 && Bytes(k.ha) == 32
  }

  function Override(explicit: string, saved: string): string {
    if explicit == "" then saved else explicit
  }

  /** apply: saved values fill the fields that are not set explicitly. */
  function Apply(explicit: Keys, saved: Keys): Keys {
    Keys(Override(explicit.jwt, saved.jwt), Override(explicit.pepper, saved.pepper), Override(explicit.ha, saved.ha))
  }

  predicate AllExplicit(k: Keys) {
    k.jwt != "" && k.pepper != "" && k.ha != ""
  }

  // ---- the directory

  /** A file is written in pieces; until it is flushed and closed a reader may find only part of it. */
  datatype Content = Partial | Complete(keys: Keys)

  datatype Pc =
    | Start
    | Absent                    // there was no file; this process may initialise
    | Writing(keys: Keys)       // its temporary file exists
    | Written(keys: Keys)       // flushed and closed
    | Linked                    // linked, or lost to a file that was there
    | Synced
    | Returned(keys: Keys)
    | Stopped                   // an error, or a crash

  datatype Process = Process(config: Config, initialize: bool, pc: Pc)

  datatype World = World(published: Option<Content>, temps: map<nat, Content>, processes: map<nat, Process>)

  datatype Step =
    | Launch(config: Config, initialize: bool)
    | FirstRead
    | Create(generated: Keys)
    | Write
    | Link
    | SyncDirectory
    | SecondRead
    | Fail    // a system call fails, or the process crashes

  function At(w: World, id: nat, pc: Pc): World
    requires id in w.processes
  {
    w.(processes := w.processes[id := w.processes[id].(pc := pc)])
  }

  /** readSecrets, then apply and validate. */
  function Read(content: Content, config: Config): Pc {
    match content
    case Partial => Stopped
    case Complete(saved) =>
      var keys := Apply(config.explicit, saved);
      if !ValidKeys(saved, config.production) then Stopped
      else if config.otherwiseValid && ValidKeys(keys, config.production) then Returned(keys)
      else Stopped
  }

  function DoFirstRead(w: World, id: nat): World
    requires id in w.processes
  {
    var p := w.processes[id];
    if AllExplicit(p.config.explicit) then
      At(w, id, if p.config.otherwiseValid && ValidKeys(p.config.explicit, p.config.production)
          then Returned(p.config.explicit) else Stopped)
    else match w.published
      case Some(content) => At(w, id, Read(content, p.config))
      case None => At(w, id, if p.initialize then Absent else Stopped)
  }

  function DoCreate(w: World, id: nat, generated: Keys): World
    requires id in w.processes
  {
    var p := w.processes[id];
    var candidate := Apply(p.config.explicit, generated);
    if !(p.config.otherwiseValid && ValidKeys(candidate, p.config.production)) then At(w, id, Stopped)
    else At(w, id, Writing(candidate)).(temps := w.temps[id := Partial])
  }

  /** link(2): creates the name only when it does not exist. */
  function DoLink(w: World, id: nat): World
    requires id in w.processes && id in w.temps
  {
    var w' := if w.published.None? then w.(published := Some(w.temps[id])) else w;
    At(w', id, Linked).(temps := w.temps - {id})
  }

  function Exec(w: World, id: nat, step: Step): World {
    if step.Launch? then
      if id in w.processes then w else w.(processes := w.processes[id := Process(step.config, step.initialize, Start)])
    else if id !in w.processes then w
    else
      var p := w.processes[id];
      match (step, p.pc)
      case (FirstRead, Start) => DoFirstRead(w, id)
      case (Create(generated), Absent) => DoCreate(w, id, generated)
      case (Write, Writing(keys)) => At(w, id, Written(keys)).(temps := w.temps[id := Complete(keys)])
      case (Link, Written(_)) => if id in w.temps then DoLink(w, id) else w
      case (SyncDirectory, Linked) => At(w, id, Synced)
      case (SecondRead, Synced) => if w.published.Some? then At(w, id, Read(w.published.value, p.config))
          else At(w, id, Stopped)
      case (Fail, _) => if p.pc.Returned? then w else At(w, id, Stopped)
      case _ => w
  }

  // ---- the invariant

  ghost predicate ProcessOk(w: World, id: nat, p: Process) {
    match p.pc
    case Written(keys) => id in w.temps && w.temps[id] == Complete(keys)
    case Linked => w.published.Some?
    case Synced => w.published.Some?
    case Returned(keys) =>
      if AllExplicit(p.config.explicit) then keys == p.config.explicit
      else w.published.Some? && w.published.value.Complete? && keys == Apply(p.config.explicit, w.published.value.keys)
    case _ => true
  }

  /** The published file is complete, and every process that returned took its values from it. */
  ghost predicate Safe(w: World) {
    && (w.published.Some? ==> w.published.value.Complete?)
    && (forall id :: id in w.processes ==> ProcessOk(w, id, w.processes[id]))
  }

  /** The published file is never replaced or changed. */
  predicate Keeps(w: World, w': World) {
    w.published.Some? ==> w'.published == w.published
  }

  lemma StepKeeps(w: World, id: nat, step: Step)
    requires Safe(w)
    ensures Safe(Exec(w, id, step)) && Keeps(w, Exec(w, id, step))
  {
    var w' := Exec(w, id, step);
    assert id in w.processes ==> ProcessOk(w, id, w.processes[id]);
    forall other | other in w'.processes ensures ProcessOk(w', other, w'.processes[other]) {
      assert other in w.processes ==> ProcessOk(w, other, w.processes[other]);
    }
  }

  datatype Move = Move(id: nat, step: Step)

  function Take(w: World, m: Move): World {
    Exec(w, m.id, m.step)
  }

  /** Any interleaving of the processes' steps and crashes. */
  function Run(w: World, moves: seq<Move>): World {
    Runs.Run(Take, w, moves)
  }

  /** Every interleaving keeps the invariant and the published file. */
  lemma RunKeeps(w: World, moves: seq<Move>)
    requires Safe(w)
    ensures Safe(Run(w, moves)) && Keeps(w, Run(w, moves))
  {
    forall w, m | Safe(w) ensures Safe(Take(w, m)) && Keeps(w, Take(w, m)) {
      StepKeeps(w, m.id, m.step);
    }
    Runs.RunKeeps(Take, Safe, Keeps, w, moves);
  }

  const EMPTY := World(None, map[], map[])

  /** For any number of processes, interleaved and crashing anywhere: once there is a published file it is
      complete, and it stays exactly that file. */
  lemma PublishedOnce(first: seq<Move>, second: seq<Move>)
    ensures var mid, end := Run(EMPTY, first), Run(EMPTY, first + second);
            mid.published.Some? ==> mid.published.value.Complete? && end.published == mid.published
  {
    RunKeeps(EMPTY, first);
    Runs.RunSplits(Take, EMPTY, first, second);
    RunKeeps(Run(EMPTY, first), second);
  }

  /** All processes that succeed return the same value for every field that none of them overrides. */
  lemma ProcessesAgree(moves: seq<Move>, a: nat, b: nat, f: Field)
    ensures var w := Run(EMPTY, moves);
            a in w.processes && b in w.processes
            && w.processes[a].pc.Returned? && w.processes[b].pc.Returned?
            && Get(w.processes[a].config.explicit, f) == "" && Get(w.processes[b].config.explicit, f) == "" ==>
              Get(w.processes[a].pc.keys, f) == Get(w.processes[b].pc.keys, f)
  {
    RunKeeps(EMPTY, moves);
    var w := Run(EMPTY, moves);
    if a in w.processes && b in w.processes {
      assert ProcessOk(w, a, w.processes[a]) && ProcessOk(w, b, w.processes[b]);
    }
  }

  /** A value that the environment sets is returned as given, whatever file was published. */
  lemma OverridesWin(moves: seq<Move>, a: nat, f: Field)
    ensures var w := Run(EMPTY, moves);
            a in w.processes && w.processes[a].pc.Returned? && Get(w.processes[a].config.explicit, f) != "" ==>
              Get(w.processes[a].pc.keys, f) == Get(w.processes[a].config.explicit, f)
  {
    RunKeeps(EMPTY, moves);
    var w := Run(EMPTY, moves);
    if a in w.processes {
      assert ProcessOk(w, a, w.processes[a]);
    }
  }

  // ---- which processes succeed

  predicate Placeholder(value: string) {
    || Trim(value) == "replace-with-at-least-32-random-bytes"
    || Trim(value) == "replace-with-long-random-secret"
    || Trim(value) == "change-this-key-to-exactly-32byt"
  }

  /** Two secrets of at least 32 bytes and a key of exactly 32, none of them a published example in production. */
  predicate Good(k: Keys, production: bool) {
    && Bytes(k.jwt) >= 32 && Bytes(k.pepper) >= 32 && Bytes(k.ha) == 32
    && (production ==> !Placeholder(k.jwt) && !Placeholder(k.pepper) && !Placeholder(k.ha))
  }

  /** The explicit values, and the saved ones where none is given. */
  predicate Mixes(k: Keys, explicit: Keys, saved: Keys) {
    && k.jwt == (if explicit.jwt != "" then explicit.jwt else saved.jwt)
    && k.pepper == (if explicit.pepper != "" then explicit.pepper else saved.pepper)
    && k.ha == (if explicit.ha != "" then explicit.ha else saved.ha)
  }

  lemma GoodIs(k: Keys, production: bool)
    ensures ValidKeys(k, production) <==> Good(k, production)
  {
  }

  /** The file and the configuration together are good. */
  predicate Usable(content: Content, config: Config) {
    && content.Complete? && config.otherwiseValid
    && Good(content.keys, config.production) && Good(Apply(config.explicit, content.keys), config.production)
  }

  lemma ReadDecides(content: Content, config: Config)
    ensures if Usable(content, config) then Read(content, config) == Returned(Apply(config.explicit, content.keys))
            else Read(content, config) == Stopped
  {
    if content.Complete? {
      GoodIs(content.keys, config.production);
      GoodIs(Apply(config.explicit, content.keys), config.production);
    }
  }

  lemma ApplyMixes(explicit: Keys, saved: Keys)
    ensures Mixes(Apply(explicit, saved), explicit, saved)
  {
  }

  /** A process that finds the file, case by case: it returns the mixed values exactly when the file is complete and
      good by itself, and the mixture is good in a configuration that is valid otherwise. A process with all three
      values explicit reads no file; one without a file stops unless it may initialise. */
  lemma FirstReadDecides(w: World, id: nat)
    requires id in w.processes && w.processes[id].pc == Start
    ensures var p, w' := w.processes[id], Exec(w, id, FirstRead);
            var explicit, config, pc := p.config.explicit, p.config, w'.processes[id].pc;
            && w'.published == w.published && w'.temps == w.temps
            && (if explicit.jwt != "" && explicit.pepper != "" && explicit.ha != "" then
                  pc == if config.otherwiseValid && Good(explicit, config.production) then Returned(explicit)
                      else Stopped
                else if w.published.None? then pc == if p.initialize then Absent else Stopped
                else if Usable(w.published.value, config) then
                  pc.Returned? && Mixes(pc.keys, explicit, w.published.value.keys)
                else pc == Stopped)
  {
    var p := w.processes[id];
    GoodIs(p.config.explicit, p.config.production);
    if w.published.Some? {
      ReadDecides(w.published.value, p.config);
      if w.published.value.Complete? {
        ApplyMixes(p.config.explicit, w.published.value.keys);
      }
    }
  }

  /** A process that may initialise an empty directory publishes its explicit and generated values and returns them,
      exactly when they are good. */
  lemma InitialisationDecides(w: World, id: nat, generated: Keys)
    requires id in w.processes && w.processes[id].pc == Absent && w.published.None? && id !in w.temps
    ensures var p, created := w.processes[id], Exec(w, id, Create(generated));
            var keys := Apply(p.config.explicit, generated);
            && Mixes(keys, p.config.explicit, generated)
            && if !(p.config.otherwiseValid && Good(keys, p.config.production))
               then created == w.(processes := w.processes[id := p.(pc := Stopped)])
               else
                 var linked := Exec(Exec(created, id, Write), id, Link);
                 var done := Exec(Exec(linked, id, SyncDirectory), id, SecondRead);
                 && done.published == Some(Complete(keys)) && done.temps == w.temps
                 && done.processes == w.processes[id := p.(pc := Returned(keys))]
  {
    var p := w.processes[id];
    var keys := Apply(p.config.explicit, generated);
    ApplyMixes(p.config.explicit, generated);
    GoodIs(keys, p.config.production);
    if p.config.otherwiseValid && Good(keys, p.config.production) {
      Publishes(w, id, generated, keys);
      ApplyTwice(p.config.explicit, generated);
      ReadDecides(Complete(keys), p.config);
    }
  }

  lemma Publishes(w: World, id: nat, generated: Keys, keys: Keys)
    requires id in w.processes && w.processes[id].pc == Absent && w.published.None? && id !in w.temps
    requires keys == Apply(w.processes[id].config.explicit, generated)
    requires w.processes[id].config.otherwiseValid && ValidKeys(keys, w.processes[id].config.production)
    ensures var linked := Exec(Exec(Exec(w, id, Create(generated)), id, Write), id, Link);
            linked == w.(published := Some(Complete(keys)),
                         processes := w.processes[id := w.processes[id].(pc := Linked)])
  {
    var p := w.processes[id];
    var created := Exec(w, id, Create(generated));
    assert created == w.(temps := w.temps[id := Partial], processes := w.processes[id := p.(pc := Writing(keys))]);
    var written := Exec(created, id, Write);
    assert written ==
        w.(temps := w.temps[id := Complete(keys)], processes := w.processes[id := p.(pc := Written(keys))]);
  }

  lemma ApplyTwice(explicit: Keys, saved: Keys)
    ensures Apply(explicit, Apply(explicit, saved)) == Apply(explicit, saved)
  {
  }

  /** The first process on an empty directory, by itself: launched with leave to initialise and values that are not
      all explicit, it publishes good values and returns them. */
  lemma FirstProcessInitialises(id: nat, config: Config, generated: Keys)
    requires !AllExplicit(config.explicit) && config.otherwiseValid
    requires Good(Apply(config.explicit, generated), config.production)
    ensures var keys := Apply(config.explicit, generated);
            var moves := [Move(id, Launch(config, true)), Move(id, FirstRead), Move(id, Create(generated)),
                          Move(id, Write), Move(id, Link), Move(id, SyncDirectory), Move(id, SecondRead)];
            && Run(EMPTY, moves).published == Some(Complete(keys))
            && id in Run(EMPTY, moves).processes && Run(EMPTY, moves).processes[id].pc == Returned(keys)
  {
    var absent := World(None, map[], map[id := Process(config, true, Absent)]);
    var first := [Move(id, Launch(config, true)), Move(id, FirstRead)];
    var second := [Move(id, Create(generated)), Move(id, Write), Move(id, Link)];
    var third := [Move(id, SyncDirectory), Move(id, SecondRead)];
    LaunchReads(id, config, absent);
    InitialisationDecides(absent, id, generated);
    Runs.RunShort(Take, EMPTY, first[0], first[1]);
    Runs.RunThree(Take, absent, second[0], second[1], second[2]);
    Runs.RunShort(Take, Run(absent, second), third[0], third[1]);
    Runs.RunSplits(Take, EMPTY, first, second);
    Runs.RunSplits(Take, EMPTY, first + second, third);
    assert first + second + third ==
           [Move(id, Launch(config, true)), Move(id, FirstRead), Move(id, Create(generated)),
            Move(id, Write), Move(id, Link), Move(id, SyncDirectory), Move(id, SecondRead)];
  }

  lemma LaunchReads(id: nat, config: Config, absent: World)
    requires !AllExplicit(config.explicit) && absent == World(None, map[], map[id := Process(config, true, Absent)])
    ensures Exec(Exec(EMPTY, id, Launch(config, true)), id, FirstRead) == absent
  {
    var launched := Exec(EMPTY, id, Launch(config, true));
    assert launched == World(None, map[], map[id := Process(config, true, Start)]);
  }

  /** A process can fail or crash at any point before it returns, and leaves the published file as it is. */
  lemma FailsAnywhere(w: World, id: nat)
    requires id in w.processes && !w.processes[id].pc.Returned?
    ensures Exec(w, id, Fail) == w.(processes := w.processes[id := w.processes[id].(pc := Stopped)])
  {
  }
}
