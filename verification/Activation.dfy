/**
 Activating releases: installers that switch the `current` link under a journal, recover an
 interrupted switch, and prune generations, against machines starting from whatever is selected.
 A step is one change to the disk or a lock; any process may stop between any two of its steps,
 by an error or a crash, and its locks are let go some time after.
 */
module Activation {
  import opened Basics
  import opened Prune

  type Generation = string

  datatype Journal = Journal(previous: Option<Generation>, next: Generation)

  /** The public executable: none, one not yet managed, or the link through `current`. */
  datatype Bin = NoBin | OwnBin | BinLink

  /** The public payload: none, a directory from before the updater (whose contents matter), something else that is no directory, or the link through `current`. */
  datatype Share = NoShare | OwnShare(payload: nat) | StrayShare | ShareLink

  datatype Disk = Disk(
    current: Option<Generation>,
    journal: Option<Journal>,
    releases: set<Generation>,
    bin: Bin,
    share: Share,
    backup: Option<nat>
  )

  /** The installer lock, the activation lease (shared or exclusive) and the home's machine lock. */
  datatype Locks = Locks(installer: Option<nat>, exclusive: Option<nat>, shared: set<nat>, machine: Option<nat>)

  /** Why a switch is made: to recover an interrupted one, to activate a release, or to undo a failed activation. */
  datatype Purpose = Recover | Activate | Rollback

  /** What a switch does next. */
  datatype Stage =
    | NeedLease
    | NeedMachine
    | Select
    | LinkBin
    | MoveShare
    | LinkShare
    | DropMachine
    | DropLease
    | Restore
    | RemoveJournal
  {
    function Number(): nat {
      match this
      case NeedLease => 0
      case NeedMachine => 1
      case Select => 2
      case LinkBin => 3
      case MoveShare => 4
      case LinkShare => 5
      case DropMachine => 6
      case DropLease => 7
      case Restore => 8
      case RemoveJournal => 9
    }

    predicate After(other: Stage) {
      Number() > other.Number()
    }
  }

  datatype Phase =
    // Any process: not started, or gone but for the locks it may still hold.
    | Idle
    | Leaving
    // An installer.
    | Locked
    | Leased(machine: bool)
    | Prepared(machine: bool, next: Generation)
    | Adopted(machine: bool, next: Generation, previous: Option<Generation>)
    | Switching(purpose: Purpose, journal: Journal, stage: Stage)
    | Failing(journal: Journal)
    | Pruning
    | Snapped(running: set<Generation>)
    | Deleting(surplus: set<Generation>)
    // A machine, and the generation its executable is from.
    | Starting(root: Generation)
    | Leasing(root: Generation)
    | Checked(root: Generation)
    | Booting(root: Generation)
    | Up(root: Generation, leased: bool)

  datatype State = State(disk: Disk, locks: Locks, phases: map<nat, Phase>)

  datatype Lock = TheInstaller | TheExclusive | TheShared | TheMachine

  datatype Step =
    | TakeInstaller(a: nat)
    | BeginRecovery(a: nat)
    | BeginInstall(a: nat)
    | TakeMachineEarly(a: nat)
    | Prepare(a: nat, next: Generation)
    | Adopt(a: nat, legacy: Generation)
    | WriteJournal(a: nat)
    | Switch(a: nat)
    | Fail(a: nat)
    | BeginRollback(a: nat)
    | BeginPrune(a: nat)
    | Snapshot(a: nat)
    | Compute(a: nat, entries: seq<Entry>, executables: seq<Path>)
    | Delete(a: nat, gone: Generation)
    | Exec(a: nat, root: Generation)
    | TakeShared(a: nat)
    | Check(a: nat)
    | TakeMachine(a: nat)
    | Publish(a: nat)
    | DropShared(a: nat)
    | Stop(a: nat)
    | LetGo(a: nat, lock: Lock)

  /** The generation a switch selects. */
  function Target(purpose: Purpose, j: Journal): Generation {
    match purpose
    case Recover => if j.previous.Some? then j.previous.value else j.next
    case Activate => j.next
    case Rollback => if j.previous.Some? then j.previous.value else j.next
  }

  ghost predicate At(s: State, a: nat) {
    a in s.phases
  }

  ghost function Move(s: State, a: nat, phase: Phase): State {
    s.(phases := s.phases[a := phase])
  }

  // ----- Installers -----

  ghost predicate DoesInstall(s: State, step: Step, s': State) {
    match step
    case TakeInstaller(a) =>
      && At(s, a) && s.phases[a].Idle? && s.locks.installer == None
      && s' == Move(s.(locks := s.locks.(installer := Some(a))), a, Locked)
    case BeginRecovery(a) =>
      && At(s, a) && s.phases[a].Locked? && s.disk.journal.Some?
      && s' == Move(s, a, Switching(Recover, s.disk.journal.value, NeedLease))
    case BeginInstall(a) =>
      && At(s, a) && s.phases[a].Locked? && s.disk.journal.None? && s.locks.exclusive == None && s.locks.shared == {}
      && s' == Move(s.(locks := s.locks.(exclusive := Some(a))), a, Leased(false))
    case TakeMachineEarly(a) =>
      && At(s, a) && s.phases[a] == Leased(false) && s.locks.machine == None
      && s' == Move(s.(locks := s.locks.(machine := Some(a))), a, Leased(true))
    case Prepare(a, next) =>
      && At(s, a) && s.phases[a].Leased?
      && s' == Move(s.(disk := s.disk.(releases := s.disk.releases + {next})), a, Prepared(s.phases[a].machine, next))
    case Adopt(a, legacy) =>
      && At(s, a) && s.phases[a].Prepared?
      && var previous := if s.disk.current.Some? then s.disk.current else if s.disk.bin.OwnBin? then Some(legacy) else None;
         s' == Move(s.(disk := s.disk.(releases := s.disk.releases + if previous.Some? then {previous.value} else {})),
                    a, Adopted(s.phases[a].machine, s.phases[a].next, previous))
    case WriteJournal(a) =>
      && At(s, a) && s.phases[a].Adopted? && s.phases[a].previous != Some(s.phases[a].next)
      && var j := Journal(s.phases[a].previous, s.phases[a].next);
         s' == Move(s.(disk := s.disk.(journal := Some(j))), a, Switching(Activate, j, if s.phases[a].machine then Select else NeedMachine))
    case _ => false
  }

  ghost predicate TakesLock(s: State, a: nat, p: Purpose, j: Journal, stage: Stage, s': State) {
    if stage.NeedLease? then
      && s.locks.exclusive == None && s.locks.shared == {}
      && s' == Move(s.(locks := s.locks.(exclusive := Some(a))), a, Switching(p, j, NeedMachine))
    else
      s.locks.machine == None && s' == Move(s.(locks := s.locks.(machine := Some(a))), a, Switching(p, j, Select))
  }

  ghost predicate DropsLock(s: State, a: nat, p: Purpose, j: Journal, stage: Stage, s': State) {
    if stage.DropMachine? then s' == Move(s.(locks := s.locks.(machine := None)), a, Switching(p, j, DropLease))
    else s' == Move(s.(locks := s.locks.(exclusive := None)), a, Switching(p, j, Restore))
  }

  ghost predicate Selects(s: State, a: nat, p: Purpose, j: Journal, s': State) {
    s' == Move(s.(disk := s.disk.(current := Some(Target(p, j)))), a, Switching(p, j, LinkBin))
  }

  /** `public_paths`: what a step of it makes of the disk; it refuses to overwrite an earlier backup. */
  ghost predicate PublicPath(d: Disk, stage: Stage, d': Disk) {
    match stage
    case LinkBin => d' == d.(bin := BinLink)
    case MoveShare =>
      && !d.share.StrayShare?
      && if d.share.OwnShare? then d.backup.None? && d' == d.(share := NoShare, backup := Some(d.share.payload)) else d' == d
    case LinkShare => d' == d.(share := ShareLink)
    case _ => false
  }

  function NextStage(stage: Stage): Stage {
    match stage
    case LinkBin => MoveShare
    case MoveShare => LinkShare
    case _ => DropMachine
  }

  ghost predicate Publishes(s: State, a: nat, p: Purpose, j: Journal, stage: Stage, s': State) {
    PublicPath(s.disk, stage, s'.disk) && s' == Move(s.(disk := s'.disk), a, Switching(p, j, NextStage(stage)))
  }

  ghost predicate Ends(s: State, a: nat, p: Purpose, j: Journal, stage: Stage, s': State) {
    if stage.Restore? then s' == Move(s, a, Switching(p, j, RemoveJournal))
    else s' == Move(s.(disk := s.disk.(journal := None)), a, if p.Activate? then Pruning else Leaving)
  }

  /** One step of a switch: the locks, the link, the public paths, and the journal last. */
  ghost predicate DoesSwitch(s: State, a: nat, s': State) {
    && At(s, a) && s.phases[a].Switching?
    && var Switching(p, j, stage) := s.phases[a];
       match stage
       case NeedLease | NeedMachine => TakesLock(s, a, p, j, stage, s')
       case DropMachine | DropLease => DropsLock(s, a, p, j, stage, s')
       case Select => Selects(s, a, p, j, s')
       case LinkBin | MoveShare | LinkShare => Publishes(s, a, p, j, stage, s')
       case Restore | RemoveJournal => Ends(s, a, p, j, stage, s')
  }

  /** An activation that fails before its journal is removed lets its locks go, and undoes what it can. */
  ghost predicate DoesFail(s: State, step: Step, s': State) {
    match step
    case Fail(a) =>
      && At(s, a) && s.phases[a].Switching? && s.phases[a].purpose.Activate? && !s.phases[a].stage.RemoveJournal?
      && s' == Move(s, a, Failing(s.phases[a].journal))
    case BeginRollback(a) =>
      && At(s, a) && s.phases[a].Failing? && s.locks.machine != Some(a) && s.locks.exclusive != Some(a)
      && s.phases[a].journal.previous.Some?
      && s' == Move(s, a, Switching(Rollback, s.phases[a].journal, NeedLease))
    case _ => false
  }

  // ----- Pruning -----

  /** The generations processes run from. */
  ghost function RunningRoots(phases: map<nat, Phase>): set<Generation> {
    set a | a in phases && (phases[a].Starting? || phases[a].Leasing? || phases[a].Checked? || phases[a].Booting? || phases[a].Up?) ::
      phases[a].root
  }

  const RELEASES: Path := ["releases"]

  ghost predicate DoesPrune(s: State, step: Step, s': State) {
    match step
    case BeginPrune(a) =>
      && At(s, a) && s.phases[a].Locked? && s.disk.journal.None? && s.disk.current.Some?
      && s' == Move(s, a, Pruning)
    case Snapshot(a) => At(s, a) && s.phases[a].Pruning? && s' == Move(s, a, Snapped(RunningRoots(s.phases)))
    case Compute(a, entries, executables) =>
      && At(s, a) && s.phases[a].Snapped? && s.disk.current.Some?
      && (forall g :: g in s.phases[a].running ==> InUse(RELEASES + [g], executables))
      && s' == Move(s, a, Deleting(set g | g in s.disk.releases && IsSurplus(entries, RELEASES, RELEASES + [s.disk.current.value], executables, g)))
    case Delete(a, g) =>
      && At(s, a) && s.phases[a].Deleting? && g in s.phases[a].surplus
      && s' == Move(s.(disk := s.disk.(releases := s.disk.releases - {g})), a, Deleting(s.phases[a].surplus - {g}))
    case _ => false
  }

  // ----- Machines -----

  ghost predicate DoesStart(s: State, step: Step, s': State) {
    match step
    case Exec(a, root) => At(s, a) && s.phases[a].Idle? && root in s.disk.releases && s' == Move(s, a, Starting(root))
    case TakeShared(a) =>
      && At(s, a) && s.phases[a].Starting? && s.locks.exclusive == None
      && s' == Move(s.(locks := s.locks.(shared := s.locks.shared + {a})), a, Leasing(s.phases[a].root))
    case Check(a) =>
      && At(s, a) && s.phases[a].Leasing? && s.disk.current == Some(s.phases[a].root)
      && s' == Move(s, a, Checked(s.phases[a].root))
    case TakeMachine(a) =>
      && At(s, a) && s.phases[a].Checked? && s.locks.machine == None
      && s' == Move(s.(locks := s.locks.(machine := Some(a))), a, Booting(s.phases[a].root))
    case Publish(a) => At(s, a) && s.phases[a].Booting? && s' == Move(s, a, Up(s.phases[a].root, true))
    case DropShared(a) =>
      && At(s, a) && s.phases[a].Up? && s.phases[a].leased
      && s' == Move(s.(locks := s.locks.(shared := s.locks.shared - {a})), a, Up(s.phases[a].root, false))
    case _ => false
  }

  // ----- Stopping -----

  /** An error, a crash or the end: the process does nothing more, and its locks go, in any order, some time after. */
  ghost predicate DoesStop(s: State, step: Step, s': State) {
    match step
    case Stop(a) => At(s, a) && s' == Move(s, a, Leaving)
    case LetGo(a, lock) =>
      && At(s, a)
      && (match lock
         case TheInstaller => s.phases[a].Leaving? && s.locks.installer == Some(a) && s' == s.(locks := s.locks.(installer := None))
         case TheExclusive =>
           (s.phases[a].Leaving? || s.phases[a].Failing?) && s.locks.exclusive == Some(a) && s' == s.(locks := s.locks.(exclusive := None))
         case TheShared => s.phases[a].Leaving? && s' == s.(locks := s.locks.(shared := s.locks.shared - {a}))
         case TheMachine =>
           (s.phases[a].Leaving? || s.phases[a].Failing?) && s.locks.machine == Some(a) && s' == s.(locks := s.locks.(machine := None)))
    case _ => false
  }

  ghost predicate Next(s: State, step: Step, s': State) {
    match step
    case Switch(a) => DoesSwitch(s, a, s')
    case _ =>
      || DoesInstall(s, step, s') || DoesFail(s, step, s') || DoesPrune(s, step, s')
      || DoesStart(s, step, s') || DoesStop(s, step, s')
  }

  /** A prefix with no journal, whose selected generation, if any, is there; nobody holds a lock. */
  ghost predicate Start(s: State) {
    && s.locks == Locks(None, None, {}, None) && (forall a :: a in s.phases ==> s.phases[a].Idle?)
    && s.disk.journal.None? && (s.disk.current.Some? ==> s.disk.current.value in s.disk.releases)
  }

  // ----- The invariant -----

  ghost predicate Installs(phase: Phase) {
    phase.Locked? || phase.Leased? || phase.Prepared? || phase.Adopted? || phase.Switching? || phase.Failing? || phase.Pruning? || phase.Snapped? || phase.Deleting?
  }

  ghost predicate HoldsExclusive(phase: Phase) {
    phase.Leased? || phase.Prepared? || phase.Adopted? || (phase.Switching? && phase.stage.After(NeedLease) && !phase.stage.After(DropLease))
  }

  ghost predicate HoldsMachine(phase: Phase) {
    || ((phase.Leased? || phase.Prepared? || phase.Adopted?) && phase.machine)
    || (phase.Switching? && phase.stage.After(NeedMachine) && !phase.stage.After(DropMachine))
    || phase.Booting? || phase.Up?
  }

  ghost predicate HoldsShared(phase: Phase) {
    phase.Leasing? || phase.Checked? || phase.Booting? || (phase.Up? && phase.leased)
  }

  /** Past its check and not yet free of its lease. */
  ghost predicate Admitted(phase: Phase) {
    phase.Checked? || phase.Booting? || (phase.Up? && phase.leased)
  }

  /** Past its check: a machine, or about to be one. */
  ghost predicate IsMachine(phase: Phase) {
    phase.Checked? || phase.Booting? || phase.Up?
  }

  ghost predicate LocksOk(locks: Locks, a: nat, phase: Phase) {
    && (Installs(phase) ==> locks.installer == Some(a))
    && (HoldsExclusive(phase) ==> locks.exclusive == Some(a))
    && (HoldsMachine(phase) ==> locks.machine == Some(a))
    && (HoldsShared(phase) ==> a in locks.shared)
  }

  ghost predicate DiskOk(d: Disk) {
    && (d.current.Some? ==> d.current.value in d.releases)
    && (d.journal.Some? ==> JournalOk(d, d.journal.value))
  }

  /** What a journal on disk says of the disk. */
  ghost predicate JournalOk(d: Disk, j: Journal) {
    && j.next in d.releases && (j.previous.Some? ==> j.previous.value in d.releases)
    && j.previous != Some(j.next)
    && (d.current == None || d.current == j.previous || d.current == Some(j.next))
  }

  ghost predicate PhaseOk(d: Disk, phase: Phase) {
    match phase
    case Leased(_) => d.journal.None?
    case Prepared(_, next) => d.journal.None? && next in d.releases
    case Adopted(_, next, previous) =>
      && d.journal.None? && next in d.releases && (previous.Some? ==> previous.value in d.releases)
      && (d.current == None || d.current == previous)
    case Switching(p, j, stage) =>
      && d.journal == Some(j) && (p.Rollback? ==> j.previous.Some?)
      && (stage.After(Select) ==> d.current == Some(Target(p, j)))
      && (stage.After(LinkBin) ==> d.bin.BinLink?)
      && (stage.After(MoveShare) ==> !d.share.OwnShare? && !d.share.StrayShare?)
      && (stage.After(LinkShare) ==> d.share.ShareLink?)
    case Failing(j) => d.journal == Some(j)
    case Pruning | Snapped(_) => d.journal.None? && d.current.Some?
    case Deleting(surplus) => d.journal.None? && d.current.Some? && d.current.value !in surplus
    case Checked(root) => d.current == Some(root)
    case Booting(root) => d.current == Some(root)
    case Up(root, leased) => (leased ==> d.current == Some(root)) && root in d.releases
    case _ => true
  }

  /** A pruner knows of every machine, but for those that started since from what is selected. */
  ghost predicate Spares(d: Disk, pruner: Phase, machine: Phase) {
    IsMachine(machine) ==>
      match pruner
      case Snapped(running) => machine.root in running || d.current == Some(machine.root)
      case Deleting(surplus) => machine.root !in surplus
      case _ => true
  }

  ghost predicate Inv(s: State) {
    && DiskOk(s.disk)
    && (s.locks.exclusive.Some? ==> s.locks.shared == {})
    && (forall a :: a in s.phases ==> LocksOk(s.locks, a, s.phases[a]) && PhaseOk(s.disk, s.phases[a]))
    && (forall a, b :: a in s.phases && b in s.phases ==> Spares(s.disk, s.phases[a], s.phases[b]))
  }

  // ----- Every step keeps it -----

  lemma LockingKeeps(s: State, step: Step, s': State)
    requires Inv(s) && DoesInstall(s, step, s') && (step.TakeInstaller? || step.BeginInstall? || step.TakeMachineEarly?)
    ensures Inv(s')
  {
  }

  lemma PreparingKeeps(s: State, step: Step, s': State)
    requires Inv(s) && DoesInstall(s, step, s') && (step.BeginRecovery? || step.Prepare?)
    ensures Inv(s')
  {
  }

  lemma JournalKeeps(s: State, step: Step, s': State)
    requires Inv(s) && DoesInstall(s, step, s') && step.WriteJournal?
    ensures Inv(s')
  {
  }

  lemma AdoptKeeps(s: State, step: Step, s': State)
    requires Inv(s) && DoesInstall(s, step, s') && step.Adopt?
    ensures Inv(s')
  {
  }

  /** The only step that changes `current`: with the lease held exclusively no machine is between its check and its publish. */
  lemma SelectKeeps(s: State, a: nat, p: Purpose, j: Journal, s': State)
    requires Inv(s) && At(s, a) && s.phases[a] == Switching(p, j, Select) && Selects(s, a, p, j, s')
    ensures Inv(s')
  {
    assert s.locks.shared == {};
  }

  /** One installer at a time. */
  lemma OneInstaller(s: State, a: nat, b: nat)
    requires Inv(s) && At(s, a) && At(s, b) && Installs(s.phases[a]) && Installs(s.phases[b])
    ensures a == b
  {
    assert LocksOk(s.locks, a, s.phases[a]) && LocksOk(s.locks, b, s.phases[b]);
  }

  /** What a step of one process keeps, if it does not move the link, the journal, the generations or a lock. */
  lemma QuietKeeps(s: State, a: nat, s': State)
    requires Inv(s) && At(s, a) && At(s', a) && s'.locks == s.locks && s'.phases == s.phases[a := s'.phases[a]]
    requires s'.disk.current == s.disk.current && s'.disk.journal == s.disk.journal && s'.disk.releases == s.disk.releases
    requires s'.disk == s.disk || Installs(s.phases[a])
    requires LocksOk(s.locks, a, s'.phases[a]) && PhaseOk(s'.disk, s'.phases[a]) && !IsMachine(s'.phases[a])
    requires !s'.phases[a].Snapped? && !s'.phases[a].Deleting?
    ensures Inv(s')
  {
    forall b | At(s', b)
      ensures LocksOk(s'.locks, b, s'.phases[b]) && PhaseOk(s'.disk, s'.phases[b])
    {
      if b != a && s'.disk != s.disk && Installs(s.phases[b]) {
        OneInstaller(s, a, b);
      }
    }
  }

  lemma PublicPathsKeep(s: State, a: nat, p: Purpose, j: Journal, stage: Stage, s': State)
    requires Inv(s) && At(s, a) && s.phases[a] == Switching(p, j, stage) && stage in {LinkBin, MoveShare, LinkShare}
    requires Publishes(s, a, p, j, stage, s')
    ensures Inv(s')
  {
    assert LocksOk(s.locks, a, s.phases[a]) && PhaseOk(s.disk, s.phases[a]);
    QuietKeeps(s, a, s');
  }

  lemma TakingKeeps(s: State, a: nat, p: Purpose, j: Journal, stage: Stage, s': State)
    requires Inv(s) && At(s, a) && s.phases[a] == Switching(p, j, stage) && stage in {NeedLease, NeedMachine}
    requires TakesLock(s, a, p, j, stage, s')
    ensures Inv(s')
  {
  }

  lemma DroppingMachineKeeps(s: State, a: nat, p: Purpose, j: Journal, s': State)
    requires Inv(s) && At(s, a) && s.phases[a] == Switching(p, j, DropMachine) && DropsLock(s, a, p, j, DropMachine, s')
    ensures Inv(s')
  {
  }

  lemma DroppingLeaseKeeps(s: State, a: nat, p: Purpose, j: Journal, s': State)
    requires Inv(s) && At(s, a) && s.phases[a] == Switching(p, j, DropLease) && DropsLock(s, a, p, j, DropLease, s')
    ensures Inv(s')
  {
  }

  lemma RestoreKeeps(s: State, a: nat, p: Purpose, j: Journal, s': State)
    requires Inv(s) && At(s, a) && s.phases[a] == Switching(p, j, Restore) && Ends(s, a, p, j, Restore, s')
    ensures Inv(s')
  {
    assert LocksOk(s.locks, a, s.phases[a]) && PhaseOk(s.disk, s.phases[a]);
    QuietKeeps(s, a, s');
  }

  lemma RemoveJournalKeeps(s: State, a: nat, p: Purpose, j: Journal, s': State)
    requires Inv(s) && At(s, a) && s.phases[a] == Switching(p, j, RemoveJournal) && Ends(s, a, p, j, RemoveJournal, s')
    ensures Inv(s')
  {
    forall b | At(s', b) && b != a
      ensures PhaseOk(s'.disk, s'.phases[b])
    {
      if Installs(s.phases[b]) {
        OneInstaller(s, a, b);
      }
    }
  }

  lemma SwitchKeeps(s: State, a: nat, s': State)
    requires Inv(s) && DoesSwitch(s, a, s')
    ensures Inv(s')
  {
    var Switching(p, j, stage) := s.phases[a];
    match stage
    case Select => SelectKeeps(s, a, p, j, s');
    case LinkBin | MoveShare | LinkShare => PublicPathsKeep(s, a, p, j, stage, s');
    case NeedLease | NeedMachine => TakingKeeps(s, a, p, j, stage, s');
    case DropMachine => DroppingMachineKeeps(s, a, p, j, s');
    case DropLease => DroppingLeaseKeeps(s, a, p, j, s');
    case Restore => RestoreKeeps(s, a, p, j, s');
    case RemoveJournal => RemoveJournalKeeps(s, a, p, j, s');
  }

  lemma FailKeeps(s: State, step: Step, s': State)
    requires Inv(s) && DoesFail(s, step, s')
    ensures Inv(s')
  {
    assert LocksOk(s.locks, step.a, s.phases[step.a]) && PhaseOk(s.disk, s.phases[step.a]);
    QuietKeeps(s, step.a, s');
  }

  lemma SnapshotKeeps(s: State, step: Step, s': State)
    requires Inv(s) && DoesPrune(s, step, s') && (step.BeginPrune? || step.Snapshot?)
    ensures Inv(s')
  {
  }

  lemma DeletingKeeps(s: State, step: Step, s': State)
    requires Inv(s) && DoesPrune(s, step, s') && (step.Compute? || step.Delete?)
    ensures Inv(s')
  {
  }

  lemma ExecKeeps(s: State, a: nat, root: Generation, s': State)
    requires Inv(s) && DoesStart(s, Exec(a, root), s')
    ensures Inv(s')
  {
    QuietKeeps(s, a, s');
  }

  lemma LeasingKeeps(s: State, a: nat, s': State)
    requires Inv(s) && DoesStart(s, TakeShared(a), s')
    ensures Inv(s')
  {
  }

  lemma CheckKeeps(s: State, a: nat, s': State)
    requires Inv(s) && DoesStart(s, Check(a), s')
    ensures Inv(s')
  {
  }

  lemma BootKeeps(s: State, a: nat, s': State)
    requires Inv(s) && DoesStart(s, TakeMachine(a), s')
    ensures Inv(s')
  {
  }

  lemma UpKeeps(s: State, step: Step, s': State)
    requires Inv(s) && DoesStart(s, step, s') && (step.Publish? || step.DropShared?)
    ensures Inv(s')
  {
  }

  lemma StopKeeps(s: State, a: nat, s': State)
    requires Inv(s) && DoesStop(s, Stop(a), s')
    ensures Inv(s')
  {
    QuietKeeps(s, a, s');
  }

  lemma LetGoKeeps(s: State, a: nat, lock: Lock, s': State)
    requires Inv(s) && DoesStop(s, LetGo(a, lock), s')
    ensures Inv(s')
  {
    forall b | At(s', b)
      ensures LocksOk(s'.locks, b, s'.phases[b])
    {
      assert LocksOk(s.locks, b, s.phases[b]);
    }
  }

  lemma StepKeeps(s: State, step: Step, s': State)
    requires Inv(s) && Next(s, step, s')
    ensures Inv(s')
  {
    match step
    case Switch(a) => SwitchKeeps(s, a, s');
    case TakeInstaller(_) | BeginInstall(_) | TakeMachineEarly(_) => LockingKeeps(s, step, s');
    case BeginRecovery(_) | Prepare(_, _) => PreparingKeeps(s, step, s');
    case Adopt(_, _) => AdoptKeeps(s, step, s');
    case WriteJournal(_) => JournalKeeps(s, step, s');
    case Fail(_) | BeginRollback(_) => FailKeeps(s, step, s');
    case BeginPrune(_) | Snapshot(_) => SnapshotKeeps(s, step, s');
    case Compute(_, _, _) | Delete(_, _) => DeletingKeeps(s, step, s');
    case Exec(a, root) => ExecKeeps(s, a, root, s');
    case TakeShared(a) => LeasingKeeps(s, a, s');
    case Check(a) => CheckKeeps(s, a, s');
    case TakeMachine(a) => BootKeeps(s, a, s');
    case Publish(_) | DropShared(_) => UpKeeps(s, step, s');
    case Stop(a) => StopKeeps(s, a, s');
    case LetGo(a, lock) => LetGoKeeps(s, a, lock, s');
  }

  // ----- Every run -----

  ghost predicate IsRun(states: seq<State>, steps: seq<Step>) {
    && |states| == |steps| + 1 && Start(states[0])
    && forall i :: 0 <= i < |steps| ==> Next(states[i], steps[i], states[i + 1])
  }

  lemma {:induction false} RunKeeps(states: seq<State>, steps: seq<Step>, n: nat)
    requires IsRun(states, steps) && n <= |steps|
    ensures Inv(states[n])
  {
    if n > 0 {
      RunKeeps(states, steps, n - 1);
      StepKeeps(states[n - 1], steps[n - 1], states[n]);
    }
  }

  /**
   Whatever was interrupted and wherever: a journal on disk means that `current` is absent, the
   previous generation or the next, and that both generations it names are there.
   */
  lemma JournalCovers(states: seq<State>, steps: seq<Step>, n: nat)
    requires IsRun(states, steps) && n <= |steps| && states[n].disk.journal.Some?
    ensures JournalOk(states[n].disk, states[n].disk.journal.value)
  {
    RunKeeps(states, steps, n);
  }

  /** A recovery that completes has selected the previous generation, or the next if there was none, and its last act is to remove the journal. */
  lemma RecoveryCompletes(states: seq<State>, steps: seq<Step>, n: nat, a: nat, j: Journal)
    requires IsRun(states, steps) && n < |steps| && steps[n] == Switch(a)
    requires At(states[n], a) && states[n].phases[a] == Switching(Recover, j, RemoveJournal)
    ensures states[n].disk.journal == Some(j) && states[n + 1].disk.journal == None
    ensures states[n + 1].disk.current == Some(if j.previous.Some? then j.previous.value else j.next)
    ensures states[n + 1].disk.current.value in states[n + 1].disk.releases
    ensures states[n + 1].disk.bin == BinLink && states[n + 1].disk.share == ShareLink
  {
    RunKeeps(states, steps, n);
    RunKeeps(states, steps, n + 1);
    assert Next(states[n], steps[n], states[n + 1]);
  }

  // ----- What an activation is of -----

  /** At work on installing `next`: staged and not yet given up. */
  ghost predicate Installing(phase: Phase, next: Generation) {
    match phase
    case Prepared(_, n) => n == next
    case Adopted(_, n, _) => n == next
    case Switching(p, j, _) => !p.Recover? && j.next == next
    case Failing(j) => j.next == next
    case _ => false
  }

  /** The same, with what it would fall back to. */
  ghost predicate Replacing(phase: Phase, previous: Option<Generation>, next: Generation) {
    match phase
    case Adopted(_, n, p) => n == next && p == previous
    case Switching(p, j, _) => !p.Recover? && j == Journal(previous, next)
    case Failing(j) => j == Journal(previous, next)
    case _ => false
  }

  /** A step is one process's: no other is anywhere else after it. */
  lemma OthersStay(s: State, step: Step, s': State, b: nat)
    requires Next(s, step, s') && b != step.a
    ensures (At(s', b) <==> At(s, b)) && (At(s, b) ==> s'.phases[b] == s.phases[b])
  {
  }

  lemma SwitchStays(s: State, a: nat, s': State, next: Generation)
    requires DoesSwitch(s, a, s') && Installing(s'.phases[a], next)
    ensures Installing(s.phases[a], next)
    ensures s'.phases[a].Switching? && s.phases[a].Switching? && s'.phases[a].purpose == s.phases[a].purpose && s'.phases[a].journal == s.phases[a].journal
  {
  }

  lemma OthersInstallNothing(s: State, step: Step, s': State, next: Generation)
    requires DoesPrune(s, step, s') || DoesStart(s, step, s') || DoesStop(s, step, s')
    requires At(s', step.a) && Installing(s'.phases[step.a], next)
    ensures At(s, step.a) && s.phases[step.a] == s'.phases[step.a]
  {
  }

  lemma InstallsByPrepare(s: State, step: Step, s': State, a: nat, next: Generation)
    requires Next(s, step, s') && At(s', a) && Installing(s'.phases[a], next)
    ensures step == Prepare(a, next) || (At(s, a) && Installing(s.phases[a], next))
  {
    if a != step.a {
      OthersStay(s, step, s', a);
    } else if step.Switch? {
      SwitchStays(s, a, s', next);
    } else if DoesPrune(s, step, s') || DoesStart(s, step, s') || DoesStop(s, step, s') {
      OthersInstallNothing(s, step, s', next);
    }
  }

  lemma ReplacesByAdopt(s: State, step: Step, s': State, a: nat, previous: Option<Generation>, next: Generation)
    requires Next(s, step, s') && At(s', a) && Replacing(s'.phases[a], previous, next)
    ensures || (At(s, a) && Replacing(s.phases[a], previous, next))
            || (step.Adopt? && step.a == a && At(s, a) && Installing(s.phases[a], next) && previous == Replaced(s.disk, step.legacy))
  {
    assert Installing(s'.phases[a], next);
    if a != step.a {
      OthersStay(s, step, s', a);
    } else if step.Switch? {
      SwitchStays(s, a, s', next);
    } else if DoesPrune(s, step, s') || DoesStart(s, step, s') || DoesStop(s, step, s') {
      OthersInstallNothing(s, step, s', next);
    }
  }

  /** What is replaced: the selected generation, else an executable from before the updater under its adopted name. */
  ghost function Replaced(d: Disk, legacy: Generation): Option<Generation> {
    if d.current.Some? then d.current else if d.bin.OwnBin? then Some(legacy) else None
  }

  lemma {:induction false} FindPrepare(states: seq<State>, steps: seq<Step>, n: nat, a: nat, next: Generation) returns (m: nat)
    requires IsRun(states, steps) && n <= |steps| && At(states[n], a) && Installing(states[n].phases[a], next)
    ensures m < n && steps[m] == Prepare(a, next)
  {
    if n > 0 {
      assert Next(states[n - 1], steps[n - 1], states[n]);
      InstallsByPrepare(states[n - 1], steps[n - 1], states[n], a, next);
      m := n - 1;
      if steps[n - 1] != Prepare(a, next) {
        m := FindPrepare(states, steps, n - 1, a, next);
      }
    }
  }

  /** Process `a` staged `next` at step `p` and found `previous` in its place at step `m`. */
  ghost predicate Staged(states: seq<State>, steps: seq<Step>, n: nat, a: nat, j: Journal, p: nat, m: nat)
    requires IsRun(states, steps) && n <= |steps|
  {
    && p < m < n && steps[p] == Prepare(a, j.next) && steps[m].Adopt? && steps[m].a == a
    && (states[m].disk.current.Some? ==> j.previous == states[m].disk.current)
    && (states[m].disk.current.None? && states[m].disk.bin.OwnBin? ==> j.previous == Some(steps[m].legacy))
    && (states[m].disk.current.None? && !states[m].disk.bin.OwnBin? ==> j.previous == None)
  }

  lemma {:induction false} FindAdopt(states: seq<State>, steps: seq<Step>, n: nat, a: nat, j: Journal) returns (p: nat, m: nat)
    requires IsRun(states, steps) && n <= |steps| && At(states[n], a) && Replacing(states[n].phases[a], j.previous, j.next)
    ensures Staged(states, steps, n, a, j, p, m)
  {
    if n > 0 {
      assert Next(states[n - 1], steps[n - 1], states[n]);
      ReplacesByAdopt(states[n - 1], steps[n - 1], states[n], a, j.previous, j.next);
      if At(states[n - 1], a) && Replacing(states[n - 1].phases[a], j.previous, j.next) {
        p, m := FindAdopt(states, steps, n - 1, a, j);
      } else {
        m := n - 1;
        p := FindPrepare(states, steps, n - 1, a, j.next);
      }
    }
  }

  lemma JournalByWriting(s: State, step: Step, s': State)
    requires Next(s, step, s') && s'.disk.journal.Some?
    ensures || s.disk.journal == s'.disk.journal
            || (step.WriteJournal? && At(s, step.a) && Replacing(s.phases[step.a], s'.disk.journal.value.previous, s'.disk.journal.value.next))
  {
  }

  /** Every journal found on disk is of some process's activation: it names what that staged, and what it found selected. */
  lemma {:induction false} JournalOrigin(states: seq<State>, steps: seq<Step>, n: nat) returns (a: nat, p: nat, m: nat)
    requires IsRun(states, steps) && n <= |steps| && states[n].disk.journal.Some?
    ensures Staged(states, steps, n, a, states[n].disk.journal.value, p, m)
  {
    if n > 0 {
      var j := states[n].disk.journal.value;
      assert Next(states[n - 1], steps[n - 1], states[n]);
      JournalByWriting(states[n - 1], steps[n - 1], states[n]);
      if states[n - 1].disk.journal == states[n].disk.journal {
        a, p, m := JournalOrigin(states, steps, n - 1);
      } else {
        a := steps[n - 1].a;
        p, m := FindAdopt(states, steps, n - 1, a, j);
      }
    }
  }

  /** An activation that completes has selected the release that the same process staged, and its last act is to remove the journal. */
  lemma ActivationCompletes(states: seq<State>, steps: seq<Step>, n: nat, a: nat, j: Journal) returns (p: nat, m: nat)
    requires IsRun(states, steps) && n < |steps| && steps[n] == Switch(a)
    requires At(states[n], a) && states[n].phases[a] == Switching(Activate, j, RemoveJournal)
    ensures states[n].disk.journal == Some(j) && states[n + 1].disk.journal == None
    ensures states[n + 1].disk.current == Some(j.next) && j.next in states[n + 1].disk.releases
    ensures states[n + 1].disk.bin == BinLink && states[n + 1].disk.share == ShareLink
    ensures Staged(states, steps, n, a, j, p, m)
  {
    RunKeeps(states, steps, n);
    RunKeeps(states, steps, n + 1);
    assert Next(states[n], steps[n], states[n + 1]);
    p, m := FindAdopt(states, steps, n, a, j);
  }

  /** A rollback that completes has selected again what its activation found selected. */
  lemma RollbackCompletes(states: seq<State>, steps: seq<Step>, n: nat, a: nat, j: Journal) returns (p: nat, m: nat)
    requires IsRun(states, steps) && n < |steps| && steps[n] == Switch(a)
    requires At(states[n], a) && states[n].phases[a] == Switching(Rollback, j, RemoveJournal)
    ensures states[n].disk.journal == Some(j) && states[n + 1].disk.journal == None
    ensures j.previous.Some? && states[n + 1].disk.current == j.previous && j.previous.value in states[n + 1].disk.releases
    ensures states[n + 1].disk.bin == BinLink && states[n + 1].disk.share == ShareLink
    ensures Staged(states, steps, n, a, j, p, m)
  {
    RunKeeps(states, steps, n);
    RunKeeps(states, steps, n + 1);
    assert Next(states[n], steps[n], states[n + 1]);
    p, m := FindAdopt(states, steps, n, a, j);
  }

  lemma OnlySelectChangesCurrent(s: State, step: Step, s': State)
    requires Next(s, step, s') && s'.disk.current != s.disk.current
    ensures step.Switch? && At(s, step.a) && s.phases[step.a].Switching? && s.phases[step.a].stage.Select?
  {
  }

  /** `current` changes only under both the exclusive lease and the home's machine lock. */
  lemma SelectsUnderBothLocks(states: seq<State>, steps: seq<Step>, n: nat)
    requires IsRun(states, steps) && n < |steps| && states[n + 1].disk.current != states[n].disk.current
    ensures steps[n].Switch? && states[n].locks.exclusive == states[n].locks.machine == Some(steps[n].a)
    ensures states[n].locks.installer == Some(steps[n].a) && states[n].disk.journal.Some?
  {
    RunKeeps(states, steps, n);
    assert Next(states[n], steps[n], states[n + 1]);
    OnlySelectChangesCurrent(states[n], steps[n], states[n + 1]);
  }

  lemma OthersAdmitNobody(s: State, step: Step, s': State, a: nat)
    requires Next(s, step, s') && !DoesStart(s, step, s') && At(s', a) && Admitted(s'.phases[a])
    ensures At(s, a) && s.phases[a] == s'.phases[a]
  {
  }

  lemma StartAdmits(s: State, step: Step, s': State, a: nat)
    requires DoesStart(s, step, s') && At(s', a) && Admitted(s'.phases[a])
    ensures At(s, a)
    ensures if Admitted(s.phases[a]) then s'.phases[a].root == s.phases[a].root
            else step == Check(a) && s.disk.current == Some(s'.phases[a].root)
  {
  }

  /** A machine is past its check only by its check, and keeps its generation until it lets its lease go. */
  lemma AdmittedByCheck(s: State, step: Step, s': State, a: nat)
    requires Next(s, step, s') && At(s', a) && Admitted(s'.phases[a])
    ensures At(s, a)
    ensures if Admitted(s.phases[a]) then s'.phases[a].root == s.phases[a].root
            else step == Check(a) && s.disk.current == Some(s'.phases[a].root)
  {
    if DoesStart(s, step, s') {
      StartAdmits(s, step, s', a);
    } else {
      OthersAdmitNobody(s, step, s', a);
    }
  }

  /** Where the check was of a machine that is past it. */
  lemma {:induction false} FindCheck(states: seq<State>, steps: seq<Step>, n: nat, a: nat) returns (m: nat)
    requires IsRun(states, steps) && n <= |steps| && At(states[n], a) && Admitted(states[n].phases[a])
    ensures m < n && steps[m] == Check(a) && states[m].disk.current == Some(states[n].phases[a].root)
    ensures forall i :: m < i <= n ==> At(states[i], a) && Admitted(states[i].phases[a]) && states[i].phases[a].root == states[n].phases[a].root
  {
    if n > 0 {
      assert Next(states[n - 1], steps[n - 1], states[n]);
      AdmittedByCheck(states[n - 1], steps[n - 1], states[n], a);
      m := n - 1;
      if Admitted(states[n - 1].phases[a]) {
        m := FindCheck(states, steps, n - 1, a);
      }
    }
  }

  lemma AdmittedIsSelected(states: seq<State>, steps: seq<Step>, i: nat, a: nat)
    requires IsRun(states, steps) && i <= |steps| && At(states[i], a) && Admitted(states[i].phases[a])
    ensures states[i].disk.current == Some(states[i].phases[a].root) && states[i].phases[a].root in states[i].disk.releases
  {
    RunKeeps(states, steps, i);
  }

  /** A machine that publishes checked its generation under its lease, and that generation stayed selected, and on disk, until it published. */
  lemma PublishesWhatIsSelected(states: seq<State>, steps: seq<Step>, n: nat, a: nat) returns (m: nat, root: Generation)
    requires IsRun(states, steps) && n < |steps| && steps[n] == Publish(a)
    ensures m < n && steps[m] == Check(a)
    ensures forall i :: m <= i <= n + 1 ==> states[i].disk.current == Some(root) && root in states[i].disk.releases
    ensures At(states[n + 1], a) && states[n + 1].phases[a] == Up(root, true)
  {
    assert Next(states[n], steps[n], states[n + 1]);
    m := FindCheck(states, steps, n + 1, a);
    root := states[n + 1].phases[a].root;
    assert m != n;
    RunKeeps(states, steps, m);
    forall i | m < i <= n + 1
      ensures states[i].disk.current == Some(root) && root in states[i].disk.releases
    {
      AdmittedIsSelected(states, steps, i, a);
    }
  }

  // ----- Pruning -----

  lemma OnlyDeleteDeletes(s: State, step: Step, s': State, g: Generation)
    requires Next(s, step, s') && g in s.disk.releases && g !in s'.disk.releases
    ensures step.Delete? && step.gone == g && At(s, step.a) && s.phases[step.a].Deleting? && g in s.phases[step.a].surplus
  {
  }

  /**
   No run of installs, prunes and crashes deletes a generation a journal names, the selected one,
   or one that a machine past its check runs from: a generation goes only while no journal exists.
   */
  lemma DeletesNothingNeeded(states: seq<State>, steps: seq<Step>, n: nat, g: Generation)
    requires IsRun(states, steps) && n < |steps| && g in states[n].disk.releases && g !in states[n + 1].disk.releases
    ensures states[n].disk.journal == None && states[n + 1].disk.journal == None
    ensures states[n].disk.current != Some(g) && states[n].disk.current.Some?
    ensures forall b :: At(states[n], b) && IsMachine(states[n].phases[b]) ==> states[n].phases[b].root != g
  {
    RunKeeps(states, steps, n);
    assert Next(states[n], steps[n], states[n + 1]);
    OnlyDeleteDeletes(states[n], steps[n], states[n + 1], g);
    forall b | At(states[n], b) && IsMachine(states[n].phases[b])
      ensures states[n].phases[b].root != g
    {
      assert Spares(states[n].disk, states[n].phases[steps[n].a], states[n].phases[b]);
    }
  }

  /** So every generation a machine runs from, and every one a journal names, is there. */
  lemma NeededIsThere(states: seq<State>, steps: seq<Step>, n: nat, b: nat)
    requires IsRun(states, steps) && n <= |steps| && At(states[n], b) && IsMachine(states[n].phases[b])
    ensures states[n].phases[b].root in states[n].disk.releases
  {
    RunKeeps(states, steps, n);
  }

  /** Still to be deleted, or gone. */
  ghost predicate Doomed(s: State, a: nat, g: Generation) {
    At(s, a) && s.phases[a].Deleting? && (g in s.disk.releases ==> g in s.phases[a].surplus)
  }

  lemma OnlyInstallersAdd(s: State, step: Step, s': State, g: Generation)
    requires Next(s, step, s') && g !in s.disk.releases && g in s'.disk.releases
    ensures (step.Prepare? || step.Adopt?) && At(s, step.a) && Installs(s.phases[step.a]) && !s.phases[step.a].Deleting?
  {
  }

  /** While one installer deletes, no other adds. */
  lemma NothingAdded(s: State, step: Step, s': State, a: nat, g: Generation)
    requires Inv(s) && Next(s, step, s') && At(s, a) && s.phases[a].Deleting? && g in s'.disk.releases
    ensures g in s.disk.releases
  {
    if g !in s.disk.releases {
      OnlyInstallersAdd(s, step, s', g);
      OneInstallerAtWork(s, a, step.a);
    }
  }

  lemma OneInstallerAtWork(s: State, a: nat, b: nat)
    requires Inv(s) && At(s, a) && At(s, b) && Installs(s.phases[a]) && Installs(s.phases[b])
    ensures a == b
  {
    assert LocksOk(s.locks, a, s.phases[a]) && LocksOk(s.locks, b, s.phases[b]);
  }

  lemma DeletesOneByOne(s: State, step: Step, s': State, g: Generation)
    requires Next(s, step, s') && At(s, step.a) && s.phases[step.a].Deleting? && At(s', step.a) && s'.phases[step.a].Deleting?
    requires g in s'.disk.releases && g in s.phases[step.a].surplus
    ensures g in s'.phases[step.a].surplus
  {
  }

  lemma DoomedStep(s: State, step: Step, s': State, a: nat, g: Generation)
    requires Inv(s) && Next(s, step, s') && Doomed(s, a, g) && At(s', a) && s'.phases[a].Deleting?
    ensures Doomed(s', a, g)
  {
    if g in s'.disk.releases {
      NothingAdded(s, step, s', a, g);
      if step.a == a {
        DeletesOneByOne(s, step, s', g);
      } else {
        OthersStay(s, step, s', a);
      }
    }
  }

  lemma DoomedNext(states: seq<State>, steps: seq<Step>, n: nat, a: nat, g: Generation)
    requires IsRun(states, steps) && n < |steps| && Doomed(states[n], a, g)
    requires At(states[n + 1], a) && states[n + 1].phases[a].Deleting?
    ensures Doomed(states[n + 1], a, g)
  {
    RunKeeps(states, steps, n);
    DoomedStep(states[n], steps[n], states[n + 1], a, g);
  }

  lemma {:induction false} DoomedUntil(states: seq<State>, steps: seq<Step>, m: nat, n: nat, a: nat, g: Generation)
    requires IsRun(states, steps) && m <= n <= |steps| && Doomed(states[m], a, g)
    requires forall i :: m <= i <= n ==> At(states[i], a) && states[i].phases[a].Deleting?
    ensures Doomed(states[n], a, g)
    decreases n
  {
    if m < n {
      DoomedUntil(states, steps, m, n - 1, a, g);
      DoomedNext(states, steps, n - 1, a, g);
    }
  }

  /** A prune that has deleted all it meant to has left nothing on disk of what was surplus when it looked, whatever else went on. */
  lemma PruneCompletes(states: seq<State>, steps: seq<Step>, m: nat, n: nat, a: nat, g: Generation)
    requires IsRun(states, steps) && m < n <= |steps| && steps[m].Compute? && steps[m].a == a
    requires forall i :: m < i <= n ==> At(states[i], a) && states[i].phases[a].Deleting?
    requires At(states[n], a) && states[n].phases[a] == Deleting({})
    requires states[m].disk.current.Some?
    requires IsSurplus(steps[m].entries, RELEASES, RELEASES + [states[m].disk.current.value], steps[m].executables, g)
    ensures g !in states[n].disk.releases
  {
    assert Next(states[m], steps[m], states[m + 1]);
    assert Doomed(states[m + 1], a, g);
    DoomedUntil(states, steps, m + 1, n, a, g);
  }

  // ----- Public paths -----

  /** The payload from before the updater, wherever it is. */
  ghost function Legacy(d: Disk): Option<nat> {
    if d.share.OwnShare? then Some(d.share.payload) else d.backup
  }

  /** `public_paths` can go on from here: what is in its way is a payload, and there is no earlier one where that goes. */
  predicate CanMove(d: Disk) {
    !d.share.StrayShare? && !(d.share.OwnShare? && d.backup.Some?)
  }

  /** A whole run of `public_paths`, by the disks between its steps. */
  ghost predicate PublicPaths(d: Disk, e: Disk, f: Disk, g: Disk) {
    PublicPath(d, LinkBin, e) && PublicPath(e, MoveShare, f) && PublicPath(f, LinkShare, g)
  }

  /** `public_paths` completes exactly when neither a stray file nor an earlier backup is in its way, and then the public paths lead through `current`. */
  lemma PublicPathsComplete(d: Disk)
    ensures CanMove(d) <==> exists e, f, g :: PublicPaths(d, e, f, g)
    ensures forall e, f, g :: PublicPaths(d, e, f, g) ==> g.bin.BinLink? && g.share.ShareLink? && g.current == d.current && Legacy(g) == Legacy(d)
  {
    if CanMove(d) {
      var e := d.(bin := BinLink);
      var f := if e.share.OwnShare? then e.(share := NoShare, backup := Some(e.share.payload)) else e;
      var g := f.(share := ShareLink);
      assert PublicPaths(d, e, f, g);
    }
  }

  /** Stopped after any of its steps it can be run again from its start, with nothing lost. */
  lemma PublicPathsRerun(d: Disk, stage: Stage, d': Disk)
    requires CanMove(d) && PublicPath(d, stage, d')
    requires stage.LinkShare? ==> !d.share.OwnShare?
    ensures CanMove(d') && Legacy(d') == Legacy(d)
    ensures exists e, f, g :: PublicPaths(d', e, f, g)
  {
    PublicPathsComplete(d');
  }

  lemma OnlySwitchMovesShare(s: State, step: Step, s': State)
    requires Next(s, step, s') && !step.Switch?
    ensures s'.disk.share == s.disk.share && s'.disk.backup == s.disk.backup
  {
  }

  lemma SwitchKeepsLegacy(s: State, a: nat, s': State)
    requires DoesSwitch(s, a, s') && PhaseOk(s.disk, s.phases[a]) && CanMove(s.disk)
    ensures CanMove(s'.disk) && Legacy(s'.disk) == Legacy(s.disk)
  {
  }

  lemma StepKeepsLegacy(s: State, step: Step, s': State)
    requires Inv(s) && Next(s, step, s') && CanMove(s.disk)
    ensures CanMove(s'.disk) && Legacy(s'.disk) == Legacy(s.disk)
  {
    if step.Switch? {
      SwitchKeepsLegacy(s, step.a, s');
    } else {
      OnlySwitchMovesShare(s, step, s');
    }
  }

  /** No run loses a payload from before the updater, nor comes to where its public paths cannot be made. */
  lemma {:induction false} LegacyIsKept(states: seq<State>, steps: seq<Step>, n: nat)
    requires IsRun(states, steps) && n <= |steps| && CanMove(states[0].disk)
    ensures CanMove(states[n].disk) && Legacy(states[n].disk) == Legacy(states[0].disk)
  {
    if n > 0 {
      LegacyIsKept(states, steps, n - 1);
      RunKeeps(states, steps, n - 1);
      StepKeepsLegacy(states[n - 1], steps[n - 1], states[n]);
    }
  }

  // ----- Recovering -----

  /** A run and a longer one that begins as it does. */
  ghost predicate Continues(states: seq<State>, steps: seq<Step>, states': seq<State>, steps': seq<Step>) {
    IsRun(states', steps') && states <= states' && steps <= steps'
  }

  ghost function End(states: seq<State>): State
    requires states != []
  {
    states[|states| - 1]
  }

  /** A recovery about to take this step finds what it needs. */
  ghost predicate OnItsWay(s: State, a: nat, j: Journal, stage: Stage) {
    && At(s, a) && s.phases[a] == Switching(Recover, j, stage)
    && (stage.NeedLease? ==> s.locks.exclusive == None && s.locks.shared == {})
    && (!stage.After(NeedMachine) ==> s.locks.machine == None)
    && (!stage.After(MoveShare) ==> CanMove(s.disk))
  }

  ghost function StageAfter(stage: Stage): Stage {
    match stage
    case NeedLease => NeedMachine
    case NeedMachine => Select
    case Select => LinkBin
    case LinkBin => MoveShare
    case MoveShare => LinkShare
    case LinkShare => DropMachine
    case DropMachine => DropLease
    case DropLease => Restore
    case Restore => RemoveJournal
    case RemoveJournal => RemoveJournal
  }

  /** The step it takes. */
  lemma TakesItsStep(s: State, a: nat, j: Journal, stage: Stage) returns (s': State)
    requires OnItsWay(s, a, j, stage)
    ensures DoesSwitch(s, a, s')
    ensures !stage.RemoveJournal? ==> OnItsWay(s', a, j, StageAfter(stage))
    ensures stage.RemoveJournal? ==> s'.disk.journal == None
  {
    match stage
    case NeedLease => s' := Move(s.(locks := s.locks.(exclusive := Some(a))), a, Switching(Recover, j, NeedMachine));
    case NeedMachine => s' := Move(s.(locks := s.locks.(machine := Some(a))), a, Switching(Recover, j, Select));
    case Select => s' := Move(s.(disk := s.disk.(current := Some(Target(Recover, j)))), a, Switching(Recover, j, LinkBin));
    case LinkBin => s' := Move(s.(disk := s.disk.(bin := BinLink)), a, Switching(Recover, j, MoveShare));
    case MoveShare =>
      var d := if s.disk.share.OwnShare? then s.disk.(share := NoShare, backup := Some(s.disk.share.payload)) else s.disk;
      s' := Move(s.(disk := d), a, Switching(Recover, j, LinkShare));
    case LinkShare => s' := Move(s.(disk := s.disk.(share := ShareLink)), a, Switching(Recover, j, DropMachine));
    case DropMachine => s' := Move(s.(locks := s.locks.(machine := None)), a, Switching(Recover, j, DropLease));
    case DropLease => s' := Move(s.(locks := s.locks.(exclusive := None)), a, Switching(Recover, j, Restore));
    case Restore => s' := Move(s, a, Switching(Recover, j, RemoveJournal));
    case RemoveJournal => s' := Move(s.(disk := s.disk.(journal := None)), a, Leaving);
  }

  lemma OneStepOn(states: seq<State>, steps: seq<Step>, step: Step, s': State)
    requires IsRun(states, steps) && Next(End(states), step, s')
    ensures Continues(states, steps, states + [s'], steps + [step]) && End(states + [s']) == s'
  {
    var more, all := steps + [step], states + [s'];
    forall i | 0 <= i < |more|
      ensures Next(all[i], more[i], all[i + 1])
    {
      assert i < |steps| ==> Next(states[i], steps[i], states[i + 1]);
    }
  }

  /** A run that ends with the journal gone and its choice selected. */
  ghost predicate Recovered(s: State, j: Journal) {
    s.disk.journal == None && s.disk.current == Some(Target(Recover, j)) && s.disk.bin == BinLink && s.disk.share == ShareLink
  }

  lemma RecoveryEnds(states: seq<State>, steps: seq<Step>, a: nat, j: Journal, s': State)
    requires IsRun(states, steps) && OnItsWay(End(states), a, j, RemoveJournal) && DoesSwitch(End(states), a, s')
    ensures Recovered(s', j)
  {
    OneStepOn(states, steps, Switch(a), s');
    RecoveryCompletes(states + [s'], steps + [Switch(a)], |steps|, a, j);
  }

  lemma {:induction false} RunsOut(states: seq<State>, steps: seq<Step>, a: nat, j: Journal, stage: Stage) returns (states': seq<State>, steps': seq<Step>)
    requires IsRun(states, steps) && OnItsWay(End(states), a, j, stage)
    ensures Continues(states, steps, states', steps') && Recovered(End(states'), j)
    decreases 9 - stage.Number()
  {
    var s' := TakesItsStep(End(states), a, j, stage);
    OneStepOn(states, steps, Switch(a), s');
    states', steps' := states + [s'], steps + [Switch(a)];
    if stage.RemoveJournal? {
      RecoveryEnds(states, steps, a, j, s');
    } else {
      states', steps' := RunsOut(states', steps', a, j, StageAfter(stage));
    }
  }

  /** Whatever was interrupted, and wherever: once its locks are let go, a process not yet started can recover it, if nothing is in the way. */
  lemma CanRecover(states: seq<State>, steps: seq<Step>, a: nat) returns (states': seq<State>, steps': seq<Step>)
    requires IsRun(states, steps) && Interrupted(End(states), a) && CanMove(End(states).disk)
    ensures Continues(states, steps, states', steps') && Recovered(End(states'), End(states).disk.journal.value)
  {
    var s := End(states);
    var j := s.disk.journal.value;
    var one := Move(s.(locks := s.locks.(installer := Some(a))), a, Locked);
    var two := Move(one, a, Switching(Recover, j, NeedLease));
    OneStepOn(states, steps, TakeInstaller(a), one);
    OneStepOn(states + [one], steps + [TakeInstaller(a)], BeginRecovery(a), two);
    states', steps' := RunsOut(states + [one] + [two], steps + [TakeInstaller(a)] + [BeginRecovery(a)], a, j, NeedLease);
  }

  /** A journal on disk, no lock held, and a process to recover it. */
  ghost predicate Interrupted(s: State, a: nat) {
    s.disk.journal.Some? && s.locks == Locks(None, None, {}, None) && At(s, a) && s.phases[a].Idle?
  }

  lemma StepCannotClear(s: State, step: Step, s': State)
    requires Inv(s) && Next(s, step, s') && !CanMove(s.disk)
    ensures !CanMove(s'.disk)
    ensures s.disk.journal.Some? ==> s'.disk.journal == s.disk.journal
  {
    if step.Switch? {
      SwitchCannotClear(s, step.a, s');
    } else {
      OnlySwitchMovesShare(s, step, s');
      OnlySwitchRemovesJournal(s, step, s');
    }
  }

  lemma SwitchCannotClear(s: State, a: nat, s': State)
    requires DoesSwitch(s, a, s') && PhaseOk(s.disk, s.phases[a]) && !CanMove(s.disk)
    ensures !CanMove(s'.disk) && s'.disk.journal == s.disk.journal
  {
  }

  lemma OnlySwitchRemovesJournal(s: State, step: Step, s': State)
    requires Inv(s) && Next(s, step, s') && !step.Switch?
    ensures s.disk.journal.Some? ==> s'.disk.journal == s.disk.journal
  {
  }

  /** A stray file, or a payload and an earlier backup of one, keeps a journal on disk for ever, whoever does what. */
  lemma {:induction false} NeverRecovers(states: seq<State>, steps: seq<Step>, m: nat, n: nat)
    requires IsRun(states, steps) && m <= n <= |steps| && states[m].disk.journal.Some? && !CanMove(states[m].disk)
    ensures states[n].disk.journal == states[m].disk.journal && !CanMove(states[n].disk)
    decreases n
  {
    if m < n {
      NeverRecovers(states, steps, m, n - 1);
      RunKeeps(states, steps, n - 1);
      StepCannotClear(states[n - 1], steps[n - 1], states[n]);
    }
  }

  /** So an interrupted activation can be recovered if and only if nothing is in the way of its public paths. */
  lemma RecoverableIffClear(states: seq<State>, steps: seq<Step>, a: nat)
    requires IsRun(states, steps) && Interrupted(End(states), a)
    ensures CanMove(End(states).disk) <==>
            exists states', steps' :: Continues(states, steps, states', steps') && Recovered(End(states'), End(states).disk.journal.value)
  {
    if CanMove(End(states).disk) {
      var states', steps' := CanRecover(states, steps, a);
    } else {
      forall states', steps' | Continues(states, steps, states', steps')
        ensures End(states').disk.journal.Some?
      {
        NeverRecovers(states', steps', |steps|, |steps'|);
      }
    }
  }
}
