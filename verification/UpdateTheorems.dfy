/** What every run of boots, timers and activations keeps. */
module UpdateTheorems {
  import opened Wrappers
  import opened UpdateProtocol

  /** The same update, however often booted. */
  predicate SameUpdate(p: Pending, q: Pending) {
    p.(boots := 0) == q.(boots := 0)
  }

  // An update is accepted only after its health window

  /** The step accepts the update the marker records. */
  predicate MarksGood(a: Agent, step: Step) {
    a.marker.Record? &&
    match step
    case Activate(_, _, _, _, _, _) => false
    case Boot(now, version, apiVersion, io) => Decide(a, now, version, apiVersion, io.wrote) == MarkGood
    case Fire(now, _) =>
      a.timer.Some? && a.timer.value.due <= now && a.timer.value.update.toVersion == a.marker.update.toVersion
  }

  /** A running timer waits out its own update, and never another one of the same version. */
  predicate TimerOk(a: Agent) {
    a.timer.Some? ==>
      var t := a.timer.value;
      && t.due >= Deadline(t.update)
      && (a.marker.Record? && a.marker.update.toVersion == t.update.toVersion ==> SameUpdate(a.marker.update, t.update))
  }

  /** No activation leaves a new marker for the version a surviving timer still waits on. */
  predicate NoStaleTimer(a: Agent, step: Step) {
    step.Activate? && a.timer.Some? && a.timer.value.update.toVersion == step.toVersion ==>
      match step.result
      case NotStarted(_) => true
      case Activated(restarted) => restarted
      case Failed(_, staged, io) => !staged || io.markerRemoved
  }

  /** A boot's clock is not behind the recorded install time. */
  predicate ClockOk(a: Agent, step: Step) {
    step.Boot? && a.marker.Record? ==> a.marker.update.installedAt * 1000 <= step.now
  }

  predicate Orderly(a: Agent, steps: seq<Step>) {
    forall j :: 0 <= j < |steps| ==>
      var s := Run(a, steps[..j]);
      NoStaleTimer(s, steps[j]) && ClockOk(s, steps[j])
  }

  lemma OrderlyPrefix(a: Agent, steps: seq<Step>, k: nat)
    requires Orderly(a, steps) && k <= |steps|
    ensures Orderly(a, steps[..k])
  {
    forall j | 0 <= j < k
      ensures NoStaleTimer(Run(a, steps[..k][..j]), steps[..k][j]) && ClockOk(Run(a, steps[..k][..j]), steps[..k][j])
    {
      assert steps[..k][..j] == steps[..j];
      assert NoStaleTimer(Run(a, steps[..j]), steps[j]);
    }
  }

  lemma StepKeepsTimer(a: Agent, step: Step)
    requires TimerOk(a) && NoStaleTimer(a, step) && ClockOk(a, step)
    ensures TimerOk(Apply(a, step))
  {
    if step.Boot? && a.marker.Record? {
      WindowEndsAtDeadline(a.marker.update, step.now);
    }
  }

  lemma {:induction false} RunKeepsTimer(a: Agent, steps: seq<Step>)
    requires TimerOk(a) && Orderly(a, steps)
    ensures TimerOk(Run(a, steps))
    decreases |steps|
  {
    if steps == [] {
    } else {
      var n := |steps| - 1;
      OrderlyPrefix(a, steps, n);
      RunKeepsTimer(a, steps[..n]);
      assert NoStaleTimer(Run(a, steps[..n]), steps[n]);
      StepKeepsTimer(Run(a, steps[..n]), steps[n]);
    }
  }

  /**
   In every run, whatever fails, an update is accepted only once its window has
   passed since the recorded install time, provided no boot's clock is behind
   that time and no activation leaves running the timer of an earlier update to
   the same version.
   */
  lemma {:induction false} AcceptedOnlyAfterWindow(a: Agent, steps: seq<Step>, k: nat)
    requires TimerOk(a) && Orderly(a, steps) && k < |steps|
    requires MarksGood(Run(a, steps[..k]), steps[k])
    ensures Deadline(Run(a, steps[..k]).marker.update) <= steps[k].now
  {
    OrderlyPrefix(a, steps, k);
    RunKeepsTimer(a, steps[..k]);
    if steps[k].Boot? {
      WindowEndsAtDeadline(Run(a, steps[..k]).marker.update, steps[k].now);
    }
  }

  /** The recorded time drops the fraction of a second, so acceptance may come up to a second early. */
  lemma DeadlineDropsFraction(now: int, fromVersion: string, toVersion: string, apiVersion: nat)
    ensures var deadline := Deadline(NewUpdate(now, fromVersion, toVersion, apiVersion));
            && deadline == now + 30_000 - now % 1000
            && (deadline >= now + 30_000 <==> now % 1000 == 0)
  {
  }

  /** An update installed at 0.9 s is accepted by a boot at 30.0 s. */
  lemma AcceptedEarlyByTruncation(unit: Unit, payload: Unit)
    ensures var a := Apply(Agent(unit, None, Absent, None), Activate(900, payload, "1", "2", 1, Activated(true)));
            MarksGood(a, Boot(30_000, "2", 1, CLEAN))
  {
  }

  /**
   A version activated again in place, under the timer of its earlier activation,
   is accepted when that timer ends, which is too early if and only if the timer
   ends before the new deadline.
   */
  lemma StaleTimerAccepts(a: Agent, step: Step, io: Io)
    requires step.Activate? && step.result == Activated(false)
    requires a.timer.Some? && a.timer.value.update.toVersion == step.toVersion
    ensures var b := Apply(a, step); var due := a.timer.value.due;
            && !NoStaleTimer(a, step)
            && MarksGood(b, Fire(due, io))
            && b.marker == Record(NewUpdate(step.now, step.fromVersion, step.toVersion, step.apiVersion))
            && (due < Deadline(b.marker.update) <==> due < step.now - step.now % 1000 + 30_000)
  {
    DeadlineDropsFraction(step.now, step.fromVersion, step.toVersion, step.apiVersion);
  }

  /** Reinstalling a version in place under a running timer is accepted on the first installation's timer. */
  lemma AcceptedEarlyByStaleTimer(unit: Unit, payload: Unit)
    ensures var a0 := Agent(unit, None, Absent, None);
            var a1 := Apply(a0, Activate(0, payload, "1", "2", 1, Activated(true)));
            var a2 := Apply(a1, Boot(1_000, "2", 1, CLEAN));
            var a3 := Apply(a2, Activate(20_000, payload, "2", "2", 1, Activated(false)));
            && !NoStaleTimer(a2, Activate(20_000, payload, "2", "2", 1, Activated(false)))
            && MarksGood(a3, Fire(30_000, CLEAN)) && Deadline(a3.marker.update) == 50_000
  {
  }

  // What a boot, the timer and acceptance do

  /** When the health window of an update ends, in milliseconds. */
  function WindowEnd(p: Pending): int {
    (p.installedAt + (if p.healthWindow == 0 then 1 else p.healthWindow)) * 1000
  }

  /** Marker and previous unit gone, the previous unit's files back in place. */
  predicate PutBack(a: Agent, t: Agent) {
    && t.marker == Absent && t.previous == None && t.timer == None
    && t.installed == match a.previous case None => a.installed case Some(unit) => a.installed + unit
  }

  /** Marker and previous unit gone, the update staying. */
  predicate Settled(a: Agent, t: Agent) {
    t.marker == Absent && t.previous == None && t.timer == None && t.installed == a.installed
  }

  /**
   What a boot makes of an undecided update if nothing fails.  Another version or
   interface, or a second boot within the health window, puts the previous unit
   back; a boot after the window settles the update; the first boot within it is
   counted, and a timer set to the end of the window, rounded up to whole seconds
   from now.
   */
  lemma BootOutcome(a: Agent, now: int, version: string, apiVersion: nat)
    requires a.marker.Record?
    ensures var p := a.marker.update; var t := Apply(a, Boot(now, version, apiVersion, CLEAN));
            if version != p.toVersion || apiVersion != p.apiVersion then PutBack(a, t)
            else if now >= WindowEnd(p) then Settled(a, t)
            else if p.boots > 0 then PutBack(a, t)
            else
              && t.installed == a.installed && t.previous == a.previous && t.marker == Record(p.(boots := 1))
              && t.timer.Some? && t.timer.value.update == p.(boots := 1)
              && (p.installedAt * 1000 <= now ==> WindowEnd(p) <= t.timer.value.due < WindowEnd(p) + 1000)
  {
    WindowEndsAtDeadline(a.marker.update, now);
  }

  /** Without a marker that can be read a boot changes nothing but the timer of the process before. */
  lemma BootWithoutRecord(a: Agent, now: int, version: string, apiVersion: nat, io: Io)
    requires !a.marker.Record?
    ensures Apply(a, Boot(now, version, apiVersion, io)) == a.(timer := None)
  {
  }

  /**
   What the timer does if nothing fails: before it is due nothing; then it settles
   the update, unless the marker is gone or is about another version by now.
   */
  lemma TimerOutcome(a: Agent, now: int)
    ensures var t := Apply(a, Fire(now, CLEAN));
            if a.timer.None? || now < a.timer.value.due then t == a
            else if a.marker == Absent ||
                    (a.marker.Record? && a.marker.update.toVersion != a.timer.value.update.toVersion)
            then t == a.(timer := None)
            else Settled(a, t)
  {
  }

  /** Accepting an update leaves its files alone, whatever fails, and removes the marker and the unit set aside. */
  lemma AcceptanceDoes(a: Agent, step: Step)
    requires MarksGood(a, step)
    ensures var t := Apply(a, step);
            && t.installed == a.installed && t.timer == None
            && (step.io.markerRemoved <==> t.marker == Absent)
            && (step.io.kept == None || a.previous == None ==> t.previous == None)
            && (step.io == CLEAN ==> Settled(a, t))
  {
  }

  lemma StepStaysSettled(a: Agent, step: Step)
    requires a.marker == Absent && a.previous == None && !step.Activate?
    ensures var t := Apply(a, step); t.marker == Absent && t.previous == None && t.installed == a.installed
  {
  }

  /**
   In every run, once an update is accepted without a failure, no boot and no timer
   touches its files any more until the next activation.
   */
  lemma {:induction false} AcceptanceIsFinal(a: Agent, steps: seq<Step>, k: nat)
    requires k < |steps| && MarksGood(Run(a, steps[..k]), steps[k]) && steps[k].io == CLEAN
    requires forall j :: k < j < |steps| ==> !steps[j].Activate?
    ensures var s := Run(a, steps);
            s.marker == Absent && s.previous == None && s.installed == Run(a, steps[..k]).installed
    decreases |steps|
  {
    var n := |steps| - 1;
    if n == k {
      AcceptanceDoes(Run(a, steps[..k]), steps[k]);
    } else {
      assert steps[..n][..k] == steps[..k] && steps[..n][k] == steps[k];
      assert forall j :: k < j < n ==> steps[..n][j] == steps[j];
      AcceptanceIsFinal(a, steps[..n], k);
      StepStaysSettled(Run(a, steps[..n]), steps[n]);
    }
  }

  // A second boot inside the window puts the previous unit back

  predicate Holds(unit: Unit, prior: Unit) {
    forall b :: b in prior ==> b in unit && unit[b] == prior[b]
  }

  function Aside(a: Agent): Unit {
    if a.previous.Some? then a.previous.value else map[]
  }

  /** Every file of the prior unit is set aside or in place, and nothing else is set aside. */
  predicate Recoverable(a: Agent, prior: Unit) {
    && (forall b :: b in Aside(a) ==> b in prior && Aside(a)[b] == prior[b])
    && (forall b :: b in prior && b !in Aside(a) ==> b in a.installed && a.installed[b] == prior[b])
  }

  /** The marker still records this update. */
  predicate Watching(a: Agent, p: Pending) {
    a.marker.Record? && SameUpdate(a.marker.update, p)
  }

  /** Until the deadline: undecided with the prior unit recoverable, or decided with the prior unit in place. */
  predicate Guarded(a: Agent, p: Pending, prior: Unit, clock: int) {
    && !a.marker.Unreadable? && p.installedAt * 1000 <= clock
    && (a.marker.Record? ==> Watching(a, p))
    && (clock < Deadline(p) ==> if a.marker.Record? then Recoverable(a, prior) else Holds(a.installed, prior))
    && (a.timer.Some? ==>
          var t := a.timer.value;
          t.update.toVersion != p.toVersion || (SameUpdate(t.update, p) && t.due >= Deadline(p)))
  }

  /** In clock order; an activation attempted meanwhile gave up before it touched what the undecided update needs. */
  predicate Follows(a: Agent, step: Step, clock: int, prior: Unit) {
    && clock <= step.now
    && (step.Activate? ==> step.result.NotStarted? && Recoverable(a.(previous := step.result.previous), prior))
  }

  /** A boot of the activated version whose count reached the marker. */
  predicate CountedBoot(step: Step, p: Pending) {
    step.Boot? && step.version == p.toVersion && step.apiVersion == p.apiVersion && step.io.wrote
  }

  /** However a revert goes, nothing of the prior unit is lost; if its writes succeed, all of it is back. */
  lemma RevertRecovers(a: Agent, prior: Unit, io: Io)
    requires Recoverable(a, prior)
    ensures var b := Revert(a, io);
            && (io.broken.None? || a.previous.None? ==> Holds(b.installed, prior))
            && Recoverable(b, prior)
            && (b.marker.Absent? && !a.marker.Absent? ==> Holds(b.installed, prior))
  {
  }

  lemma RevertKeepsGuard(a: Agent, p: Pending, prior: Unit, clock: int, io: Io)
    requires Guarded(a, p, prior, clock) && a.marker.Record? && a.timer.None?
    ensures Guarded(Revert(a, io), p, prior, clock)
  {
    if clock < Deadline(p) {
      RevertRecovers(a, prior, io);
    }
  }

  lemma BootKeepsGuard(a: Agent, p: Pending, prior: Unit, clock: int, step: Step)
    requires Guarded(a, p, prior, clock) && step.Boot? && clock <= step.now && a.marker.Record?
    ensures Guarded(Apply(a, step), p, prior, step.now)
  {
    WindowEndsAtDeadline(a.marker.update, step.now);
    var b := a.(timer := None);
    var counted := b.(marker := Record(CountBoot(a.marker.update)));
    match Decide(a, step.now, step.version, step.apiVersion, step.io.wrote) {
      case Ignore =>
      case RevertNow => RevertKeepsGuard(b, p, prior, step.now, step.io);
      case RevertCounted => RevertKeepsGuard(counted, p, prior, step.now, step.io);
      case MarkGood =>
      case Watch =>
    }
  }

  lemma StepKeepsGuard(a: Agent, p: Pending, prior: Unit, clock: int, step: Step)
    requires Guarded(a, p, prior, clock) && Follows(a, step, clock, prior)
    ensures Guarded(Apply(a, step), p, prior, step.now)
  {
    match step
    case Activate(_, _, _, _, _, _) =>
    case Boot(now, version, apiVersion, io) =>
      if a.marker.Record? {
        BootKeepsGuard(a, p, prior, clock, step);
      }
    case Fire(now, io) =>
  }

  ghost predicate Ordered(a: Agent, steps: seq<Step>, start: int, prior: Unit)
    decreases |steps|
  {
    steps == [] ||
      var init := steps[..|steps| - 1];
      Ordered(a, init, start, prior) && Follows(Run(a, init), steps[|steps| - 1], Clock(init, start), prior)
  }

  function Clock(steps: seq<Step>, start: int): int {
    if steps == [] then start else steps[|steps| - 1].now
  }

  predicate HasCountedBoot(steps: seq<Step>, p: Pending) {
    exists j :: 0 <= j < |steps| && CountedBoot(steps[j], p)
  }

  /** Once a boot was counted, an undecided marker says so. */
  predicate Counted(a: Agent, p: Pending, clock: int) {
    clock < Deadline(p) && a.marker.Record? ==> a.marker.update.boots >= 1
  }

  lemma StepKeepsCount(a: Agent, p: Pending, prior: Unit, clock: int, step: Step)
    requires Guarded(a, p, prior, clock) && Follows(a, step, clock, prior)
    requires Counted(a, p, clock) || CountedBoot(step, p)
    ensures Counted(Apply(a, step), p, step.now)
  {
    if step.Boot? && a.marker.Record? {
      WindowEndsAtDeadline(a.marker.update, step.now);
    }
  }

  lemma {:induction false} RunKeepsGuard(a: Agent, p: Pending, prior: Unit, start: int, steps: seq<Step>)
    requires Guarded(a, p, prior, start) && Ordered(a, steps, start, prior)
    ensures Guarded(Run(a, steps), p, prior, Clock(steps, start))
    ensures HasCountedBoot(steps, p) ==> Counted(Run(a, steps), p, Clock(steps, start))
    decreases |steps|
  {
    if steps == [] {
    } else {
      var init, last := steps[..|steps| - 1], steps[|steps| - 1];
      RunKeepsGuard(a, p, prior, start, init);
      StepKeepsGuard(Run(a, init), p, prior, Clock(init, start), last);
      if HasCountedBoot(steps, p) {
        var j :| 0 <= j < |steps| && CountedBoot(steps[j], p);
        assert j < |init| ==> CountedBoot(init[j], p);
        StepKeepsCount(Run(a, init), p, prior, Clock(init, start), last);
      }
    }
  }

  function UpdateOf(activation: Step): Pending
    requires activation.Activate?
  {
    NewUpdate(activation.now, activation.fromVersion, activation.toVersion, activation.apiVersion)
  }

  /**
   After an activation and any boots, timers and harmless activation attempts in
   clock order, whatever fails in them, one being a counted boot of the new
   version: a further such boot before the deadline, its restore writes succeeding,
   ends with every binary that was installed before the activation back in place,
   and the marker gone once its removal succeeds.
   */
  lemma {:induction false} SecondBootRestores(a: Agent, activation: Step, steps: seq<Step>, boot: Step)
    requires activation.Activate? && activation.result.Activated? && NoStaleTimer(a, activation)
    requires var p := UpdateOf(activation); var s := Apply(a, activation);
             && Ordered(s, steps, activation.now, a.installed) && HasCountedBoot(steps, p)
             && Clock(steps, activation.now) <= boot.now < Deadline(p)
             && CountedBoot(boot, p) && boot.io.broken.None?
    ensures var final := Apply(Run(Apply(a, activation), steps), boot);
            Holds(final.installed, a.installed) && (boot.io.markerRemoved ==> final.marker.Absent?)
  {
    var p := UpdateOf(activation);
    var s := Run(Apply(a, activation), steps);
    ActivationIsGuarded(a, activation);
    RunKeepsGuard(Apply(a, activation), p, a.installed, activation.now, steps);
    if s.marker.Record? {
      WindowEndsAtDeadline(s.marker.update, boot.now);
      RevertRecovers(s.(timer := None, marker := Record(CountBoot(s.marker.update))), a.installed, boot.io);
    }
  }

  lemma ActivationIsGuarded(a: Agent, activation: Step)
    requires activation.Activate? && activation.result.Activated? && NoStaleTimer(a, activation)
    ensures Guarded(Apply(a, activation), UpdateOf(activation), a.installed, activation.now)
  {
  }

  /** Accepting it, too, comes no earlier than the deadline, a second less than the window at most. */
  lemma {:induction false} ActivationAcceptedOnlyAfterWindow(a: Agent, activation: Step, steps: seq<Step>, step: Step)
    requires activation.Activate? && activation.result.Activated? && NoStaleTimer(a, activation)
    requires Ordered(Apply(a, activation), steps, activation.now, a.installed)
    requires Clock(steps, activation.now) <= step.now && MarksGood(Run(Apply(a, activation), steps), step)
    ensures step.now > activation.now + 29_000
  {
    var p := UpdateOf(activation);
    var s := Run(Apply(a, activation), steps);
    ActivationIsGuarded(a, activation);
    RunKeepsGuard(Apply(a, activation), p, a.installed, activation.now, steps);
    WindowEndsAtDeadline(s.marker.update, step.now);
    DeadlineDropsFraction(activation.now, activation.fromVersion, activation.toVersion, activation.apiVersion);
  }

  // Activations while an update is undecided

  /** The activation's outcome takes the undecided update's record away. */
  predicate ReplacesMarker(step: Step, p: Pending)
    requires step.Activate?
  {
    match step.result
    case NotStarted(_) => false
    case Activated(_) => !SameUpdate(UpdateOf(step), p)
    case Failed(_, staged, io) => io.markerRemoved || (staged && !SameUpdate(UpdateOf(step), p))
  }

  /** The step is a boot that turns the update down. */
  predicate TurnsDown(a: Agent, step: Step) {
    step.Boot? && Decide(a, step.now, step.version, step.apiVersion, step.io.wrote) in {RevertNow, RevertCounted}
  }

  /**
   In every run, activations included, an undecided update stops being watched
   before its deadline only through a boot that turns it down or through a further
   activation that went ahead; and such an activation, whether it succeeds or fails,
   always takes the watch away unless it leaves a record of the same update.
   */
  lemma {:induction false} WatchEndsEarlyOnlyBy(a: Agent, steps: seq<Step>, k: nat)
    requires TimerOk(a) && Orderly(a, steps) && k < |steps| && Run(a, steps[..k]).marker.Record?
    ensures var s := Run(a, steps[..k]); var p := s.marker.update; var t := Apply(s, steps[k]);
            && (!Watching(t, p) && steps[k].now < Deadline(p) ==>
                  TurnsDown(s, steps[k]) || (steps[k].Activate? && ReplacesMarker(steps[k], p)))
            && (steps[k].Activate? ==> (!Watching(t, p) <==> ReplacesMarker(steps[k], p)))
  {
    var s, step := Run(a, steps[..k]), steps[k];
    OrderlyPrefix(a, steps, k);
    RunKeepsTimer(a, steps[..k]);
    if step.Boot? {
      WindowEndsAtDeadline(s.marker.update, step.now);
    }
  }

  /** Only files of `aside` are set aside, and every installed file is one of `left` or of `aside`. */
  predicate MadeOf(a: Agent, aside: Unit, left: Unit) {
    && Holds(aside, Aside(a))
    && (forall b :: b in a.installed ==>
          || (b in left && a.installed[b] == left[b])
          || (b in aside && a.installed[b] == aside[b]))
  }

  lemma RevertBringsNothingElse(a: Agent, io: Io, aside: Unit, left: Unit)
    requires MadeOf(a, aside, left)
    ensures MadeOf(Revert(a, io), aside, left)
  {
  }

  lemma SuccessBringsNothingElse(a: Agent, p: Pending, io: Io, aside: Unit, left: Unit)
    requires MadeOf(a, aside, left)
    ensures MadeOf(MarkSuccess(a, p, io), aside, left)
  {
  }

  lemma StepBringsNothingElse(a: Agent, step: Step, aside: Unit, left: Unit)
    requires MadeOf(a, aside, left) && !step.Activate?
    ensures MadeOf(Apply(a, step), aside, left)
  {
    match step
    case Boot(now, version, apiVersion, io) =>
      var b := a.(timer := None);
      RevertBringsNothingElse(b, io, aside, left);
      if a.marker.Record? {
        var p := CountBoot(a.marker.update);
        RevertBringsNothingElse(b.(marker := Record(p)), io, aside, left);
        SuccessBringsNothingElse(b.(marker := Record(p)), p, io, aside, left);
      }
    case Fire(now, io) =>
      if a.timer.Some? {
        SuccessBringsNothingElse(a, a.timer.value.update, io, aside, left);
      }
  }

  /**
   Any activation that went ahead, failed or not, sets the undecided unit aside in
   place of the one before it.  From then on, until a further activation goes
   ahead, every installed file is as that activation left it or one of the
   undecided unit: no boot brings back a file of the earlier unit.
   */
  lemma {:induction false} ActivationLosesEarlierUnit(a: Agent, step: Step, steps: seq<Step>)
    requires step.Activate? && !step.result.NotStarted?
    requires forall j :: 0 <= j < |steps| ==> !steps[j].Activate?
    ensures MadeOf(Run(Apply(a, step), steps), a.installed, Apply(a, step).installed)
    decreases |steps|
  {
    if steps == [] {
      assert Aside(Apply(a, step)) == a.installed;
    } else {
      var n := |steps| - 1;
      assert forall j :: 0 <= j < n ==> steps[..n][j] == steps[j];
      ActivationLosesEarlierUnit(a, step, steps[..n]);
      StepBringsNothingElse(Run(Apply(a, step), steps[..n]), steps[n], a.installed, Apply(a, step).installed);
    }
  }

  /**
   If such an activation fails, is undone and its marker removed, the update that
   was undecided stays for good: until a further activation goes ahead no boot and
   no timer touches it.
   */
  lemma {:induction false} FailedActivationEndsWatch(a: Agent, step: Step, steps: seq<Step>)
    requires step.Activate? && step.result.Failed? && step.result.io.markerRemoved && step.result.io.broken.None?
    requires forall j :: 0 <= j < |steps| ==> !steps[j].Activate?
    ensures var s := Run(Apply(a, step), steps);
            s.marker.Absent? && Holds(s.installed, a.installed) && s.installed == Apply(a, step).installed
    decreases |steps|
  {
    if steps == [] {
    } else {
      var init := steps[..|steps| - 1];
      assert forall j :: 0 <= j < |init| ==> init[j] == steps[j];
      FailedActivationEndsWatch(a, step, init);
    }
  }

  const OLD_UNIT: Unit := map[Tunnet := "old", Tunnetd := "old"]
  const NEW_UNIT: Unit := map[Tunnet := "new", Tunnetd := "new"]

  /** Version 2 activated at 0 s and booted at 1 s, over an old unit. */
  function Undecided(): Agent {
    Apply(Apply(Agent(OLD_UNIT, None, Absent, None), Activate(0, NEW_UNIT, "1", "2", 1, Activated(true))),
          Boot(1_000, "2", 1, CLEAN))
  }

  /** A failed activation at 2 s, undone without a hitch, leaves the boot at 3 s nothing to turn down. */
  lemma FailedActivationAcceptsEarly()
    ensures var s := Apply(Undecided(), Activate(2_000, NEW_UNIT, "2", "3", 1, Failed(NEW_UNIT, false, CLEAN)));
            var t := Apply(s, Boot(3_000, "2", 1, CLEAN));
            && Watching(Undecided(), NewUpdate(0, "1", "2", 1)) && Recoverable(Undecided(), OLD_UNIT)
            && s.marker.Absent? && t.installed == NEW_UNIT && t.marker.Absent?
  {
    assert OLD_UNIT + NEW_UNIT == NEW_UNIT && NEW_UNIT + NEW_UNIT == NEW_UNIT;
  }

  /**
   An activation at 2 s that gets no further than clearing the previous directory
   leaves the boot at 3 s nothing to restore.
   */
  lemma LostPreviousUnitStays()
    ensures var s := Apply(Undecided(), Activate(2_000, NEW_UNIT, "2", "3", 1, NotStarted(None)));
            var t := Apply(s, Boot(3_000, "2", 1, CLEAN));
            && Watching(s, NewUpdate(0, "1", "2", 1)) && !Recoverable(s, OLD_UNIT)
            && TurnsDown(s, Boot(3_000, "2", 1, CLEAN)) && t.installed == NEW_UNIT && t.marker.Absent?
  {
    assert OLD_UNIT + NEW_UNIT == NEW_UNIT;
    assert Tunnet in OLD_UNIT;
  }

  /**
   With what was installed set aside, nothing of the prior unit is lost: all of it
   belongs to the prior unit, whose other files are among the ones `written`.
   */
  predicate SetsAside(a: Agent, prior: Unit, written: Unit) {
    && Holds(prior, a.installed)
    && (forall b :: b in prior && b !in a.installed ==> b in written && written[b] == prior[b])
  }

  /** A file of the prior unit is in place once a failed activation has been undone as far as it was. */
  predicate ComesBack(a: Agent, prior: Unit, wreck: Unit, broken: Option<Partial>, b: Binary)
    requires b in prior
  {
    if b in a.installed && (broken.None? || b in broken.value.restored) then a.installed[b] == prior[b]
    else !(b in a.installed && b in broken.value.gone) && b in wreck && wreck[b] == prior[b]
  }

  /** What an activation attempted while the update is undecided must have done for the guard to last. */
  predicate Spares(a: Agent, p: Pending, prior: Unit, step: Step)
    requires step.Activate?
  {
    match step.result
    case NotStarted(previous) => Recoverable(a.(previous := previous), prior)
    case Activated(_) => SameUpdate(UpdateOf(step), p) && SetsAside(a, prior, step.payload)
    case Failed(wreck, staged, io) =>
      if io.markerRemoved then forall b :: b in prior ==> ComesBack(a, prior, wreck, io.broken, b)
      else (staged ==> SameUpdate(UpdateOf(step), p)) && SetsAside(a, prior, wreck)
  }

  /** Once an activation has gone ahead, the prior unit can be recovered if and only if nothing of it was replaced. */
  lemma RecoverableIffSetAside(a: Agent, prior: Unit, step: Step)
    requires step.Activate? && !step.result.NotStarted?
    ensures var written := if step.result.Activated? then step.payload else step.result.wreck;
            Recoverable(Apply(a, step), prior) <==> SetsAside(a, prior, written)
  {
    var t := Apply(a, step);
    var written := if step.result.Activated? then step.payload else step.result.wreck;
    assert Aside(t) == a.installed;
    forall b | b !in a.installed
      ensures b in t.installed <==> b in written
      ensures b in written ==> t.installed[b] == written[b]
    {
    }
  }

  lemma UndoneHoldsIff(a: Agent, prior: Unit, step: Step)
    requires step.Activate? && step.result.Failed?
    ensures var r := step.result;
            Holds(Apply(a, step).installed, prior) <==>
            forall b :: b in prior ==> ComesBack(a, prior, r.wreck, r.io.broken, b)
  {
    var t, r := Apply(a, step), step.result;
    forall b | b in prior
      ensures (b in t.installed && t.installed[b] == prior[b]) <==> ComesBack(a, prior, r.wreck, r.io.broken, b)
    {
    }
  }

  /**
   Whatever becomes of an activation attempted while an update is undecided, that
   update's guard lasts if and only if the activation spares it.
   */
  lemma ActivationKeepsGuardIff(a: Agent, p: Pending, prior: Unit, clock: int, step: Step)
    requires Guarded(a, p, prior, clock) && a.marker.Record? && clock <= step.now < Deadline(p)
    requires step.Activate?
    ensures Guarded(Apply(a, step), p, prior, step.now) <==> Spares(a, p, prior, step)
  {
    if !step.result.NotStarted? {
      RecoverableIffSetAside(a, prior, step);
      if step.result.Failed? {
        UndoneHoldsIff(a, prior, step);
      }
    }
  }

  /**
   So no activation that goes ahead and leaves a record spares an update that has
   installed a file unlike the prior unit's: what is set aside is now that file.
   */
  lemma ChangedUnitIsNotSpared(a: Agent, p: Pending, prior: Unit, step: Step, b: Binary)
    requires step.Activate? && !step.result.NotStarted? && Apply(a, step).marker.Record?
    requires b in a.installed && !(b in prior && prior[b] == a.installed[b])
    ensures !Spares(a, p, prior, step) && !Recoverable(Apply(a, step), prior)
  {
    assert !Holds(prior, a.installed);
    RecoverableIffSetAside(a, prior, step);
  }
}
