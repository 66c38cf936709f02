/**
 The staged Core update as a transition system: activation swaps both binaries
 and leaves a marker, every boot and the health timer decide what becomes of it.
 File operations may fail; a step carries what they did.
 */
module UpdateProtocol {
  import opened Wrappers

  datatype Binary = Tunnet | Tunnetd

  const UNIT_NAMES: seq<Binary> := [Tunnet, Tunnetd]

  /** Contents by binary; a binary may be missing. */
  type Unit = map<Binary, string>

  const MAX_U32: nat := 0xFFFF_FFFF

  const HEALTH_SECS: nat := 30

  /** The marker's record; the install time is kept in whole seconds. */
  datatype Pending = Pending(
    installedAt: int,
    fromVersion: string,
    toVersion: string,
    apiVersion: nat,
    healthWindow: nat,
    boots: nat)

  datatype Marker = Absent | Unreadable | Record(update: Pending)

  /** The sleeping task of a running process; `due` in milliseconds. */
  datatype Timer = Timer(due: int, update: Pending)

  datatype Agent = Agent(installed: Unit, previous: Option<Unit>, marker: Marker, timer: Option<Timer>)

  /** How far a restore got that failed: files already put back, and files moved away with nothing in their place. */
  datatype Partial = Partial(restored: set<Binary>, gone: set<Binary>)

  /** The installed unit after such a restore; only files of the previous unit are touched. */
  function Partly(installed: Unit, previous: Unit, part: Partial): Unit {
    map b: Binary | (b in previous && b in part.restored) || (b in installed && !(b in previous && b in part.gone)) ::
      if b in previous && b in part.restored then previous[b] else installed[b]
  }

  /**
   What file operations did: `broken` says how a restore failed, `kept` what a failed
   removal left of the previous unit.
   */
  datatype Io = Io(wrote: bool, broken: Option<Partial>, kept: Option<set<Binary>>, markerRemoved: bool)

  /** Nothing failed. */
  const CLEAN := Io(true, None, None, true)

  datatype Activation =
    | NotStarted(previous: Option<Unit>)
    | Activated(restarted: bool)
    | Failed(wreck: Unit, staged: bool, io: Io)

  datatype Step =
    | Activate(now: int, payload: Unit, fromVersion: string, toVersion: string, apiVersion: nat, result: Activation)
    | Boot(now: int, version: string, apiVersion: nat, io: Io)
    | Fire(now: int, io: Io)

  function Window(p: Pending): int {
    if p.healthWindow < 1 then 1 else p.healthWindow
  }

  /** Whole seconds since the recorded install time, never negative. */
  function Elapsed(p: Pending, now: int): (r: int)
    ensures r >= 0
  {
    if now < p.installedAt * 1000 then 0 else (now - p.installedAt * 1000) / 1000
  }

  function Deadline(p: Pending): int {
    (p.installedAt + Window(p)) * 1000
  }

  lemma WindowEndsAtDeadline(p: Pending, now: int)
    ensures Elapsed(p, now) < Window(p) <==> now < Deadline(p)
  {
  }

  function RemoveMarker(a: Agent, io: Io): Agent {
    if io.markerRemoved then a.(marker := Absent) else a
  }

  function RemovePrevious(a: Agent, io: Io): Agent {
    if a.previous.None? || io.kept.None? then a.(previous := None)
    else a.(previous := Some(map b | b in a.previous.value && b in io.kept.value :: a.previous.value[b]))
  }

  /** Put the previous unit back over the installed one; without one, only give up on the update. */
  function Revert(a: Agent, io: Io): Agent {
    if a.previous.None? then RemoveMarker(a, io)
    else if io.broken.Some? then a.(installed := Partly(a.installed, a.previous.value, io.broken.value))
    else RemoveMarker(RemovePrevious(a.(installed := a.installed + a.previous.value), io), io)
  }

  /** Accept the update the caller knows of, unless the marker is by now about another version. */
  function MarkSuccess(a: Agent, p: Pending, io: Io): Agent {
    if a.marker.Absent? || (a.marker.Record? && a.marker.update.toVersion != p.toVersion) then a
    else RemovePrevious(RemoveMarker(a, io), io)
  }

  function CountBoot(p: Pending): Pending {
    p.(boots := if p.boots < MAX_U32 then p.boots + 1 else p.boots)
  }

  datatype Decision = Ignore | RevertNow | RevertCounted | MarkGood | Watch

  /** What a boot makes of the marker; a rejected version is reverted before the boot is counted. */
  function Decide(a: Agent, now: int, version: string, apiVersion: nat, wrote: bool): Decision {
    if !a.marker.Record? then Ignore
    else
      var p := a.marker.update;
      if p.toVersion != version || p.apiVersion != apiVersion then RevertNow
      else if !wrote then Ignore
      else if CountBoot(p).boots > 1 && Elapsed(p, now) < Window(p) then RevertCounted
      else if Elapsed(p, now) >= Window(p) then MarkGood
      else Watch
  }

  /** A new process: its predecessor's timer is gone. */
  function OnBoot(a: Agent, now: int, version: string, apiVersion: nat, io: Io): Agent {
    var b := a.(timer := None);
    match Decide(a, now, version, apiVersion, io.wrote)
    case Ignore => b
    case RevertNow => Revert(b, io)
    case RevertCounted => Revert(b.(marker := Record(CountBoot(a.marker.update))), io)
    case MarkGood => MarkSuccess(b.(marker := Record(CountBoot(a.marker.update))), CountBoot(a.marker.update), io)
    case Watch =>
      var p := CountBoot(a.marker.update);
      b.(marker := Record(p), timer := Some(Timer(now + (Window(p) - Elapsed(p, now)) * 1000, p)))
  }

  function OnFire(a: Agent, now: int, io: Io): Agent {
    if a.timer.Some? && a.timer.value.due <= now
    then MarkSuccess(a, a.timer.value.update, io).(timer := None) else a
  }

  function NewUpdate(now: int, fromVersion: string, toVersion: string, apiVersion: nat): Pending {
    Pending(now / 1000, fromVersion, toVersion, apiVersion, HEALTH_SECS, 0)
  }

  function OnActivate(a: Agent, now: int, payload: Unit, fromVersion: string, toVersion: string, apiVersion: nat,
                      result: Activation): Agent {
    var p := NewUpdate(now, fromVersion, toVersion, apiVersion);
    match result
    case NotStarted(previous) => a.(previous := previous)
    case Activated(restarted) =>
      Agent(a.installed + payload, Some(a.installed), Record(p), if restarted then None else a.timer)
    case Failed(wreck, staged, io) =>
      var installed := if io.broken.Some? then Partly(wreck, a.installed, io.broken.value) else wreck + a.installed;
      RemoveMarker(Agent(installed, Some(a.installed), if staged then Record(p) else a.marker, a.timer), io)
  }

  function Apply(a: Agent, step: Step): Agent {
    match step
    case Activate(now, payload, fromVersion, toVersion, apiVersion, result) =>
      OnActivate(a, now, payload, fromVersion, toVersion, apiVersion, result)
    case Boot(now, version, apiVersion, io) => OnBoot(a, now, version, apiVersion, io)
    case Fire(now, io) => OnFire(a, now, io)
  }

  function Run(a: Agent, steps: seq<Step>): Agent
    decreases |steps|
  {
    if steps == [] then a else Apply(Run(a, steps[..|steps| - 1]), steps[|steps| - 1])
  }
}
