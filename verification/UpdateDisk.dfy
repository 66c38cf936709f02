/**
 The update code over a disk whose operations may fail, proved to follow the
 transition system.  A failing copy may leave a partial file, a failing removal
 of a directory part of it; renames and marker writes are atomic.
 */
module UpdateDisk {
  import opened Wrappers
  import opened UpdateProtocol

  /** How the file system answers an operation. */
  datatype Reply = Fine | Fails(partial: Option<string>, kept: set<Binary>)

  predicate Complete(unit: Unit) {
    Tunnet in unit && Tunnetd in unit
  }

  function FileIn(unit: Unit, b: Binary): Option<string> {
    if b in unit then Some(unit[b]) else None
  }

  lemma CompleteReplaces(unit: Unit, other: Unit)
    requires Complete(unit)
    ensures other + unit == unit
  {
    forall b | b in other ensures b in unit {
      match b {
        case Tunnet =>
        case Tunnetd =>
      }
    }
  }

  function Pick(unit: Unit, names: seq<Binary>): Unit {
    map b | b in unit && b in names :: unit[b]
  }

  lemma Named(b: Binary)
    ensures b in UNIT_NAMES
  {
    match b {
      case Tunnet => assert UNIT_NAMES[0] == b;
      case Tunnetd => assert UNIT_NAMES[1] == b;
    }
  }

  lemma PickAll(unit: Unit)
    ensures Pick(unit, UNIT_NAMES[..|UNIT_NAMES|]) == unit
  {
    assert UNIT_NAMES[..|UNIT_NAMES|] == UNIT_NAMES;
    forall b | b in unit ensures b in UNIT_NAMES {
      Named(b);
    }
  }

  lemma PickOneMore(unit: Unit, i: nat)
    requires i < |UNIT_NAMES|
    ensures var name := UNIT_NAMES[i];
            Pick(unit, UNIT_NAMES[..i + 1]) ==
            if name in unit then Pick(unit, UNIT_NAMES[..i])[name := unit[name]] else Pick(unit, UNIT_NAMES[..i])
  {
    assert UNIT_NAMES[..i + 1] == UNIT_NAMES[..i] + [UNIT_NAMES[i]];
  }

  /** A restore that failed at the i-th name, with or without having moved its file away. */
  function StoppedAt(i: nat, moved: bool): Partial
    requires i < |UNIT_NAMES|
  {
    Partial(set b | b in UNIT_NAMES[..i], if moved then {UNIT_NAMES[i]} else {})
  }

  lemma StoppedPartly(installed: Unit, previous: Unit, i: nat, left: Unit)
    requires i < |UNIT_NAMES| && UNIT_NAMES[i] in previous
    requires var before := installed + Pick(previous, UNIT_NAMES[..i]);
             left == before || (UNIT_NAMES[i] in before && left == before - {UNIT_NAMES[i]})
    ensures left == Partly(installed, previous,
                           StoppedAt(i, left != installed + Pick(previous, UNIT_NAMES[..i])))
  {
    assert UNIT_NAMES[i] !in UNIT_NAMES[..i];
  }

  /** `replacement` and `replaced` are the helper files beside the installed ones. */
  class Disk {
    var installed: Unit
    var replacement: Unit
    var replaced: Unit
    var previous: Option<Unit>
    var payload: Unit
    var marker: Marker
    var timer: Option<Timer>
    /** The answers of the file system, operation by operation. */
    const script: nat -> Reply
    var ops: nat

    constructor (installed: Unit, payload: Unit, script: nat -> Reply)
      ensures View() == Agent(installed, None, Absent, None) && this.payload == payload && this.script == script
    {
      this.installed := installed;
      this.payload := payload;
      this.script := script;
      replacement, replaced, previous := map[], map[], None;
      marker, timer, ops := Absent, None, 0;
    }

    ghost function View(): Agent
      reads this
    {
      Agent(installed, previous, marker, timer)
    }

    /** No operation fails any more. */
    ghost predicate FineFrom(n: nat) {
      forall k :: n <= k ==> script(k).Fine?
    }

    method Next() returns (r: Reply)
      modifies this`ops
      ensures r == script(old(ops)) && old(ops) < ops
    {
      r := script(ops);
      ops := ops + 1;
    }

    // The marker and the previous directory

    method WriteMarker(p: Pending) returns (ok: bool)
      modifies this`marker, this`ops
      ensures marker == if ok then Record(p) else old(marker)
      ensures old(ops) <= ops
      ensures FineFrom(old(ops)) ==> ok
    {
      var r := Next();
      ok := r.Fine?;
      if ok {
        marker := Record(p);
      }
    }

    method RemoveMarkerFile() returns (removed: bool)
      modifies this`marker, this`ops
      ensures marker == if removed then Absent else old(marker)
      ensures old(ops) <= ops
      ensures FineFrom(old(ops)) ==> removed
    {
      var r := Next();
      removed := r.Fine?;
      if removed {
        marker := Absent;
      }
    }

    method RemovePreviousDir() returns (kept: Option<set<Binary>>)
      requires previous.Some?
      modifies this`previous, this`ops
      ensures View() == RemovePrevious(old(View()), Io(true, None, kept, true))
      ensures old(ops) <= ops
      ensures FineFrom(old(ops)) ==> kept.None?
    {
      var r := Next();
      match r {
        case Fine =>
          previous := None;
          return None;
        case Fails(_, keeps) =>
          previous := Some(map b | b in previous.value && b in keeps :: previous.value[b]);
          return Some(keeps);
      }
    }

    // The installation unit

    /** Copy beside the installed file, where a failure may leave a partial one. */
    method CopyToReplacement(src: Option<string>, b: Binary) returns (ok: bool)
      modifies this`replacement, this`ops
      ensures ok ==> src.Some? && replacement == old(replacement)[b := src.value]
      ensures old(ops) <= ops
      ensures FineFrom(old(ops)) ==> ok == src.Some?
    {
      if src.None? {
        return false;
      }
      var r := Next();
      match r {
        case Fine =>
          replacement := replacement[b := src.value];
          return true;
        case Fails(partial, _) =>
          if partial.Some? {
            replacement := replacement[b := partial.value];
          }
          return false;
      }
    }

    method RemoveReplacement(b: Binary)
      modifies this`replacement, this`ops
      ensures old(ops) <= ops
    {
      var r := Next();
      if r.Fine? {
        replacement := replacement - {b};
      }
    }

    method RemoveReplaced(b: Binary)
      modifies this`replaced, this`ops
      ensures old(ops) <= ops
    {
      var r := Next();
      if r.Fine? {
        replaced := replaced - {b};
      }
    }

    method SetAside(b: Binary) returns (ok: bool)
      requires b in installed
      modifies this`installed, this`replaced, this`ops
      ensures ok ==> installed == old(installed) - {b} && FileIn(replaced, b) == Some(old(installed)[b])
      ensures !ok ==> installed == old(installed)
      ensures old(ops) <= ops
      ensures FineFrom(old(ops)) ==> ok
    {
      var r := Next();
      ok := r.Fine?;
      if ok {
        replaced := replaced[b := installed[b]];
        installed := installed - {b};
      }
    }

    method MoveIn(b: Binary) returns (ok: bool)
      requires b in replacement
      modifies this`installed, this`replacement, this`ops
      ensures installed == if ok then old(installed)[b := old(replacement)[b]] else old(installed)
      ensures old(ops) <= ops
      ensures FineFrom(old(ops)) ==> ok
    {
      var r := Next();
      ok := r.Fine?;
      if ok {
        installed := installed[b := replacement[b]];
        replacement := replacement - {b};
      }
    }

    /**
     Swap one binary in.  Whatever fails, the installed file is the old one or the
     whole new one, or missing with the old one set aside under its replaced name.
     */
    method ReplaceInstallFile(src: Option<string>, b: Binary) returns (ok: bool)
      modifies this`installed, this`replacement, this`replaced, this`ops
      ensures ok ==> src.Some? && installed == old(installed)[b := src.value]
      ensures !ok ==>
                || installed == old(installed)
                || (b in old(installed) && installed == old(installed) - {b} &&
                    FileIn(replaced, b) == Some(old(installed)[b]))
      ensures old(ops) <= ops
      ensures FineFrom(old(ops)) ==> ok == src.Some?
    {
      RemoveReplacement(b);
      RemoveReplaced(b);
      ok := CopyToReplacement(src, b);
      if !ok {
        return;
      }
      if b in installed {
        ok := SetAside(b);
        if !ok {
          return;
        }
      }
      ok := MoveIn(b);
      if !ok {
        return;
      }
      RemoveReplaced(b);
    }

    /** Put every file of the previous unit back; stops at the first failure. */
    method RestoreUnit() returns (ok: bool, ghost part: Partial)
      requires previous.Some?
      modifies this`installed, this`replacement, this`replaced, this`ops
      ensures installed == if ok then old(installed) + previous.value else Partly(old(installed), previous.value, part)
      ensures old(ops) <= ops
      ensures FineFrom(old(ops)) ==> ok
    {
      for i := 0 to |UNIT_NAMES|
        invariant installed == old(installed) + Pick(previous.value, UNIT_NAMES[..i])
        invariant old(ops) <= ops
      {
        var name := UNIT_NAMES[i];
        PickOneMore(previous.value, i);
        if name in previous.value {
          ghost var before := installed;
          ok := ReplaceInstallFile(FileIn(previous.value, name), name);
          if !ok {
            part := StoppedAt(i, installed != before);
            StoppedPartly(old(installed), previous.value, i, installed);
            return;
          }
        }
      }
      PickAll(previous.value);
      ok, part := true, Partial({}, {});
    }

    /** Set the installed unit aside; touches nothing but the previous directory. */
    method BackUp() returns (ok: bool)
      modifies this`previous, this`ops
      ensures ok ==> previous == Some(installed)
      ensures old(ops) <= ops
      ensures FineFrom(old(ops)) ==> ok
    {
      if previous.Some? {
        var kept := RemovePreviousDir();
        if kept.Some? {
          return false;
        }
      }
      var r := Next();
      if !r.Fine? {
        return false;
      }
      previous := Some(map[]);
      for i := 0 to |UNIT_NAMES|
        invariant previous == Some(Pick(installed, UNIT_NAMES[..i]))
        invariant old(ops) <= ops
      {
        var name := UNIT_NAMES[i];
        PickOneMore(installed, i);
        if name in installed {
          r := Next();
          match r {
            case Fine =>
              previous := Some(previous.value[name := installed[name]]);
            case Fails(partial, _) =>
              if partial.Some? {
                previous := Some(previous.value[name := partial.value]);
              }
              return false;
          }
        }
      }
      PickAll(installed);
      ok := true;
    }

    method ReplaceAll() returns (ok: bool)
      modifies this`installed, this`replacement, this`replaced, this`ops
      ensures ok ==> installed == old(installed) + payload && Complete(payload)
      ensures old(ops) <= ops
      ensures FineFrom(old(ops)) && Complete(payload) ==> ok
    {
      for i := 0 to |UNIT_NAMES|
        invariant installed == old(installed) + Pick(payload, UNIT_NAMES[..i])
        invariant forall b :: b in UNIT_NAMES[..i] ==> b in payload
        invariant old(ops) <= ops
      {
        var name := UNIT_NAMES[i];
        PickOneMore(payload, i);
        assert UNIT_NAMES[..i + 1] == UNIT_NAMES[..i] + [name];
        ok := ReplaceInstallFile(FileIn(payload, name), name);
        if !ok {
          return;
        }
      }
      PickAll(payload);
      Named(Tunnet);
      Named(Tunnetd);
      assert UNIT_NAMES[..|UNIT_NAMES|] == UNIT_NAMES;
      ok := true;
    }

    /**
     Activate a verified payload.  Success means both binaries are the payload's,
     the prior unit is set aside and the marker is written.  A failure before the
     swap touches neither binaries nor marker; a later one is undone from the unit
     set aside, which stays there, and completely if no operation fails from
     `undoFrom`, where the undoing starts.  `reloaded` and `restarted` say
     how the service reload goes.
     */
    method ActivateVerified(
        now: int, fromVersion: string, toVersion: string, apiVersion: nat, reloaded: bool, restarted: bool)
      returns (ok: bool, ghost result: Activation, ghost undoFrom: nat)
      modifies this
      ensures View() == OnActivate(old(View()), now, payload, fromVersion, toVersion, apiVersion, result)
      ensures payload == old(payload)
      ensures ok <==> result.Activated?
      ensures FineFrom(old(ops)) && Complete(payload) && reloaded ==> ok
      ensures old(ops) <= undoFrom <= ops
      ensures result.NotStarted? ==> installed == old(installed) && marker == old(marker)
      ensures result.Failed? ==> previous == Some(old(installed))
      ensures result.Failed? && FineFrom(undoFrom) ==>
                marker.Absent? && forall b :: b in old(installed) ==> FileIn(installed, b) == Some(old(installed)[b])
      ensures ok ==> Complete(payload) && installed == payload && previous == Some(old(installed))
      ensures ok ==> marker == Record(Pending(now / 1000, fromVersion, toVersion, apiVersion, 30, 0))
      ensures ok ==> timer == if restarted then None else old(timer)
    {
      ok := BackUp();
      if !ok {
        return false, NotStarted(previous), ops;
      }
      ghost var staged := false;
      ok := ReplaceAll();
      if ok {
        ok := WriteMarker(NewUpdate(now, fromVersion, toVersion, apiVersion));
        if ok {
          staged := true;
          ok := reloaded;
        }
      }
      if ok {
        CompleteReplaces(payload, old(installed));
        timer := if restarted then None else timer;
        return true, Activated(restarted), ops;
      }
      ghost var wreck := installed;
      undoFrom := ops;
      var restored, part := RestoreUnit();
      var removed := RemoveMarkerFile();
      return false, Failed(wreck, staged, Io(true, if restored then None else Some(part), None, removed)), undoFrom;
    }

    // Boots

    method RevertToPrevious() returns (ok: bool, ghost io: Io)
      modifies this`installed, this`replacement, this`replaced, this`previous, this`marker, this`ops
      ensures View() == Revert(old(View()), io) && io.wrote
      ensures FineFrom(old(ops)) ==> marker.Absent? && previous.None?
      ensures FineFrom(old(ops)) ==>
                installed == match old(previous) case None => old(installed) case Some(unit) => old(installed) + unit
      ensures ok <==> old(previous).None? || io.broken.None?
      ensures old(ops) <= ops
      ensures FineFrom(old(ops)) ==> ok && io == CLEAN
    {
      var removed;
      if previous.None? {
        removed := RemoveMarkerFile();
        return true, Io(true, None, None, removed);
      }
      ghost var part;
      ok, part := RestoreUnit();
      if !ok {
        return false, Io(true, Some(part), None, false);
      }
      var kept := RemovePreviousDir();
      removed := RemoveMarkerFile();
      return true, Io(true, None, kept, removed);
    }

    method MarkUpdateSuccess(p: Pending) returns (ghost io: Io)
      modifies this`previous, this`marker, this`ops
      ensures View() == MarkSuccess(old(View()), p, io) && io.wrote
      ensures old(ops) <= ops
      ensures FineFrom(old(ops)) && !(old(marker).Record? && old(marker).update.toVersion != p.toVersion) ==>
                marker.Absent? && (!old(marker).Absent? ==> previous.None?)
      ensures old(marker).Absent? || (old(marker).Record? && old(marker).update.toVersion != p.toVersion) ==>
                marker == old(marker) && previous == old(previous)
      ensures FineFrom(old(ops)) ==> io == CLEAN
    {
      io := CLEAN;
      if marker.Absent? {
        return;
      }
      if marker.Record? && marker.update.toVersion != p.toVersion {
        return;
      }
      var removed := RemoveMarkerFile();
      var kept := None;
      if previous.Some? {
        kept := RemovePreviousDir();
      }
      io := Io(true, None, kept, removed);
    }

    /** What the daemon does with the marker when it starts. */
    method OnAgentStart(now: int, version: string, apiVersion: nat) returns (ok: bool, ghost io: Io)
      modifies this
      ensures View() == OnBoot(old(View()), now, version, apiVersion, io)
      ensures FineFrom(old(ops)) ==> io == CLEAN && (ok <==> !old(marker).Unreadable?)
      ensures old(marker).Unreadable? ==> !ok && marker.Unreadable?
      ensures old(marker).Absent? ==> ok && marker.Absent?
    {
      timer := None;
      io := CLEAN;
      if marker.Absent? {
        return true, io;
      }
      if marker.Unreadable? {
        return false, io;
      }
      var pending := marker.update;
      if pending.toVersion != version || pending.apiVersion != apiVersion {
        ok, io := RevertToPrevious();
        return;
      }
      var elapsed := Elapsed(pending, now);
      var window := Window(pending);
      pending := pending.(boots := if pending.boots < MAX_U32 then pending.boots + 1 else pending.boots);
      var wrote := WriteMarker(pending);
      if !wrote {
        return false, io.(wrote := false);
      }
      if pending.boots > 1 && elapsed < window {
        ok, io := RevertToPrevious();
        return;
      }
      if elapsed >= window {
        io := MarkUpdateSuccess(pending);
        return true, io;
      }
      timer := Some(Timer(now + (window - elapsed) * 1000, pending));
      ok := true;
    }

    /** The sleeping task wakes. */
    method TimerFires(now: int) returns (ghost io: Io)
      modifies this
      ensures View() == OnFire(old(View()), now, io)
      ensures FineFrom(old(ops)) ==> io == CLEAN
    {
      io := CLEAN;
      if timer.Some? && timer.value.due <= now {
        io := MarkUpdateSuccess(timer.value.update);
        timer := None;
      }
    }
  }
}
