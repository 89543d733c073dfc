/**
 Installing a core's configuration: check a temporary file, keep a copy of the live one, swap, restart
 the service, and swap back if it does not come up.

 Every call to the file system, the core's own check and the service may fail. How each one ends is an
 input, and so are the fresh file names and what a failed write leaves in a file.
 */
module ConfigInstall {
  import opened Outcome

  datatype Machine = Machine(files: map<string, string>, running: Option<string>)

  datatype Stat = Present | Missing | Unknown

  /** How the calls of one installation end, in the order of the calls. None is a file that could not be created. */
  datatype World = World(dirReady: bool, temp: Option<string>, wrote: bool, partial: string, chmod: bool, closed: bool,
                         checked: bool, accepts: string -> bool, stat: Stat,
                         backup: Option<string>, readBack: bool, copied: bool, backupPartial: string, backupClosed: bool,
                         swapped: bool, restarted: bool, restored: bool, restartedAgain: bool, tempRemoved: bool, backupRemoved: bool)

  datatype Stage = Prepare | Temporary | Check | Inspect | Backup | Swap | Restart

  datatype Ending = Applied | Failed(stage: Stage)

  /** The content at the configuration path. */
  function Live(m: Machine, path: string): Option<string> {
    if path in m.files then Some(m.files[path]) else None
  }

  /** What the calls report agrees with the machine, and new files get names that are not in use. */
  predicate Consistent(m: Machine, path: string, w: World) {
    && (w.stat.Present? ==> path in m.files) && (w.stat.Missing? ==> path !in m.files)
    && (w.temp.Some? ==> w.temp.value !in m.files && w.temp.value != path)
    && (w.backup.Some? ==> w.backup.value !in m.files && w.backup.value != path && w.temp != w.backup)
  }

  function Rename(m: Machine, from: string, to: string): Machine {
    if from in m.files then m.(files := (m.files - {from})[to := m.files[from]]) else m
  }

  function Put(m: Machine, file: string, content: string): Machine {
    m.(files := m.files[file := content])
  }

  function Remove(m: Machine, file: string): Machine {
    m.(files := m.files - {file})
  }

  /** A restart that fails leaves the service down. */
  function Restarted(m: Machine, path: string, ok: bool): Machine {
    m.(running := if ok then Live(m, path) else None)
  }

  // ---------- The protocol ----------

  /** A run so far: the machine after every step that changed it, and how it ended. */
  datatype Run = Run(past: seq<Machine>, now: Machine, ended: Option<Ending>)
  {
    function Then(m: Machine): Run {
      Run(past + [m], m, ended)
    }

    function End(o: Ending): Run {
      Run(past, now, Some(o))
    }

    predicate Open() {
      ended.None?
    }
  }

  function Begin(m: Machine, w: World): Run {
    var r := Run([m], m, None);
    if !w.dirReady then r.End(Failed(Prepare)) else if w.temp.None? then r.End(Failed(Temporary)) else r.Then(Put(m, w.temp.value, ""))
  }

  function WriteTemp(r: Run, w: World, raw: string): Run
    requires r.Open() ==> w.temp.Some?
  {
    if !r.Open() then r
    else if !w.wrote then r.Then(Put(r.now, w.temp.value, w.partial)).End(Failed(Temporary))
    else
      var u := r.Then(Put(r.now, w.temp.value, raw));
      if !w.chmod || !w.closed then u.End(Failed(Temporary))
      else if !w.checked || !w.accepts(raw) then u.End(Failed(Check))
      else u
  }

  function CopyLive(r: Run, w: World, path: string): Run
    requires r.Open() && w.stat.Present? ==> path in r.now.files
  {
    if !r.Open() || w.stat.Missing? then r
    else if w.stat.Unknown? then r.End(Failed(Inspect))
    else if w.backup.None? then r.End(Failed(Backup))
    else
      var u := r.Then(Put(r.now, w.backup.value, ""));
      if !w.readBack then u.End(Failed(Backup))
      else if !w.copied then u.Then(Put(u.now, w.backup.value, w.backupPartial)).End(Failed(Backup))
      else
        var v := u.Then(Put(u.now, w.backup.value, r.now.files[path]));
        if w.backupClosed then v else v.End(Failed(Backup))
  }

  /** Whether there is a copy to go back to. */
  predicate HasCopy(w: World) {
    w.stat.Present? && w.backup.Some?
  }

  function SwapIn(r: Run, w: World, path: string): Run
    requires r.Open() ==> w.temp.Some?
  {
    if !r.Open() then r
    else if !w.swapped then r.End(Failed(Swap))
    else r.Then(Rename(r.now, w.temp.value, path))
  }

  function RestartOrRestore(r: Run, w: World, path: string): Run {
    if !r.Open() then r
    else
      var u := r.Then(Restarted(r.now, path, w.restarted));
      if w.restarted then
        (if HasCopy(w) && w.backupRemoved then u.Then(Remove(u.now, w.backup.value)) else u).End(Applied)
      else if !HasCopy(w) || !w.restored then u.End(Failed(Restart))
      else
        var v := u.Then(Rename(u.now, w.backup.value, path));
        v.Then(Restarted(v.now, path, w.restartedAgain)).End(Failed(Restart))
  }

  /** Whatever happened, the temporary file is removed if it is still there. */
  function CleanUp(r: Run, w: World): Run {
    if w.temp.Some? && w.temp.value in r.now.files && w.tempRemoved then r.Then(Remove(r.now, w.temp.value)) else r
  }

  function Checked(m: Machine, w: World, raw: string): (r: Run)
    ensures r.Open() ==> w.temp.Some?
  {
    WriteTemp(Begin(m, w), w, raw)
  }

  lemma CheckedKeepsLive(m: Machine, path: string, w: World, raw: string)
    requires Consistent(m, path, w)
    ensures path in Checked(m, w, raw).now.files <==> path in m.files
  {
  }

  function Install(m: Machine, path: string, w: World, raw: string): Run
    requires Consistent(m, path, w)
  {
    CheckedKeepsLive(m, path, w, raw);
    CleanUp(RestartOrRestore(SwapIn(CopyLive(Checked(m, w, raw), w, path), w, path), w, path), w)
  }

  // ---------- The machine and the two installers ----------

  class Host {
    var machine: Machine
    ghost var past: seq<Machine>

    constructor (m: Machine)
      ensures machine == m && past == [m]
    {
      machine := m;
      past := [m];
    }

    method Become(m: Machine)
      modifies this
      ensures machine == m && past == old(past) + [m]
    {
      machine := m;
      past := past + [m];
    }

    /** Leaves the live content in the named backup file. */
    method CopyCurrent(path: string, w: World, backup: string) returns (ok: bool)
      requires path in machine.files && w.stat.Present? && w.backup == Some(backup)
      modifies this
      ensures var u := CopyLive(Run(old(past), old(machine), None), w, path);
              machine == u.now && past == u.past && u.ended == (if ok then None else Some(Failed(Backup)))
    {
      var current := machine.files[path];
      Become(Put(machine, backup, ""));
      if !w.readBack {
        return false;
      }
      if !w.copied {
        Become(Put(machine, backup, w.backupPartial));
        return false;
      }
      Become(Put(machine, backup, current));
      ok := w.backupClosed;
    }

    /** Writes, closes and checks a temporary file; the first step that fails is the answer. */
    method CheckTemporary(w: World, raw: string, temp: string) returns (failed: Option<Stage>)
      requires w.dirReady && w.temp == Some(temp) && past == [machine]
      modifies this
      ensures var r := Checked(old(machine), w, raw);
              machine == r.now && past == r.past && r.ended == (if failed.Some? then Some(Failed(failed.value)) else None)
    {
      Become(Put(machine, temp, ""));
      if !w.wrote {
        Become(Put(machine, temp, w.partial));
        return Some(Temporary);
      }
      Become(Put(machine, temp, raw));
      if !w.chmod {
        return Some(Temporary);
      }
      if !w.closed {
        return Some(Temporary);
      }
      if !w.checked || !w.accepts(raw) {
        return Some(Check);
      }
      failed := None;
    }

    /** The sing-box installer, which always tries to remove the temporary file in the end. */
    method ApplySingboxConfig(path: string, w: World, raw: string) returns (o: Ending)
      requires Consistent(machine, path, w) && past == [machine]
      modifies this
      ensures var r := Install(old(machine), path, w, raw);
              machine == r.now && past == r.past && r.ended == Some(o)
    {
      hide Checked, RestartOrRestore, SwapIn, CopyLive;
      CheckedKeepsLive(machine, path, w, raw);
      NotStarted(machine, path, w, raw);
      if !w.dirReady {
        return Failed(Prepare);
      }
      if w.temp.None? {
        return Failed(Temporary);
      }
      var temp := w.temp.value;
      var failed := CheckTemporary(w, raw, temp);
      StepsAfterFailure(past, machine, path, w);
      if failed.Some? {
        o := Failed(failed.value);
      } else {
        o := InstallChecked(path, w, temp);
      }
      if temp in machine.files && w.tempRemoved {
        Become(Remove(machine, temp));
      }
    }

    /** The Xray installer, which leaves the temporary file alone once it has become the configuration. */
    method ApplyXrayConfig(path: string, w: World, raw: string) returns (applied: bool, stage: Stage)
      requires Consistent(machine, path, w) && past == [machine]
      modifies this
      ensures var r := Install(old(machine), path, w, raw);
              machine == r.now && past == r.past && r.ended == Some(if applied then Applied else Failed(stage))
    {
      hide Checked, RestartOrRestore, SwapIn, CopyLive;
      CheckedKeepsLive(machine, path, w, raw);
      NotStarted(machine, path, w, raw);
      if !w.dirReady {
        return false, Prepare;
      }
      if w.temp.None? {
        return false, Temporary;
      }
      var temp := w.temp.value;
      var failed := CheckTemporary(w, raw, temp);
      StepsAfterFailure(past, machine, path, w);
      var cleanUp := true;
      var o := Applied;
      if failed.Some? {
        o := Failed(failed.value);
      } else {
        ghost var before, checkedPast := machine, past;
        o := InstallChecked(path, w, temp);
        cleanUp := o.Failed? && o.stage != Restart;
        SwappedAway(Run(checkedPast, before, None), path, w);
      }
      if cleanUp && temp in machine.files && w.tempRemoved {
        Become(Remove(machine, temp));
      }
      applied := o.Applied?;
      stage := if o.Failed? then o.stage else Restart;
    }

    /** From the checked temporary file to the end. */
    method InstallChecked(path: string, w: World, temp: string) returns (o: Ending)
      requires w.temp == Some(temp) && (w.stat.Present? ==> path in machine.files)
      modifies this
      ensures var r := RestartOrRestore(SwapIn(CopyLive(Run(old(past), old(machine), None), w, path), w, path), w, path);
              machine == r.now && past == r.past && r.ended == Some(o)
    {
      hide RestartOrRestore, SwapIn, CopyLive;
      StepsAfterFailure(past, machine, path, w);
      NothingToCopy(Run(past, machine, None), w, path);
      var backup := "";
      if w.stat.Present? {
        if w.backup.None? {
          return Failed(Backup);
        }
        backup := w.backup.value;
        var copied := CopyCurrent(path, w, backup);
        StepsAfterFailure(past, machine, path, w);
        if !copied {
          return Failed(Backup);
        }
      } else if !w.stat.Missing? {
        return Failed(Inspect);
      }
      o := SwapAndRestart(path, w, temp, w.stat.Present?, backup);
    }

    /** Both installers end alike. */
    method SwapAndRestart(path: string, w: World, temp: string, copied: bool, backup: string) returns (o: Ending)
      requires w.temp == Some(temp) && (copied <==> HasCopy(w)) && (copied ==> w.backup == Some(backup))
      modifies this
      ensures var r := RestartOrRestore(SwapIn(Run(old(past), old(machine), None), w, path), w, path);
              machine == r.now && past == r.past && r.ended == Some(o)
    {
      hide Put, Rename, Restarted, Remove;
      if !w.swapped {
        return Failed(Swap);
      }
      Become(Rename(machine, temp, path));
      Become(Restarted(machine, path, w.restarted));
      if !w.restarted {
        if copied {
          if !w.restored {
            return Failed(Restart);
          }
          Become(Rename(machine, backup, path));
          Become(Restarted(machine, path, w.restartedAgain));
        }
        return Failed(Restart);
      }
      if copied && w.backupRemoved {
        Become(Remove(machine, backup));
      }
      o := Applied;
    }
  }

  /** A run that has ended takes no further step. */
  lemma StepsAfterFailure(past: seq<Machine>, now: Machine, path: string, w: World)
    ensures forall o :: RestartOrRestore(SwapIn(CopyLive(Run(past, now, Some(o)), w, path), w, path), w, path) == Run(past, now, Some(o))
    ensures forall o :: RestartOrRestore(SwapIn(Run(past, now, Some(o)), w, path), w, path) == Run(past, now, Some(o))
  {
  }

  lemma NotStarted(m: Machine, path: string, w: World, raw: string)
    requires Consistent(m, path, w)
    ensures !w.dirReady ==> Install(m, path, w, raw) == CleanUp(Run([m], m, Some(Failed(Prepare))), w)
    ensures w.temp.None? ==> Install(m, path, w, raw) == Run([m], m, Some(Failed(if w.dirReady then Temporary else Prepare)))
    ensures w.temp.Some? ==> w.temp.value !in m.files
  {
  }

  lemma NothingToCopy(r: Run, w: World, path: string)
    requires r.Open() && (w.stat.Present? ==> path in r.now.files)
    ensures w.stat.Missing? ==> CopyLive(r, w, path) == r
    ensures w.stat.Unknown? ==> CopyLive(r, w, path) == r.End(Failed(Inspect))
    ensures w.stat.Present? && w.backup.None? ==> CopyLive(r, w, path) == r.End(Failed(Backup))
  {
  }

  /** Once the swap has happened there is no temporary file, and the end is success or a failed restart. */
  lemma SwappedAway(r: Run, path: string, w: World)
    requires r.Open() && w.temp.Some? && w.temp.value != path && w.temp != w.backup && (w.stat.Present? ==> path in r.now.files)
    ensures var e := RestartOrRestore(SwapIn(CopyLive(r, w, path), w, path), w, path);
            e.ended == Some(Applied) || e.ended == Some(Failed(Restart)) ==> w.temp.value !in e.now.files
  {
    CopyEnds(r, w, path);
    SwapEnds(CopyLive(r, w, path), w, path);
    hide CopyLive, SwapIn;
  }

  lemma CopyEnds(r: Run, w: World, path: string)
    requires r.Open() && (w.stat.Present? ==> path in r.now.files)
    ensures var u := CopyLive(r, w, path); u.ended in {None, Some(Failed(Inspect)), Some(Failed(Backup))}
  {
    hide Put;
  }

  lemma SwapEnds(r: Run, w: World, path: string)
    requires w.temp.Some? && w.temp.value != path
    ensures var u := SwapIn(r, w, path);
            if r.Open() then (if w.swapped then u.Open() && w.temp.value !in u.now.files else u.ended == Some(Failed(Swap))) else u == r
  {
  }

  // ---------- What holds at every step ----------

  /** The live configuration is the one from before or the new one, which passed the check. */
  ghost predicate GoodLive(s: Machine, m: Machine, path: string, w: World, raw: string) {
    Live(s, path) == Live(m, path) || (Live(s, path) == Some(raw) && w.checked && w.accepts(raw))
  }

  ghost predicate AlwaysGood(r: Run, m: Machine, path: string, w: World, raw: string) {
    && GoodLive(r.now, m, path, w, raw)
    && forall i :: 0 <= i < |r.past| ==> GoodLive(r.past[i], m, path, w, raw)
  }

  /** Files of other names are as they were. */
  ghost predicate OthersSame(s: Machine, m: Machine, path: string, w: World) {
    forall f :: f != path && w.temp != Some(f) && w.backup != Some(f) ==> Live(s, f) == Live(m, f)
  }

  /** Before the swap: nothing but temporary files has changed. */
  ghost predicate BeforeSwap(r: Run, m: Machine, path: string, w: World, raw: string) {
    && AlwaysGood(r, m, path, w, raw) && OthersSame(r.now, m, path, w)
    && Live(r.now, path) == Live(m, path) && r.now.running == m.running
    && (r.Open() ==> w.temp.Some? && Live(r.now, w.temp.value) == Some(raw) && w.checked && w.accepts(raw))
  }

  lemma CheckedIsBeforeSwap(m: Machine, path: string, w: World, raw: string)
    requires Consistent(m, path, w)
    ensures BeforeSwap(Checked(m, w, raw), m, path, w, raw)
    ensures w.backup.Some? ==> w.backup.value !in Checked(m, w, raw).now.files
  {
  }

  lemma CopyIsBeforeSwap(r: Run, m: Machine, path: string, w: World, raw: string)
    requires Consistent(m, path, w) && BeforeSwap(r, m, path, w, raw)
    ensures r.Open() && w.stat.Present? ==> path in r.now.files
    ensures var u := CopyLive(r, w, path);
            BeforeSwap(u, m, path, w, raw) && (u.Open() ==> r.Open() && !w.stat.Unknown? && (w.stat.Present? ==> HasCopy(w) && Live(u.now, w.backup.value) == Live(m, path)))
  {
    assert r.Open() && w.stat.Present? ==> path in r.now.files by {
      assert Live(r.now, path) == Live(m, path);
    }
    if r.Open() && w.stat.Present? && w.backup.Some? {
      PutElsewhere(r, m, path, w, raw, "");
      var u := r.Then(Put(r.now, w.backup.value, ""));
      PutElsewhere(u, m, path, w, raw, w.backupPartial);
      PutElsewhere(u, m, path, w, raw, r.now.files[path]);
    }
    hide BeforeSwap, Put;
  }

  /** Writing the backup file keeps everything but that file. */
  lemma PutElsewhere(r: Run, m: Machine, path: string, w: World, raw: string, content: string)
    requires Consistent(m, path, w) && w.backup.Some? && BeforeSwap(r, m, path, w, raw)
    ensures BeforeSwap(r.Then(Put(r.now, w.backup.value, content)), m, path, w, raw)
    ensures Live(Put(r.now, w.backup.value, content), w.backup.value) == Some(content)
  {
  }

  /** After the swap: the new configuration is live and the old one is in the backup. */
  ghost predicate AfterSwap(r: Run, m: Machine, path: string, w: World, raw: string) {
    && AlwaysGood(r, m, path, w, raw) && OthersSame(r.now, m, path, w)
    && Live(r.now, path) == Some(raw) && w.checked && w.accepts(raw)
    && (HasCopy(w) ==> Live(r.now, w.backup.value) == Live(m, path))
  }

  lemma SwapIsAfterSwap(r: Run, m: Machine, path: string, w: World, raw: string)
    requires Consistent(m, path, w) && BeforeSwap(r, m, path, w, raw)
    requires r.Open() && HasCopy(w) ==> Live(r.now, w.backup.value) == Live(m, path)
    ensures var u := SwapIn(r, w, path);
            if u.Open() then AfterSwap(u, m, path, w, raw) else BeforeSwap(u, m, path, w, raw)
  {
    if r.Open() && w.swapped {
      var n := Rename(r.now, w.temp.value, path);
      assert Live(n, path) == Some(raw);
      forall i | 0 <= i < |r.past| + 1 ensures GoodLive((r.past + [n])[i], m, path, w, raw) {
        assert i < |r.past| ==> (r.past + [n])[i] == r.past[i];
      }
    }
  }

  /** How an installation that got past the swap ends. */
  ghost predicate Settled(r: Run, m: Machine, path: string, w: World, raw: string) {
    && AlwaysGood(r, m, path, w, raw) && OthersSame(r.now, m, path, w)
    && if w.restarted then r.ended == Some(Applied) && Live(r.now, path) == Some(raw) && r.now.running == Some(raw) && w.checked && w.accepts(raw)
       else
         && r.ended == Some(Failed(Restart))
         && if HasCopy(w) && w.restored then Live(r.now, path) == Live(m, path) && r.now.running == (if w.restartedAgain then Live(m, path) else None)
            else Live(r.now, path) == Some(raw) && r.now.running == None
  }

  lemma ThenGood(r: Run, n: Machine, m: Machine, path: string, w: World, raw: string)
    requires AlwaysGood(r, m, path, w, raw) && GoodLive(n, m, path, w, raw)
    ensures AlwaysGood(r.Then(n), m, path, w, raw)
  {
    hide GoodLive;
  }

  lemma RestartSettles(r: Run, m: Machine, path: string, w: World, raw: string)
    requires Consistent(m, path, w) && r.Open() && AfterSwap(r, m, path, w, raw)
    ensures Settled(RestartOrRestore(r, w, path), m, path, w, raw)
  {
    var n := Restarted(r.now, path, w.restarted);
    var u := r.Then(n);
    ThenGood(r, n, m, path, w, raw);
    if w.restarted && HasCopy(w) {
      ThenGood(u, Remove(n, w.backup.value), m, path, w, raw);
    }
    if !w.restarted && HasCopy(w) && w.restored {
      var back := Rename(n, w.backup.value, path);
      assert Live(back, path) == Live(m, path);
      ThenGood(u, back, m, path, w, raw);
      ThenGood(u.Then(back), Restarted(back, path, w.restartedAgain), m, path, w, raw);
    }
    hide AlwaysGood;
  }

  lemma CleanUpKeeps(r: Run, m: Machine, path: string, w: World, raw: string)
    requires Consistent(m, path, w) && AlwaysGood(r, m, path, w, raw) && OthersSame(r.now, m, path, w)
    ensures var u := CleanUp(r, w);
            && AlwaysGood(u, m, path, w, raw) && OthersSame(u.now, m, path, w)
            && Live(u.now, path) == Live(r.now, path) && u.now.running == r.now.running && u.ended == r.ended
  {
    if w.temp.Some? {
      ThenGood(r, Remove(r.now, w.temp.value), m, path, w, raw);
    }
    hide AlwaysGood;
  }

  /** The calls up to and including the swap all succeed. */
  predicate Swaps(w: World, raw: string) {
    && w.dirReady && w.temp.Some? && w.wrote && w.chmod && w.closed && w.checked && w.accepts(raw) && w.swapped
    && (w.stat.Missing? || (w.stat.Present? && w.backup.Some? && w.readBack && w.copied && w.backupClosed))
  }

  /**
   At every step the live configuration is the previous one or a new one that passed the check; an
   installation that fails before the swap changes neither it nor the service; and past the swap success
   means the new configuration is live and running, while a failed restart that could be undone means
   the previous one is live again, and running if the second restart worked.
   */
  lemma InstallIsSafe(m: Machine, path: string, w: World, raw: string)
    requires Consistent(m, path, w)
    ensures var r := Install(m, path, w, raw);
            && AlwaysGood(r, m, path, w, raw) && OthersSame(r.now, m, path, w)
            && if Swaps(w, raw) then Settled(r, m, path, w, raw)
               else r.ended.Some? && r.ended != Some(Applied) && Live(r.now, path) == Live(m, path) && r.now.running == m.running
  {
    hide BeforeSwap, AfterSwap, AlwaysGood, OthersSame, CleanUp, RestartOrRestore, SwapIn, CopyLive, Checked, Live;
    CheckedKeepsLive(m, path, w, raw);
    var a := Checked(m, w, raw);
    CheckedIsBeforeSwap(m, path, w, raw);
    CopyIsBeforeSwap(a, m, path, w, raw);
    var b := CopyLive(a, w, path);
    SwapIsAfterSwap(b, m, path, w, raw);
    var c := SwapIn(b, w, path);
    SwapsWhen(m, path, w, raw);
    if c.Open() {
      RestartSettles(c, m, path, w, raw);
    } else {
      EndedStays(c, w, path);
      BeforeSwapParts(c, m, path, w, raw);
    }
    CleanUpKeeps(RestartOrRestore(c, w, path), m, path, w, raw);
  }

  lemma BeforeSwapParts(r: Run, m: Machine, path: string, w: World, raw: string)
    requires BeforeSwap(r, m, path, w, raw)
    ensures AlwaysGood(r, m, path, w, raw) && OthersSame(r.now, m, path, w) && Live(r.now, path) == Live(m, path) && r.now.running == m.running
  {
  }

  lemma EndedStays(r: Run, w: World, path: string)
    requires !r.Open()
    ensures RestartOrRestore(r, w, path) == r
  {
  }

  lemma SwapsWhen(m: Machine, path: string, w: World, raw: string)
    requires Consistent(m, path, w)
    ensures path in Checked(m, w, raw).now.files <==> path in m.files
    ensures var c := SwapIn(CopyLive(Checked(m, w, raw), w, path), w, path);
            (c.Open() <==> Swaps(w, raw)) && (!c.Open() ==> c.ended != Some(Applied))
  {
    hide Put, Rename;
    CheckedWhen(m, w, raw);
    CheckedKeepsLive(m, path, w, raw);
    hide Checked;
  }

  lemma CheckedWhen(m: Machine, w: World, raw: string)
    ensures var r := Checked(m, w, raw);
            && (r.Open() <==> w.dirReady && w.temp.Some? && w.wrote && w.chmod && w.closed && w.checked && w.accepts(raw))
            && r.ended != Some(Applied)
  {
    hide Put;
  }

  /** An installation succeeds exactly if every call up to the restart does. */
  lemma AppliedIff(m: Machine, path: string, w: World, raw: string)
    requires Consistent(m, path, w)
    ensures Install(m, path, w, raw).ended == Some(Applied) <==> Swaps(w, raw) && w.restarted
  {
    InstallIsSafe(m, path, w, raw);
    hide Install, Swaps, AlwaysGood, OthersSame;
  }

  // ---------- What is left in the directory ----------

  /** The files that an installation may touch. */
  predicate Ours(path: string, w: World, file: string) {
    file == path || w.temp == Some(file) || w.backup == Some(file)
  }

  lemma CheckedLeavesOthers(m: Machine, path: string, w: World, raw: string, file: string)
    requires Consistent(m, path, w) && !Ours(path, w, file)
    ensures Live(Checked(m, w, raw).now, file) == Live(m, file)
  {
  }

  lemma CopyLeavesOthers(r: Run, path: string, w: World, file: string)
    requires (r.Open() && w.stat.Present? ==> path in r.now.files) && !Ours(path, w, file)
    ensures Live(CopyLive(r, w, path).now, file) == Live(r.now, file)
  {
  }

  lemma SwapLeavesOthers(r: Run, path: string, w: World, file: string)
    requires (r.Open() ==> w.temp.Some?) && !Ours(path, w, file)
    ensures Live(CleanUp(RestartOrRestore(SwapIn(r, w, path), w, path), w).now, file) == Live(r.now, file)
  {
  }

  /** No other file changes. */
  lemma OthersStay(m: Machine, path: string, w: World, raw: string, file: string)
    requires Consistent(m, path, w) && !Ours(path, w, file)
    ensures Live(Install(m, path, w, raw).now, file) == Live(m, file)
  {
    CheckedKeepsLive(m, path, w, raw);
    CheckedLeavesOthers(m, path, w, raw, file);
    CopyLeavesOthers(Checked(m, w, raw), path, w, file);
    SwapLeavesOthers(CopyLive(Checked(m, w, raw), w, path), path, w, file);
    hide Checked, CopyLive, SwapIn, RestartOrRestore, CleanUp, Live, Ours, Consistent;
  }

  /** If its removal works, the temporary file is gone in the end, however the installation ended. */
  lemma TemporaryIsGone(m: Machine, path: string, w: World, raw: string)
    requires Consistent(m, path, w) && w.temp.Some? && w.tempRemoved
    ensures w.temp.value !in Install(m, path, w, raw).now.files
  {
  }

  /** If it does not, and the file was made but never swapped in, the file is still there. */
  lemma TemporaryStays(m: Machine, path: string, w: World, raw: string)
    requires Consistent(m, path, w) && w.dirReady && w.temp.Some? && !w.tempRemoved
    requires var e := Install(m, path, w, raw).ended; e.Some? && e.value.Failed? && e.value.stage != Restart
    ensures w.temp.value in Install(m, path, w, raw).now.files
  {
  }

  /** After a success the backup is gone too, if its removal works, and what is live is what was to be installed. */
  lemma SuccessLeavesOne(m: Machine, path: string, w: World, raw: string)
    requires Consistent(m, path, w) && Install(m, path, w, raw).ended == Some(Applied)
    ensures var u := Install(m, path, w, raw).now;
            && Live(u, path) == Some(raw) && u.running == Some(raw)
            && (w.stat.Present? ==> w.backup.Some? && (w.backup.value in u.files <==> !w.backupRemoved))
            && (w.stat.Present? && !w.backupRemoved ==> Live(u, w.backup.value) == Live(m, path))
  {
  }

  // ---------- The history ----------

  /** The history begins with the machine as it was, ends with the machine as it is, and no step is left out of it. */
  predicate Whole(r: Run, m: Machine) {
    |r.past| > 0 && r.past[0] == m && r.past[|r.past| - 1] == r.now
  }

  lemma CheckedIsWhole(m: Machine, w: World, raw: string)
    ensures Whole(Checked(m, w, raw), m)
  {
  }

  lemma CopyIsWhole(r: Run, w: World, path: string, m: Machine)
    requires (r.Open() && w.stat.Present? ==> path in r.now.files) && Whole(r, m)
    ensures Whole(CopyLive(r, w, path), m) && r.past <= CopyLive(r, w, path).past
  {
  }

  lemma SwapIsWhole(r: Run, w: World, path: string, m: Machine)
    requires (r.Open() ==> w.temp.Some?) && Whole(r, m)
    ensures Whole(SwapIn(r, w, path), m) && r.past <= SwapIn(r, w, path).past
  {
  }

  lemma RestartIsWhole(r: Run, w: World, path: string, m: Machine)
    requires Whole(r, m)
    ensures Whole(RestartOrRestore(r, w, path), m) && r.past <= RestartOrRestore(r, w, path).past
  {
  }

  lemma HistoryIsWhole(m: Machine, path: string, w: World, raw: string)
    requires Consistent(m, path, w)
    ensures Whole(Install(m, path, w, raw), m)
  {
    CheckedKeepsLive(m, path, w, raw);
    CheckedIsWhole(m, w, raw);
    CopyIsWhole(Checked(m, w, raw), w, path, m);
    SwapIsWhole(CopyLive(Checked(m, w, raw), w, path), w, path, m);
    RestartIsWhole(SwapIn(CopyLive(Checked(m, w, raw), w, path), w, path), w, path, m);
    hide Checked, CopyLive, SwapIn, RestartOrRestore;
  }
}
