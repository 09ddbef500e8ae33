/**
 * The portable updater of electron-updater: it downloads the new executable
 * in one full download, and installs it by moving it beside the running
 * executable under a `.new` name and handing over to a watchdog script that
 * waits for the app to quit, moves the new executable over the old one and
 * starts it.
 */
module Portable {
  import opened Wrappers
  import opened UpdaterBase
  import opened Paths
  import Script

  /** `<dir of exe>\<name of exe>.new`, where the new executable waits for the app to quit. */
  function StagingPath(execPath: string): string {
    PathJoin(Dirname(execPath), Basename(execPath) + ".new")
  }

  /** A command-line argument in double quotes. */
  function Quote(s: string): string {
    "\"" + s + "\""
  }

  /**
   * The watchdog script: poll every second, with no bound, while the app is
   * running; then move the staged executable over the current one, start it
   * and delete the script. No step checks for failure and nothing is backed up.
   */
  function ReplaceScript(execPath: string): seq<Script.Step> {
    [ Script.WaitWhileRunning(Basename(execPath), 1),
      Script.Move(StagingPath(execPath), execPath, Script.Continue),
      Script.Start(execPath),
      Script.DeleteSelf ]
  }

  function MoveCommand(installerPath: string, execPath: string): Effect {
    SpawnSync("cmd", ["/c", "move", "/y", Quote(installerPath), Quote(StagingPath(execPath))])
  }

  function LaunchCommand(execPath: string): Effect {
    SpawnSync("cmd", ["/c", "start", "/min", "", UpdateScriptPath(execPath)])
  }

  /**
   * `doInstall`: `move`, `write` and `launch` say how moving the installer into
   * place, writing the script (through `cmd /c echo`) and starting it went.
   * The first failure is dispatched and ends the install with `false`.
   */
  function InstallOutcome(installerPath: Option<string>, execPath: string, move: IoResult, write: IoResult, launch: IoResult): Outcome<bool> {
    if installerPath.None? then Outcome([DispatchError(NoValidUpdateError)], false)
    else
      var moved := MoveCommand(installerPath.value, execPath);
      var written := WriteScript(UpdateScriptPath(execPath), ReplaceScript(execPath), true);
      var launched := LaunchCommand(execPath);
      if move.Failed? then Outcome([moved, DispatchError(move.error)], false)
      else if write.Failed? then Outcome([moved, written, DispatchError(write.error)], false)
      else if launch.Failed? then Outcome([moved, written, launched, DispatchError(launch.error)], false)
      else Outcome([moved, written, launched, Quit], true)
  }

  class PortableUpdater {
    /** The downloaded executable, if any. */
    var installerPath: Option<string>
    /** Every effect the updater has had on the world, in order. */
    var effects: seq<Effect>

    constructor ()
      ensures installerPath == None && effects == []
    {
      installerPath := None;
      effects := [];
    }

    /** The download task of `doDownloadUpdate`: one full download of the executable into the update file. */
    method DownloadTask(url: string, updateFile: string, download: IoResult) returns (r: Completion<()>)
      modifies this`effects
      ensures effects == old(effects) + [Download(url, updateFile)]
      ensures r == if download.Failed? then Throw(download.error) else Return(())
    {
      effects := effects + [Download(url, updateFile)];
      if download.Failed? {
        return Throw(download.error);
      }
      r := Return(());
    }

    /** `doInstall`; `execPath` is `process.execPath`. */
    method DoInstall(execPath: string, move: IoResult, write: IoResult, launch: IoResult) returns (r: bool)
      modifies this`effects
      ensures var o := InstallOutcome(installerPath, execPath, move, write, launch);
        effects == old(effects) + o.effects && r == o.result
    {
      if installerPath.None? {
        effects := effects + [DispatchError(NoValidUpdateError)];
        return false;
      }
      var installer := installerPath.value;
      effects := effects + [MoveCommand(installer, execPath)];
      if move.Failed? {
        effects := effects + [DispatchError(move.error)];
        return false;
      }
      effects := effects + [WriteScript(UpdateScriptPath(execPath), ReplaceScript(execPath), true)];
      if write.Failed? {
        effects := effects + [DispatchError(write.error)];
        return false;
      }
      effects := effects + [LaunchCommand(execPath)];
      if launch.Failed? {
        effects := effects + [DispatchError(launch.error)];
        return false;
      }
      effects := effects + [Quit];
      r := true;
    }
  }

  // ---------------------------------------------------------------------------
  // Properties

  /** Without a downloaded executable exactly one error is dispatched: nothing is spawned and the app does not quit. */
  lemma InstallWithoutInstaller(execPath: string, move: IoResult, write: IoResult, launch: IoResult)
    ensures var o := InstallOutcome(None, execPath, move, write, launch);
      && o == Outcome([DispatchError(NoValidUpdateError)], false)
      && DispatchCount(o.effects) == 1
      && SpawnCount(o.effects, "cmd") == 0
  {
    DispatchCountSnoc([], DispatchError(NoValidUpdateError));
    assert [] + [DispatchError(NoValidUpdateError)] == [DispatchError(NoValidUpdateError)];
    assert [DispatchError(NoValidUpdateError)][..0] == [];
  }

  lemma {:induction false} NoSeparatorAppend(a: string, b: string)
    requires HasNoSeparator(a) && HasNoSeparator(b)
    ensures HasNoSeparator(a + b)
  {
    assert forall i :: 0 <= i < |a + b| ==> (a + b)[i] == if i < |a| then a[i] else b[i - |a|];
  }

  /** The staged executable sits in the current executable's directory, under its name with `.new` appended. */
  lemma StagingBesideExecutable(execPath: string)
    ensures Dirname(StagingPath(execPath)) == Dirname(execPath)
    ensures Basename(StagingPath(execPath)) == Basename(execPath) + ".new"
  {
    assert HasNoSeparator(".new");
    NoSeparatorAppend(Basename(execPath), ".new");
    SplitJoin(Dirname(execPath), Basename(execPath) + ".new");
  }

  /**
   * When every step succeeds: the downloaded file is moved to the staging
   * path first, then the script is written, started minimised, and the app
   * quits; the result is `true`.
   */
  lemma InstallSucceeds(installer: string, execPath: string)
    ensures InstallOutcome(Some(installer), execPath, Ok, Ok, Ok) ==
      Outcome([ SpawnSync("cmd", ["/c", "move", "/y", Quote(installer), Quote(StagingPath(execPath))]),
                WriteScript(UpdateScriptPath(execPath), ReplaceScript(execPath), true),
                SpawnSync("cmd", ["/c", "start", "/min", "", UpdateScriptPath(execPath)]),
                Quit ],
              true)
  {
  }

  /**
   * A failure at any step dispatches exactly one error, the one of the first
   * failing step, as the last effect; the app does not quit and the result is
   * `false`.
   */
  lemma InstallFailure(installer: string, execPath: string, move: IoResult, write: IoResult, launch: IoResult)
    requires move.Failed? || write.Failed? || launch.Failed?
    ensures var o := InstallOutcome(Some(installer), execPath, move, write, launch);
      && !o.result
      && DispatchCount(o.effects) == 1
      && Quit !in o.effects
      && o.effects[0] == MoveCommand(installer, execPath)
      && o.effects[|o.effects| - 1] ==
           DispatchError(if move.Failed? then move.error else if write.Failed? then write.error else launch.error)
  {
    var o := InstallOutcome(Some(installer), execPath, move, write, launch);
    var init := o.effects[..|o.effects| - 1];
    assert o.effects == init + [o.effects[|o.effects| - 1]];
    DispatchCountZero(init);
    DispatchCountSnoc(init, o.effects[|o.effects| - 1]);
  }

  /**
   * Whatever fails, the script waits for the app, moves the staged executable
   * over it, starts it and deletes itself: it makes no backup and starts the
   * executable even when the move failed.
   */
  lemma ReplaceScriptRun(execPath: string, failing: set<nat>)
    ensures Script.Execute(ReplaceScript(execPath), failing) ==
      Script.Run([ Script.Waited(Basename(execPath)),
                   Script.Moved(StagingPath(execPath), execPath),
                   Script.Started(execPath),
                   Script.DeletedSelf ],
                 Script.Finished)
  {
    var s := ReplaceScript(execPath);
    var r3 := Script.ExecuteFrom(s, failing, 3);
    assert r3 == Script.Run([Script.DeletedSelf], Script.Finished) by {
      assert Script.ExecuteFrom(s, failing, 4) == Script.Run([], Script.Finished);
    }
    var r2 := Script.ExecuteFrom(s, failing, 2);
    assert r2.ops == [Script.Started(execPath)] + r3.ops && r2.ending == r3.ending;
    var r1 := Script.ExecuteFrom(s, failing, 1);
    assert r1.ops == [Script.Moved(StagingPath(execPath), execPath)] + r2.ops && r1.ending == r2.ending;
    var r0 := Script.ExecuteFrom(s, failing, 0);
    assert r0.ops == [Script.Waited(Basename(execPath))] + r1.ops && r0.ending == r1.ending;
  }
}
