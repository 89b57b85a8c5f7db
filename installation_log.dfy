/** The installation log (`synara.installation.log`): the module lines a report copied, and the
    action that installs the modules marked to install. */
module InstallationLogs {

  /** A line's `status`: `installed`, `to_install`, `missing`. */
  datatype ModuleStatus = Installed | ToInstall | Missing

  /** A module line: the module's technical name and its status. */
  datatype ModuleLine = ModuleLine(name: string, status: ModuleStatus)

  /** The log's `state`: `draft`, `done`. */
  datatype LogState = LogDraft | LogDone

  /** The names of the lines marked to install. */
  function ToInstallNames(lines: seq<ModuleLine>): (r: set<string>)
    ensures forall n :: n in r <==> exists i :: 0 <= i < |lines| && lines[i].status == ToInstall && lines[i].name == n
  {
    set i | 0 <= i < |lines| && lines[i].status == ToInstall :: lines[i].name
  }

  class InstallationLog {
    var state: LogState
    var lines: seq<ModuleLine>

    /** `create({'line_ids': ...})`: a draft log holding the lines. */
    constructor (lines: seq<ModuleLine>)
      ensures state == LogDraft && this.lines == lines
    {
      state := LogDraft;
      this.lines := lines;
    }

    /** `action_execute_installation`: the modules named by the lines marked to install (those
        that exist among `modules`, the names of `ir.module.module`) are installed. The log is
        done when there is nothing to install, or when some module was found; with lines to
        install but none found it is left as it was. */
    method ExecuteInstallation(modules: set<string>) returns (installing: set<string>)
      modifies this
      ensures lines == old(lines)
      ensures forall n :: n in installing <==> n in modules && n in ToInstallNames(lines)
      ensures ToInstallNames(lines) == {} ==> installing == {} && state == LogDone
      ensures ToInstallNames(lines) != {} && installing != {} ==> state == LogDone
      ensures ToInstallNames(lines) != {} && installing == {} ==> state == old(state)
    {
      var wanted: set<string> := {};
      var i := 0;
      while i < |lines|
        invariant 0 <= i <= |lines|
        invariant wanted == ToInstallNames(lines[..i])
      {
        assert lines[..i + 1] == lines[..i] + [lines[i]];
        if lines[i].status == ToInstall {
          wanted := wanted + {lines[i].name};
        }
        i := i + 1;
      }
      assert lines[..i] == lines;
      if wanted == {} {
        state := LogDone;
        return {};
      }
      installing := wanted * modules;
      if installing != {} {
        state := LogDone;
      }
    }
  }
}
