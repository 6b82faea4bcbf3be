/**
 * System.Diagnostics.ProcessStartInfo as the modelled code uses it: the settings
 * a process is started with. Its string properties never read back as null:
 * assigning null stores the empty string.
 */
module StartInfos {
  import opened Wrappers

  datatype StartInfo = StartInfo(
    fileName: string,
    arguments: string,
    workingDirectory: string,
    userName: string,
    /** The password; null when none is set. */
    password: Option<string>,
    useShellExecute: bool,
    createNoWindow: bool,
    loadUserProfile: bool,
    redirectStandardInput: bool,
    redirectStandardOutput: bool,
    redirectStandardError: bool,
    /** The environment the process starts with. */
    environment: map<string, string>)

  /** What a string property reads back after `value` is assigned to it. */
  function OrEmpty(value: Option<string>): string
  {
    value.GetOr("")
  }

  /**
   * `new ProcessStartInfo(fileName, arguments)`: the given file and arguments, a
   * shell and a window, nothing redirected, and a copy of the environment of the
   * starting process. `new ProcessStartInfo()` is the case of two nulls.
   */
  function NewStartInfo(inherited: map<string, string>, fileName: Option<string>, arguments: Option<string>): (si: StartInfo)
    ensures si.fileName == OrEmpty(fileName) && si.arguments == OrEmpty(arguments)
    ensures si.workingDirectory == "" && si.userName == "" && si.password.None?
    ensures si.useShellExecute && !si.createNoWindow && !si.loadUserProfile
    ensures !si.redirectStandardInput && !si.redirectStandardOutput && !si.redirectStandardError
    ensures si.environment == inherited
  {
    StartInfo(OrEmpty(fileName), OrEmpty(arguments), "", "", None, true, false, false, false, false, false, inherited)
  }

  /** The start info of a container host: the host executable with all three streams redirected and no shell. */
  function HostStartInfo(inherited: map<string, string>, hostPath: string, arguments: Option<string>): (si: StartInfo)
    ensures si.fileName == hostPath && si.arguments == OrEmpty(arguments)
    ensures si.redirectStandardInput && si.redirectStandardOutput && si.redirectStandardError
    ensures !si.useShellExecute
    ensures si.environment == inherited
  {
    NewStartInfo(inherited, Some(hostPath), arguments).(
      redirectStandardInput := true, redirectStandardOutput := true, redirectStandardError := true,
      useShellExecute := false)
  }
}
