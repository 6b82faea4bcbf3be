/**
 * The container host executable that both launchers start: its file name, and
 * the full path it is started from, in the current directory.
 */
module HostExecutable {
  import opened WinPaths

  /** The file name of the container host executable. */
  const HostExe := "IronFoundry.Warden.ContainerHost.exe"

  /** The host's file name is a single name. */
  lemma HostNameIsPlain()
    ensures IsPlainName(HostExe) && |HostExe| > 0
  {
  }

  /** `Path.Combine(currentDirectory, hostExe)`: a path whose file name is the host executable's. */
  function HostPath(currentDirectory: string): (p: string)
    ensures FileName(p) == HostExe
  {
    HostNameIsPlain();
    CombineFileName(currentDirectory, HostExe);
    Combine(currentDirectory, HostExe)
  }
}
