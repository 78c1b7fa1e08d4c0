/**
 * The path store of sys_main.cpp: three static buffers (the CD path, the
 * directory of the running binary, the default install path), each written
 * by a setter and read by a getter.
 */
module SysPaths {

  class PathStore {
    var cdPath: string
    var binaryPath: string
    var installPath: string

    /** The buffers start out as empty strings. */
    constructor ()
      ensures cdPath == "" && binaryPath == "" && installPath == ""
    {
      cdPath, binaryPath, installPath := "", "", "";
    }

    /** Sys_SetBinaryPath. */
    method SetBinaryPath(path: string)
      modifies this`binaryPath
      ensures BinaryPath() == path && DefaultAppPath() == path
    {
      binaryPath := path;
    }

    /** Sys_BinaryPath. */
    function BinaryPath(): string
      reads this
    {
      binaryPath
    }

    /** Sys_SetDefaultInstallPath. */
    method SetDefaultInstallPath(path: string)
      modifies this`installPath
      ensures installPath == path
      ensures forall cwd :: DefaultInstallPath(cwd) == if path != "" then path else cwd
    {
      installPath := path;
    }

    /** Sys_DefaultInstallPath: the stored install path, or the current
        directory `cwd` (Sys_Cwd) while none is stored. */
    function DefaultInstallPath(cwd: string): string
      reads this
    {
      if installPath != "" then installPath else cwd
    }

    /** Sys_DefaultAppPath: the binary path. */
    function DefaultAppPath(): string
      reads this
    {
      BinaryPath()
    }

    /** Sys_SetDefaultCDPath. */
    method SetDefaultCDPath(path: string)
      modifies this`cdPath
      ensures DefaultCDPath() == path
    {
      cdPath := path;
    }

    /** Sys_DefaultCDPath. */
    function DefaultCDPath(): string
      reads this
    {
      cdPath
    }
  }
}
