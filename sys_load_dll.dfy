/**
 * Sys_LoadDll: open a native library by name, first through the system's own
 * search (when asked to), then next to the running binary, then under
 * fs_basepath when that is a different directory.
 */
module SysLoadDll {
  import opened Wrappers
  import opened NativeLib
  import opened Search
  import opened SysPaths

  /** PATH_SEP on the dlopen platforms this file is built for. */
  const PathSep: char := '/'

  /** The binary's directory, or "." while none is known. */
  function TopDir(binaryPath: string): string
  {
    if binaryPath == "" then "." else binaryPath
  }

  /** fs_basepath, or "." when it is empty. */
  function BaseDir(fsBasepath: string): string
  {
    if fsBasepath == "" then "." else fsBasepath
  }

  /** `dir`, PATH_SEP, `name`: the "%s%c%s" format. */
  function JoinPath(dir: string, name: string): Path
  {
    dir + [PathSep] + name
  }

  /** Everything Sys_LoadDll would try, in order, if nothing loaded.
      `compare` is FS_FilenameCompare: non-zero when two paths differ. */
  function Candidates(name: string, useSystemLib: bool, binaryPath: string, fsBasepath: string,
                      compare: (string, string) -> int): seq<Path>
  {
    var top := TopDir(binaryPath);
    var base := BaseDir(fsBasepath);
    (if useSystemLib then [name] else [])
    + [JoinPath(top, name)]
    + (if compare(top, base) != 0 then [JoinPath(base, name)] else [])
  }

  /** The attempts Sys_LoadDll makes when the paths in `loadable` open. */
  function Attempts(name: string, useSystemLib: bool, binaryPath: string, fsBasepath: string,
                    compare: (string, string) -> int, loadable: set<Path>): seq<Path>
  {
    Tried(Candidates(name, useSystemLib, binaryPath, fsBasepath, compare), loadable)
  }

  /** Sys_LoadDll. */
  method LoadDll(paths: PathStore, ld: Loader, name: string, useSystemLib: bool,
                 fsBasepath: string, compare: (string, string) -> int)
    returns (h: Option<Handle>)
    requires ld.Valid()
    modifies ld`open, ld`next, ld`attempts, ld`lastError
    ensures ld.Valid() && ld.entryCalls == old(ld.entryCalls)
    ensures var cands := Candidates(name, useSystemLib, paths.binaryPath, fsBasepath, compare);
      ld.attempts == old(ld.attempts) + Tried(cands, ld.exports.Keys)
      && match FirstLoadable(cands, ld.exports.Keys)
         case None => h == None && ld.open == old(ld.open) && ld.next == old(ld.next)
         case Some(i) =>
           h == Some(Handle(old(ld.next))) && ld.next == old(ld.next) + 1
           && ld.open == old(ld.open)[old(ld.next) := cands[i]]
    ensures var t := Tried(Candidates(name, useSystemLib, paths.binaryPath, fsBasepath, compare),
                           ld.exports.Keys);
      h.None? ==> t != [] && ld.lastError == OpenFailed(t[|t| - 1])
  {
    ghost var cands := Candidates(name, useSystemLib, paths.binaryPath, fsBasepath, compare);
    ghost var s := if useSystemLib then 1 else 0;
    assert cands[s] == JoinPath(TopDir(paths.binaryPath), name);
    assert useSystemLib ==> cands[0] == name;
    h := None;
    if useSystemLib {
      h := ld.LoadLibrary(name);
    }
    if !useSystemLib || h.None? {
      var topDir := paths.BinaryPath();
      if topDir == "" {
        topDir := ".";
      }
      var libPath := JoinPath(topDir, name);
      h := ld.LoadLibrary(libPath);
      if h.None? {
        var basePath := fsBasepath;
        if basePath == "" {
          basePath := ".";
        }
        if compare(topDir, basePath) != 0 {
          libPath := JoinPath(basePath, name);
          assert cands[s + 1] == libPath;
          h := ld.LoadLibrary(libPath);
        } else {
          assert |cands| == s + 1;
        }
      }
    }
  }

  /** Sys_UnloadDll: a NULL handle is reported and left alone, any other is closed. */
  method UnloadDll(ld: Loader, dllHandle: Option<Handle>)
    requires ld.Valid() && (dllHandle.Some? ==> dllHandle.value.id in ld.open)
    modifies ld`open
    ensures ld.Valid()
    ensures ld.open == if dllHandle.None? then old(ld.open) else old(ld.open) - {dllHandle.value.id}
  {
    if dllHandle.None? {
      return;
    }
    ld.UnloadLibrary(dllHandle.value);
  }

  /** With `useSystemLib` the bare name is tried first, and when it loads
      no path-based attempt follows. */
  lemma SystemLibFirst(name: string, binaryPath: string, fsBasepath: string,
                       compare: (string, string) -> int, loadable: set<Path>)
    ensures var t := Attempts(name, true, binaryPath, fsBasepath, compare, loadable);
      t != [] && t[0] == name && (name in loadable <==> t == [name])
  {
  }

  /** Without `useSystemLib` the bare name is never tried: the first attempt
      is next to the binary, and every attempt is a joined path. */
  lemma NoBareNameWithoutSystemLib(name: string, binaryPath: string, fsBasepath: string,
                                   compare: (string, string) -> int, loadable: set<Path>)
    ensures var t := Attempts(name, false, binaryPath, fsBasepath, compare, loadable);
      t != [] && t[0] == JoinPath(TopDir(binaryPath), name)
      && forall j :: 0 <= j < |t| ==>
           t[j] == JoinPath(TopDir(binaryPath), name) || t[j] == JoinPath(BaseDir(fsBasepath), name)
  {
  }

  /** When the system search did not already succeed, the path next to the
      binary is tried, and the fs_basepath candidate after it exactly when
      that failed and FS_FilenameCompare says the two directories differ. */
  lemma BasePathRule(name: string, useSystemLib: bool, binaryPath: string, fsBasepath: string,
                     compare: (string, string) -> int, loadable: set<Path>)
    requires !(useSystemLib && name in loadable)
    ensures var t := Attempts(name, useSystemLib, binaryPath, fsBasepath, compare, loadable);
      var s := if useSystemLib then 1 else 0;
      var top := TopDir(binaryPath);
      var base := BaseDir(fsBasepath);
      s + 1 <= |t| <= s + 2
      && t[s] == JoinPath(top, name)
      && (|t| == s + 2 <==> JoinPath(top, name) !in loadable && compare(top, base) != 0)
      && (|t| == s + 2 ==> t[s + 1] == JoinPath(base, name))
  {
  }
}
