/**
 * Sys_LoadGameDll: find the game module's library, open it, resolve its two
 * entry symbols and hand it the host's dispatch function.
 *
 * The code runs two search stages one after the other. The first looks in the
 * fs_game directory (under fs_basepath, then under fs_cdpath when that is
 * set); the second, which always runs and overwrites the handle, looks in the
 * BASEGAME directory the same way. Only the second stage's handle is used.
 */
module SysGameDll {
  import opened Wrappers
  import opened NativeLib
  import opened Search
  import opened GameDllName

  const DllEntry: Symbol := "dllEntry"
  const VmMain: Symbol := "vmMain"

  /** The configuration values read: fs_basepath, fs_cdpath and fs_game. */
  datatype Cvars = Cvars(basepath: string, cdpath: string, game: string)

  /** The `*entryPoint` the caller passes: where vmMain's address is written. */
  class EntrySlot {
    var fn: Option<FnPtr>

    constructor ()
      ensures fn == None
    {
      fn := None;
    }
  }

  /** What the call hands back: a handle or NULL, or (when the code goes on
      to resolve symbols on a NULL handle) a point the model does not follow. */
  datatype Return = Returned(handle: Option<Handle>) | LookupOnNullHandle

  /** Where control ends up once both stages have run. */
  datatype Outcome =
    | Loaded(lib: Path)
    | NotFound
    | MissingSymbols(reported: Symbol, entryPoint: Option<FnPtr>)
    | NullHandleLookup

  /** One search stage in directory `dir`: under fs_basepath, then under
      fs_cdpath when that is set. `buildOSPath` is FS_BuildOSPath. */
  function Stage(cvars: Cvars, dir: string, fname: string,
                 buildOSPath: (string, string, string) -> string): seq<Path>
  {
    [buildOSPath(cvars.basepath, dir, fname)]
    + (if cvars.cdpath != "" then [buildOSPath(cvars.cdpath, dir, fname)] else [])
  }

  function GameStage(name: string, build: Build, cvars: Cvars,
                     buildOSPath: (string, string, string) -> string): seq<Path>
  {
    Stage(cvars, cvars.game, FileName(name, build), buildOSPath)
  }

  function BaseStage(name: string, build: Build, cvars: Cvars,
                     buildOSPath: (string, string, string) -> string): seq<Path>
  {
    Stage(cvars, build.baseGame, FileName(name, build), buildOSPath)
  }

  /** 1 when a stage opened a library, else 0. */
  function Opens(cands: seq<Path>, loadable: set<Path>): nat
  {
    if FirstLoadable(cands, loadable).Some? then 1 else 0
  }

  /** The symbol check on the library at `lib`: both present, or the error
      that is reported (vmMain's when it is missing, else dllEntry's). */
  function CheckSymbols(lib: Path, syms: set<Symbol>): Outcome
  {
    if DllEntry in syms && VmMain in syms then Loaded(lib)
    else MissingSymbols(if VmMain !in syms then VmMain else DllEntry,
                        if VmMain in syms then Some(FnPtr(lib, VmMain)) else None)
  }

  /** The outcome of the code as written: decided by the BASEGAME stage alone. */
  function OutcomeOf(base: seq<Path>, cdpath: string, exports: map<Path, set<Symbol>>): Outcome
  {
    match FirstLoadable(base, exports.Keys)
    case None => if cdpath == "" then NotFound else NullHandleLookup
    case Some(i) => CheckSymbols(base[i], exports[base[i]])
  }

  /** The handles open afterwards: the first stage's handle is never closed,
      the second stage's stays open only when it is returned. */
  function OpenAfter(open: map<nat, Path>, next: nat, game: seq<Path>, base: seq<Path>,
                     cdpath: string, exports: map<Path, set<Symbol>>): map<nat, Path>
  {
    var afterGame := match FirstLoadable(game, exports.Keys)
      case None => open
      case Some(i) => open[next := game[i]];
    match OutcomeOf(base, cdpath, exports)
    case Loaded(lib) => afterGame[next + Opens(game, exports.Keys) := lib]
    case _ => afterGame
  }

  /** One search block (286-320 and 324-358 repeat it): open the stage's first
      candidate, and its second only when the first failed and fs_cdpath is set. */
  method OpenFromStage(ld: Loader, cvars: Cvars, dir: string, fname: string,
                       buildOSPath: (string, string, string) -> string)
    returns (libHandle: Option<Handle>)
    requires ld.Valid()
    modifies ld`open, ld`next, ld`attempts, ld`lastError
    ensures ld.Valid()
    ensures var cands := Stage(cvars, dir, fname, buildOSPath);
      ld.attempts == old(ld.attempts) + Tried(cands, ld.exports.Keys)
      && match FirstLoadable(cands, ld.exports.Keys)
         case None => libHandle == None && ld.open == old(ld.open) && ld.next == old(ld.next)
         case Some(i) =>
           libHandle == Some(Handle(old(ld.next))) && ld.next == old(ld.next) + 1
           && ld.open == old(ld.open)[old(ld.next) := cands[i]]
    ensures var t := Tried(Stage(cvars, dir, fname, buildOSPath), ld.exports.Keys);
      libHandle.None? ==> t != [] && ld.lastError == OpenFailed(t[|t| - 1])
  {
    ghost var cands := Stage(cvars, dir, fname, buildOSPath);
    var fn := buildOSPath(cvars.basepath, dir, fname);
    libHandle := ld.LoadLibrary(fn);
    assert cands[0] == fn;
    if libHandle.None? && cvars.cdpath != "" {
      fn := buildOSPath(cvars.cdpath, dir, fname);
      libHandle := ld.LoadLibrary(fn);
      assert cands == [cands[0], fn];
    }
  }

  /** The symbol check and handshake on an open handle (364-389): resolve
      dllEntry and vmMain, write vmMain to `*entryPoint`; when either is
      missing, close the handle and fail; else call dllEntry(systemcalls). */
  method Handshake(ld: Loader, entryPoint: EntrySlot, h: Handle, systemcalls: Callback)
    returns (r: Option<Handle>, symbolError: LoadError)
    requires ld.Valid() && h.id in ld.open
    modifies ld`open, ld`lastError, ld`entryCalls, entryPoint
    ensures ld.Valid()
    ensures var lib := old(ld.open[h.id]);
      match CheckSymbols(lib, ld.exports[lib])
      case Loaded(_) =>
        r == Some(h) && symbolError == NoError && ld.open == old(ld.open)
        && ld.lastError == old(ld.lastError)
        && entryPoint.fn == Some(FnPtr(lib, VmMain))
        && ld.entryCalls == old(ld.entryCalls) + [EntryCall(FnPtr(lib, DllEntry), systemcalls)]
      case MissingSymbols(reported, vm) =>
        r == None && symbolError == SymbolNotFound(reported) && ld.open == old(ld.open) - {h.id}
        && ld.lastError == symbolError
        && entryPoint.fn == vm && ld.entryCalls == old(ld.entryCalls)
      case _ => false
  {
    symbolError := NoError;
    var dllEntry := ld.LoadFunction(h, DllEntry);
    if dllEntry.None? {
      symbolError := ld.LibraryError();
    }
    var vm := ld.LoadFunction(h, VmMain);
    entryPoint.fn := vm;
    if vm.None? {
      symbolError := ld.LibraryError();
    }
    if vm.None? || dllEntry.None? {
      ld.UnloadLibrary(h);
      return None, symbolError;
    }
    ld.CallEntry(dllEntry.value, systemcalls);
    r := Some(h);
  }

  /** Sys_LoadGameDll, as written. */
  method LoadGameDll(ld: Loader, entryPoint: EntrySlot, name: string, systemcalls: Callback,
                     build: Build, cvars: Cvars, buildOSPath: (string, string, string) -> string)
    returns (r: Return, symbolError: LoadError)
    requires ld.Valid()
    modifies ld, entryPoint
    ensures ld.Valid()
    ensures var game := GameStage(name, build, cvars, buildOSPath);
      var base := BaseStage(name, build, cvars, buildOSPath);
      var ok := ld.exports.Keys;
      var out := OutcomeOf(base, cvars.cdpath, ld.exports);
      var baseId := old(ld.next) + Opens(game, ok);
      ld.attempts == old(ld.attempts) + Tried(game, ok) + Tried(base, ok)
      && ld.next == baseId + Opens(base, ok)
      && ld.open == OpenAfter(old(ld.open), old(ld.next), game, base, cvars.cdpath, ld.exports)
      && match out
         case Loaded(lib) =>
           r == Returned(Some(Handle(baseId))) && symbolError == NoError
           && entryPoint.fn == Some(FnPtr(lib, VmMain))
           && ld.entryCalls == old(ld.entryCalls) + [EntryCall(FnPtr(lib, DllEntry), systemcalls)]
         case MissingSymbols(reported, vm) =>
           r == Returned(None) && symbolError == SymbolNotFound(reported)
           && entryPoint.fn == vm && ld.entryCalls == old(ld.entryCalls)
         case NotFound =>
           r == Returned(None) && symbolError == NoError
           && entryPoint.fn == old(entryPoint.fn) && ld.entryCalls == old(ld.entryCalls)
         case NullHandleLookup =>
           r == LookupOnNullHandle && symbolError == NoError
           && entryPoint.fn == old(entryPoint.fn) && ld.entryCalls == old(ld.entryCalls)
  {
    var fname := FileName(name, build);
    var libHandle := OpenFromStage(ld, cvars, cvars.game, fname, buildOSPath);
    ghost var afterGame := ld.open;
    ghost var afterGameAttempts := ld.attempts;
    // The first stage's handle is dropped here without being closed.
    libHandle := OpenFromStage(ld, cvars, build.baseGame, fname, buildOSPath);
    if libHandle.None? {
      if cvars.cdpath == "" {
        return Returned(None), NoError;
      }
      // Sys_LoadFunction is called on a NULL handle here; what it does is
      // not part of this model.
      return LookupOnNullHandle, NoError;
    }
    var h := libHandle.value;
    var kept;
    kept, symbolError := Handshake(ld, entryPoint, h, systemcalls);
    r := Returned(kept);
  }

  /** The attempts of one stage: its fs_basepath candidate, then its
      fs_cdpath candidate exactly when the first failed and fs_cdpath is set. */
  lemma StageTried(cvars: Cvars, dir: string, fname: string,
                   buildOSPath: (string, string, string) -> string, loadable: set<Path>)
    ensures var t := Tried(Stage(cvars, dir, fname, buildOSPath), loadable);
      var onBase := buildOSPath(cvars.basepath, dir, fname);
      1 <= |t| <= 2 && t[0] == onBase
      && (|t| == 2 <==> onBase !in loadable && cvars.cdpath != "")
      && (|t| == 2 ==> t[1] == buildOSPath(cvars.cdpath, dir, fname))
  {
  }

  /** The open attempts of Sys_LoadGameDll: fs_game under fs_basepath, under
      fs_cdpath only when that failed and fs_cdpath is set; then BASEGAME in
      the same way, whatever the first stage found. Two to four in all. */
  lemma AttemptOrder(name: string, build: Build, cvars: Cvars,
                     buildOSPath: (string, string, string) -> string, loadable: set<Path>)
    ensures var fname := FileName(name, build);
      var gameTried := Tried(GameStage(name, build, cvars, buildOSPath), loadable);
      var t := gameTried + Tried(BaseStage(name, build, cvars, buildOSPath), loadable);
      var g := |gameTried|;
      var gameOnBase := buildOSPath(cvars.basepath, cvars.game, fname);
      var baseOnBase := buildOSPath(cvars.basepath, build.baseGame, fname);
      2 <= |t| <= 4 && 1 <= g <= 2
      && t[0] == gameOnBase
      && (g == 2 <==> gameOnBase !in loadable && cvars.cdpath != "")
      && (g == 2 ==> t[1] == buildOSPath(cvars.cdpath, cvars.game, fname))
      && t[g] == baseOnBase
      && (|t| == g + 2 <==> baseOnBase !in loadable && cvars.cdpath != "")
      && (|t| == g + 2 ==> t[g + 1] == buildOSPath(cvars.cdpath, build.baseGame, fname))
  {
    var fname := FileName(name, build);
    StageTried(cvars, cvars.game, fname, buildOSPath, loadable);
    StageTried(cvars, build.baseGame, fname, buildOSPath, loadable);
  }

  /** The symbol check: a handle is kept only with both symbols; when vmMain
      is missing its error is the one reported, even if dllEntry is missing
      too; `*entryPoint` receives vmMain whenever it resolved. */
  lemma SymbolCheck(lib: Path, syms: set<Symbol>)
    ensures CheckSymbols(lib, syms).Loaded? <==> DllEntry in syms && VmMain in syms
    ensures VmMain !in syms ==> CheckSymbols(lib, syms) == MissingSymbols(VmMain, None)
    ensures DllEntry !in syms && VmMain in syms ==>
      CheckSymbols(lib, syms) == MissingSymbols(DllEntry, Some(FnPtr(lib, VmMain)))
  {
  }

  /** The outcome is read off the BASEGAME stage only: what the fs_game stage
      opened plays no part in it. With BASEGAME missing under fs_basepath and
      no fs_cdpath, NULL is returned; with fs_cdpath set and BASEGAME missing
      under both, the code goes on to look up symbols on a NULL handle. */
  lemma OutcomeFromBaseStage(name: string, build: Build, cvars: Cvars,
                             buildOSPath: (string, string, string) -> string,
                             exports: map<Path, set<Symbol>>)
    ensures var fname := FileName(name, build);
      var onBase := buildOSPath(cvars.basepath, build.baseGame, fname);
      var onCd := buildOSPath(cvars.cdpath, build.baseGame, fname);
      var out := OutcomeOf(BaseStage(name, build, cvars, buildOSPath), cvars.cdpath, exports);
      (onBase in exports ==> out == CheckSymbols(onBase, exports[onBase]))
      && (onBase !in exports && cvars.cdpath == "" ==> out == NotFound)
      && (onBase !in exports && cvars.cdpath != "" ==>
            out == if onCd in exports then CheckSymbols(onCd, exports[onCd]) else NullHandleLookup)
  {
    var base := BaseStage(name, build, cvars, buildOSPath);
    var onCd := buildOSPath(cvars.cdpath, build.baseGame, FileName(name, build));
    if cvars.cdpath != "" && base[0] !in exports {
      assert base == [base[0], onCd];
      if onCd in exports {
        assert FirstLoadable(base, exports.Keys) == Some(1);
      } else {
        assert FirstLoadable(base, exports.Keys) == None;
      }
    }
  }

  /** The handles open after the call: those open before, the first
      stage's handle whenever that stage opened a library, and the second
      stage's handle only when it is returned. */
  lemma HandlesLeftOpen(open: map<nat, Path>, next: nat, game: seq<Path>, base: seq<Path>,
                        cdpath: string, exports: map<Path, set<Symbol>>)
    requires forall id :: id in open ==> id < next
    ensures var after := OpenAfter(open, next, game, base, cdpath, exports);
      var ok := exports.Keys;
      var firstStage: set<nat> := if FirstLoadable(game, ok).Some? then {next} else {};
      var returned: set<nat> :=
        if OutcomeOf(base, cdpath, exports).Loaded? then {next + Opens(game, ok)} else {};
      after.Keys == open.Keys + firstStage + returned
      && forall id :: id in open ==> after[id] == open[id]
  {
  }
}
