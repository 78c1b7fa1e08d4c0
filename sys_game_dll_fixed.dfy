/**
 * Sys_LoadGameDll as its two search stages evidently intend it: one
 * first-success search over the fs_game stage followed by the BASEGAME
 * stage, so that a library opened in the first stage is the one used, no
 * handle is left open unless it is returned, and a failed search returns
 * NULL instead of resolving symbols on a NULL handle.
 */
module SysGameDllFixed {
  import opened Wrappers
  import opened NativeLib
  import opened Search
  import opened GameDllName
  import opened SysGameDll

  /** The outcome of a first-success search over both stages. */
  function FixedOutcome(game: seq<Path>, base: seq<Path>, exports: map<Path, set<Symbol>>): Outcome
  {
    match FirstLoadable(game + base, exports.Keys)
    case None => NotFound
    case Some(i) => CheckSymbols((game + base)[i], exports[(game + base)[i]])
  }

  /** The corrected outcome, stage by stage: the fs_game stage's library when
      it has one, else the BASEGAME stage's, else NULL. */
  lemma FixedOutcomeByStage(game: seq<Path>, base: seq<Path>, exports: map<Path, set<Symbol>>)
    ensures FixedOutcome(game, base, exports) ==
      match FirstLoadable(game, exports.Keys)
      case Some(i) => CheckSymbols(game[i], exports[game[i]])
      case None => match FirstLoadable(base, exports.Keys)
        case Some(k) => CheckSymbols(base[k], exports[base[k]])
        case None => NotFound
  {
    FirstLoadableAppend(game, base, exports.Keys);
    match FirstLoadable(game, exports.Keys)
    case Some(i) =>
      assert (game + base)[i] == game[i];
    case None =>
      match FirstLoadable(base, exports.Keys)
      case Some(k) =>
        assert (game + base)[|game| + k] == base[k];
      case None =>
  }

  /** The corrected load: the only handle left open is the one returned. */
  method LoadGameDllFixed(ld: Loader, entryPoint: EntrySlot, name: string, systemcalls: Callback,
                          build: Build, cvars: Cvars, buildOSPath: (string, string, string) -> string)
    returns (r: Option<Handle>, symbolError: LoadError)
    requires ld.Valid()
    modifies ld, entryPoint
    ensures ld.Valid()
    ensures var game := GameStage(name, build, cvars, buildOSPath);
      var base := BaseStage(name, build, cvars, buildOSPath);
      var ok := ld.exports.Keys;
      ld.attempts == old(ld.attempts) + Tried(game + base, ok)
      && ld.next == old(ld.next) + (if FixedOutcome(game, base, ld.exports).NotFound? then 0 else 1)
      && match FixedOutcome(game, base, ld.exports)
         case Loaded(lib) =>
           r == Some(Handle(old(ld.next))) && symbolError == NoError
           && ld.open == old(ld.open)[old(ld.next) := lib]
           && entryPoint.fn == Some(FnPtr(lib, VmMain))
           && ld.entryCalls == old(ld.entryCalls) + [EntryCall(FnPtr(lib, DllEntry), systemcalls)]
         case MissingSymbols(reported, vm) =>
           r == None && symbolError == SymbolNotFound(reported) && ld.open == old(ld.open)
           && entryPoint.fn == vm && ld.entryCalls == old(ld.entryCalls)
         case NotFound =>
           r == None && symbolError == NoError && ld.open == old(ld.open)
           && entryPoint.fn == old(entryPoint.fn) && ld.entryCalls == old(ld.entryCalls)
         case NullHandleLookup => false
  {
    ghost var game := GameStage(name, build, cvars, buildOSPath);
    ghost var base := BaseStage(name, build, cvars, buildOSPath);
    TriedAppend(game, base, ld.exports.Keys);
    FixedOutcomeByStage(game, base, ld.exports);
    var fname := FileName(name, build);
    var libHandle := OpenFromStage(ld, cvars, cvars.game, fname, buildOSPath);
    if libHandle.None? {
      libHandle := OpenFromStage(ld, cvars, build.baseGame, fname, buildOSPath);
      if libHandle.None? {
        return None, NoError;
      }
    }
    r, symbolError := Handshake(ld, entryPoint, libHandle.value, systemcalls);
  }

  /** A library in the fs_game directory under fs_basepath wins. */
  lemma FixedPrefersGameDir(name: string, build: Build, cvars: Cvars,
                            buildOSPath: (string, string, string) -> string,
                            exports: map<Path, set<Symbol>>)
    ensures var lib := buildOSPath(cvars.basepath, cvars.game, FileName(name, build));
      lib in exports ==>
        FixedOutcome(GameStage(name, build, cvars, buildOSPath),
                     BaseStage(name, build, cvars, buildOSPath), exports)
        == CheckSymbols(lib, exports[lib])
  {
  }

  /** The corrected search fails exactly when no candidate of either stage loads. */
  lemma FixedNotFoundIff(game: seq<Path>, base: seq<Path>, exports: map<Path, set<Symbol>>)
    ensures FixedOutcome(game, base, exports) == NotFound <==>
      (forall j :: 0 <= j < |game| ==> game[j] !in exports)
      && (forall j :: 0 <= j < |base| ==> base[j] !in exports)
  {
    FirstLoadableAppend(game, base, exports.Keys);
    var f := FirstLoadable(game + base, exports.Keys);
    if f.Some? {
      assert (game + base)[f.value] in exports;
    }
  }

  /** The correction changes nothing when the fs_game stage finds nothing and
      the code as written would not reach a NULL-handle lookup. */
  lemma FixedAgreesWithoutGameLibrary(game: seq<Path>, base: seq<Path>, cdpath: string,
                                      exports: map<Path, set<Symbol>>)
    requires forall j :: 0 <= j < |game| ==> game[j] !in exports
    requires OutcomeOf(base, cdpath, exports) != NullHandleLookup
    ensures FixedOutcome(game, base, exports) == OutcomeOf(base, cdpath, exports)
  {
    FirstLoadableAppend(game, base, exports.Keys);
    match FirstLoadable(base, exports.Keys)
    case None =>
    case Some(k) =>
      assert (game + base)[|game| + k] == base[k];
  }

  /** FS_BuildOSPath instantiated with plain '/' joins, for the witnesses below. */
  function SlashJoin(base: string, game: string, file: string): string
  {
    base + "/" + game + "/" + file
  }

  const WitnessBuild: Build := Build(X86_64, false, ".so", "base")
  const GameLib: Path := "/inst/mygame/gamex86_64.so"

  const BaseLib: Path := "/inst/base/gamex86_64.so"

  /** The two stages for module "game" under "/inst" with fs_game "mygame". */
  lemma WitnessStages()
    ensures GameStage("game", WitnessBuild, Cvars("/inst", "", "mygame"), SlashJoin) == [GameLib]
    ensures BaseStage("game", WitnessBuild, Cvars("/inst", "", "mygame"), SlashJoin) == [BaseLib]
    ensures GameLib != BaseLib
  {
    var fname := FileName("game", WitnessBuild);
    assert Variant(WitnessBuild) == "x86_64";
    assert fname == "gamex86_64.so";
    assert SlashJoin("/inst", "mygame", fname) == "/inst" + "/" + "mygame" + "/" + fname;
    assert "/inst" + "/" + "mygame" + "/" + fname == GameLib;
    assert SlashJoin("/inst", "base", fname) == "/inst" + "/" + "base" + "/" + fname;
    assert "/inst" + "/" + "base" + "/" + fname == BaseLib;
    assert GameLib[6] != BaseLib[6];
  }

  /** As written: the game library exists only in the fs_game directory.
      It is opened, left open, and NULL is returned; the correction loads it. */
  lemma StageOneHandleLeaks()
    ensures var cvars := Cvars("/inst", "", "mygame");
      var exports := map[GameLib := {DllEntry, VmMain}];
      var game := GameStage("game", WitnessBuild, cvars, SlashJoin);
      var base := BaseStage("game", WitnessBuild, cvars, SlashJoin);
      OutcomeOf(base, cvars.cdpath, exports) == NotFound
      && OpenAfter(map[], 0, game, base, cvars.cdpath, exports) == map[0 := GameLib]
      && FixedOutcome(game, base, exports) == Loaded(GameLib)
  {
    WitnessStages();
    var exports := map[GameLib := {DllEntry, VmMain}];
    assert FirstLoadable([GameLib], exports.Keys) == Some(0);
    assert FirstLoadable([BaseLib], exports.Keys) == None;
    assert [GameLib] + [BaseLib] == [GameLib, BaseLib];
    assert FirstLoadable([GameLib, BaseLib], exports.Keys) == Some(0);
  }

  /** As written: with fs_cdpath set and the library nowhere, control reaches
      the symbol lookup with a NULL handle; the correction returns NULL. */
  lemma NullHandleReached()
    ensures var cvars := Cvars("/inst", "/cd", "mygame");
      var exports: map<Path, set<Symbol>> := map[];
      var game := GameStage("game", WitnessBuild, cvars, SlashJoin);
      var base := BaseStage("game", WitnessBuild, cvars, SlashJoin);
      OutcomeOf(base, cvars.cdpath, exports) == NullHandleLookup
      && FixedOutcome(game, base, exports) == NotFound
  {
    var cvars := Cvars("/inst", "/cd", "mygame");
    var exports: map<Path, set<Symbol>> := map[];
    var game := GameStage("game", WitnessBuild, cvars, SlashJoin);
    var base := BaseStage("game", WitnessBuild, cvars, SlashJoin);
    FixedNotFoundIff(game, base, exports);
  }
}
