# Native module loading in OpenJK's POSIX `sys_main.cpp`

This project models the part of `codemp/sys/sys_main.cpp` that decides which
native libraries the engine opens, in what order, and when a game module
counts as loaded. It proves properties of that model in Dafny.

- **Path store.** The static `binaryPath`, `installPath` and `cdPath` buffers
  with their setters and getters (`SysPaths.PathStore`).
  `Sys_DefaultInstallPath` falls back to the working directory.
- **Console filter.** `Sys_Print` drops a leading `[skipnotify]`, then one
  leading `*` (`SysPrint.PrintedText`).
- **Generic library search.** `Sys_LoadDll` tries the bare name when asked
  to, then `<binary dir>/<name>`, then `<fs_basepath>/<name>` when
  `FS_FilenameCompare` says that directory differs. The first success wins
  (`SysLoadDll`).
- **Game module load.** `Sys_LoadGameDll` builds the artifact name, runs the
  fs_game search stage and then the BASEGAME stage, resolves `dllEntry` and
  `vmMain`, and calls `dllEntry(systemcalls)` (`GameDllName`, `SysGameDll`).
- **Loader abstraction.** The platform loader is replaced by an abstract
  loader (`NativeLib.Loader`). It holds the paths that open and the symbols
  each exports. It also keeps the open handles, a trace of every open
  attempt, a trace of every initialiser call, and the last error. The
  loader's own source (`sys_loadlib.h`) is not part of this model.

The generic search is specified once, in `Search`. `FirstLoadable` gives
the index of the first candidate that opens. `Tried` gives the attempts
actually made. Both loaders are proved against candidate lists built from
their inputs.

The code of `Sys_LoadGameDll` is modelled as written, not as a
first-success search:

- The BASEGAME stage always runs.
- Line 329 overwrites the first stage's handle without closing it.
- With `fs_cdpath` set and both BASEGAME opens failing, control reaches
  `Sys_LoadFunction` with a NULL handle. This is the explicit outcome
  `NullHandleLookup`, and the model does not follow it further.

A single first-success search over all locations does not describe this
code, so the model follows the code. The corrected reading is modelled
separately in `SysGameDllFixed` (see Findings).

## Model

| member | source | states |
|---|---|---|
| `Search.FirstLoadable` | codemp/sys/sys_main.cpp:183-207 | the index returned is a candidate that opens and every earlier one does not; none is returned exactly when no candidate opens |
| `Search.TriedPrefix` | codemp/sys/sys_main.cpp:183-207 | attempts are made in candidate order and stop at the first success: every attempt but the last failed, and the last succeeded exactly when the search did |
| `Search.TriedAllFailIff` | codemp/sys/sys_main.cpp:183-215 | the search yields NULL if and only if every attempted open failed |
| `Search.TriedStopsAtSuccess` | codemp/sys/sys_main.cpp:183-207 | no candidate after one that opens is ever attempted |
| `Search.FirstLoadableAppend` | codemp/sys/sys_main.cpp:297-310 | searching one candidate list and then a second (when the first found nothing) is the same as searching their concatenation |
| `Search.TriedAppend` | codemp/sys/sys_main.cpp:297-310 | the attempts of such a chained search are the first list's attempts, followed by the second list's only when the first found nothing |
| `SysPaths.PathStore.constructor` | codemp/sys/sys_main.cpp:11-13 | the three path buffers start empty |
| `SysPaths.PathStore.SetBinaryPath` | codemp/sys/sys_main.cpp:20-33 | after setting, `Sys_BinaryPath` and `Sys_DefaultAppPath` (which returns `Sys_BinaryPath()`, lines 63-66) return the new path; the other buffers are unchanged |
| `SysPaths.PathStore.SetDefaultInstallPath` | codemp/sys/sys_main.cpp:40-56 | after setting, `Sys_DefaultInstallPath` returns the new path, or the current working directory when the new path is empty, for every working directory |
| `SysPaths.PathStore.SetDefaultCDPath` | codemp/sys/sys_main.cpp:156-164 | after setting, `Sys_DefaultCDPath` returns the new path; the other buffers are unchanged |
| `SysPrint.PrintedText` | codemp/sys/sys_main.cpp:83-93 | the text passed on is a suffix of the message; 0, 1, 12 or 13 characters are cut; 12 or more exactly when the message starts with `[skipnotify]`; one more exactly when a `*` follows that point |
| `SysPrint.StarThenMarkerKeepsMarker` | codemp/sys/sys_main.cpp:86-91 | the marker is only removed first: `*[skipnotify]x` loses just the `*` |
| `SysPrint.MarkerThenStars` | codemp/sys/sys_main.cpp:86-91 | `[skipnotify]**x` becomes `*x`: the marker and at most one `*` are removed, in that order |
| `SysLoadDll.LoadDll` | codemp/sys/sys_main.cpp:176-216 | the opens attempted are exactly the first-success prefix of [bare name if `useSystemLib`, top dir + `/` + name, basepath + `/` + name if the directories differ]; the handle returned is a fresh one for the first candidate that opened, else NULL with no handle opened and the last error naming the last path tried |
| `SysLoadDll.UnloadDll` | codemp/sys/sys_main.cpp:145-154 | a NULL handle changes nothing; any other handle is closed and only it |
| `SysLoadDll.SystemLibFirst` | codemp/sys/sys_main.cpp:180-183 | with `useSystemLib` the bare name is the first attempt, and it is the only attempt exactly when it opens |
| `SysLoadDll.NoBareNameWithoutSystemLib` | codemp/sys/sys_main.cpp:180-207 | without `useSystemLib` the first attempt is the binary-directory path, and every attempt is one of the two joined paths |
| `SysLoadDll.BasePathRule` | codemp/sys/sys_main.cpp:188-208 | when the system search did not succeed, the binary-directory path (binary path or `.`) is tried next; the fs_basepath path (fs_basepath or `.`) follows it exactly when that failed and `FS_FilenameCompare` reports the directories differ |
| `GameDllName.FileName` | codemp/sys/sys_main.cpp:243-263 | for each architecture the artifact name is exactly the format of its `snprintf`: name + `i386-debug`/`i386`, `x86_64-debug`/`x86_64` (debug/release), `ppc`, `axp` or `mips`, then `DLL_EXT` |
| `GameDllName.FileNameInjective` | codemp/sys/sys_main.cpp:243-263 | two module names give the same artifact name only if they are equal |
| `GameDllName.DebugNameDiffers` | codemp/sys/sys_main.cpp:243-254 | debug and release builds name the library differently exactly on i386 and x86_64 |
| `GameDllName.ArchInName` | codemp/sys/sys_main.cpp:243-263 | builds for different architectures never look for the same file |
| `SysGameDll.OpenFromStage` | codemp/sys/sys_main.cpp:286-320 | one search block: opens `basepath/dir/fname`, then `cdpath/dir/fname` only when that failed and fs_cdpath is set; returns a fresh handle for the first that opened, else NULL with the last error naming the last path tried |
| `SysGameDll.Handshake` | codemp/sys/sys_main.cpp:364-389 | resolves both symbols and writes vmMain to `*entryPoint`; with both present it calls `dllEntry(systemcalls)` once and keeps the handle; otherwise it closes the handle, calls nothing, returns NULL and reports vmMain's error when vmMain is missing, which is then also the loader's last error |
| `SysGameDll.LoadGameDll` | codemp/sys/sys_main.cpp:226-390 | attempts are the fs_game stage's then the BASEGAME stage's; the outcome depends only on the BASEGAME stage; the first stage's handle stays open; `dllEntry` is called once exactly when a handle is returned; the NULL-handle lookup is a distinct result |
| `SysGameDll.StageTried` | codemp/sys/sys_main.cpp:286-310 | a stage makes one or two attempts, the second (under fs_cdpath) exactly when the first failed and fs_cdpath is set |
| `SysGameDll.AttemptOrder` | codemp/sys/sys_main.cpp:286-341 | the attempt order is basepath/fs_game, [cdpath/fs_game], basepath/BASEGAME, [cdpath/BASEGAME]: 2 to 4 attempts, with BASEGAME tried whatever the first stage found |
| `SysGameDll.SymbolCheck` | codemp/sys/sys_main.cpp:364-385 | a handle is kept iff both symbols resolve; vmMain's error is the one reported when it is missing, even if dllEntry is missing too; `*entryPoint` keeps vmMain's address when only dllEntry is missing |
| `SysGameDll.OutcomeFromBaseStage` | codemp/sys/sys_main.cpp:322-364 | the result is decided by basepath/BASEGAME, then cdpath/BASEGAME; with neither opening it is NULL when fs_cdpath is empty and a NULL-handle symbol lookup when it is set |
| `SysGameDll.HandlesLeftOpen` | codemp/sys/sys_main.cpp:291-384 | after the call the open handles are the earlier ones, plus the first stage's handle whenever that stage opened a library, plus the returned handle; a handle failing the symbol check is closed |
| `SysGameDllFixed.LoadGameDllFixed` | codemp/sys/sys_main.cpp:286-358 | corrected load: one first-success search over the fs_game stage then the BASEGAME stage; the only handle left open is the one returned; a failed search returns NULL |
| `SysGameDllFixed.FixedOutcomeByStage` | codemp/sys/sys_main.cpp:286-358 | in the corrected load, a library found by the fs_game stage is used, else the BASEGAME stage's, else NULL |
| `SysGameDllFixed.FixedPrefersGameDir` | codemp/sys/sys_main.cpp:286-291 | in the corrected load, a library at basepath/fs_game is the one whose symbols are checked |
| `SysGameDllFixed.FixedNotFoundIff` | codemp/sys/sys_main.cpp:286-358 | the corrected load fails to find a library exactly when no candidate of either stage opens |
| `SysGameDllFixed.FixedAgreesWithoutGameLibrary` | codemp/sys/sys_main.cpp:322-358 | the correction changes nothing when the fs_game stage finds nothing and the code as written does not reach the NULL-handle lookup |
| `SysGameDllFixed.WitnessStages` | codemp/sys/sys_main.cpp:243-341 | for module `game` on an x86_64 release build with fs_basepath `/inst` and fs_game `mygame`, the stages are `/inst/mygame/gamex86_64.so` and `/inst/base/gamex86_64.so` |
| `SysGameDllFixed.StageOneHandleLeaks` | codemp/sys/sys_main.cpp:286-357 | with the library only under fs_game, the code as written returns NULL and leaves that library's handle open, while the corrected load loads it |
| `SysGameDllFixed.NullHandleReached` | codemp/sys/sys_main.cpp:335-364 | with fs_cdpath set and the library nowhere, the code as written reaches the symbol lookup on a NULL handle, while the corrected load returns NULL |

## Left out

- The real `dlopen`/`dlsym`/`dlclose`/`dlerror` are not modelled. The abstract loader gives every successful open a new handle. It does not share one reference-counted handle between two opens of the same library, and it has no error from closing.
- What `Sys_LoadFunction` does with a NULL handle is not modelled. `SysGameDll.LoadGameDll` stops at that point and returns `LookupOnNullHandle`.
- `SysGameDll.LoadGameDll` and `SysGameDllFixed.LoadGameDllFixed` do not state the loader's last error after the call, because that value is only printed (lines 300-383).
- `SysGameDll.LoadGameDll`: in the `NullHandleLookup` case, "`*entryPoint` and the `dllEntry` calls are unchanged" describes where the model stops, not the program, which goes on to call `Sys_LoadFunction` on the NULL handle and writes `*entryPoint` at line 371.
- Length limits are not modelled, because the model's strings are unbounded and contain no NUL. So the path setters do not truncate to `MAX_OSPATH` as `Q_strncpyz` does, and `Q_strncpyz`'s error on a NULL source is lost. Likewise `Com_sprintf` and `snprintf` are not truncated.
- `FS_BuildOSPath`, `FS_FilenameCompare`, `Cvar_VariableString` and `Sys_Cwd` are parameters of the model, because their code is not part of this model. A NULL `fs_basepath` is taken as the empty string, which the code treats the same way (line 200).
- `BASEGAME` and `DLL_EXT` are fields of `GameDllName.Build`, because the headers that define them are not part of this model. `PATH_SEP` is `/`, as on the `dlfcn.h` platforms this file is built for.
- An unknown architecture is a build error (line 262), so the model only has the five known architectures.
- `Com_Printf` output is left out. That covers the debug-only messages and the report of a `dlclose` error (381-383).
- What `dllEntry` does inside the module, and the function-pointer casts, are left out. The call is recorded as an event with its argument.
- `Conbuf_AppendText` is left out, so the model stops at the text `Sys_Print` hands on. It uses `Q_CleanStr`, whose code is not part of this model, and a fixed 4096-byte copy.
- `Sys_Init`, `Sys_In_Restart_f`, `Sys_Exit`, `Sys_Error` and `Sys_Quit` are left out. They cover command and cvar registration, the input subsystem, process exit and terminal flags.
- The disabled `#if 0` block (268-280) and the unused `getcwd` into `curpath` (242) are left out. So is `assert(name)` (240): a NULL name cannot be represented.

## Findings

| source | as written | input that shows it | evidently intended | confidence | as-written member | corrected member |
|---|---|---|---|---|---|---|
| codemp/sys/sys_main.cpp:322-329 | the BASEGAME stage always runs and overwrites `libHandle`; a library opened by the fs_game stage is neither used nor closed | fs_basepath `/inst`, fs_cdpath empty, fs_game `mygame`, library only at `/inst/mygame/gamex86_64.so`: NULL is returned and that handle stays open | use the fs_game library when it opens and fall back to BASEGAME otherwise | medium, not executed | `SysGameDllFixed.StageOneHandleLeaks` | `SysGameDllFixed.LoadGameDllFixed` |
| codemp/sys/sys_main.cpp:335-364 | with fs_cdpath set and both BASEGAME opens failing, control falls through to `Sys_LoadFunction` on a NULL handle | fs_cdpath `/cd`, no library anywhere | return NULL, as the branch for an empty fs_cdpath does (356) | high, not executed | `SysGameDllFixed.NullHandleReached` | `SysGameDllFixed.LoadGameDllFixed` |

`SysGameDll.LoadGameDll` stays the model of the code as written. The
corrected `SysGameDllFixed.LoadGameDllFixed` reuses its two building blocks,
`OpenFromStage` and `Handshake`.
