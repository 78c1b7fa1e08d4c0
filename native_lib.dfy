/**
 * An abstract model of the platform's dynamic loader, the collaborator that
 * sys_main.cpp reaches through Sys_LoadLibrary, Sys_LoadFunction,
 * Sys_UnloadLibrary and Sys_LibraryError. The real dlopen/dlsym are replaced
 * by an environment (which paths open, and which symbols each exports) and
 * by the state the loader keeps: the open handles, a trace of every open
 * attempt, a trace of every initialiser call, and the last error.
 */
module NativeLib {
  import opened Wrappers

  type Path = string
  type Symbol = string

  /** A non-NULL library handle; NULL is `None` in an `Option<Handle>`. */
  datatype Handle = Handle(id: nat)

  /** A resolved function pointer: which library it lives in, under which name. */
  datatype FnPtr = FnPtr(lib: Path, symbol: Symbol)

  /** The host's dispatch function (`systemcalls`) handed to a module. */
  datatype Callback = Callback(id: nat)

  /** What Sys_LibraryError would describe. */
  datatype LoadError = NoError | OpenFailed(path: Path) | SymbolNotFound(symbol: Symbol)

  /** One call of a module's initialiser with the argument it received. */
  datatype EntryCall = EntryCall(entry: FnPtr, arg: Callback)

  class Loader {
    /** The environment: the paths that load, and the symbols each exports. */
    const exports: map<Path, set<Symbol>>
    /** Live handles and the path each was opened from. */
    var open: map<nat, Path>
    /** The id the next successful open hands out. */
    var next: nat
    /** Every path passed to Sys_LoadLibrary, in order. */
    var attempts: seq<Path>
    /** Every call made into a module's initialiser, in order. */
    var entryCalls: seq<EntryCall>
    var lastError: LoadError

    ghost predicate Valid()
      reads this
    {
      forall id :: id in open ==> id < next && open[id] in exports
    }

    constructor (exports: map<Path, set<Symbol>>)
      ensures Valid() && this.exports == exports
      ensures open == map[] && next == 0
      ensures attempts == [] && entryCalls == [] && lastError == NoError
    {
      this.exports := exports;
      open := map[];
      next := 0;
      attempts := [];
      entryCalls := [];
      lastError := NoError;
    }

    /** Sys_LoadLibrary: open `path`, NULL when it does not load. */
    method LoadLibrary(path: Path) returns (h: Option<Handle>)
      requires Valid()
      modifies this`open, this`next, this`attempts, this`lastError
      ensures Valid()
      ensures attempts == old(attempts) + [path]
      ensures path in exports ==>
        h == Some(Handle(old(next))) && open == old(open)[old(next) := path]
        && next == old(next) + 1 && lastError == old(lastError)
      ensures path !in exports ==>
        h == None && open == old(open) && next == old(next) && lastError == OpenFailed(path)
    {
      attempts := attempts + [path];
      if path in exports {
        h := Some(Handle(next));
        open := open[next := path];
        next := next + 1;
      } else {
        h := None;
        lastError := OpenFailed(path);
      }
    }

    /** Sys_LoadFunction on a non-NULL handle: the symbol if the library exports it. */
    method LoadFunction(h: Handle, symbol: Symbol) returns (f: Option<FnPtr>)
      requires Valid() && h.id in open
      modifies this`lastError
      ensures symbol in exports[open[h.id]] ==>
        f == Some(FnPtr(open[h.id], symbol)) && lastError == old(lastError)
      ensures symbol !in exports[open[h.id]] ==>
        f == None && lastError == SymbolNotFound(symbol)
    {
      var lib := open[h.id];
      if symbol in exports[lib] {
        f := Some(FnPtr(lib, symbol));
      } else {
        f := None;
        lastError := SymbolNotFound(symbol);
      }
    }

    /** Sys_UnloadLibrary: close a live handle. */
    method UnloadLibrary(h: Handle)
      requires Valid() && h.id in open
      modifies this`open
      ensures Valid() && open == old(open) - {h.id}
    {
      open := open - {h.id};
    }

    /** Calling a resolved initialiser: recorded, its effect inside the module is not modelled. */
    method CallEntry(entry: FnPtr, arg: Callback)
      modifies this`entryCalls
      ensures entryCalls == old(entryCalls) + [EntryCall(entry, arg)]
    {
      entryCalls := entryCalls + [EntryCall(entry, arg)];
    }

    /** Sys_LibraryError. */
    function LibraryError(): LoadError
      reads this
    {
      lastError
    }
  }
}
