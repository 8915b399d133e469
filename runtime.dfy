/** role/server/runtime.py: Rinstance — the environment and library path
    derived from R_HOME, the fixed initialisation argv, and the callback
    slots written before R's main loop is entered. The loaded library is
    represented by its path and its table of function-pointer slots. */
module Runtime {
  import opened Wrappers
  import Util

  newtype byte = x: int | 0 <= x < 256

  // ---------------------------------------------------------------------
  // Paths and environment
  // ---------------------------------------------------------------------

  /** os.path's separator: ntpath on win32, posixpath elsewhere. */
  function Sep(platform: string): char
  {
    if platform == "win32" then '\\' else '/'
  }

  predicate EndsInSep(platform: string, a: string)
  {
    |a| > 0 && (a[|a| - 1] == Sep(platform) || (platform == "win32" && a[|a| - 1] == '/'))
  }

  /** os.path.join(a, b) for a relative component b. */
  function Join(platform: string, a: string, b: string): (r: string)
    ensures |r| == |a| + |b| || (|r| == |a| + |b| + 1 && r[|a|] == Sep(platform))
    ensures r[..|a|] == a && r[|r| - |b|..] == b
  {
    if a == [] || EndsInSep(platform, a) then a + b else a + [Sep(platform)] + b
  }

  /** os.path.join(a, c0, c1, ...). */
  function JoinAll(platform: string, a: string, parts: seq<string>): string
    decreases |parts|
  {
    if parts == [] then a else JoinAll(platform, Join(platform, a, parts[0]), parts[1..])
  }

  const RHomeVar := "R_HOME"
  const DocDirVar := "R_DOC_DIR"
  const IncludeDirVar := "R_INCLUDE_DIR"
  const ShareDirVar := "R_SHARE_DIR"

  /** The R home: the environment's R_HOME if set, otherwise what `R RHOME` reported. */
  function RHome(env: map<string, string>, discovered: string): string
  {
    if RHomeVar in env then env[RHomeVar] else discovered
  }

  /** The environment after the first lines of __init__: R_HOME filled in when
      it was missing, the three directories derived from it, nothing else touched. */
  function InitEnviron(platform: string, env: map<string, string>, discovered: string): (e: map<string, string>)
    ensures RHomeVar in env ==> RHomeVar in e && e[RHomeVar] == env[RHomeVar]
    ensures RHomeVar !in env ==> RHomeVar in e && e[RHomeVar] == discovered
    ensures DocDirVar in e && e[DocDirVar] == Join(platform, RHome(env, discovered), "doc")
    ensures IncludeDirVar in e && e[IncludeDirVar] == Join(platform, RHome(env, discovered), "include")
    ensures ShareDirVar in e && e[ShareDirVar] == Join(platform, RHome(env, discovered), "share")
    ensures forall k :: k !in {RHomeVar, DocDirVar, IncludeDirVar, ShareDirVar} ==>
      (k in e <==> k in env) && (k in env ==> e[k] == env[k])
  {
    var rhome := RHome(env, discovered);
    var withHome := if RHomeVar in env then env else env[RHomeVar := rhome];
    withHome
       [DocDirVar := Join(platform, rhome, "doc")]
       [IncludeDirVar := Join(platform, rhome, "include")]
       [ShareDirVar := Join(platform, rhome, "share")]
  }

  /** Setting up an environment that already has R_HOME keeps it; doing it
      twice gives what doing it once gave. */
  lemma InitEnvironIdempotent(platform: string, env: map<string, string>, discovered: string, again: string)
    ensures InitEnviron(platform, InitEnviron(platform, env, discovered), again)
         == InitEnviron(platform, env, discovered)
  {
  }

  /** The shared library for the platform, or None where the source leaves
      libR_path unbound (neither win32, darwin nor linux*). `maxsize` is sys.maxsize. */
  function LibRPath(platform: string, maxsize: int, rhome: string): (r: Option<string>)
    ensures r.Some? <==> platform == "win32" || platform == "darwin" || "linux" <= platform
    ensures platform == "win32" ==> r == Some(Join(platform, Join(platform, Join(platform, rhome, "bin"),
                                         if maxsize > 0x1_0000_0000 then "x64" else "i386"), "R.dll"))
    ensures platform == "darwin" ==> r == Some(Join(platform, Join(platform, rhome, "lib"), "libR.dylib"))
    ensures "linux" <= platform ==> r == Some(Join(platform, Join(platform, rhome, "lib"), "libR.so"))
  {
    if platform == "win32" then
      assert platform[0] == 'w';
      var parts := ["bin", ["i386", "x64"][if maxsize > 0x1_0000_0000 then 1 else 0], "R.dll"];
      var bin := Join(platform, rhome, "bin");
      assert JoinAll(platform, rhome, parts) == JoinAll(platform, bin, parts[1..]);
      assert parts[1..][1..] == [parts[2]];
      var arch := Join(platform, bin, parts[1]);
      assert JoinAll(platform, bin, parts[1..]) == JoinAll(platform, arch, [parts[2]]);
      assert [parts[2]][1..] == [];
      assert JoinAll(platform, arch, [parts[2]]) == Join(platform, arch, "R.dll");
      assert parts[1] == if maxsize > 0x1_0000_0000 then "x64" else "i386";
      Some(JoinAll(platform, rhome, parts))
    else if platform == "darwin" then
      assert platform[0] == 'd';
      var parts := ["lib", "libR.dylib"];
      assert parts[1..] == [parts[1]];
      Some(JoinAll(platform, rhome, parts))
    else if "linux" <= platform then
      var parts := ["lib", "libR.so"];
      assert parts[1..] == [parts[1]];
      Some(JoinAll(platform, rhome, parts))
    else
      None
  }

  /** The library path always lies under the R home. */
  lemma LibRPathUnderRHome(platform: string, maxsize: int, rhome: string)
    requires LibRPath(platform, maxsize, rhome).Some?
    ensures var path := LibRPath(platform, maxsize, rhome).value;
      |path| > |rhome| && path[..|rhome|] == rhome
  {
  }

  // ---------------------------------------------------------------------
  // Construction errors
  // ---------------------------------------------------------------------

  const CannotLocate := "Cannot locate R share library."

  datatype InitError =
    | RuntimeError(message: string)      // the library file does not exist
    | UnboundLocalError(name: string)    // sys.platform matched no branch

  /** The library to load, or why __init__ fails; `files` is the set of paths that exist. */
  function LibraryToLoad(platform: string, maxsize: int, rhome: string, files: set<string>): (r: Result<string, InitError>)
    ensures r.Ok? <==> LibRPath(platform, maxsize, rhome).Some? && LibRPath(platform, maxsize, rhome).value in files
    ensures r.Ok? ==> r.value == LibRPath(platform, maxsize, rhome).value && r.value in files
    ensures r == Err(RuntimeError(CannotLocate)) <==>
      LibRPath(platform, maxsize, rhome).Some? && LibRPath(platform, maxsize, rhome).value !in files
    ensures r == Err(UnboundLocalError("libR_path")) <==> LibRPath(platform, maxsize, rhome).None?
  {
    match LibRPath(platform, maxsize, rhome)
    case None => Err(UnboundLocalError("libR_path"))
    case Some(path) => if path in files then Ok(path) else Err(RuntimeError(CannotLocate))
  }

  // ---------------------------------------------------------------------
  // argv
  // ---------------------------------------------------------------------

  const ArgvStrings: seq<string> := ["role", "--no-save", "--quiet"]

  /** str.encode('utf-8') of an ASCII string: one byte per character, equal to its code. */
  function EncodeAscii(s: string): (b: seq<byte>)
    requires Util.IsAscii(s)
    ensures |b| == |s|
    ensures forall i :: 0 <= i < |s| ==> b[i] as int == s[i] as int
  {
    seq(|s|, i requires 0 <= i < |s| => s[i] as int as byte)
  }

  lemma ArgvIsAscii()
    ensures forall i :: 0 <= i < |ArgvStrings| ==> Util.IsAscii(ArgvStrings[i])
  {
  }

  /** `argv` is ["role", "--no-save", "--quiet"], each encoded byte for character. */
  predicate EncodesArgv(argv: seq<seq<byte>>)
  {
    && |argv| == |ArgvStrings|
    && (forall i :: 0 <= i < |argv| ==> |argv[i]| == |ArgvStrings[i]|)
    && forall i, j :: 0 <= i < |argv| && 0 <= j < |argv[i]| ==> argv[i][j] as int == ArgvStrings[i][j] as int
  }

  /** The argv array handed to Rf_initialize_R, filled element by element. */
  method BuildArgv() returns (argn: nat, argv: array<seq<byte>>)
    ensures argn == 3 == argv.Length
    ensures EncodesArgv(argv[..])
  {
    ArgvIsAscii();
    argn := |ArgvStrings|;
    argv := new seq<byte>[argn];
    for i := 0 to argn
      invariant forall k :: 0 <= k < i ==> argv[k] == EncodeAscii(ArgvStrings[k])
    {
      argv[i] := EncodeAscii(ArgvStrings[i]);
    }
  }

  // ---------------------------------------------------------------------
  // Callback slots
  // ---------------------------------------------------------------------

  /** A Python callable handed to the instance, by identity. */
  type Callback = nat

  /** The content of one of libR's function-pointer slots. */
  datatype SlotValue =
    | Null                  // address 0
    | NativeDefault         // whatever R put there itself
    | HostFn(cb: Callback)  // the address of the CFUNCTYPE wrapper of a host callable

  const ReadConsoleSlot := "ptr_R_ReadConsole"
  const WriteConsoleSlot := "ptr_R_WriteConsole"
  const WriteConsoleExSlot := "ptr_R_WriteConsoleEx"

  /** The slots after _setup_callbacks_unix. */
  function SetupUnix(slots: map<string, SlotValue>, readConsole: Option<Callback>, writeConsoleEx: Option<Callback>)
    : (s: map<string, SlotValue>)
    ensures readConsole.Some? ==> ReadConsoleSlot in s && s[ReadConsoleSlot] == HostFn(readConsole.value)
    ensures writeConsoleEx.Some? ==>
      && WriteConsoleSlot in s && s[WriteConsoleSlot] == Null
      && WriteConsoleExSlot in s && s[WriteConsoleExSlot] == HostFn(writeConsoleEx.value)
    ensures forall k ::
      && !(k == ReadConsoleSlot && readConsole.Some?)
      && !(k in {WriteConsoleSlot, WriteConsoleExSlot} && writeConsoleEx.Some?)
      ==> (k in s <==> k in slots) && (k in slots ==> s[k] == slots[k])
  {
    var afterRead := if readConsole.Some? then slots[ReadConsoleSlot := HostFn(readConsole.value)] else slots;
    if writeConsoleEx.Some? then
      afterRead[WriteConsoleSlot := Null][WriteConsoleExSlot := HostFn(writeConsoleEx.value)]
    else
      afterRead
  }

  /** The slots after the platform's callback setup; the win32 setup is a no-op. */
  function SetupCallbacks(platform: string, slots: map<string, SlotValue>,
                          readConsole: Option<Callback>, writeConsoleEx: Option<Callback>): (s: map<string, SlotValue>)
    ensures platform == "win32" ==> s == slots
    ensures platform != "win32" ==> s == SetupUnix(slots, readConsole, writeConsoleEx)
  {
    if platform == "win32" then slots else SetupUnix(slots, readConsole, writeConsoleEx)
  }

  /** The only host functions in the slots are the kept read-console wrapper,
      in the read-console slot, and the kept write-console wrapper, in the
      extended write-console slot. */
  predicate Retained(slots: map<string, SlotValue>, ptrReadConsole: Option<Callback>, ptrWriteConsoleEx: Option<Callback>)
  {
    forall k :: k in slots && slots[k].HostFn? ==>
      || (k == ReadConsoleSlot && ptrReadConsole == Some(slots[k].cb))
      || (k == WriteConsoleExSlot && ptrWriteConsoleEx == Some(slots[k].cb))
  }

  /** The unix setup keeps a reference to every wrapper it installs, and the
      references it replaces are no longer in any slot. */
  lemma SetupUnixRetains(slots: map<string, SlotValue>, ptrReadConsole: Option<Callback>, ptrWriteConsoleEx: Option<Callback>,
                         readConsole: Option<Callback>, writeConsoleEx: Option<Callback>)
    requires Retained(slots, ptrReadConsole, ptrWriteConsoleEx)
    ensures Retained(SetupUnix(slots, readConsole, writeConsoleEx),
                     if readConsole.Some? then readConsole else ptrReadConsole,
                     if writeConsoleEx.Some? then writeConsoleEx else ptrWriteConsoleEx)
  {
  }

  class Rinstance {
    /** The path libR was loaded from. */
    const libR: string
    /** The argv given to Rf_initialize_R. */
    const argv: seq<seq<byte>>
    var readConsole: Option<Callback>
    var writeConsoleEx: Option<Callback>
    /** The CFUNCTYPE wrappers kept on the instance so they are not collected. */
    var ptrReadConsole: Option<Callback>
    var ptrWriteConsoleEx: Option<Callback>
    /** libR's function-pointer slots. */
    var slots: map<string, SlotValue>
    /** The slots as Rf_mainloop found them; None until run() enters it. */
    var mainloopSlots: Option<map<string, SlotValue>>

    /** Every host function in a slot is kept alive by this instance. */
    ghost predicate Valid()
      reads this
    {
      Retained(slots, ptrReadConsole, ptrWriteConsoleEx)
    }

    /** The object as __init__ leaves it after Rf_initialize_R. */
    constructor Loaded(libR: string, argv: seq<seq<byte>>, nativeSlots: map<string, SlotValue>)
      requires forall k :: k in nativeSlots ==> !nativeSlots[k].HostFn?
      ensures this.libR == libR && this.argv == argv && slots == nativeSlots
      ensures readConsole == None && writeConsoleEx == None && mainloopSlots == None
      ensures ptrReadConsole == None && ptrWriteConsoleEx == None
      ensures Valid()
    {
      this.libR := libR;
      this.argv := argv;
      readConsole := None;
      writeConsoleEx := None;
      ptrReadConsole := None;
      ptrWriteConsoleEx := None;
      slots := nativeSlots;
      mainloopSlots := None;
    }

    /** _setup_callbacks_win32: does nothing. */
    method SetupCallbacksWin32()
      ensures slots == old(slots)
    {
    }

    /** _setup_callbacks_unix: install the read-console callback if there is
        one, and the extended write-console callback (clearing the plain one)
        if there is one, keeping a reference to each wrapper. */
    method SetupCallbacksUnix()
      requires Valid()
      modifies this
      ensures Valid()
      ensures slots == SetupUnix(old(slots), readConsole, writeConsoleEx)
      ensures ptrReadConsole == if readConsole.Some? then readConsole else old(ptrReadConsole)
      ensures ptrWriteConsoleEx == if writeConsoleEx.Some? then writeConsoleEx else old(ptrWriteConsoleEx)
      ensures readConsole == old(readConsole) && writeConsoleEx == old(writeConsoleEx)
      ensures mainloopSlots == old(mainloopSlots)
    {
      SetupUnixRetains(slots, ptrReadConsole, ptrWriteConsoleEx, readConsole, writeConsoleEx);
      if readConsole.Some? {
        ptrReadConsole := readConsole;
        slots := slots[ReadConsoleSlot := HostFn(readConsole.value)];
      }
      if writeConsoleEx.Some? {
        slots := slots[WriteConsoleSlot := Null];
        ptrWriteConsoleEx := writeConsoleEx;
        slots := slots[WriteConsoleExSlot := HostFn(writeConsoleEx.value)];
      }
    }

    /** run: register the callbacks for the platform, then enter Rf_mainloop,
        which finds them in place. */
    method Run(platform: string)
      requires Valid()
      modifies this
      ensures Valid()
      ensures slots == SetupCallbacks(platform, old(slots), readConsole, writeConsoleEx)
      ensures mainloopSlots == Some(slots)
      ensures readConsole == old(readConsole) && writeConsoleEx == old(writeConsoleEx)
      ensures platform == "win32" ==>
        ptrReadConsole == old(ptrReadConsole) && ptrWriteConsoleEx == old(ptrWriteConsoleEx)
      ensures platform != "win32" ==>
        && ptrReadConsole == (if readConsole.Some? then readConsole else old(ptrReadConsole))
        && ptrWriteConsoleEx == (if writeConsoleEx.Some? then writeConsoleEx else old(ptrWriteConsoleEx))
    {
      if platform == "win32" {
        SetupCallbacksWin32();
      } else {
        SetupCallbacksUnix();
      }
      mainloopSlots := Some(slots);
    }
  }

  /** Process environment (os.environ). */
  class Environ {
    var vars: map<string, string>
  }

  /** The environment lines of Rinstance.__init__: fill in R_HOME from
      `discovered` (the output of `R RHOME`) when it is unset, then derive the
      three directories. Returns the R home. */
  method SetREnviron(env: Environ, platform: string, discovered: string) returns (rhome: string)
    modifies env
    ensures rhome == RHome(old(env.vars), discovered)
    ensures env.vars == InitEnviron(platform, old(env.vars), discovered)
  {
    if RHomeVar !in env.vars {
      rhome := discovered;
      env.vars := env.vars[RHomeVar := rhome];
    } else {
      rhome := env.vars[RHomeVar];
    }
    env.vars := env.vars[DocDirVar := Join(platform, rhome, "doc")];
    env.vars := env.vars[IncludeDirVar := Join(platform, rhome, "include")];
    env.vars := env.vars[ShareDirVar := Join(platform, rhome, "share")];
  }

  /** Rinstance.__init__. `files` are the paths that exist and `nativeSlots`
      the slot table of the freshly loaded library. The environment is
      written before the library path is checked, so it is updated even when
      construction fails; nothing is loaded on failure. */
  method NewRinstance(env: Environ, platform: string, maxsize: int, discovered: string,
                      files: set<string>, nativeSlots: map<string, SlotValue>)
    returns (r: Result<Rinstance, InitError>)
    requires forall k :: k in nativeSlots ==> !nativeSlots[k].HostFn?
    modifies env
    ensures env.vars == InitEnviron(platform, old(env.vars), discovered)
    ensures var lib := LibraryToLoad(platform, maxsize, RHome(old(env.vars), discovered), files);
      && (lib.Err? ==> r == Err(lib.error))
      && (lib.Ok? ==> r.Ok? && fresh(r.value) && r.value.libR == lib.value
                      && r.value.slots == nativeSlots && r.value.mainloopSlots == None
                      && r.value.readConsole == None && r.value.writeConsoleEx == None
                      && r.value.ptrReadConsole == None && r.value.ptrWriteConsoleEx == None
                      && r.value.Valid() && EncodesArgv(r.value.argv))
  {
    var rhome := SetREnviron(env, platform, discovered);
    var path := LibRPath(platform, maxsize, rhome);
    if path.None? {
      return Err(UnboundLocalError("libR_path"));
    }
    if path.value !in files {
      return Err(RuntimeError(CannotLocate));
    }
    var argn, argv := BuildArgv();
    var instance := new Rinstance.Loaded(path.value, argv[..], nativeSlots);
    r := Ok(instance);
  }
}
