/**
 * The file name Sys_LoadGameDll looks for: the module name, the
 * architecture tag, "-debug" in debug builds on i386 and x86_64 only, and
 * the platform's library extension.
 */
module GameDllName {

  /** The architectures the build knows; any other one does not compile. */
  datatype Arch = I386 | X86_64 | PowerPC | Axp | Mips

  /** What the build fixes: architecture, whether NDEBUG is unset, DLL_EXT,
      and BASEGAME (the default game directory). */
  datatype Build = Build(arch: Arch, debug: bool, dllExt: string, baseGame: string)

  function ArchTag(arch: Arch): string
  {
    match arch
    case I386 => "i386"
    case X86_64 => "x86_64"
    case PowerPC => "ppc"
    case Axp => "axp"
    case Mips => "mips"
  }

  /** Only the i386 and x86_64 builds name a debug library differently. */
  predicate DebugSuffixed(build: Build)
  {
    build.debug && build.arch in {I386, X86_64}
  }

  /** The variant part between the module name and the extension. */
  function Variant(build: Build): string
  {
    ArchTag(build.arch) + (if DebugSuffixed(build) then "-debug" else "")
  }

  /** The artifact name: name, variant, extension, and nothing else. */
  function FileName(name: string, build: Build): (r: string)
    ensures build.arch == I386 ==>
      r == name + (if build.debug then "i386-debug" else "i386") + build.dllExt
    ensures build.arch == X86_64 ==>
      r == name + (if build.debug then "x86_64-debug" else "x86_64") + build.dllExt
    ensures build.arch == PowerPC ==> r == name + "ppc" + build.dllExt
    ensures build.arch == Axp ==> r == name + "axp" + build.dllExt
    ensures build.arch == Mips ==> r == name + "mips" + build.dllExt
  {
    name + Variant(build) + build.dllExt
  }

  /** The name can be read back from the artifact name. */
  lemma FileNameInjective(a: string, b: string, build: Build)
    requires FileName(a, build) == FileName(b, build)
    ensures a == b
  {
    assert |a| == |b|;
    assert a == FileName(a, build)[..|a|];
  }

  /** The debug flag changes the artifact name exactly on i386 and x86_64. */
  lemma DebugNameDiffers(name: string, arch: Arch, ext: string, base: string)
    ensures FileName(name, Build(arch, true, ext, base)) != FileName(name, Build(arch, false, ext, base))
      <==> arch in {I386, X86_64}
  {
    var d := Build(arch, true, ext, base);
    var n := Build(arch, false, ext, base);
    if arch in {I386, X86_64} {
      assert |FileName(name, d)| != |FileName(name, n)|;
    }
  }

  /** Different architectures never share an artifact name. */
  lemma ArchInName(name: string, b1: Build, b2: Build)
    requires b1.arch != b2.arch
    ensures FileName(name, b1) != FileName(name, b2)
  {
    assert FileName(name, b1)[|name|] == ArchTag(b1.arch)[0];
    assert FileName(name, b2)[|name|] == ArchTag(b2.arch)[0];
  }
}
