/**
 * The part of a workspace (script/internal/workspace.py) that its targets
 * read: the source and build directories, the toolchain, the default build
 * type and the host system, and the build directory layout derived from them.
 */
module WorkspaceLayout {
  import opened Wrappers
  import opened Platform
  import opened Paths
  import opened BuildDefs
  import opened ToolchainCommon

  datatype WorkspaceInfo = WorkspaceInfo(
    sourceDir: string,
    buildRootDir: string,
    toolchain: Toolchain,
    buildType: Option<BuildType>,
    system: System)
  {
    /** get_build_arch_dir: the build root joined with the architecture's value. */
    function BuildArchDir(): string {
      Join(buildRootDir, toolchain.arch.Value())
    }

    function BinDir(): string {
      Join(BuildArchDir(), "bin")
    }

    function LibDir(): string {
      Join(BuildArchDir(), "lib")
    }

    /** get_obj_dir: one object directory per target name. */
    function ObjDir(targetName: string): string {
      Join(Join(BuildArchDir(), "obj"), targetName)
    }
  }

  /**
   * Workspace.__init__'s directories: a relative source_dir is taken below the
   * current directory and a relative build_dir below the source directory.
   */
  function MakeWorkspaceInfo(cwd: string, sourceDir: string, buildDir: string, toolchain: Toolchain,
                             buildType: Option<BuildType>, system: System): (r: WorkspaceInfo)
    ensures r.toolchain == toolchain && r.buildType == buildType && r.system == system
  {
    var source := NormPath(sourceDir);
    var source := if IsAbs(source) then source else Join(cwd, source);
    var build := if IsAbs(buildDir) then buildDir else Join(source, buildDir);
    WorkspaceInfo(source, build, toolchain, buildType, system)
  }

  /** An absolute directory stays as given; a relative one ends up below its base (for a normalized source_dir other than "/"). */
  lemma WorkspaceDirs(cwd: string, sourceDir: string, buildDir: string, toolchain: Toolchain,
                      buildType: Option<BuildType>, system: System)
    requires |cwd| > 0 && cwd[|cwd| - 1] != '/'
    requires |sourceDir| > 0 && sourceDir[|sourceDir| - 1] != '/'
    ensures var w := MakeWorkspaceInfo(cwd, sourceDir, buildDir, toolchain, buildType, system);
            (IsAbs(sourceDir) ==> w.sourceDir == sourceDir) &&
            (!IsAbs(sourceDir) ==> w.sourceDir == cwd + "/" + sourceDir) &&
            (IsAbs(buildDir) ==> w.buildRootDir == buildDir) &&
            (!IsAbs(buildDir) ==> w.buildRootDir == w.sourceDir + "/" + buildDir) &&
            (PlainRelative(buildDir) ==> RelPath(w.buildRootDir, w.sourceDir) == buildDir)
  {
    var w := MakeWorkspaceInfo(cwd, sourceDir, buildDir, toolchain, buildType, system);
    if !IsAbs(sourceDir) {
      assert w.sourceDir == cwd + "/" + sourceDir;
    }
    var s := w.sourceDir;
    assert s[|s| - 1] == sourceDir[|sourceDir| - 1];
    if PlainRelative(buildDir) {
      RelPathOfJoin(s, buildDir);
    }
  }

  /**
   * The layout below an ordinary build root (non-empty, no trailing '/'):
   * bin = root/arch/bin, lib = root/arch/lib and obj = root/arch/obj/<name>.
   */
  lemma Layout(w: WorkspaceInfo, targetName: string)
    requires |w.buildRootDir| > 0 && w.buildRootDir[|w.buildRootDir| - 1] != '/'
    requires !IsAbs(targetName)
    ensures var arch := w.buildRootDir + "/" + w.toolchain.arch.Value();
            w.BuildArchDir() == arch &&
            w.BinDir() == arch + "/bin" &&
            w.LibDir() == arch + "/lib" &&
            w.ObjDir(targetName) == arch + "/obj/" + targetName
  {
    var v := w.toolchain.arch.Value();
    var arch := w.buildRootDir + "/" + v;
    assert arch[|arch| - 1] == v[|v| - 1];
    assert (arch + "/obj")[|arch + "/obj"| - 1] == 'j';
  }

  /** Distinct target names without '/' get distinct object directories, each named after its target. */
  lemma ObjDirsDistinct(w: WorkspaceInfo, a: string, b: string)
    requires '/' !in a && '/' !in b && |a| > 0 && |b| > 0
    ensures Basename(w.ObjDir(a)) == a
    ensures a != b ==> w.ObjDir(a) != w.ObjDir(b)
  {
    BasenameOfJoin(Join(w.BuildArchDir(), "obj"), a);
    BasenameOfJoin(Join(w.BuildArchDir(), "obj"), b);
  }
}
