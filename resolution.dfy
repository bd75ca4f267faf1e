/** cppython_core/resolution.py: turning validated input configuration into resolved data.
    Each resolver works on its own copy (values here), patches it, and creates directories. */
module Resolution {
  import opened Errors
  import opened Paths
  import opened Schema
  import opened FileSystems

  // ---------------------------------------------------------------------------------------------
  // PEP 621 resolution

  /** The index of the first occurrence of `x`. */
  function FirstIndex(s: seq<string>, x: string): (i: nat)
    requires x in s
    ensures i < |s| && s[i] == x && x !in s[..i]
  {
    if s[0] == x then 0
    else
      var j := FirstIndex(s[1..], x);
      assert s[..j + 1] == [s[0]] + s[1..][..j];
      j + 1
  }

  /** `list.remove`: drops the first occurrence of `x` and keeps the others in order. */
  function RemoveFirst(s: seq<string>, x: string): (r: seq<string>)
    requires x in s
    ensures |r| == |s| - 1
    ensures multiset(r) == multiset(s) - multiset{x}
    ensures exists i :: 0 <= i < |s| && s[i] == x && x !in s[..i] && r == s[..i] + s[i + 1..]
  {
    var i := FirstIndex(s, x);
    assert s == s[..i] + [x] + s[i + 1..];
    s[..i] + s[i + 1..]
  }

  /** When `x` is listed once, removing it leaves no occurrence. */
  lemma RemoveOnlyOccurrence(s: seq<string>, x: string)
    requires multiset(s)[x] == 1
    ensures x in s && x !in RemoveFirst(s, x)
  {
  }

  /** `resolution.pep621`: a dynamic version is removed from `dynamic` and replaced by the
      project's version. The assignment re-runs the version validator (`validate_assignment`),
      so the result obeys the PEP 621 rule, and the resolution fails when it would not. */
  method Pep621(configuration: PEP621, project: ProjectData) returns (r: Result<PEP621>)
    ensures "version" !in configuration.dynamic ==> r == Ok(configuration)
    ensures "version" in configuration.dynamic ==>
      var dynamic := RemoveFirst(configuration.dynamic, "version");
      && (r.Ok? <==> VersionExclusive(project.version, dynamic))
      && (r.Ok? ==> r.value == configuration.(dynamic := dynamic, version := project.version))
      && (r.Err? ==> r.error.ValueError?)
    ensures multiset(configuration.dynamic)["version"] == 1 && project.version.Some? ==>
      && r.Ok? && r.value.version == project.version && "version" !in r.value.dynamic
      && multiset(r.value.dynamic) == multiset(configuration.dynamic) - multiset{"version"}
    ensures r.Ok? && VersionExclusive(configuration.version, configuration.dynamic) ==>
      VersionExclusive(r.value.version, r.value.dynamic)
  {
    var modified := configuration;
    if "version" in modified.dynamic {
      modified := modified.(dynamic := RemoveFirst(modified.dynamic, "version"));
      var version := ValidateVersion(project.version, modified.dynamic);
      if version.Err? {
        return Err(version.error);
      }
      modified := modified.(version := version.value);
      if multiset(configuration.dynamic)["version"] == 1 {
        RemoveOnlyOccurrence(configuration.dynamic, "version");
      }
    }
    return Ok(modified);
  }

  // ---------------------------------------------------------------------------------------------
  // Tool configuration resolution

  /** The tool table as the user wrote it: the resolved fields plus the per-plugin tables. */
  datatype LocalConfiguration = LocalConfiguration(
    target: Target,
    dependencies: seq<Requirement>,
    installPath: Path,
    toolPath: Path,
    buildPath: Path,
    provider: map<string, Value>,
    generator: map<string, Value>,
    vcs: map<string, Value>)

  /** `pyproject_file.parent.absolute()`: where relative tool paths are anchored. */
  function RootDirectory(project: ProjectData, cwd: Path): Path
  {
    Absolute(Parent(project.pyprojectFile), cwd)
  }

  /** The resolved tool data: every relative path joined to `root`, absolute paths kept, the
      target and the dependencies copied, and the plugin tables dropped. */
  function ResolvedCppython(configuration: LocalConfiguration, root: Path): CPPythonData
  {
    CPPythonData(
      configuration.target,
      configuration.dependencies,
      Absolute(configuration.installPath, root),
      Absolute(configuration.toolPath, root),
      Absolute(configuration.buildPath, root))
  }

  /** `resolution.cppython`: absolutises the three paths against the manifest's directory and
      creates them. */
  method Cppython(configuration: LocalConfiguration, project: ProjectData, fs: FileSystem) returns (r: CPPythonData)
    requires fs.Valid()
    modifies fs
    ensures fs.Valid()
    ensures r == ResolvedCppython(configuration, RootDirectory(project, fs.cwd))
    ensures fs.dirs == old(fs.dirs) + Lineage(r.installPath) + Lineage(r.toolPath) + Lineage(r.buildPath)
    ensures fs.IsDir(r.installPath) && fs.IsDir(r.toolPath) && fs.IsDir(r.buildPath)
  {
    var modified := configuration;
    var root := RootDirectory(project, fs.cwd);
    AbsoluteProperties(Parent(project.pyprojectFile), fs.cwd);

    if !modified.installPath.absolute {
      modified := modified.(installPath := Join(root, modified.installPath));
    }
    if !modified.toolPath.absolute {
      modified := modified.(toolPath := Join(root, modified.toolPath));
    }
    if !modified.buildPath.absolute {
      modified := modified.(buildPath := Join(root, modified.buildPath));
    }

    fs.Mkdir(modified.installPath);
    fs.Mkdir(modified.toolPath);
    fs.Mkdir(modified.buildPath);

    r := CPPythonData(modified.target, modified.dependencies, modified.installPath, modified.toolPath, modified.buildPath);
    LineageEnds(r.installPath);
    LineageEnds(r.toolPath);
    LineageEnds(r.buildPath);
  }

  /** The resolved paths are absolute: relative ones are anchored, absolute ones kept. */
  lemma ResolvedPathsAbsolute(configuration: LocalConfiguration, root: Path)
    requires root.absolute
    ensures var r := ResolvedCppython(configuration, root);
      && r.installPath.absolute && r.toolPath.absolute && r.buildPath.absolute
      && (configuration.installPath.absolute ==> r.installPath == configuration.installPath)
      && (!configuration.installPath.absolute ==> r.installPath == Join(root, configuration.installPath))
      && (configuration.toolPath.absolute ==> r.toolPath == configuration.toolPath)
      && (!configuration.toolPath.absolute ==> r.toolPath == Join(root, configuration.toolPath))
      && (configuration.buildPath.absolute ==> r.buildPath == configuration.buildPath)
      && (!configuration.buildPath.absolute ==> r.buildPath == Join(root, configuration.buildPath))
  {
  }

  /** Resolving resolved data again changes none of its fields, since absolute paths are not
      joined again. */
  lemma ResolveIdempotent(configuration: LocalConfiguration, root: Path)
    requires root.absolute
    ensures var r := ResolvedCppython(configuration, root);
      ResolvedCppython(configuration.(installPath := r.installPath, toolPath := r.toolPath, buildPath := r.buildPath), root) == r
  {
  }

  /** A relative install path `out` with the manifest at `/a/b/pyproject.toml` resolves to `/a/b/out`. */
  lemma ResolveExample(configuration: LocalConfiguration, cwd: Path)
    requires configuration.installPath == Path(false, ["out"])
    ensures var project := ProjectData(Path(true, ["a", "b", "pyproject.toml"]), None);
      ResolvedCppython(configuration, RootDirectory(project, cwd)).installPath == Path(true, ["a", "b", "out"])
  {
  }

  /** Resolving twice: the second resolution of the resolved data gives the same data and creates
      no directory. */
  method ResolveTwice(configuration: LocalConfiguration, project: ProjectData, fs: FileSystem)
    returns (first: CPPythonData, second: CPPythonData)
    requires fs.Valid()
    modifies fs
    ensures fs.Valid()
    ensures first == second
    ensures fs.dirs == old(fs.dirs) + Lineage(first.installPath) + Lineage(first.toolPath) + Lineage(first.buildPath)
  {
    first := Cppython(configuration, project, fs);
    ResolveIdempotent(configuration, RootDirectory(project, fs.cwd));
    var again := configuration.(installPath := first.installPath, toolPath := first.toolPath, buildPath := first.buildPath);
    second := Cppython(again, project, fs);
  }

  // ---------------------------------------------------------------------------------------------
  // Plugin scoping

  /** `resolution.cppython_plugin`: the copy's install path is the original one joined with the
      plugin's name, and that directory is created. */
  method CppythonPlugin(data: CPPythonData, pluginName: string, fs: FileSystem) returns (r: CPPythonData)
    requires fs.Valid()
    modifies fs
    ensures fs.Valid()
    ensures r == data.(installPath := Join(data.installPath, Child(pluginName)))
    ensures fs.dirs == old(fs.dirs) + Lineage(Absolute(r.installPath, fs.cwd))
    ensures fs.IsDir(r.installPath)
  {
    var modified := data;
    var pluginInstallPath := Join(modified.installPath, Child(pluginName));
    fs.Mkdir(pluginInstallPath);
    modified := modified.(installPath := pluginInstallPath);
    r := modified;
    LineageEnds(Absolute(r.installPath, fs.cwd));
    AbsoluteProperties(r.installPath, fs.cwd);
  }

  /** The scoped install path sits directly under the original one and is named after the plugin;
      two plugins with different names never share it. */
  lemma PluginScoping(data: CPPythonData, n1: string, n2: string)
    ensures Parent(Join(data.installPath, Child(n1))) == data.installPath
    ensures n1 != n2 ==> Join(data.installPath, Child(n1)) != Join(data.installPath, Child(n2))
  {
  }

  // ---------------------------------------------------------------------------------------------
  // Plugin group data

  datatype GroupDataKind = GeneratorData | ProviderData | VersionControlData

  /** The data every plugin of a group receives: the directory holding the manifest. */
  datatype PluginGroupData = PluginGroupData(kind: GroupDataKind, rootDirectory: Path)

  /** `resolution.generator`, `resolution.provider` and `resolution.vcs`: the group data is anchored
      at the manifest's parent as given (not made absolute), which must be an existing directory. */
  function GroupData(kind: GroupDataKind, project: ProjectData, fs: FileSystem): (r: Result<PluginGroupData>)
    reads fs
    ensures r.Ok? <==> fs.IsDir(Parent(project.pyprojectFile))
    ensures r.Ok? ==> r.value.kind == kind && r.value.rootDirectory == Parent(project.pyprojectFile)
    ensures r.Err? ==> r.error.ValueError?
  {
    var root :- fs.ValidateDirectory(Parent(project.pyprojectFile));
    Ok(PluginGroupData(kind, root))
  }

  /** The group data's root and the tool data's root name the same directory; they differ only in
      that the tool data's is made absolute. */
  lemma GroupRootIsToolRoot(kind: GroupDataKind, project: ProjectData, fs: FileSystem)
    requires GroupData(kind, project, fs).Ok?
    ensures Absolute(GroupData(kind, project, fs).value.rootDirectory, fs.cwd) == RootDirectory(project, fs.cwd)
    ensures project.pyprojectFile.absolute ==> GroupData(kind, project, fs).value.rootDirectory == RootDirectory(project, fs.cwd)
  {
  }
}
