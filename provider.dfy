/** cppython_core/plugin_schema/provider.py: the provider plugin's configuration and the members
    of its abstract base class. */
module ProviderSchema {
  import opened Errors
  import opened Paths
  import opened Schema
  import opened FileSystems
  import Identity

  /** The configuration the project sets for a provider: the directory holding the manifest. */
  datatype ProviderConfiguration = ProviderConfiguration(rootDirectory: Path)

  /** `ProviderConfiguration.create`: the root is the manifest's parent, which must exist as a
      directory for the configuration to be built. */
  function Create(project: ProjectConfiguration, fs: FileSystem): (r: Result<ProviderConfiguration>)
    reads fs
    ensures r.Ok? <==> fs.IsDir(Parent(project.pyprojectFile))
    ensures r.Ok? ==> r.value.rootDirectory == Parent(project.pyprojectFile)
    ensures r.Err? ==> r.error.ValueError?
  {
    var root :- fs.ValidateDirectory(Parent(project.pyprojectFile));
    Ok(ProviderConfiguration(root))
  }

  /** Only the manifest path of the project configuration is read. */
  lemma CreateReadsOnlyManifest(a: ProjectConfiguration, b: ProjectConfiguration, fs: FileSystem)
    requires a.pyprojectFile == b.pyprojectFile
    ensures Create(a, fs) == Create(b, fs)
  {
  }

  /** `Provider.group`: every provider belongs to the group named "provider". */
  function Group(): (g: Identity.Group)
    ensures Identity.GroupName(g) == "provider"
  {
    Identity.Provider
  }

  /** The abstract members of the provider base class. */
  datatype BaseMember =
    | ToolingDownloaded(path: Path)
    | DownloadTooling(path: Path)
    | Install
    | Update

  /** Calling any abstract member on the base class raises NotImplementedError. */
  function CallBase(member: BaseMember): (r: Result<bool>)
    ensures r.Err? && r.error.NotImplementedError?
  {
    Err(NotImplementedError)
  }
}
