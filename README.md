# CPPython core configuration layer in Dafny

This project models the configuration layer of CPPython's core library. That layer has two parts:

- the schema validators that turn the `[project]` and `[tool.cppython]` tables of `pyproject.toml` into typed models;
- the resolution step that turns those models into absolute, existing directories and per-plugin data.

It also covers the plugin identity rules (group names, logger names and the `name.group` split of a "NameGroup" type name), the provider's configuration factory, and the project's error records.

Modules, one per source file or concern:

- `Errors` (`errors.dfy`): the error kinds and the `Result` type. `ConfigError`, `PluginError` and `NotSupportedError` come from `cppython_core/exceptions.py`. `TypeError`, `ValueError` and `NotImplementedError` are the Python built-ins the validators and abstract methods raise. pydantic's `ValidationError` is a `ValueError` and is modelled as one.
- `Paths` (`paths.dfy`): pathlib with POSIX semantics. A path is an absolute flag and a sequence of components. `/` returns its right-hand side when that side is absolute.
- `FileSystems` (`filesystem.dfy`): a `FileSystem` class. It holds the working directory and the set of existing directories. `Mkdir` is `mkdir(parents=True, exist_ok=True)`.
- `Schema` (`schema.dfy`): `cppython_core/schema.py`. Input is a map from keys to values, and each validator returns a `Result`. Fields are read from their alias key only, because `allow_population_by_field_name` is off.
- `Identity` (`identity.dfy`): the plugin groups, the cached plugin logger (a class, because `cls._logger` is written on first access), and the full-name split.
- `Resolution` (`resolution.dfy`): `cppython_core/resolution.py`. `pep621`, `cppython` and `cppython_plugin` patch a copy step by step. They are methods, and the last two change the `FileSystem`. The group-data builders are functions.
- `ProviderSchema` (`provider.dfy`): `cppython_core/plugin_schema/provider.py`.

Foreign services are passed in as a `Schema.Host` value: `Path.home()`, `Path(str)`, `Path.as_posix()` and packaging's requirement parser. The working directory is part of the `FileSystem`.

## How the model reads the source

`resolution.py` at this revision is a half-finished migration, and the model takes these positions:

- `cppython` copies an undefined `self` (cppython_core/resolution.py:79). The model copies `local_configuration`, the tool table the user wrote. `global_configuration` is never read, so the model omits it.
- Each resolver patches a copy named `modified` and then returns a fresh default object (cppython_core/resolution.py:37, 59, 103). The model returns the patched copy, which is evidently the intended result.
- The file imports names that `schema.py` does not define (cppython_core/resolution.py:6-15). `ProjectData` and the local tool configuration are given only the fields the code reads. `ProjectConfiguration` also carries a version, a verbosity level and a debug flag, so that `ProviderSchema.CreateReadsOnlyManifest` can state that `create` ignores them.

In three places the model departs from the obvious reading. The first two follow the code. The third follows the tests, because the source has no split:

- A dynamic version with no project version fails with a `ValueError`, not a `ConfigError`. The assignment `modified.version = ...` re-runs the version validator, because `validate_assignment` is on.
- `CPPythonData` forbids extra keys. An attribute-name key such as `install_path` is therefore rejected as an unknown key, not ignored. A model without `Extra.forbid` ignores such a key (`Schema.NameKeyIgnored`).
- The full-name split rejects a one-word name with a `ValueError`, as the tests expect, not a `PluginError`.

Python's `list.remove` drops only the first occurrence. So a `dynamic` list that names `"version"` twice still names it after resolution, and the re-run validator then rejects a concrete project version.

## Model

| member | source | states |
|---|---|---|
| `Errors.ErrorRecordsKeepMessage` | cppython_core/exceptions.py:8-56 | each error record returns its message unchanged from `error`, and that message is also its displayed text |
| `Schema.NameKeyIgnored` | cppython_core/schema.py:20-28 | a key under a field's attribute name does not populate the field when population by name is off |
| `Schema.AliasKeyWins` | tests/unit/test_schema.py:35-44 | the alias key populates the field, whatever the attribute-name key holds |
| `Schema.ValidateVersion` | cppython_core/schema.py:56-67 | the version passes unchanged exactly when it is null iff `"version"` is in `dynamic`; otherwise it is a validation error |
| `Schema.ParsePEP621With` | cppython_core/schema.py:44-67 | a table is accepted iff the name is present and each given field validates, and, whenever the version validator runs (key present, or `always`), the version rule holds; name, dynamic (default empty), version (default null) and description (default empty) come from their keys; unknown keys are ignored |
| `Schema.PEP621Exclusivity` | cppython_core/schema.py:56-67 | for well-typed fields, the table is accepted if and only if the version rule holds |
| `Schema.OmittedVersionAcceptedAsWritten` | tests/unit/test_schema.py:88-95 | neither version nor dynamic version: accepted as written, rejected as intended; both present: rejected |
| `Schema.ValidateInherits` | cppython_core/schema.py:118-126 | null stays null; the result is always a list holding the same names in order; a list is kept |
| `Schema.InheritsIdempotent` | cppython_core/schema.py:118-126 | normalising `inherits` twice equals normalising it once |
| `Schema.ValidateToolchainFile` | cppython_core/schema.py:136-144 | null stays null and a string is replaced by its POSIX form |
| `Schema.ToolchainFileIdempotent` | cppython_core/schema.py:136-144 | re-validating a toolchain path changes nothing when the POSIX form is idempotent |
| `Schema.ValidateRequirement` | cppython_core/schema.py:90-103 | a non-string is a TypeError, a string the parser rejects is a ValueError, otherwise the parsed requirement is returned |
| `Schema.ParseTarget` | cppython_core/schema.py:34-41 | a target is accepted exactly when it is one of the enumeration's values, and it maps back to that value |
| `Schema.TargetRoundTrip` | cppython_core/schema.py:34-41 | every target parses back from its own value |
| `Schema.ParseDependencies` | cppython_core/schema.py:153 | the dependency list is accepted iff every entry is a requirement string the parser accepts; the result holds each parsed entry in order; any failure, a non-string entry included, is a validation error (a ValueError) |
| `Schema.ParseCPPythonData` | cppython_core/schema.py:147-156 | a table is accepted iff it uses only alias keys and each of the five fields validates; target, dependencies and each path come from the field's alias key or its default; every failure is a validation error |
| `Schema.NonStringDependencyRejected` | cppython_core/schema.py:95-96 | the TypeError `PEP508.validate` raises for a non-string becomes a ValueError when it fails the `dependencies` field (schema.py line 153); the direct call keeps the TypeError |
| `Schema.CPPythonDataDefaults` | cppython_core/schema.py:152-156 | the defaults: target EXE, no dependencies, install path `<home>/.cppython`, tool path `tool`, build path `build` |
| `Schema.UnknownKeyRejected` | cppython_core/schema.py:147 | any key that is not a field's alias makes the table fail |
| `Schema.InstallPathFromAlias` | cppython_core/schema.py:154 | example: a string under `install-path` becomes the install path with the other fields defaulted, while the same string under `install_path` is rejected as an extra field |
| `Schema.ParseToolData` | cppython_core/schema.py:162-168 | a tool table is accepted iff its `cppython` entry, when present and not null, is a table that parses as CPPython data; the result is that data exactly when such an entry exists, and none for a missing or null entry; other tools' tables are ignored |
| `Schema.ParsePyProject` | cppython_core/schema.py:174-181 | a document is accepted iff its project table parses as PEP 621 and its tool table, when present and not null, parses as tool data; the result holds both parsed tables, and the tool part is present exactly when the document has a non-null one |
| `Schema.CPPythonTableVectors` | tests/unit/test_schema.py:54-86 | an empty `[tool.cppython]` gives defaulted tool data; a manifest with only `[tool.test]` gives none |
| `Identity.GroupNamesDistinct` | cppython_core/schema.py:280-285 | the group constants (`interface` here, `generator` at schema.py:349-354, `provider` in provider.py) are pairwise distinct |
| `Identity.LoggerNamesDistinct` | cppython_core/schema.py:212-222 | the logger name `cppython.<group>.<name>` determines group and name, so distinct plugins never share a logger |
| `Identity.PluginClass.GetLogger` | cppython_core/schema.py:219-222 | the logger is named `cppython.<group>.<name>`, is created on first access and cached, and later accesses return the cached one |
| `Identity.FullName` | tests/unit/test_schema.py:97-125 | an identifier with exactly one word boundary gives `lower(name) + "." + lower(group)`; any other identifier is rejected with a ValueError |
| `Identity.FirstBoundary` | tests/unit/test_schema.py:97-125 | finds the first word boundary at or after a position, or proves there is none |
| `Identity.FullNameBasicPlugin` | tests/unit/test_schema.py:100-103 | `BasicPlugin` gives `basic.plugin` |
| `Identity.FullNameAcronymYA` | tests/unit/test_schema.py:117-120 | `AcronymYA` gives `acronym.ya` |
| `Identity.FullNameYAAcronym` | tests/unit/test_schema.py:122-125 | `YAAcronym` gives `ya.acronym` |
| `Identity.FullNameSingleWord` | tests/unit/test_schema.py:105-115 | `Broken` and `BROKEN` are rejected |
| `FileSystems.FileSystem.Mkdir` | cppython_core/resolution.py:94-96 | the directory and all its ancestors exist afterwards, nothing else is created, and a repeated call changes nothing |
| `FileSystems.FileSystem.ValidateDirectory` | cppython_core/plugin_schema/provider.py:21 | a directory path is accepted, unchanged, exactly when it names an existing directory |
| `Resolution.RemoveFirst` | cppython_core/resolution.py:56 | removing `"version"` drops exactly its first occurrence and keeps the entries before and after it in order (so the length drops by one and the multiset loses one copy) |
| `Resolution.RemoveOnlyOccurrence` | cppython_core/resolution.py:55-57 | a once-listed entry is gone after removal |
| `Resolution.Pep621` | cppython_core/resolution.py:41-60 | no dynamic version: the input is returned unchanged; dynamic version: `"version"` is removed and the project version set, succeeding iff the version rule then holds; a once-listed dynamic version with a project version always resolves; the rule is preserved |
| `Resolution.Cppython` | cppython_core/resolution.py:63-104 | each path is anchored at the absolute manifest directory if relative and kept if absolute; target and dependencies are copied and the plugin tables dropped; exactly the three lineages are created |
| `Resolution.ResolvedPathsAbsolute` | cppython_core/resolution.py:81-91 | the install, tool and build paths are absolute after resolution; each relative one is joined to the root, and each absolute one is kept |
| `Resolution.ResolveIdempotent` | cppython_core/resolution.py:84-91 | resolving resolved data again leaves all three paths unchanged |
| `Resolution.ResolveExample` | cppython_core/resolution.py:81-85 | install path `out` with the manifest at `/a/b/pyproject.toml` resolves to `/a/b/out` |
| `Resolution.ResolveTwice` | cppython_core/resolution.py:94-96 | a second resolution gives the same data and creates no further directory |
| `Resolution.CppythonPlugin` | cppython_core/resolution.py:18-38 | the copy's install path is the original joined with the plugin name, every other field is kept, and that directory exists afterwards |
| `Resolution.PluginScoping` | cppython_core/resolution.py:33-35 | the scoped path is a direct child of the install path, and different plugin names give different paths |
| `Resolution.GroupData` | cppython_core/resolution.py:107-143 | generator, provider and VCS group data have the manifest's parent as root (not made absolute), and are built iff that directory exists |
| `Resolution.GroupRootIsToolRoot` | cppython_core/resolution.py:107-117 | the group root made absolute is the tool data's root, and equals it when the manifest path is absolute |
| `ProviderSchema.Create` | cppython_core/plugin_schema/provider.py:24-34 | the root directory is the manifest's parent, and it is accepted iff it is an existing directory |
| `ProviderSchema.CreateReadsOnlyManifest` | cppython_core/plugin_schema/provider.py:33 | two project configurations with the same manifest path give the same result |
| `ProviderSchema.Group` | cppython_core/plugin_schema/provider.py:40-48 | a provider's group is the one named `provider` |
| `ProviderSchema.CallBase` | cppython_core/plugin_schema/provider.py:50-89 | every abstract member of the base class raises NotImplementedError |

## Left out

- `cppython_core/utility.py` (`subprocess_call`) is process spawning and logging, and it is not modelled.
- The `scm.py`, `generator.py` and `interface.py` plugin protocols declare behaviour but implement none. Only their group constants are kept, in `Identity.Group`.
- The older abstract `Interface` and `Generator` classes in `schema.py` (lines 251-414) are not modelled, apart from their group constants. The same holds for `InterfaceConfiguration`, `GeneratorConfiguration` and `GeneratorData`.
- The provider's `download_tooling` is asynchronous, and `install`/`update` are abstract. Only the base class's NotImplementedError is modelled. The plugins' side effects are not part of this core.
- pydantic internals: the model returns the first failing field's error, not the aggregated ValidationError. Coercion is modelled only for `str` fields, which accept numbers and booleans as their `str()` text.
- `Path.home()`, `Path(str)` parsing, `Path.as_posix()` and the PEP 508 parser are foreign. They are function parameters (`Schema.Host`), because pathlib's parsing is platform-dependent.
- Paths follow POSIX rules. Windows drives and the normalisation of `..` are not modelled.
- The filesystem is only a set of existing directories. Files in the way of `mkdir`, permissions and races are not modelled.
- A plugin's name is used as a single path component when it scopes the install path.
- `extract_provider_data`, `extract_generator_data` and `DataPlugin` construction are imported by the tests, but they are absent from the source, so there is no code to model.
- The sync negotiation protocol and the clamping of verbosity are absent from the source.
- Logger handlers and log capture are not modelled.
- `Identity.PluginClass.GetLogger`: the cache is per class. A subclass that inherits a base class's `_logger` attribute is not modelled.
- `Identity.FullName`: the split uses ASCII letter classes and ASCII lower-casing, not Unicode's. The source shows no implementation of the split, so it is modelled from the test vectors and the documented boundary rule.
- `Schema.ParsePEP621With`: `validate_version` reads `values["dynamic"]`. When `dynamic` itself failed validation, that lookup raises a KeyError, which is not modelled. The model returns `dynamic`'s own validation error instead. Either way construction fails.
- `Schema.ParsePyProject`: the project table goes through the corrected version validator (`Schema.ParsePEP621`, see Findings). As written, `{"project": {"name": "x"}}` is accepted, and the model rejects it.
- `Resolution.GroupData`: no source file defines `ProviderData` or `VersionControlData`. `resolution.py` imports them from modules that lack them or do not exist. Only `GeneratorData` (cppython_core/plugin_schema/generator.py:14-15) and `ProviderConfiguration` (cppython_core/plugin_schema/provider.py:21) declare their root a `DirectoryPath`. For the provider and VCS group data, the requirement that the directory exists is assumed by analogy.
- Deep copies: values in Dafny are immutable. So the input to `Resolution.CppythonPlugin`, `Resolution.Pep621` and `Resolution.Cppython` is unchanged by construction, and no separate statement says so.

## Findings

| source | as written | input that shows it | evidently intended | confidence | as-written member | corrected member |
|---|---|---|---|---|---|---|
| cppython_core/schema.py:56-67 | the version validator is not declared `always=True`, so pydantic skips it when the table omits `version` | `{"name": "empty-test"}`: no version and no dynamic version, yet accepted | the PEP 621 rule applies whether or not `version` is given, as tests/unit/test_schema.py:91-92 expects | medium; not executed | `Schema.ParsePEP621AsWritten` (shown by `Schema.OmittedVersionAcceptedAsWritten`) | `Schema.ParsePEP621` (proved by `Schema.PEP621Exclusivity`) |
