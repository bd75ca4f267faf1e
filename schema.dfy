/** The input models of cppython_core/schema.py and their validators, as pydantic (version 1)
    applies them to a table of keys read from the manifest or passed as keyword arguments. */
module Schema {
  import opened Errors
  import opened Paths

  /** A value in a manifest table or a keyword argument. */
  datatype Value =
    | Null
    | Bool(b: bool)
    | Number(text: string)   // an int or a float, carrying the text Python's str() gives it
    | Str(s: string)
    | Array(items: seq<Value>)
    | Table(entries: map<string, Value>)

  type RawTable = map<string, Value>

  /** The foreign services the schema calls and that are not modelled: `Path.home()`,
      `Path(str)`, `Path.as_posix()` (platform-dependent) and packaging's `Requirement` parser. */
  datatype Host = Host(
    home: Path,
    toPath: string -> Path,
    asPosix: string -> string,
    parseRequirement: string -> Option<Requirement>)

  // ---------------------------------------------------------------------------------------------
  // Field population (CPPythonModel.Config)

  /** A declared field: its attribute name and the key it is read from (the name when no alias). */
  datatype FieldSpec = FieldSpec(name: string, alias: string)

  /** The value a field is populated from. Population by field name is switched off, so only the
      alias key is consulted; `None` means the field takes its default. */
  function Lookup(raw: RawTable, field: FieldSpec): Option<Value>
  {
    if field.alias in raw then Some(raw[field.alias]) else None
  }

  function Aliases(fields: seq<FieldSpec>): set<string>
  {
    set f | f in fields :: f.alias
  }

  /** A key under the field's attribute name alone leaves the field at its default. */
  lemma NameKeyIgnored(raw: RawTable, field: FieldSpec, v: Value)
    requires field.name != field.alias
    ensures Lookup(raw[field.name := v], field) == Lookup(raw, field)
  {
  }

  /** The alias key populates the field whatever the attribute-name key holds. */
  lemma AliasKeyWins(raw: RawTable, field: FieldSpec, v: Value)
    ensures Lookup(raw[field.alias := v], field) == Some(v)
  {
  }

  // ---------------------------------------------------------------------------------------------
  // Scalar and list coercions

  /** pydantic's `str` validator: strings pass, numbers and booleans become their str() text. */
  function AsStr(v: Value): (r: Result<string>)
    ensures v.Str? ==> r == Ok(v.s)
    ensures r.Ok? <==> v.Str? || v.Number? || v.Bool?
  {
    match v
    case Str(s) => Ok(s)
    case Number(t) => Ok(t)
    case Bool(b) => Ok(if b then "True" else "False")
    case _ => Err(ValueError("str type expected"))
  }

  /** `Optional[str]`: an explicit null is kept as `None`. */
  function AsOptStr(v: Value): (r: Result<Option<string>>)
    ensures v.Null? ==> r == Ok(None)
    ensures !v.Null? ==> (r.Ok? <==> AsStr(v).Ok?) && (r.Ok? ==> r.value == Some(AsStr(v).value))
  {
    if v.Null? then Ok(None) else var s :- AsStr(v); Ok(Some(s))
  }

  /** Applies an item validator to every element of a list, failing with the first error. */
  function AllOk<T>(items: seq<Value>, check: Value -> Result<T>): (r: Result<seq<T>>)
    ensures r.Ok? <==> forall i :: 0 <= i < |items| ==> check(items[i]).Ok?
    ensures r.Ok? ==> |r.value| == |items| && forall i :: 0 <= i < |items| ==> r.value[i] == check(items[i]).value
    ensures r.Err? ==> exists i :: 0 <= i < |items| && check(items[i]) == Err(r.error)
  {
    if |items| == 0 then Ok([])
    else
      var head :- check(items[0]);
      var tail :- AllOk(items[1..], check);
      assert forall i :: 1 <= i < |items| ==> items[i] == items[1..][i - 1];
      Ok([head] + tail)
  }

  /** `list[str]`. */
  function AsStrList(v: Value): (r: Result<seq<string>>)
    ensures r.Ok? ==> v.Array? && |r.value| == |v.items|
    ensures v.Array? && (forall i :: 0 <= i < |v.items| ==> v.items[i].Str?) ==>
              r.Ok? && forall i :: 0 <= i < |v.items| ==> r.value[i] == v.items[i].s
  {
    if v.Array? then AllOk(v.items, AsStr) else Err(ValueError("value is not a valid list"))
  }

  // ---------------------------------------------------------------------------------------------
  // PEP 621 project table

  datatype PEP621 = PEP621(dynamic: seq<string>, name: string, version: Option<string>, description: string)

  /** The PEP 621 rule for `version`: a literal version and a `"version"` entry in `dynamic`
      exclude each other, and one of the two is required. */
  predicate VersionExclusive(version: Option<string>, dynamic: seq<string>)
  {
    version.None? <==> "version" in dynamic
  }

  /** `PEP621.validate_version`: the value passes unchanged when it obeys the rule; a failed
      assertion surfaces as a validation error. */
  function ValidateVersion(version: Option<string>, dynamic: seq<string>): (r: Result<Option<string>>)
    ensures r.Ok? <==> VersionExclusive(version, dynamic)
    ensures r.Ok? ==> r.value == version
    ensures r.Err? ==> r.error.ValueError?
  {
    if "version" in dynamic then
      if version.None? then Ok(version) else Err(ValueError("version must be null when dynamic"))
    else
      if version.Some? then Ok(version) else Err(ValueError("version is required"))
  }

  /** Builds the PEP 621 model from a table. Fields are validated in declaration order; the
      version validator receives the already validated `dynamic`. pydantic runs a validator on a
      field the table omits only when the validator is declared `always=True`: `always` says
      whether it is. Unknown keys are ignored. */
  function ParsePEP621With(raw: RawTable, always: bool): (r: Result<PEP621>)
    ensures r.Ok? ==> "name" in raw && AsStr(raw["name"]) == Ok(r.value.name)
    ensures r.Ok? ==> if "dynamic" in raw then AsStrList(raw["dynamic"]) == Ok(r.value.dynamic) else r.value.dynamic == []
    ensures r.Ok? ==> if "version" in raw then AsOptStr(raw["version"]) == Ok(r.value.version) else r.value.version.None?
    ensures r.Ok? ==> if "description" in raw then AsStr(raw["description"]) == Ok(r.value.description) else r.value.description == ""
    ensures r.Ok? && ("version" in raw || always) ==> VersionExclusive(r.value.version, r.value.dynamic)
    ensures r.Ok? <==>
      && "name" in raw && AsStr(raw["name"]).Ok?
      && ("dynamic" in raw ==> AsStrList(raw["dynamic"]).Ok?)
      && ("version" in raw ==> AsOptStr(raw["version"]).Ok?)
      && ("description" in raw ==> AsStr(raw["description"]).Ok?)
      && (("version" in raw || always) ==>
            VersionExclusive(
              if "version" in raw then AsOptStr(raw["version"]).value else None,
              if "dynamic" in raw then AsStrList(raw["dynamic"]).value else []))
  {
    var dynamic :- if "dynamic" in raw then AsStrList(raw["dynamic"]) else Ok([]);
    var name :- if "name" in raw then AsStr(raw["name"]) else Err(ValueError("field required"));
    var version :-
      if "version" in raw then
        var given :- AsOptStr(raw["version"]);
        ValidateVersion(given, dynamic)
      else if always then ValidateVersion(None, dynamic)
      else Ok(None);
    var description :- if "description" in raw then AsStr(raw["description"]) else Ok("");
    Ok(PEP621(dynamic, name, version, description))
  }

  /** The validator as written: no `always=True`, so an omitted version is never checked. */
  function ParsePEP621AsWritten(raw: RawTable): Result<PEP621>
  {
    ParsePEP621With(raw, false)
  }

  /** The validator as intended (the PEP 621 rule applies whether or not the key is present). */
  function ParsePEP621(raw: RawTable): Result<PEP621>
  {
    ParsePEP621With(raw, true)
  }

  /** The version rule is both necessary and sufficient: a well-typed table is accepted exactly
      when its version and its dynamic list obey it. */
  lemma PEP621Exclusivity(raw: RawTable)
    requires "name" in raw && AsStr(raw["name"]).Ok?
    requires "dynamic" in raw ==> AsStrList(raw["dynamic"]).Ok?
    requires "version" in raw ==> AsOptStr(raw["version"]).Ok?
    requires "description" in raw ==> AsStr(raw["description"]).Ok?
    ensures ParsePEP621(raw).Ok? ==> VersionExclusive(ParsePEP621(raw).value.version, ParsePEP621(raw).value.dynamic)
    ensures ParsePEP621(raw).Ok? <==>
      VersionExclusive(
        if "version" in raw then AsOptStr(raw["version"]).value else None,
        if "dynamic" in raw then AsStrList(raw["dynamic"]).value else [])
  {
  }

  /** The two cases the project's tests reject: a table with neither a version nor a dynamic
      version is accepted as written and rejected as intended; a table with both is rejected. */
  lemma OmittedVersionAcceptedAsWritten()
    ensures ParsePEP621AsWritten(map["name" := Str("empty-test")]) == Ok(PEP621([], "empty-test", None, ""))
    ensures ParsePEP621(map["name" := Str("empty-test")]).Err?
    ensures ParsePEP621AsWritten(map["name" := Str("both-test"), "version" := Str("1.0.0"),
                                     "dynamic" := Array([Str("version")])]).Err?
  {
  }

  // ---------------------------------------------------------------------------------------------
  // Preset validators

  /** `Optional[list[str] | str]`. */
  datatype Inherits = Single(name: string) | Several(names: seq<string>)

  /** The names an `inherits` value refers to, in order. */
  function InheritedNames(i: Inherits): seq<string>
  {
    match i
    case Single(n) => [n]
    case Several(ns) => ns
  }

  /** `Preset.validate_str`: a single name becomes a one-element list; a list or null is kept. */
  function ValidateInherits(v: Option<Inherits>): (r: Option<Inherits>)
    ensures r.None? <==> v.None?
    ensures r.Some? ==> r.value.Several? && r.value.names == InheritedNames(v.value)
    ensures v.Some? && v.value.Several? ==> r == v
  {
    match v
    case Some(Single(n)) => Some(Several([n]))
    case _ => v
  }

  /** Normalising `inherits` twice is normalising it once. */
  lemma InheritsIdempotent(v: Option<Inherits>)
    ensures ValidateInherits(ValidateInherits(v)) == ValidateInherits(v)
  {
  }

  /** `ConfigurePreset.validate_path`: null stays null, a string is replaced by its POSIX form. */
  function ValidateToolchainFile(v: Option<string>, asPosix: string -> string): (r: Option<string>)
    ensures r.None? <==> v.None?
    ensures r.Some? ==> r.value == asPosix(v.value)
  {
    if v.Some? then Some(asPosix(v.value)) else None
  }

  /** Validating an already validated toolchain path again changes nothing, provided the POSIX form
      of a POSIX form is itself. */
  lemma ToolchainFileIdempotent(v: Option<string>, asPosix: string -> string)
    requires forall s :: asPosix(asPosix(s)) == asPosix(s)
    ensures ValidateToolchainFile(ValidateToolchainFile(v, asPosix), asPosix) == ValidateToolchainFile(v, asPosix)
  {
  }

  // ---------------------------------------------------------------------------------------------
  // PEP 508 requirements

  /** A parsed requirement; its structure belongs to the foreign parser. */
  datatype Requirement = Requirement(name: string, specifier: string)

  /** `PEP508.validate`: anything but a string is a type error, a string the parser rejects is a
      value error, and otherwise the parsed requirement is the result. */
  function ValidateRequirement(v: Value, parse: string -> Option<Requirement>): (r: Result<Requirement>)
    ensures !v.Str? ==> r == Err(TypeError("string required"))
    ensures v.Str? && parse(v.s).None? ==> r.Err? && r.error.ValueError?
    ensures v.Str? && parse(v.s).Some? ==> r == Ok(parse(v.s).value)
  {
    if !v.Str? then Err(TypeError("string required"))
    else match parse(v.s)
      case None => Err(ValueError("invalid requirement"))
      case Some(req) => Ok(req)
  }

  // ---------------------------------------------------------------------------------------------
  // CPPythonData

  datatype Target = Exe | Static | Shared

  /** The enumeration's values as written in the manifest. */
  function TargetValue(t: Target): string
  {
    match t
    case Exe => "executable"
    case Static => "static"
    case Shared => "shared"
  }

  /** An enumeration field is looked up by value. */
  function ParseTarget(v: Value): (r: Result<Target>)
    ensures r.Ok? <==> v.Str? && exists t :: TargetValue(t) == v.s
    ensures r.Ok? ==> TargetValue(r.value) == v.s
  {
    if v == Str(TargetValue(Exe)) then Ok(Exe)
    else if v == Str(TargetValue(Static)) then Ok(Static)
    else if v == Str(TargetValue(Shared)) then Ok(Shared)
    else Err(ValueError("value is not a valid enumeration member"))
  }

  /** Every target reads back as itself. */
  lemma TargetRoundTrip(t: Target)
    ensures ParseTarget(Str(TargetValue(t))) == Ok(t)
  {
  }

  /** A `Path` field: built from a string by the host's path constructor. */
  function ParsePath(v: Value, toPath: string -> Path): (r: Result<Path>)
    ensures r.Ok? <==> v.Str?
    ensures r.Ok? ==> r.value == toPath(v.s)
  {
    if v.Str? then Ok(toPath(v.s)) else Err(ValueError("value is not a valid path"))
  }

  /** pydantic catches the `TypeError` or `ValueError` a field's validator raises and reports it
      as a `ValidationError`, which is a `ValueError`. */
  function AsValidationError<T>(r: Result<T>): (q: Result<T>)
    ensures q.Ok? <==> r.Ok?
    ensures r.Ok? ==> q == r
    ensures q.Err? ==> q.error.ValueError? && Display(q.error) == Display(r.error)
  {
    match r
    case Ok(_) => r
    case Err(e) => Err(ValueError(Display(e)))
  }

  /** `list[PEP508]`: every entry must be a requirement string the parser accepts. An entry the
      validator refuses, a non-string included, fails the field with a validation error. */
  function ParseDependencies(v: Value, parse: string -> Option<Requirement>): (r: Result<seq<Requirement>>)
    ensures r.Ok? <==> v.Array? && forall i :: 0 <= i < |v.items| ==> v.items[i].Str? && parse(v.items[i].s).Some?
    ensures r.Ok? ==> |r.value| == |v.items| && forall i :: 0 <= i < |v.items| ==> r.value[i] == parse(v.items[i].s).value
    ensures r.Err? ==> r.error.ValueError?
  {
    if v.Array? then AllOk(v.items, (item: Value) => AsValidationError(ValidateRequirement(item, parse)))
    else Err(ValueError("value is not a valid list"))
  }

  datatype CPPythonData = CPPythonData(
    target: Target,
    dependencies: seq<Requirement>,
    installPath: Path,
    toolPath: Path,
    buildPath: Path)

  const TargetField := FieldSpec("target", "target")
  const DependenciesField := FieldSpec("dependencies", "dependencies")
  const InstallPathField := FieldSpec("install_path", "install-path")
  const ToolPathField := FieldSpec("tool_path", "tool-path")
  const BuildPathField := FieldSpec("build_path", "build-path")
  const CPPythonDataFields := [TargetField, DependenciesField, InstallPathField, ToolPathField, BuildPathField]

  /** `Path.home() / ".cppython"`. */
  function DefaultInstallPath(home: Path): Path
  {
    Join(home, Child(".cppython"))
  }

  /** A field read through its alias, or its default when the alias key is absent. */
  function FieldOr<T>(raw: RawTable, field: FieldSpec, default: T, parse: Value -> Result<T>): (r: Result<T>)
    ensures field.alias !in raw ==> r == Ok(default)
    ensures field.alias in raw ==> r == parse(raw[field.alias])
  {
    match Lookup(raw, field)
    case None => Ok(default)
    case Some(v) => parse(v)
  }

  /** `CPPythonData(**raw)`: fields are read from their alias keys only, missing ones take their
      defaults, and any other key is rejected (`Extra.forbid`). */
  function ParseCPPythonData(raw: RawTable, host: Host): (r: Result<CPPythonData>)
    ensures r.Ok? <==>
      && raw.Keys <= Aliases(CPPythonDataFields)
      && FieldOr(raw, TargetField, Exe, ParseTarget).Ok?
      && FieldOr(raw, DependenciesField, [], v => ParseDependencies(v, host.parseRequirement)).Ok?
      && FieldOr(raw, InstallPathField, DefaultInstallPath(host.home), v => ParsePath(v, host.toPath)).Ok?
      && FieldOr(raw, ToolPathField, Child("tool"), v => ParsePath(v, host.toPath)).Ok?
      && FieldOr(raw, BuildPathField, Child("build"), v => ParsePath(v, host.toPath)).Ok?
    ensures r.Err? ==> r.error.ValueError?
    ensures r.Ok? ==> FieldOr(raw, TargetField, Exe, ParseTarget) == Ok(r.value.target)
    ensures r.Ok? ==> FieldOr(raw, DependenciesField, [], v => ParseDependencies(v, host.parseRequirement)) == Ok(r.value.dependencies)
    ensures r.Ok? ==> FieldOr(raw, InstallPathField, DefaultInstallPath(host.home), v => ParsePath(v, host.toPath)) == Ok(r.value.installPath)
    ensures r.Ok? ==> FieldOr(raw, ToolPathField, Child("tool"), v => ParsePath(v, host.toPath)) == Ok(r.value.toolPath)
    ensures r.Ok? ==> FieldOr(raw, BuildPathField, Child("build"), v => ParsePath(v, host.toPath)) == Ok(r.value.buildPath)
  {
    var target :- FieldOr(raw, TargetField, Exe, ParseTarget);
    var dependencies :- FieldOr(raw, DependenciesField, [], v => ParseDependencies(v, host.parseRequirement));
    var installPath :- FieldOr(raw, InstallPathField, DefaultInstallPath(host.home), v => ParsePath(v, host.toPath));
    var toolPath :- FieldOr(raw, ToolPathField, Child("tool"), v => ParsePath(v, host.toPath));
    var buildPath :- FieldOr(raw, BuildPathField, Child("build"), v => ParsePath(v, host.toPath));
    if !(raw.Keys <= Aliases(CPPythonDataFields)) then Err(ValueError("extra fields not permitted"))
    else Ok(CPPythonData(target, dependencies, installPath, toolPath, buildPath))
  }

  /** An empty table gives the defaults: an executable target, no dependencies, the install path
      under the user's home, and the project-relative `tool` and `build` paths. */
  lemma CPPythonDataDefaults(host: Host)
    ensures ParseCPPythonData(map[], host) ==
      Ok(CPPythonData(Exe, [], Join(host.home, Path(false, [".cppython"])), Path(false, ["tool"]), Path(false, ["build"])))
  {
  }

  /** A dependency that is not a string fails the table with a validation error: pydantic turns the
      `TypeError` raised by `PEP508.validate` into a `ValueError`. */
  lemma NonStringDependencyRejected(host: Host)
    ensures ParseCPPythonData(map["dependencies" := Array([Number("1")])], host) == Err(ValueError("string required"))
    ensures ValidateRequirement(Number("1"), host.parseRequirement) == Err(TypeError("string required"))
  {
  }

  /** Any key that is not a field's alias is rejected. */
  lemma UnknownKeyRejected(raw: RawTable, host: Host, key: string)
    requires key in raw && key !in {"target", "dependencies", "install-path", "tool-path", "build-path"}
    ensures ParseCPPythonData(raw, host).Err?
  {
  }

  /** Example: an install path given under its alias `install-path` is taken, with every other field
      defaulted; the same value under the attribute name `install_path` is an unknown key. */
  lemma InstallPathFromAlias(host: Host, s: string)
    ensures ParseCPPythonData(map["install-path" := Str(s)], host) ==
      Ok(CPPythonData(Exe, [], host.toPath(s), Child("tool"), Child("build")))
    ensures ParseCPPythonData(map["install_path" := Str(s)], host) == Err(ValueError("extra fields not permitted"))
  {
    var raw := map["install_path" := Str(s)];
    assert Aliases(CPPythonDataFields) == {"target", "dependencies", "install-path", "tool-path", "build-path"};
    assert "install_path" in raw.Keys - Aliases(CPPythonDataFields);
    assert FieldOr(raw, InstallPathField, DefaultInstallPath(host.home), v => ParsePath(v, host.toPath)).Ok?;
  }

  // ---------------------------------------------------------------------------------------------
  // The manifest: [project] and [tool]

  /** `tool.cppython` when present and not null (the field is `Optional`, defaulting to `None`);
      other tools' tables are ignored. */
  function ParseToolData(v: Value, host: Host): (r: Result<Option<CPPythonData>>)
    ensures r.Ok? <==>
      && v.Table?
      && ("cppython" in v.entries && !v.entries["cppython"].Null? ==>
            v.entries["cppython"].Table? && ParseCPPythonData(v.entries["cppython"].entries, host).Ok?)
    ensures r.Err? ==> r.error.ValueError?
    ensures r.Ok? ==> (r.value.Some? <==> "cppython" in v.entries && !v.entries["cppython"].Null?)
    ensures r.Ok? && r.value.Some? ==>
      v.entries["cppython"].Table? && ParseCPPythonData(v.entries["cppython"].entries, host) == Ok(r.value.value)
  {
    if !v.Table? then Err(ValueError("value is not a valid dict"))
    else if "cppython" !in v.entries || v.entries["cppython"].Null? then Ok(None)
    else
      var inner := v.entries["cppython"];
      if !inner.Table? then Err(ValueError("value is not a valid dict"))
      else var data :- ParseCPPythonData(inner.entries, host); Ok(Some(data))
  }

  datatype PyProject = PyProject(project: PEP621, tool: Option<Option<CPPythonData>>)

  /** `PyProject(**document)`: the project table is required; the tool table is optional, and an
      explicit null stands for its absence. */
  function ParsePyProject(document: RawTable, host: Host): (r: Result<PyProject>)
    ensures r.Ok? <==>
      && "project" in document && document["project"].Table?
      && ParsePEP621(document["project"].entries).Ok?
      && ("tool" in document && !document["tool"].Null? ==> ParseToolData(document["tool"], host).Ok?)
    ensures r.Ok? ==> Ok(r.value.project) == ParsePEP621(document["project"].entries)
    ensures r.Ok? ==> (r.value.tool.Some? <==> "tool" in document && !document["tool"].Null?)
    ensures r.Ok? && r.value.tool.Some? ==> ParseToolData(document["tool"], host) == Ok(r.value.tool.value)
  {
    if "project" !in document || !document["project"].Table? then Err(ValueError("field required"))
    else
      var project :- ParsePEP621(document["project"].entries);
      if "tool" !in document || document["tool"].Null? then Ok(PyProject(project, None))
      else var tool :- ParseToolData(document["tool"], host); Ok(PyProject(project, Some(tool)))
  }

  /** An empty `[tool.cppython]` table yields a defaulted tool configuration; a manifest with only
      another tool's table yields none. */
  lemma CPPythonTableVectors(host: Host)
    ensures
      var project := Table(map["name" := Str("test"), "version" := Str("1.0.0"), "description" := Str("A test document")]);
      && ParsePyProject(map["project" := project, "tool" := Table(map["cppython" := Table(map[])])], host)
           .value.tool == Some(Some(CPPythonData(Exe, [], DefaultInstallPath(host.home), Child("tool"), Child("build"))))
      && ParsePyProject(map["project" := project, "tool" := Table(map["test" := Table(map[])])], host)
           .value.tool == Some(None)
  {
  }

  // ---------------------------------------------------------------------------------------------
  // Project information passed to the resolution

  /** Host-supplied project facts: the manifest's path and an externally supplied version. */
  datatype ProjectData = ProjectData(pyprojectFile: Path, version: Option<string>)

  /** The host's input form of the project facts. */
  datatype ProjectConfiguration = ProjectConfiguration(
    pyprojectFile: Path,
    version: Option<string>,
    verbosity: int,
    debug: bool)
}
