/** Plugin identity: the group a plugin belongs to, its logger, and the canonical `name.group`
    derived from a plugin type's "NameGroup" identifier. */
module Identity {
  import opened Errors

  /** The plugin groups, as the `group()` constants of the plugin base classes name them. */
  datatype Group = Interface | Generator | Provider

  function GroupName(g: Group): string
  {
    match g
    case Interface => "interface"
    case Generator => "generator"
    case Provider => "provider"
  }

  /** The groups have distinct names. */
  lemma GroupNamesDistinct(g: Group, h: Group)
    requires GroupName(g) == GroupName(h)
    ensures g == h
  {
  }

  // ---------------------------------------------------------------------------------------------
  // Loggers

  const LoggerRoot := "cppython."

  /** The name of a plugin's logger: `cppython.<group>.<name>`. */
  function LoggerName(g: Group, name: string): string
  {
    LoggerRoot + GroupName(g) + "." + name
  }

  /** The logger name determines the plugin: two plugins with different groups or names never
      share a logger. */
  lemma LoggerNamesDistinct(g1: Group, n1: string, g2: Group, n2: string)
    requires LoggerName(g1, n1) == LoggerName(g2, n2)
    ensures g1 == g2 && n1 == n2
  {
    var s := LoggerName(g1, n1);
    assert s[|LoggerRoot|] == GroupName(g1)[0];
    assert s[|LoggerRoot|] == GroupName(g2)[0];
    assert GroupName(g1)[0] == GroupName(g2)[0];
    GroupNamesDistinct(g1, g2);
    var k := |LoggerRoot + GroupName(g1) + "."|;
    assert n1 == s[k..];
    assert n2 == LoggerName(g2, n2)[k..];
  }

  datatype Logger = Logger(name: string)

  /** A plugin class as far as its logger is concerned: the class attribute `_logger` is absent
      until the `logger` property is first read. */
  class PluginClass {
    const group: Group
    const name: string
    var cachedLogger: Option<Logger>

    ghost predicate Valid()
      reads this
    {
      cachedLogger.Some? ==> cachedLogger.value == Logger(LoggerName(group, name))
    }

    constructor (group: Group, name: string)
      ensures Valid()
      ensures this.group == group && this.name == name && cachedLogger.None?
    {
      this.group := group;
      this.name := name;
      cachedLogger := None;
    }

    /** `Plugin.logger`: created on first access and cached; later accesses return the cached one. */
    method GetLogger() returns (logger: Logger)
      requires Valid()
      modifies this
      ensures Valid()
      ensures logger == Logger(LoggerName(group, name))
      ensures cachedLogger == Some(logger)
      ensures old(cachedLogger).Some? ==> logger == old(cachedLogger).value && cachedLogger == old(cachedLogger)
    {
      if cachedLogger.None? {
        cachedLogger := Some(Logger(LoggerName(group, name)));
      }
      logger := cachedLogger.value;
    }
  }

  // ---------------------------------------------------------------------------------------------
  // "NameGroup" identifiers

  predicate IsUpper(c: char) { 'A' <= c <= 'Z' }

  predicate IsLower(c: char) { 'a' <= c <= 'z' }

  function LowerChar(c: char): char
  {
    if IsUpper(c) then (c as int + 32) as char else c
  }

  /** Lower-cases ASCII letters and keeps every other character. */
  function ToLower(s: string): (r: string)
    ensures |r| == |s|
    ensures forall i :: 0 <= i < |s| ==> r[i] == LowerChar(s[i])
  {
    if |s| == 0 then "" else [LowerChar(s[0])] + ToLower(s[1..])
  }

  /** A word starts at `i`: a lower-case letter followed by an upper-case one, or the last capital
      of a run of capitals when a lower-case letter follows it ("YA|Acronym"). */
  predicate IsBoundary(s: string, i: int)
  {
    && 0 < i < |s|
    && ((IsLower(s[i - 1]) && IsUpper(s[i]))
        || (IsUpper(s[i - 1]) && IsUpper(s[i]) && i + 1 < |s| && IsLower(s[i + 1])))
  }

  /** The first word boundary at or after `from`. */
  function FirstBoundary(s: string, from: nat): (r: Option<nat>)
    ensures r.Some? ==> from <= r.value && IsBoundary(s, r.value)
    ensures r.Some? ==> forall j :: from <= j < r.value ==> !IsBoundary(s, j)
    ensures r.None? ==> forall j :: from <= j ==> !IsBoundary(s, j)
    decreases |s| - from
  {
    if from >= |s| then None
    else if IsBoundary(s, from) then Some(from)
    else FirstBoundary(s, from + 1)
  }

  /** `k` is the only word boundary of `s`: the identifier is exactly two words. */
  ghost predicate IsSoleBoundary(s: string, k: int)
  {
    IsBoundary(s, k) && forall j :: IsBoundary(s, j) ==> j == k
  }

  /** The canonical `name.group` of a plugin type named "NameGroup": both words lower-cased and
      joined by a dot. An identifier that is not exactly two words is rejected. */
  function FullName(s: string): (r: Result<string>)
    ensures r.Ok? <==> exists k :: IsSoleBoundary(s, k)
    ensures forall k :: IsSoleBoundary(s, k) ==> r == Ok(ToLower(s[..k]) + "." + ToLower(s[k..]))
    ensures r.Err? ==> r.error.ValueError?
  {
    match FirstBoundary(s, 0)
    case None => Err(ValueError("the plugin type name must be in the 'NameGroup' format"))
    case Some(k) =>
      if FirstBoundary(s, k + 1).Some? then Err(ValueError("the plugin type name must be in the 'NameGroup' format"))
      else
        assert IsSoleBoundary(s, k);
        Ok(ToLower(s[..k]) + "." + ToLower(s[k..]))
  }

  /** The full name of an identifier whose first boundary is `k` and that has no later one. */
  lemma FullNameAt(s: string, k: nat)
    requires FirstBoundary(s, 0) == Some(k) && FirstBoundary(s, k + 1).None?
    ensures FullName(s) == Ok(ToLower(s[..k]) + "." + ToLower(s[k..]))
  {
  }

  // The identifiers the project's tests name. Boundaries and lower-casing are evaluated in
  // separate small lemmas so that the solver works on one literal at a time.

  lemma BoundariesBasicPlugin()
    ensures FirstBoundary("BasicPlugin", 0) == Some(5) && FirstBoundary("BasicPlugin", 6) == None
  {
  }

  lemma FullNameBasicPlugin()
    ensures FullName("BasicPlugin") == Ok("basic.plugin")
  {
    BoundariesBasicPlugin();
    FullNameAt("BasicPlugin", 5);
    assert "BasicPlugin"[..5] == "Basic" && "BasicPlugin"[5..] == "Plugin";
    LowerBasic();
    LowerPlugin();
    assert "basic" + "." + "plugin" == "basic.plugin";
  }

  lemma BoundariesAcronymYA()
    ensures FirstBoundary("AcronymYA", 0) == Some(7) && FirstBoundary("AcronymYA", 8) == None
  {
  }

  lemma FullNameAcronymYA()
    ensures FullName("AcronymYA") == Ok("acronym.ya")
  {
    BoundariesAcronymYA();
    FullNameAt("AcronymYA", 7);
    assert "AcronymYA"[..7] == "Acronym" && "AcronymYA"[7..] == "YA";
    LowerAcronym();
    LowerYA();
    assert "acronym" + "." + "ya" == "acronym.ya";
  }

  lemma BoundariesYAAcronym()
    ensures FirstBoundary("YAAcronym", 0) == Some(2) && FirstBoundary("YAAcronym", 3) == None
  {
  }

  lemma FullNameYAAcronym()
    ensures FullName("YAAcronym") == Ok("ya.acronym")
  {
    BoundariesYAAcronym();
    FullNameAt("YAAcronym", 2);
    assert "YAAcronym"[..2] == "YA" && "YAAcronym"[2..] == "Acronym";
    LowerYA();
    LowerAcronym();
    assert "ya" + "." + "acronym" == "ya.acronym";
  }

  lemma LowerBasic()
    ensures ToLower("Basic") == "basic"
  {
  }

  lemma LowerPlugin()
    ensures ToLower("Plugin") == "plugin"
  {
  }

  lemma LowerAcronym()
    ensures ToLower("Acronym") == "acronym"
  {
  }

  lemma LowerYA()
    ensures ToLower("YA") == "ya"
  {
  }

  lemma BoundariesBroken()
    ensures FirstBoundary("Broken", 0) == None
  {
  }

  lemma BoundariesAllCaps()
    ensures FirstBoundary("BROKEN", 0) == None
  {
  }

  lemma FullNameSingleWord()
    ensures FullName("Broken").Err?
    ensures FullName("BROKEN").Err?
  {
    BoundariesBroken();
    BoundariesAllCaps();
  }
}
