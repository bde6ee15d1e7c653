/**
 * `ModulesViewModel`: the page listing the assemblies loaded in the host
 * process, numbered in load order, with a search over their name, path and version.
 */
module ModulesViewModel {
  import opened Wrappers
  import Text
  import Sequences

  /** What the page reads of a loaded assembly; a missing name or version is None. */
  datatype Assembly = Assembly(assemblyName: Option<string>, version: Option<string>, isDynamic: bool, location: string)

  /** `ModuleInfo`. */
  datatype ModuleInfo = ModuleInfo(name: string, path: string, order: nat, version: string, container: string)

  /** The module shown for the assembly loaded at position `index`: numbered from 1, with null texts as "". */
  function ModuleOf(assembly: Assembly, index: nat, domainName: string): ModuleInfo
  {
    ModuleInfo(
      name := if assembly.assemblyName.Some? then assembly.assemblyName.value else "",
      path := if assembly.isDynamic then "" else assembly.location,
      order := index + 1,
      version := if assembly.version.Some? then assembly.version.value else "",
      container := domainName)
  }

  /**
   * The constructor's loop: one module per assembly, numbered from 1 in load
   * order. On .NET Framework hosts the container is the application domain's name.
   */
  method CollectModules(assemblies: seq<Assembly>, domainName: string) returns (modules: seq<ModuleInfo>)
    ensures |modules| == |assemblies|
    ensures forall k | 0 <= k < |modules| :: modules[k] == ModuleOf(assemblies[k], k, domainName)
    ensures forall k | 0 <= k < |modules| ::
      modules[k].order == k + 1
      && modules[k].name == (if assemblies[k].assemblyName.Some? then assemblies[k].assemblyName.value else "")
      && modules[k].path == (if assemblies[k].isDynamic then "" else assemblies[k].location)
      && modules[k].version == (if assemblies[k].version.Some? then assemblies[k].version.value else "")
      && modules[k].container == domainName
  {
    modules := [];
    for i := 0 to |assemblies|
      invariant |modules| == i
      invariant forall k | 0 <= k < i :: modules[k] == ModuleOf(assemblies[k], k, domainName)
    {
      var assembly := assemblies[i];
      var entry := ModuleInfo(
        name := if assembly.assemblyName.Some? then assembly.assemblyName.value else "",
        path := if assembly.isDynamic then "" else assembly.location,
        order := i + 1,
        version := if assembly.version.Some? then assembly.version.value else "",
        container := domainName);
      modules := modules + [entry];
    }
  }

  /** A module is found when its name, path or version contains the text, ignoring case. */
  function Matches(text: string): ModuleInfo -> bool
  {
    (entry: ModuleInfo) => Text.ContainsIgnoreCase(entry.name, text) || Text.ContainsIgnoreCase(entry.path, text)
      || Text.ContainsIgnoreCase(entry.version, text)
  }

  /** The search loop: every module that matches, in list order. */
  method Search(modules: seq<ModuleInfo>, text: string) returns (results: seq<ModuleInfo>)
    ensures results == Sequences.Filter(modules, Matches(text))
  {
    results := [];
    for i := 0 to |modules|
      invariant results == Sequences.Filter(modules[..i], Matches(text))
    {
      Sequences.FilterPrefix(modules, i, Matches(text));
      var entry := modules[i];
      if Text.ContainsIgnoreCase(entry.name, text) || Text.ContainsIgnoreCase(entry.path, text)
        || Text.ContainsIgnoreCase(entry.version, text) {
        results := results + [entry];
      }
    }
    assert modules[..|modules|] == modules;
  }

  /** A module is in the result exactly when it is in the list and matches, and the result keeps the list's order. */
  lemma SearchExact(modules: seq<ModuleInfo>, text: string, entry: ModuleInfo)
    ensures entry in Sequences.Filter(modules, Matches(text)) <==>
      entry in modules && (Text.ContainsIgnoreCase(entry.name, text) || Text.ContainsIgnoreCase(entry.path, text)
        || Text.ContainsIgnoreCase(entry.version, text))
    ensures Sequences.IsSubsequence(Sequences.Filter(modules, Matches(text)), modules)
  {
    Sequences.FilterMembership(modules, Matches(text), entry);
    Sequences.FilterIsSubsequence(modules, Matches(text));
  }

  class ModulesPage {
    var searchText: string
    var modules: seq<ModuleInfo>
    var filteredModules: seq<ModuleInfo>

    /** The constructor: lists the process's assemblies; assigning `Modules` also fills the filtered list. */
    constructor (assemblies: seq<Assembly>, domainName: string)
      ensures searchText == ""
      ensures |modules| == |assemblies| && filteredModules == modules
      ensures forall k | 0 <= k < |modules| :: modules[k] == ModuleOf(assemblies[k], k, domainName)
      ensures forall k | 0 <= k < |modules| :: modules[k].order == k + 1
    {
      searchText := "";
      var collected := CollectModules(assemblies, domainName);
      modules := collected;
      filteredModules := collected;
    }

    /** The `Modules` setter; `OnModulesChanged` shows the whole new list. */
    method SetModules(value: seq<ModuleInfo>)
      modifies this`modules, this`filteredModules
      ensures modules == value && filteredModules == value
    {
      modules := value;
      filteredModules := value;
    }

    /** The `SearchText` setter and `OnSearchTextChanged`. */
    method SetSearchText(value: string)
      modifies this`searchText, this`filteredModules
      ensures searchText == value
      ensures old(searchText) == value ==> filteredModules == old(filteredModules)
      ensures old(searchText) != value && value == "" ==> filteredModules == modules
      ensures old(searchText) != value && value != "" ==> filteredModules == Sequences.Filter(modules, Matches(Text.Trim(value)))
    {
      if searchText != value {
        searchText := value;
        if searchText == "" {
          filteredModules := modules;
        } else {
          filteredModules := Search(modules, Text.Trim(value));
        }
      }
    }
  }
}
