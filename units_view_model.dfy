/**
 * `UnitsViewModel`: the units browser page. It holds the collected units, the
 * subset the search text selects, and decides what a click on an entry decomposes.
 */
module UnitsViewModel {
  import opened Wrappers
  import opened Host
  import Text
  import Sequences
  import UnitsCollector
  import NotificationService

  type UnitInfo = UnitsCollector.UnitInfo

  /** A unit is found when its label or its identifier contains the text, ignoring case. */
  function Matches(text: string): UnitInfo -> bool
  {
    (unit: UnitInfo) => Text.ContainsIgnoreCase(unit.labelText, text) || Text.ContainsIgnoreCase(unit.unit, text)
  }

  /** The search loop run off the UI thread: every unit that matches the text, in list order. */
  method Search(units: seq<UnitInfo>, text: string) returns (results: seq<UnitInfo>)
    ensures results == Sequences.Filter(units, Matches(text))
  {
    results := [];
    for i := 0 to |units|
      invariant results == Sequences.Filter(units[..i], Matches(text))
    {
      Sequences.FilterPrefix(units, i, Matches(text));
      if Text.ContainsIgnoreCase(units[i].labelText, text) || Text.ContainsIgnoreCase(units[i].unit, text) {
        results := results + [units[i]];
      }
    }
    assert units[..|units|] == units;
  }

  /** A unit is in the result exactly when it is in the list and matches, and the result keeps the list's order. */
  lemma SearchExact(units: seq<UnitInfo>, text: string, unit: UnitInfo)
    ensures unit in Sequences.Filter(units, Matches(text)) <==>
      unit in units && (Text.ContainsIgnoreCase(unit.labelText, text) || Text.ContainsIgnoreCase(unit.unit, text))
    ensures Sequences.IsSubsequence(Sequences.Filter(units, Matches(text)), units)
  {
    Sequences.FilterMembership(units, Matches(text), unit);
    Sequences.FilterIsSubsequence(units, Matches(text));
  }

  /** White space alone is not an empty search: it trims to "", which every unit contains, so every unit is kept. */
  lemma WhiteSpaceKeepsAll(units: seq<UnitInfo>, text: string)
    requires Text.IsEmptyOrWhiteSpace(text)
    ensures Sequences.Filter(units, Matches(Text.Trim(text))) == units
  {
    Text.TrimEmptyIff(text);
    forall k | 0 <= k < |units|
      ensures Matches(Text.Trim(text))(units[k])
    {
      Text.ContainsEmpty(units[k].labelText);
    }
    Sequences.FilterAll(units, Matches(Text.Trim(text)));
  }

  /** What a click on an entry leads to. */
  datatype Decomposition =
    | Warned(bar: NotificationService.Snackbar)
    | BuiltinParameter(parameter: EnumMember)
    | BuiltinCategory(category: EnumMember)
    | AsIs(value: UnitsCollector.UnitValue)

  /** The warning `ValidateContext` shows when no document is open. */
  const NoDocument: NotificationService.Snackbar :=
    NotificationService.WarningBar("Invalid context", "To analyse members, an open document is required")

  /**
   * `DecomposeAsync`: a built-in parameter or category needs an open document
   * (otherwise a warning and nothing decomposed) and is fetched from the host;
   * any other value is decomposed as it is.
   */
  function Decompose(unit: UnitInfo, documentOpen: bool): (r: Decomposition)
    ensures r.Warned? <==> !documentOpen && !unit.value.ClassNameValue?
    ensures r.Warned? ==> r.bar == NoDocument && r.bar.appearance == NotificationService.Caution
    ensures documentOpen && unit.value.BuiltInParameterValue? ==> r == BuiltinParameter(unit.value.parameter)
    ensures documentOpen && unit.value.BuiltInCategoryValue? ==> r == BuiltinCategory(unit.value.category)
    ensures unit.value.ClassNameValue? ==> r == AsIs(unit.value)
  {
    match unit.value
    case BuiltInParameterValue(parameter) => if !documentOpen then Warned(NoDocument) else BuiltinParameter(parameter)
    case BuiltInCategoryValue(category) => if !documentOpen then Warned(NoDocument) else BuiltinCategory(category)
    case ClassNameValue(_) => AsIs(unit.value)
  }

  class UnitsPage {
    var units: seq<UnitInfo>
    var filteredUnits: seq<UnitInfo>
    var searchText: string

    constructor ()
      ensures units == [] && filteredUnits == [] && searchText == ""
    {
      units := [];
      filteredUnits := [];
      searchText := "";
    }

    /** The `Units` setter; `OnUnitsChanged` shows the whole new list. */
    method SetUnits(value: seq<UnitInfo>)
      modifies this`units, this`filteredUnits
      ensures units == value && filteredUnits == value
    {
      units := value;
      filteredUnits := value;
    }

    /** `InitializeParameters`. */
    method InitializeParameters(parameters: seq<EnumMember>, toLabel: EnumMember -> Result<string, Exception>)
      modifies this`units, this`filteredUnits
      ensures units == filteredUnits == UnitsCollector.EnumEntries(parameters, toLabel, UnitsCollector.AsParameter)
    {
      var collected := UnitsCollector.GetBuiltinParametersInfo(parameters, toLabel);
      SetUnits(collected);
    }

    /** `InitializeCategories`. */
    method InitializeCategories(categories: seq<EnumMember>, toLabel: EnumMember -> Result<string, Exception>)
      modifies this`units, this`filteredUnits
      ensures units == filteredUnits == UnitsCollector.EnumEntries(categories, toLabel, UnitsCollector.AsCategory)
    {
      var collected := UnitsCollector.GetBuiltinCategoriesInfo(categories, toLabel);
      SetUnits(collected);
    }

    /** `InitializeForgeSchema`. */
    method InitializeForgeSchema(propertiesOf: string -> seq<UnitsCollector.PropertyInfo>, toLabel: (UnitsCollector.LabelKind, string) -> Result<string, Exception>)
      modifies this`units, this`filteredUnits
      ensures units == filteredUnits == UnitsCollector.GetForgeInfo(propertiesOf, toLabel)
    {
      SetUnits(UnitsCollector.GetForgeInfo(propertiesOf, toLabel));
    }

    /**
     * The `SearchText` setter and `OnSearchTextChanged`: an empty text shows every
     * unit; any other text shows the units matching it once trimmed.
     */
    method SetSearchText(value: string)
      modifies this`searchText, this`filteredUnits
      ensures searchText == value
      ensures old(searchText) == value ==> filteredUnits == old(filteredUnits)
      ensures old(searchText) != value && value == "" ==> filteredUnits == units
      ensures old(searchText) != value && value != "" ==> filteredUnits == Sequences.Filter(units, Matches(Text.Trim(value)))
    {
      if searchText != value {
        searchText := value;
        if searchText == "" {
          filteredUnits := units;
        } else {
          filteredUnits := Search(units, Text.Trim(value));
        }
      }
    }
  }
}
