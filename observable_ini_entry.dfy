/**
 * `ObservableIniEntry`: one editable line of the host's INI settings, with its
 * section (`Category`), key (`Property`), value and the default the host ships.
 * Each observable property runs its change hook only when the new value differs
 * from the stored one; `Category` and `Property` are required and revalidated
 * whenever they change.
 */
module ObservableIniEntry {
  import opened Wrappers
  import Text

  /** The validation errors of the two required properties, named by property. */
  function RequiredErrors(category: string, property: string): (r: set<string>)
    ensures "Category" in r <==> Text.IsEmptyOrWhiteSpace(category)
    ensures "Property" in r <==> Text.IsEmptyOrWhiteSpace(property)
    ensures r <= {"Category", "Property"}
  {
    (if Text.IsEmptyOrWhiteSpace(category) then {"Category"} else {})
    + (if Text.IsEmptyOrWhiteSpace(property) then {"Property"} else {})
  }

  /** What `OnValueChanged` stores in `IsModified`: a default exists and the value differs from it. */
  function ModifiedAfterValueChange(value: string, defaultValue: Option<string>): (r: bool)
    ensures r ==> defaultValue.Some?
    ensures defaultValue.Some? ==> (r <==> value != defaultValue.value)
  {
    defaultValue.Some? && value != defaultValue.value
  }

  /** What `OnDefaultValueChanged` stores in `IsModified`: the new default is not the value, a null default included. */
  function ModifiedAfterDefaultChange(value: string, defaultValue: Option<string>): (r: bool)
    ensures defaultValue.None? ==> r
    ensures defaultValue.Some? ==> (r <==> value != defaultValue.value)
  {
    defaultValue != Some(value)
  }

  /** The two hooks agree whenever a default is present; they differ only on a null default, which the second counts as a modification. */
  lemma HooksAgreeWithDefault(value: string, defaultValue: Option<string>)
    ensures ModifiedAfterValueChange(value, defaultValue) != ModifiedAfterDefaultChange(value, defaultValue)
      <==> defaultValue.None?
  {
  }

  class IniEntry {
    var category: string
    var property: string
    var value: string
    var defaultValue: Option<string>
    var isActive: bool
    var isModified: bool
    var userDefined: bool
    /** The properties `ObservableValidator` currently reports errors for. */
    var errors: set<string>

    /** Whether the reported errors are those of the current category and key. */
    predicate ErrorsCurrent()
      reads this
    {
      errors == RequiredErrors(category, property)
    }

    /** Whether `IsModified` says the value differs from a present default. */
    predicate ModifiedCurrent()
      reads this
    {
      defaultValue.Some? ==> (isModified <==> value != defaultValue.value)
    }

    /** A new entry: empty strings, no default, every flag clear, nothing validated yet. */
    constructor ()
      ensures category == "" && property == "" && value == "" && defaultValue == None
      ensures !isActive && !isModified && !userDefined && errors == {}
    {
      category := "";
      property := "";
      value := "";
      defaultValue := None;
      isActive := false;
      isModified := false;
      userDefined := false;
      errors := {};
    }

    /** The `Category` setter: on a change, stores and revalidates the category. */
    method SetCategory(newCategory: string)
      modifies this`category, this`errors
      ensures category == newCategory
      ensures old(category) == newCategory ==> errors == old(errors)
      ensures old(category) != newCategory ==>
        errors == (old(errors) - {"Category"}) + (if Text.IsEmptyOrWhiteSpace(newCategory) then {"Category"} else {})
      ensures old(ErrorsCurrent()) ==> ErrorsCurrent()
    {
      if category != newCategory {
        category := newCategory;
        errors := (errors - {"Category"}) + (if Text.IsEmptyOrWhiteSpace(newCategory) then {"Category"} else {});
      }
    }

    /** The `Property` setter: on a change, stores and revalidates the key. */
    method SetProperty(newProperty: string)
      modifies this`property, this`errors
      ensures property == newProperty
      ensures old(property) == newProperty ==> errors == old(errors)
      ensures old(property) != newProperty ==>
        errors == (old(errors) - {"Property"}) + (if Text.IsEmptyOrWhiteSpace(newProperty) then {"Property"} else {})
      ensures old(ErrorsCurrent()) ==> ErrorsCurrent()
    {
      if property != newProperty {
        property := newProperty;
        errors := (errors - {"Property"}) + (if Text.IsEmptyOrWhiteSpace(newProperty) then {"Property"} else {});
      }
    }

    /** The `Value` setter: on a change, `OnValueChanged` recomputes `IsModified` against the default. */
    method SetValue(newValue: string)
      modifies this`value, this`isModified
      ensures value == newValue
      ensures old(value) != newValue ==> isModified == ModifiedAfterValueChange(newValue, defaultValue)
      ensures old(value) == newValue ==> isModified == old(isModified)
      ensures old(ModifiedCurrent()) ==> ModifiedCurrent()
    {
      if value != newValue {
        value := newValue;
        isModified := ModifiedAfterValueChange(newValue, defaultValue);
      }
    }

    /** The `DefaultValue` setter: on a change, `OnDefaultValueChanged` recomputes `IsModified` against the value. */
    method SetDefaultValue(newDefault: Option<string>)
      modifies this`defaultValue, this`isModified
      ensures defaultValue == newDefault
      ensures old(defaultValue) != newDefault ==> isModified == ModifiedAfterDefaultChange(value, newDefault)
      ensures old(defaultValue) == newDefault ==> isModified == old(isModified)
      ensures old(ModifiedCurrent()) ==> ModifiedCurrent()
      ensures old(defaultValue) != None && newDefault == None ==> isModified
    {
      if defaultValue != newDefault {
        defaultValue := newDefault;
        isModified := ModifiedAfterDefaultChange(value, newDefault);
      }
    }

    /** The `IsActive` setter: toggling an entry marks it user defined, and nothing clears that mark. */
    method SetIsActive(newIsActive: bool)
      modifies this`isActive, this`userDefined
      ensures isActive == newIsActive
      ensures userDefined == (old(userDefined) || old(isActive) != newIsActive)
    {
      if isActive != newIsActive {
        isActive := newIsActive;
        userDefined := true;
      }
    }

    /** `Validate()`: validates every required property at once. */
    method Validate()
      modifies this`errors
      ensures ErrorsCurrent()
      ensures Text.IsEmptyOrWhiteSpace(category) || Text.IsEmptyOrWhiteSpace(property) <==> errors != {}
    {
      errors := RequiredErrors(category, property);
    }

    /**
     * `Clone()`: a new entry given this entry's category, key and value through
     * their setters; the default, the flags and the user mark are not copied.
     */
    method Clone() returns (c: IniEntry)
      ensures fresh(c)
      ensures c.category == category && c.property == property && c.value == value
      ensures c.defaultValue == None && !c.isActive && !c.isModified && !c.userDefined
      ensures c.errors == (if category != "" && Text.IsEmptyOrWhiteSpace(category) then {"Category"} else {})
        + (if property != "" && Text.IsEmptyOrWhiteSpace(property) then {"Property"} else {})
    {
      c := new IniEntry();
      c.SetCategory(category);
      c.SetProperty(property);
      c.SetValue(value);
    }
  }
}
