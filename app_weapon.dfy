/** The weapon record the full calculator keeps as its state, the combat
    scenario, and the rules by which a change in the form updates the weapon. */
module AppWeapon {
  import opened Wrappers
  import opened AppTables
  import opened ParseFloat

  /** The freely chosen secondary attribute: a stat tag and its value. */
  datatype Attribute = Attribute(statType: StatType, value: real)

  datatype Weapon = Weapon(
    category: Category,
    baseDamage: real,
    rpm: real,
    magSize: real,
    baseHSD: real,
    optimalRange: real,
    reloadTime: real,
    expertise: real,
    coreAttribute1: real,
    coreAttribute2: real,
    attribute: Attribute)

  /** The loadout the calculator opens with. */
  const DefaultWeapon := Weapon(LMG, 49480.0, 750.0, 200.0, 65.0, 35.0, 3.63, 0.0, 15.0, 12.0, Attribute(CHC, 9.5))

  datatype TargetType = Armor | Health

  datatype Scenario = Scenario(targetType: TargetType, targetInCover: bool)

  const DefaultScenario := Scenario(Armor, false)

  /** The attribute a category change installs, whatever the category. */
  const ResetAttribute := Attribute(CHC, 9.5)

  /** The numeric fields of the weapon record, set by name. */
  datatype NumericField =
    | BaseDamageField | RpmField | MagSizeField | BaseHSDField | OptimalRangeField
    | ReloadTimeField | ExpertiseField | CoreAttribute1Field | CoreAttribute2Field

  function Get(w: Weapon, f: NumericField): real
  {
    match f
    case BaseDamageField => w.baseDamage
    case RpmField => w.rpm
    case MagSizeField => w.magSize
    case BaseHSDField => w.baseHSD
    case OptimalRangeField => w.optimalRange
    case ReloadTimeField => w.reloadTime
    case ExpertiseField => w.expertise
    case CoreAttribute1Field => w.coreAttribute1
    case CoreAttribute2Field => w.coreAttribute2
  }

  /** "{ ...prev, [field]: x }" for a numeric field. */
  function Set(w: Weapon, f: NumericField, x: real): (r: Weapon)
    ensures Get(r, f) == x
    ensures forall g :: g != f ==> Get(r, g) == Get(w, g)
    ensures r.category == w.category && r.attribute == w.attribute
  {
    match f
    case BaseDamageField => w.(baseDamage := x)
    case RpmField => w.(rpm := x)
    case MagSizeField => w.(magSize := x)
    case BaseHSDField => w.(baseHSD := x)
    case OptimalRangeField => w.(optimalRange := x)
    case ReloadTimeField => w.(reloadTime := x)
    case ExpertiseField => w.(expertise := x)
    case CoreAttribute1Field => w.(coreAttribute1 := x)
    case CoreAttribute2Field => w.(coreAttribute2 := x)
  }

  /** The category branch of the change handler. */
  function CategoryChanged(prev: Weapon, c: Category): (r: Weapon)
    ensures r.category == c && r.coreAttribute2 == Core2ByCategory(c).max && r.attribute == ResetAttribute
    ensures forall g :: g != CoreAttribute2Field ==> Get(r, g) == Get(prev, g)
  {
    prev.(category := c, coreAttribute2 := Core2ByCategory(c).max, attribute := ResetAttribute)
  }

  /** The attribute type branch of the change handler: None where the table
      has no entry of the type. */
  function AttributeTypeChanged(prev: Weapon, t: StatType): (r: Option<Weapon>)
    ensures r.None? <==> t == NoType
    ensures r.Some? ==>
      && r.value.attribute.statType == t
      && TypeMax(t, r.value.attribute.value) in AvailableAttributes
      && r.value == prev.(attribute := r.value.attribute)
  {
    AttributeLookup(t);
    var found := Find(AvailableAttributes, t);
    if found.None? then None
    else
      var r := prev.(attribute := Attribute(t, found.value.max));
      assert TypeMax(t, r.attribute.value) == found.value;
      Some(r)
  }

  /** The (field, value) pairs the form hands to the change handler. */
  datatype Change =
    | CategoryChange(category: Category)
    | AttributeTypeChange(statType: StatType)
    | AttributeValueChange(input: Input)
    | FieldChange(field: NumericField, input: Input)

  /** The weapon after a change, or None where the handler throws: the
      attribute table has no entry for the requested type, and reading the max
      of the missing entry raises a TypeError when the state update is
      applied. None stands for that error.
      - A category change sets core attribute 2 to the category's maximum and
        the attribute to CHC 9.5.
      - An attribute type change sets the value to that type's maximum.
      - A value change stores the parsed number, or 0 when it does not parse. */
  function WeaponChange(prev: Weapon, change: Change): (r: Option<Weapon>)
    ensures r.None? <==> change.AttributeTypeChange? && change.statType == NoType
    ensures change.CategoryChange? ==>
      && r.value.category == change.category
      && r.value.coreAttribute2 == Core2ByCategory(change.category).max
      && r.value.attribute == ResetAttribute
      && forall g :: g != CoreAttribute2Field ==> Get(r.value, g) == Get(prev, g)
    ensures change.AttributeTypeChange? && r.Some? ==>
      && r.value.attribute.statType == change.statType
      && TypeMax(change.statType, r.value.attribute.value) in AvailableAttributes
      && r.value == prev.(attribute := r.value.attribute)
    ensures change.AttributeValueChange? ==>
      && r.value.attribute == Attribute(prev.attribute.statType, NumberOrZero(change.input))
      && r.value == prev.(attribute := r.value.attribute)
    ensures change.FieldChange? ==>
      && Get(r.value, change.field) == NumberOrZero(change.input)
      && r.value.category == prev.category && r.value.attribute == prev.attribute
      && forall g :: g != change.field ==> Get(r.value, g) == Get(prev, g)
  {
    match change
    case CategoryChange(c) => Some(CategoryChanged(prev, c))
    case AttributeTypeChange(t) => AttributeTypeChanged(prev, t)
    case AttributeValueChange(v) =>
      Some(prev.(attribute := prev.attribute.(value := NumberOrZero(v))))
    case FieldChange(f, v) =>
      Some(Set(prev, f, NumberOrZero(v)))
  }

  /** The attribute value an attribute type change installs is the table's
      maximum for that type: the first entry of that type. */
  lemma AttributeTypeChangeUsesMax(prev: Weapon, t: StatType, k: nat)
    requires k < |AvailableAttributes| && AvailableAttributes[k].statType == t
    ensures WeaponChange(prev, AttributeTypeChange(t)) == Some(prev.(attribute := Attribute(t, AvailableAttributes[k].max)))
  {
    TableIndexed();
    FindFirst(AvailableAttributes, t, k);
  }

  /** A category change installs CHC 9.5 even for an SMG, whose core
      attribute 2 is already CHC and whose selectable attributes leave CHC out:
      the SMG then carries CHC from both slots. */
  lemma SmgCategoryChangeKeepsChc(prev: Weapon)
    ensures WeaponChange(prev, CategoryChange(SMG)).value.attribute.statType == Core2ByCategory(SMG).statType
    ensures forall e :: e in SelectableAttributes(SMG) ==> e.statType != CHC
  {
  }
}
