/** The React state of the full calculator: the weapon record and the combat
    scenario, the change handler that replaces fields of the weapon, and the
    two values the component derives from its state on every render (the DPS
    figures and the attribute list offered for the category). */
module AppState {
  import opened Wrappers
  import opened ParseFloat
  import opened AppTables
  import opened AppWeapon
  import opened AppDamage

  class Calculator {
    var weapon: Weapon
    var scenario: Scenario

    /** The initial state of the two useState hooks. */
    constructor ()
      ensures weapon == DefaultWeapon && scenario == DefaultScenario
    {
      weapon := DefaultWeapon;
      scenario := DefaultScenario;
    }

    /** handleWeaponChange: each branch replaces the fields it names and
        keeps the rest of the previous weapon. For an attribute type with no
        table entry the source raises a TypeError when the update is applied;
        applied == false stands for that error, and the weapon is left as it
        was. */
    method HandleWeaponChange(change: Change) returns (applied: bool)
      modifies this
      ensures applied <==> WeaponChange(old(weapon), change).Some?
      ensures weapon == if applied then WeaponChange(old(weapon), change).value else old(weapon)
      ensures scenario == old(scenario)
    {
      match change {
        case CategoryChange(c) =>
          var coreAttr2 := Core2ByCategory(c);
          weapon := weapon.(category := c, coreAttribute2 := coreAttr2.max, attribute := ResetAttribute);
          applied := true;
        case AttributeTypeChange(t) =>
          var found := Find(AvailableAttributes, t);
          if found.None? {
            applied := false;
          } else {
            weapon := weapon.(attribute := Attribute(t, found.value.max));
            applied := true;
          }
        case AttributeValueChange(v) =>
          weapon := weapon.(attribute := weapon.attribute.(value := NumberOrZero(v)));
          applied := true;
        case FieldChange(f, v) =>
          weapon := Set(weapon, f, NumberOrZero(v));
          applied := true;
      }
    }

    /** The figures the component shows: calculateDPS on the current state. */
    method Stats() returns (r: DpsReport)
      requires Computable(weapon)
      ensures r == Report(weapon, scenario)
    {
      r := CalculateDps(weapon, scenario);
    }

    /** The attribute list offered for the current category: the table
        without the entry of the category's core attribute 2 type. */
    method AvailableAttributesList() returns (r: seq<TypeMax>)
      ensures r == SelectableAttributes(weapon.category)
      ensures forall e :: e in r ==> e in AvailableAttributes && e.statType != Core2ByCategory(weapon.category).statType
    {
      var coreAttr2 := Core2ByCategory(weapon.category);
      r := Without(AvailableAttributes, coreAttr2.statType);
    }
  }

  /** Starting from the initial state, changing the category to SMG leaves an
      attribute (CHC) that the offered list no longer contains. */
  method SmgCategoryChangeFromStart() returns (c: Calculator, offered: seq<TypeMax>)
    ensures c.weapon.category == SMG && c.weapon.attribute == ResetAttribute
    ensures forall e :: e in offered ==> e.statType != c.weapon.attribute.statType
  {
    c := new Calculator();
    var applied := c.HandleWeaponChange(CategoryChange(SMG));
    offered := c.AvailableAttributesList();
  }
}
