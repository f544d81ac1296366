/** The static tables of the full calculator: the base stats every build has,
    the stat that core attribute 2 feeds for each weapon category, and the
    secondary attributes with their maximum values. The source names stats
    and categories by string tags; here each tag is a constructor. */
module AppTables {
  import opened Wrappers

  datatype Category = AssaultRifle | LMG | MarksmanRifle | Pistol | Rifle | SMG | Shotgun

  /** The stat tags of the tables; NoType is the "None" of the Pistol. */
  datatype StatType =
    | DTA | CHC | DTH | DTTOOC | HSD | ReloadSpeed | OptimalRange | MagSize | RateOfFire | CHD
    | NoType

  /** A stat tag with the largest value its slot can take. */
  datatype TypeMax = TypeMax(statType: StatType, max: real)

  datatype BaseStatsRecord = BaseStatsRecord(awd: real, hsd: real, chc: real, chd: real, reloadSpeed: real)

  /** The bonuses every build starts from (critical hit damage 45 is 25 base
      plus 20 from the watch). */
  const BaseStats := BaseStatsRecord(10.0, 20.0, 10.0, 45.0, 10.0)

  /** The categories the category select offers, in its order. */
  const WeaponCategories: seq<Category> :=
    [AssaultRifle, LMG, MarksmanRifle, Pistol, Rifle, SMG, Shotgun]

  /** The select offers every category, each once. */
  lemma CategoriesListed()
    ensures forall c: Category :: c in WeaponCategories
    ensures forall i, j :: 0 <= i < j < |WeaponCategories| ==> WeaponCategories[i] != WeaponCategories[j]
  {
    forall c: Category ensures c in WeaponCategories {
      var k := match c
        case AssaultRifle => 0 case LMG => 1 case MarksmanRifle => 2 case Pistol => 3
        case Rifle => 4 case SMG => 5 case Shotgun => 6;
      assert WeaponCategories[k] == c;
    }
  }

  /** The fixed stat of core attribute 2 for a category, and its maximum. */
  function Core2ByCategory(c: Category): (e: TypeMax)
    ensures (e.statType == NoType) == (c == Pistol)
    ensures e.statType == NoType ==> e.max == 0.0
  {
    match c
    case Rifle => TypeMax(CHD, 17.0)
    case AssaultRifle => TypeMax(DTH, 21.0)
    case MarksmanRifle => TypeMax(HSD, 111.0)
    case Shotgun => TypeMax(DTA, 12.0)
    case SMG => TypeMax(CHC, 21.0)
    case LMG => TypeMax(DTTOOC, 12.0)
    case Pistol => TypeMax(NoType, 0.0)
  }

  /** Every category feeds a different stat through core attribute 2. */
  lemma Core2TypesDistinct(c1: Category, c2: Category)
    requires c1 != c2
    ensures Core2ByCategory(c1).statType != Core2ByCategory(c2).statType
  {
  }

  const AvailableAttributes: seq<TypeMax> := [
    TypeMax(DTA, 6.0),
    TypeMax(CHC, 9.5),
    TypeMax(DTH, 9.5),
    TypeMax(DTTOOC, 10.0),
    TypeMax(HSD, 10.0),
    TypeMax(ReloadSpeed, 12.0),
    TypeMax(OptimalRange, 24.0),
    TypeMax(MagSize, 12.5),
    TypeMax(RateOfFire, 5.0),
    TypeMax(CHD, 10.0)
  ]

  /** The position of each stat tag in the attribute table (-1 for "None"). */
  function TableIndex(t: StatType): int
  {
    match t
    case DTA => 0
    case CHC => 1
    case DTH => 2
    case DTTOOC => 3
    case HSD => 4
    case ReloadSpeed => 5
    case OptimalRange => 6
    case MagSize => 7
    case RateOfFire => 8
    case CHD => 9
    case NoType => -1
  }

  /** The attribute table lists every stat tag except "None" once, at its
      TableIndex. */
  lemma TableIndexed()
    ensures forall k :: 0 <= k < |AvailableAttributes| ==> TableIndex(AvailableAttributes[k].statType) == k
    ensures forall t :: t != NoType ==>
      0 <= TableIndex(t) < |AvailableAttributes| && AvailableAttributes[TableIndex(t)].statType == t
  {
  }

  /** Array.prototype.find on the type: the first entry of that type, if any. */
  function Find(entries: seq<TypeMax>, t: StatType): (r: Option<TypeMax>)
    ensures r.None? <==> forall k :: 0 <= k < |entries| ==> entries[k].statType != t
    ensures r.Some? ==> r.value in entries && r.value.statType == t
  {
    if entries == [] then None
    else if entries[0].statType == t then Some(entries[0])
    else
      var r := Find(entries[1..], t);
      assert forall k :: 1 <= k < |entries| ==> entries[k] == entries[1..][k - 1];
      r
  }

  /** find returns the first entry of the type, not merely some entry of it. */
  lemma {:induction false} FindFirst(entries: seq<TypeMax>, t: StatType, k: nat)
    requires k < |entries| && entries[k].statType == t
    requires forall j :: 0 <= j < k ==> entries[j].statType != t
    ensures Find(entries, t) == Some(entries[k])
  {
    if k > 0 {
      FindFirst(entries[1..], t, k - 1);
    }
  }

  /** Array.prototype.filter keeping the entries whose type is not t, in order. */
  function Without(entries: seq<TypeMax>, t: StatType): (r: seq<TypeMax>)
    ensures |r| <= |entries|
    ensures forall e :: e in r <==> e in entries && e.statType != t
  {
    if entries == [] then []
    else if entries[0].statType == t then Without(entries[1..], t)
    else [entries[0]] + Without(entries[1..], t)
  }

  /** With no entry of type t, the filter keeps everything. */
  lemma {:induction false} WithoutAbsent(entries: seq<TypeMax>, t: StatType)
    requires forall k :: 0 <= k < |entries| ==> entries[k].statType != t
    ensures Without(entries, t) == entries
  {
    if entries != [] {
      WithoutAbsent(entries[1..], t);
    }
  }

  /** Removing index k of a sequence is keeping its head and removing index
      k - 1 of its tail. */
  lemma RemoveAtTail<T>(s: seq<T>, k: nat)
    requires 0 < k < |s|
    ensures s[..k] + s[k + 1..] == [s[0]] + (s[1..][..k - 1] + s[1..][k..])
  {
    assert s[1..][..k - 1] == s[1..k] && s[1..][k..] == s[k + 1..];
    assert s[..k] == [s[0]] + s[1..k];
  }

  /** With exactly one entry of type t, at index k, the filter removes that
      entry and keeps the others in their order. */
  lemma {:induction false} WithoutRemovesOne(entries: seq<TypeMax>, t: StatType, k: nat)
    requires k < |entries| && entries[k].statType == t
    requires forall j :: 0 <= j < |entries| && j != k ==> entries[j].statType != t
    ensures Without(entries, t) == entries[..k] + entries[k + 1..]
  {
    var tail := entries[1..];
    forall j | 0 <= j < |tail| && j != k - 1
      ensures tail[j].statType != t
    {
      assert tail[j] == entries[j + 1];
    }
    if k == 0 {
      WithoutAbsent(tail, t);
      assert entries[..0] + entries[1..] == tail;
    } else {
      assert entries[0].statType != t;
      WithoutRemovesOne(tail, t, k - 1);
      RemoveAtTail(entries, k);
    }
  }

  /** The secondary attributes offered for a category: all of them except the
      one whose type core attribute 2 already supplies. */
  function SelectableAttributes(c: Category): seq<TypeMax>
  {
    Without(AvailableAttributes, Core2ByCategory(c).statType)
  }

  /** A type the table lists appears at its index and nowhere else. */
  lemma ListedOnceAt(t: StatType)
    requires t != NoType
    ensures 0 <= TableIndex(t) < |AvailableAttributes| && AvailableAttributes[TableIndex(t)].statType == t
    ensures forall j :: 0 <= j < |AvailableAttributes| && j != TableIndex(t) ==> AvailableAttributes[j].statType != t
  {
    TableIndexed();
    forall j | 0 <= j < |AvailableAttributes| && j != TableIndex(t)
      ensures AvailableAttributes[j].statType != t
    {
      assert TableIndex(AvailableAttributes[j].statType) == j;
    }
  }

  /** Filtering out a type the table lists removes exactly its entry. */
  lemma WithoutListedType(t: StatType)
    requires t != NoType
    ensures 0 <= TableIndex(t) < |AvailableAttributes| && AvailableAttributes[TableIndex(t)].statType == t
    ensures Without(AvailableAttributes, t) == AvailableAttributes[..TableIndex(t)] + AvailableAttributes[TableIndex(t) + 1..]
    ensures |Without(AvailableAttributes, t)| == 9
  {
    var a := AvailableAttributes;
    var k := TableIndex(t);
    ListedOnceAt(t);
    WithoutRemovesOne(a, t, k);
    var removed := a[..k] + a[k + 1..];
    assert |removed| == |a| - 1;
  }

  /** Filtering out "None" keeps the whole table. */
  lemma WithoutNoType()
    ensures Without(AvailableAttributes, NoType) == AvailableAttributes
  {
    var a := AvailableAttributes;
    TableIndexed();
    forall j | 0 <= j < |a|
      ensures a[j].statType != NoType
    {
      assert TableIndex(a[j].statType) == j;
    }
    WithoutAbsent(a, NoType);
  }

  /** For a Pistol nothing is removed; for every other category exactly the
      entry of its core attribute 2 type is removed and the rest keep their
      order. */
  lemma SelectableAttributesShape(c: Category)
    ensures c == Pistol ==> SelectableAttributes(c) == AvailableAttributes
    ensures c != Pistol ==>
      var k := TableIndex(Core2ByCategory(c).statType);
      0 <= k < |AvailableAttributes|
        && AvailableAttributes[k].statType == Core2ByCategory(c).statType
        && SelectableAttributes(c) == AvailableAttributes[..k] + AvailableAttributes[k + 1..]
    ensures |SelectableAttributes(c)| == if c == Pistol then 10 else 9
  {
    if c == Pistol {
      WithoutNoType();
    } else {
      WithoutListedType(Core2ByCategory(c).statType);
    }
  }

  /** The attribute table has an entry for every stat tag except "None", one
      per tag, so looking a tag up fails only for "None". */
  lemma AttributeLookup(t: StatType)
    ensures Find(AvailableAttributes, t).None? <==> t == NoType
    ensures Find(AvailableAttributes, t).Some? ==> Find(AvailableAttributes, t).value.statType == t
  {
    TableIndexed();
    if t != NoType {
      FindFirst(AvailableAttributes, t, TableIndex(t));
    }
  }
}
