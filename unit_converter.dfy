/** The unit conversion engine: a fixed unit table partitioned into three
    categories, linear conversion through each category's base unit, and
    the container/piece rules driven by an inventory item's
    `piecesPerUnit`. */
module UnitConverter {
  import opened Wrappers
  import opened Text
  import opened Types
  import opened Rounding

  datatype UnitCategory = Count | Volume | Weight

  /** One unit of the table: its lower-case name, its category and its
      factor to the category's base unit (pieces, ml, g). Count units all
      have factor 1: containers go through `piecesPerUnit` instead. */
  datatype UnitInfo = UnitInfo(name: string, category: UnitCategory, toBase: real)

  /** The unit table, in the source's order: `UNIT_CATEGORIES` and
      `CONVERSION_TO_BASE` side by side. */
  const Table: seq<UnitInfo> := [
    UnitInfo("pieces", Count, 1.0), UnitInfo("units", Count, 1.0),
    UnitInfo("boxes", Count, 1.0), UnitInfo("bags", Count, 1.0),
    UnitInfo("scoops", Count, 1.0), UnitInfo("shots", Count, 1.0),
    UnitInfo("ml", Volume, 1.0), UnitInfo("l", Volume, 1000.0),
    UnitInfo("liters", Volume, 1000.0), UnitInfo("cups", Volume, 236.588),
    UnitInfo("fl oz", Volume, 29.5735), UnitInfo("tbsp", Volume, 14.7868),
    UnitInfo("tsp", Volume, 4.92892), UnitInfo("oz", Volume, 29.5735),
    UnitInfo("g", Weight, 1.0), UnitInfo("kg", Weight, 1000.0),
    UnitInfo("lbs", Weight, 453.592), UnitInfo("pounds", Weight, 453.592)]

  /** Every unit of a table has a name and a positive factor. */
  predicate WellFormedTable(t: seq<UnitInfo>) {
    forall i :: 0 <= i < |t| ==> t[i].name != "" && t[i].toBase > 0.0
  }

  /** The unit table is well formed. */
  lemma TableWellFormed()
    ensures WellFormedTable(Table)
  {
  }

  /** The first entry of `t` named `key`, if any. */
  function Lookup(key: string, t: seq<UnitInfo>): (r: Option<UnitInfo>)
    requires WellFormedTable(t)
    ensures r.Some? ==> r.value in t && r.value.name == key && key != "" && r.value.toBase > 0.0
    ensures r.None? ==> forall i :: 0 <= i < |t| ==> t[i].name != key
  {
    if t == [] then None
    else if t[0].name == key then Some(t[0])
    else Lookup(key, t[1..])
  }

  /** The table entry for a unit string, looked up by its lower-case
      spelling (`UNIT_CATEGORIES[unit.toLowerCase()]`). */
  function Resolve(unit: string): (r: Option<UnitInfo>)
    ensures r.Some? ==> unit != "" && r.value.toBase > 0.0
    ensures r.Some? ==> r.value in Table && r.value.name == Lower(unit)
  {
    TableWellFormed();
    Lookup(Lower(unit), Table)
  }

  /** `getUnitCategory`: the category of a unit, ignoring case; `None` for
      a unit not in the table. */
  function GetUnitCategory(unit: string): (r: Option<UnitCategory>)
    ensures r.Some? <==> Resolve(unit).Some?
    ensures r.Some? ==> r.value == Resolve(unit).value.category
  {
    match Resolve(unit)
    case None => None
    case Some(u) => Some(u.category)
  }

  /** The category lookup does not depend on the case of the unit. */
  lemma {:induction false} CategoryIgnoresCase(unit: string)
    ensures GetUnitCategory(Lower(unit)) == GetUnitCategory(unit)
  {
    LowerIdempotent(unit);
  }

  /** The table's first six units count, the next eight measure volume
      and the last four weight; every factor is positive and only the
      base units of volume and weight have factor 1 outside the count
      units. */
  lemma CategoryTable()
    ensures |Table| == 18 && WellFormedTable(Table)
    ensures forall i :: 0 <= i < 6 ==> Table[i].category == Count && Table[i].toBase == 1.0
    ensures forall i :: 6 <= i < 14 ==> Table[i].category == Volume
    ensures forall i :: 14 <= i < 18 ==> Table[i].category == Weight
  {
  }

  /** `areUnitsCompatible`: both units are known and share a category. */
  predicate AreUnitsCompatible(a: string, b: string) {
    var ca := GetUnitCategory(a);
    ca.Some? && ca == GetUnitCategory(b)
  }

  /** Compatibility is symmetric and fails whenever a unit is unknown; a
      known unit is compatible with itself. */
  lemma CompatibilityProperties(a: string, b: string)
    ensures AreUnitsCompatible(a, b) == AreUnitsCompatible(b, a)
    ensures GetUnitCategory(a).None? || GetUnitCategory(b).None? ==> !AreUnitsCompatible(a, b)
    ensures AreUnitsCompatible(a, b) <==>
              Resolve(a).Some? && Resolve(b).Some? &&
              Resolve(a).value.category == Resolve(b).value.category
    ensures AreUnitsCompatible(a, a) <==> GetUnitCategory(a).Some?
  {
  }

  /** `value` in unit `from`, scaled through the base unit into `to`. */
  function ConvertKnown(value: real, from: UnitInfo, to: UnitInfo): real
    requires to.toBase > 0.0
  {
    var baseValue := value * from.toBase;
    baseValue / to.toBase
  }

  /** Scaling by f/g and then by g/f is the identity. */
  lemma ScaleBack(value: real, f: real, g: real, w: real)
    requires f > 0.0 && g > 0.0 && w == value * f / g
    ensures w * g / f == value
  {
    assert w * g == value * f;
  }

  /** Scaling by f/g and then by g/h is scaling by f/h. */
  lemma ScaleCompose(value: real, f: real, g: real, h: real, w: real)
    requires f > 0.0 && g > 0.0 && h > 0.0 && w == value * f / g
    ensures w * g / h == value * f / h
  {
    assert w * g == value * f;
  }

  /** Scaling a multiple is the multiple of the scaled value. */
  lemma ScaleLinear(k: real, value: real, f: real, g: real, x: real)
    requires g > 0.0 && x == k * value
    ensures x * f / g == k * (value * f / g)
  {
    assert x * f == k * (value * f);
  }

  /** Converting between known units there and back is the identity. */
  lemma KnownRoundTrip(value: real, u: UnitInfo, v: UnitInfo)
    requires u.toBase > 0.0 && v.toBase > 0.0
    ensures ConvertKnown(ConvertKnown(value, u, v), v, u) == value
  {
    ScaleBack(value, u.toBase, v.toBase, ConvertKnown(value, u, v));
  }

  /** Converting from a unit to itself is the identity. */
  lemma KnownSelf(value: real, u: UnitInfo)
    requires u.toBase > 0.0
    ensures ConvertKnown(value, u, u) == value
  {
  }

  /** Only zero converts to zero. */
  lemma KnownZero(value: real, u: UnitInfo, v: UnitInfo)
    requires u.toBase > 0.0 && v.toBase > 0.0
    ensures ConvertKnown(value, u, v) == 0.0 <==> value == 0.0
  {
    ScaleBack(value, u.toBase, v.toBase, ConvertKnown(value, u, v));
  }

  /** Conversion between known units is linear. */
  lemma KnownLinear(k: real, value: real, u: UnitInfo, v: UnitInfo)
    requires v.toBase > 0.0
    ensures ConvertKnown(k * value, u, v) == k * ConvertKnown(value, u, v)
  {
    ScaleLinear(k, value, u.toBase, v.toBase, k * value);
  }

  /** Converting u to v and then v to w is converting u to w. */
  lemma KnownCompose(value: real, u: UnitInfo, v: UnitInfo, w: UnitInfo)
    requires u.toBase > 0.0 && v.toBase > 0.0 && w.toBase > 0.0
    ensures ConvertKnown(ConvertKnown(value, u, v), v, w) == ConvertKnown(value, u, w)
  {
    ScaleCompose(value, u.toBase, v.toBase, w.toBase, ConvertKnown(value, u, v));
  }

  /** `convertUnit`: `None` for an empty unit; the value itself for units
      equal ignoring case (known or not); `None` for units of different or
      unknown categories; otherwise the value scaled through the base
      unit. */
  function ConvertUnit(value: real, from: string, to: string): (r: Option<real>)
    ensures from == "" || to == "" ==> r.None?
    ensures from != "" && to != "" && Lower(from) == Lower(to) ==> r == Some(value)
    ensures Lower(from) != Lower(to) ==> (r.Some? <==> AreUnitsCompatible(from, to))
    ensures Lower(from) != Lower(to) && AreUnitsCompatible(from, to) ==>
              r == Some(ConvertKnown(value, Resolve(from).value, Resolve(to).value))
  {
    if from == "" || to == "" then None
    else
      var fromLower := Lower(from);
      var toLower := Lower(to);
      if fromLower == toLower then Some(value)
      else if !AreUnitsCompatible(from, to) then None
      else
        // CONVERSION_TO_BASE has an entry for every unit with a category
        var fromUnit := Resolve(from);
        var toUnit := Resolve(to);
        if fromUnit.None? || toUnit.None? then None
        else Some(ConvertKnown(value, fromUnit.value, toUnit.value))
  }

  /** Units of different categories never convert, and neither does an
      unknown unit unless it is the same string up to case. */
  lemma IncompatibleNeverConverts(value: real, from: string, to: string)
    requires GetUnitCategory(from) != GetUnitCategory(to) ||
             (GetUnitCategory(from).None? && Lower(from) != Lower(to))
    ensures ConvertUnit(value, from, to).None?
  {
  }

  /** Equal units, ignoring case, convert to the value itself even when
      they are not in the table. */
  lemma SameUnitKeepsValue(value: real, from: string, to: string)
    requires from != "" && Lower(from) == Lower(to)
    ensures ConvertUnit(value, from, to) == Some(value)
  {
  }

  /** The resolved unit of a unit is the same when units are equal up to
      case. */
  lemma ResolveIgnoresCase(a: string, b: string)
    requires Lower(a) == Lower(b)
    ensures Resolve(a) == Resolve(b)
  {
  }

  /** Converting there and back returns the original value exactly. */
  lemma {:induction false} ConvertRoundTrip(value: real, a: string, b: string)
    requires AreUnitsCompatible(a, b)
    ensures ConvertUnit(value, a, b).Some?
    ensures ConvertUnit(ConvertUnit(value, a, b).value, b, a) == Some(value)
  {
    CompatibilityProperties(a, b);
    if Lower(a) != Lower(b) {
      KnownRoundTrip(value, Resolve(a).value, Resolve(b).value);
    }
  }

  /** Converting a to b and then b to c is the same as converting a to c. */
  lemma {:induction false} ConvertCompose(value: real, a: string, b: string, c: string)
    requires AreUnitsCompatible(a, b) && AreUnitsCompatible(b, c)
    ensures AreUnitsCompatible(a, c)
    ensures ConvertUnit(ConvertUnit(value, a, b).value, b, c) == ConvertUnit(value, a, c)
  {
    CompatibilityProperties(a, b);
    CompatibilityProperties(b, c);
    var ua, ub, uc := Resolve(a).value, Resolve(b).value, Resolve(c).value;
    var w := ConvertUnit(value, a, b).value;
    assert w == ConvertKnown(value, ua, ub) by {
      if Lower(a) == Lower(b) {
        ResolveIgnoresCase(a, b);
        KnownSelf(value, ua);
      }
    }
    assert ConvertUnit(w, b, c).value == ConvertKnown(w, ub, uc) by {
      if Lower(b) == Lower(c) {
        ResolveIgnoresCase(b, c);
        KnownSelf(w, ub);
      }
    }
    KnownCompose(value, ua, ub, uc);
    if Lower(a) == Lower(c) {
      ResolveIgnoresCase(a, c);
      KnownRoundTrip(value, ua, ub);
    }
  }

  /** `getBaseUnit`: the declared base unit, else the stocking unit, else
      "units". */
  function GetBaseUnit(item: InventoryItem): (r: string)
    ensures item.baseUnit.Some? && item.baseUnit.value != "" ==> r == item.baseUnit.value
    ensures item.baseUnit.None? || item.baseUnit.value == "" ==> r == OrDefault(item.unit, "units")
    ensures r != ""
  {
    if item.baseUnit.Some? && item.baseUnit.value != "" then item.baseUnit.value
    else OrDefault(item.unit, "units")
  }

  /** The unit an item's stock is counted in ("units" when absent). */
  function StockingUnit(item: InventoryItem): string {
    OrDefault(item.unit, "units")
  }

  /** The item declares a usable container size (`piecesPerUnit` truthy). */
  predicate HasPiecesPerUnit(item: InventoryItem) {
    item.piecesPerUnit.Some? && item.piecesPerUnit.value != 0.0
  }

  /** The container rules of `convertToInventoryUnit` for a count unit
      and a container of `ppu` base units, given whether the recipe unit
      and the stocking unit are the base unit. */
  function ContainerConvert(quantity: real, recipeIsBase: bool, stockIsBase: bool, ppu: real): real
    requires ppu != 0.0
  {
    if recipeIsBase && !stockIsBase then quantity / ppu
    else if !recipeIsBase && stockIsBase then quantity * ppu
    else
      var recipeInBase := if recipeIsBase then quantity else quantity * ppu;
      var inventoryInBase := if stockIsBase then 1.0 else ppu;
      recipeInBase / inventoryInBase
  }

  /** Pieces become a fraction of a container, containers become pieces,
      and between two container units (or from the base unit to itself)
      the quantity is kept as it is. */
  lemma ContainerConvertCases(quantity: real, recipeIsBase: bool, stockIsBase: bool, ppu: real)
    requires ppu != 0.0
    ensures recipeIsBase && !stockIsBase ==>
              ContainerConvert(quantity, recipeIsBase, stockIsBase, ppu) == quantity / ppu
    ensures !recipeIsBase && stockIsBase ==>
              ContainerConvert(quantity, recipeIsBase, stockIsBase, ppu) == quantity * ppu
    ensures recipeIsBase == stockIsBase ==>
              ContainerConvert(quantity, recipeIsBase, stockIsBase, ppu) == quantity
  {
    var x := quantity * ppu;
    assert x / ppu == quantity;
  }

  /** `convertToInventoryUnit`: the recipe quantity expressed in the
      item's stocking unit, or `None` when the units cannot be converted. */
  function ConvertToInventoryUnit(quantity: real, recipeUnit: Option<string>, item: InventoryItem): (r: Option<real>)
    ensures Lower(OrDefault(recipeUnit, "units")) == Lower(StockingUnit(item)) ==> r == Some(quantity)
    ensures Lower(OrDefault(recipeUnit, "units")) != Lower(StockingUnit(item)) ==>
              (r.Some? <==> AreUnitsCompatible(OrDefault(recipeUnit, "units"), StockingUnit(item)))
  {
    var ru := OrDefault(recipeUnit, "units");
    var iu := StockingUnit(item);
    if Lower(ru) == Lower(iu) then Some(quantity)
    else if !AreUnitsCompatible(ru, iu) then None
    else if GetUnitCategory(ru) == Some(Count) && HasPiecesPerUnit(item) then
      var base := Lower(GetBaseUnit(item));
      Some(ContainerConvert(quantity, Lower(ru) == base, Lower(iu) == base, item.piecesPerUnit.value))
    else
      ConvertUnit(quantity, ru, iu)
  }

  /** A count recipe unit and an item with a container size take the
      container rules, whatever the factor table says; `recipeIsBase` and
      `stockIsBase` say whether the recipe unit and the stocking unit are
      the item's base unit. */
  lemma ContainerRules(quantity: real, recipeUnit: Option<string>, item: InventoryItem,
                       recipeIsBase: bool, stockIsBase: bool, ppu: real)
    requires item.piecesPerUnit == Some(ppu) && ppu != 0.0
    requires Lower(OrDefault(recipeUnit, "units")) != Lower(StockingUnit(item))
    requires AreUnitsCompatible(OrDefault(recipeUnit, "units"), StockingUnit(item))
    requires GetUnitCategory(OrDefault(recipeUnit, "units")) == Some(Count)
    requires recipeIsBase == (Lower(OrDefault(recipeUnit, "units")) == Lower(GetBaseUnit(item)))
    requires stockIsBase == (Lower(StockingUnit(item)) == Lower(GetBaseUnit(item)))
    ensures ConvertToInventoryUnit(quantity, recipeUnit, item) ==
              Some(ContainerConvert(quantity, recipeIsBase, stockIsBase, ppu))
  {
  }

  /** Without a usable container size, and for volume and weight, the
      conversion is the plain linear one. */
  lemma LinearFallback(quantity: real, recipeUnit: Option<string>, item: InventoryItem)
    requires !HasPiecesPerUnit(item) || GetUnitCategory(OrDefault(recipeUnit, "units")) != Some(Count)
    ensures ConvertToInventoryUnit(quantity, recipeUnit, item) ==
              ConvertUnit(quantity, OrDefault(recipeUnit, "units"), StockingUnit(item))
  {
  }

  /** No two units of the table share a name. */
  lemma TableNamesDistinct()
    ensures forall i, j :: 0 <= i < j < |Table| ==> Table[i].name != Table[j].name
  {
  }

  /** Every unit of the table is recognised under its own name. */
  lemma {:induction false} ResolveEntry(i: nat)
    requires i < |Table|
    ensures Resolve(Table[i].name) == Some(Table[i])
  {
    TableNamesLowerCase(i);
    TableNamesDistinct();
    TableWellFormed();
  }

  /** The names of the table are written in lower case already. */
  lemma TableNamesLowerCase(i: nat)
    requires i < |Table|
    ensures Lower(Table[i].name) == Table[i].name
  {
    var name := Table[i].name;
    assert forall k :: 0 <= k < |name| ==> !('A' <= name[k] <= 'Z');
    LowerOfLowerCase(name);
  }

  /** "pieces", a unit of the examples below. */
  lemma ResolvePieces()
    ensures Lower("pieces") == "pieces" && Resolve("pieces") == Some(Table[0])
    ensures GetUnitCategory("pieces") == Some(Count)
  {
    assert Lower("pieces") == "pieces";
    ResolveEntry(0);
  }

  /** "bags", a unit of the examples below, in two spellings. */
  lemma ResolveBags()
    ensures Lower("bags") == "bags" && Lower("Bags") == "bags"
    ensures Resolve("bags") == Some(Table[3]) && Resolve("Bags") == Some(Table[3])
    ensures GetUnitCategory("bags") == Some(Count) && GetUnitCategory("Bags") == Some(Count)
  {
    assert Table[3].name == "bags";
    ResolveEntry(3);
    TableNamesLowerCase(3);
    assert Lower("Bags") == "bags";
  }

  /** An item stocked in bags of 100 pieces. */
  const BeansInBags := InventoryItem("beans", "Beans", None, "s1", None, 2.0,
                                     Some("bags"), Some("pieces"), Some(100.0), None, None)

  /** An item stocked in pieces, 100 to a bag. */
  const CupsInPieces := InventoryItem("cups", "Cups", None, "s1", None, 500.0,
                                      Some("pieces"), Some("pieces"), Some(100.0), None, None)

  /** Pieces and bags count, in any spelling, and are compatible. */
  lemma PiecesAndBags()
    ensures Lower("pieces") == "pieces" && Lower("bags") == "bags" && Lower("Bags") == "bags"
    ensures GetUnitCategory("pieces") == Some(Count) && GetUnitCategory("Bags") == Some(Count)
    ensures AreUnitsCompatible("pieces", "bags") && AreUnitsCompatible("Bags", "pieces")
  {
    ResolvePieces();
    ResolveBags();
  }

  /** A recipe needing 150 pieces of beans takes the pieces-to-containers
      rule. */
  lemma PiecesToBagsRule()
    ensures ConvertToInventoryUnit(150.0, Some("pieces"), BeansInBags) ==
              Some(ContainerConvert(150.0, true, false, 100.0))
  {
    PiecesAndBags();
    assert StockingUnit(BeansInBags) == "bags" && GetBaseUnit(BeansInBags) == "pieces";
    ContainerRules(150.0, Some("pieces"), BeansInBags, true, false, 100.0);
  }

  /** A recipe needing 150 pieces consumes 1.5 bags. */
  lemma PiecesToBagsExample()
    ensures ConvertToInventoryUnit(150.0, Some("pieces"), BeansInBags) == Some(1.5)
  {
    PiecesToBagsRule();
    ContainerConvertCases(150.0, true, false, 100.0);
  }

  /** Two bags, spelled in any case, of an item stocked in pieces take
      the containers-to-pieces rule. */
  lemma BagsToPiecesRule()
    ensures ConvertToInventoryUnit(2.0, Some("Bags"), CupsInPieces) ==
              Some(ContainerConvert(2.0, false, true, 100.0))
  {
    PiecesAndBags();
    assert StockingUnit(CupsInPieces) == "pieces" && GetBaseUnit(CupsInPieces) == "pieces";
    ContainerRules(2.0, Some("Bags"), CupsInPieces, false, true, 100.0);
  }

  /** A recipe needing two bags, spelled in any case, consumes 200 pieces. */
  lemma BagsToPiecesExample()
    ensures ConvertToInventoryUnit(2.0, Some("Bags"), CupsInPieces) == Some(200.0)
  {
    BagsToPiecesRule();
    ContainerConvertCases(2.0, false, true, 100.0);
  }

  /** The stock of an item expressed in its base unit, before rounding. */
  function BaseQuantity(item: InventoryItem): real {
    var quantity := item.quantity;
    var unit := StockingUnit(item);
    var baseUnit := GetBaseUnit(item);
    if Lower(unit) == Lower(baseUnit) then quantity
    else if GetUnitCategory(unit) == Some(Count) && HasPiecesPerUnit(item) then
      // the stock in containers times the pieces in a container
      ContainerConvert(quantity, false, true, item.piecesPerUnit.value)
    else
      var converted := ConvertUnit(quantity, unit, baseUnit);
      if converted.Some? && converted.value != 0.0 then converted.value else quantity
  }

  /** `getTotalBaseQuantity`: the stock expressed in the item's base unit,
      rounded to two decimals. */
  function GetTotalBaseQuantity(item: InventoryItem): (r: real)
    ensures Round2(r) == r
    ensures item.quantity - 0.005 < r <= item.quantity + 0.005 ||
            Lower(StockingUnit(item)) != Lower(GetBaseUnit(item))
  {
    var baseQuantity := BaseQuantity(item);
    Round2Idempotent(baseQuantity);
    Round2(baseQuantity)
  }

  /** Only zero converts to zero, so a zero conversion is never replaced
      by a different fallback value. */
  lemma ConvertZero(value: real, a: string, b: string)
    requires ConvertUnit(value, a, b) == Some(0.0)
    ensures value == 0.0
  {
    if Lower(a) != Lower(b) {
      KnownZero(value, Resolve(a).value, Resolve(b).value);
    }
  }

  /** Stock kept in the base unit is already in base units. */
  lemma BaseQuantityInBase(item: InventoryItem)
    requires Lower(StockingUnit(item)) == Lower(GetBaseUnit(item))
    ensures BaseQuantity(item) == item.quantity
  {
  }

  /** Stock kept in a count unit with a container size follows the
      containers-to-pieces rule of `convertToInventoryUnit`: the stock
      times the container size (`ContainerConvertCases`). */
  lemma BaseQuantityContainers(item: InventoryItem)
    requires Lower(StockingUnit(item)) != Lower(GetBaseUnit(item))
    requires GetUnitCategory(StockingUnit(item)) == Some(Count) && HasPiecesPerUnit(item)
    ensures BaseQuantity(item) == ContainerConvert(item.quantity, false, true, item.piecesPerUnit.value)
  {
  }

  /** Outside the count-with-container case, the stock in base units is
      the linear conversion into the base unit, or the stock itself when
      the units do not convert: the falsy fallback never replaces a
      conversion that succeeded, because only zero converts to zero. */
  lemma {:induction false} BaseQuantityConverted(item: InventoryItem)
    requires Lower(StockingUnit(item)) != Lower(GetBaseUnit(item))
    requires !(GetUnitCategory(StockingUnit(item)) == Some(Count) && HasPiecesPerUnit(item))
    ensures BaseQuantity(item) ==
              ConvertUnit(item.quantity, StockingUnit(item), GetBaseUnit(item)).GetOr(item.quantity)
  {
    var c := ConvertUnit(item.quantity, StockingUnit(item), GetBaseUnit(item));
    if c == Some(0.0) {
      ConvertZero(item.quantity, StockingUnit(item), GetBaseUnit(item));
    }
  }

  /** What `formatInventoryQuantity` shows, before numbers are rendered as
      text: the rounded stock in its unit, and for container items the
      rounded total in base units as well. */
  datatype QuantityDisplay =
    | Plain(quantity: real, unit: string)
    | Both(quantity: real, unit: string, totalBase: real, baseUnit: string)

  function FormatInventoryQuantity(item: InventoryItem): (d: QuantityDisplay)
    ensures d.quantity == Round2(item.quantity)
    ensures d.Both? <==> item.baseUnit.Some? && item.baseUnit.value != "" && HasPiecesPerUnit(item) &&
                         Lower(StockingUnit(item)) != Lower(GetBaseUnit(item))
    ensures d.Both? ==> d.totalBase == GetTotalBaseQuantity(item) && d.unit == StockingUnit(item)
    ensures d.Both? ==> d.baseUnit == GetBaseUnit(item)
    ensures d.Plain? && (item.baseUnit.None? || item.baseUnit.value == "" || !HasPiecesPerUnit(item)) ==>
              d.unit == StockingUnit(item)
    ensures d.Plain? && item.baseUnit.Some? && item.baseUnit.value != "" && HasPiecesPerUnit(item) ==>
              d.unit == GetBaseUnit(item)
  {
    var roundedQuantity := Round2(item.quantity);
    var unit := StockingUnit(item);
    var baseUnit := GetBaseUnit(item);
    if item.baseUnit.None? || item.baseUnit.value == "" || !HasPiecesPerUnit(item) then
      Plain(roundedQuantity, unit)
    else if Lower(unit) == Lower(baseUnit) then
      Plain(roundedQuantity, baseUnit)
    else
      var totalBase := GetTotalBaseQuantity(item);
      Both(roundedQuantity, unit, Round2(totalBase), baseUnit)
  }
}
