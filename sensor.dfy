/**
 * The sensor platform: which price entry of an item is current, which sensors an
 * item of the price document yields, and what a sensor reads from the coordinator's
 * data. Dates are day numbers and "today" is a parameter; the price fields are the
 * raw JSON values, before `float()`.
 */
module Sensor {
  import opened Common
  import Const

  /** A calendar date as a day number: what `date.fromisoformat` makes of the ISO string. */
  type Day = int

  /** A time-of-use slot of a direction: a JSON object. */
  type Slot = map<string, Json>

  /** One element of an item's `prices`: its `[from, to)` validity range, its `vatTariff`
      (JNull when absent, as `.get` gives None) and its `proportionalPriceConfigurations`
      (empty when absent), from direction name to the direction's slots. */
  datatype PriceEntry = PriceEntry(from: Day, to: Day, vatTariff: Json, configs: map<string, seq<Slot>>)

  /** One element of the document's `items`: its `ean` (None when absent) and its
      `prices` (empty when absent). */
  datatype Item = Item(ean: Option<string>, prices: seq<PriceEntry>)

  /** The price document: its `items` (empty when absent). */
  datatype PriceData = PriceData(items: seq<Item>)

  // ---------------------------------------------------------------------
  // Strings
  // ---------------------------------------------------------------------

  /** The position of the first c in s. */
  function IndexOf(s: string, c: char): (i: nat)
    requires c in s
    ensures i < |s| && s[i] == c && c !in s[..i]
  {
    if s[0] == c then 0
    else
      var j := IndexOf(s[1..], c);
      assert s[..j + 1] == [s[0]] + s[1..][..j];
      j + 1
  }

  /** `str.lower()` on ASCII letters. */
  function Lower(s: string): (r: string)
    ensures |r| == |s|
  {
    if s == [] then []
    else [if 'A' <= s[0] <= 'Z' then (s[0] as int + 32) as char else s[0]] + Lower(s[1..])
  }

  /** `ean.split("_", maxsplit=1)[0] if "_" in ean else ean`: the EAN up to its first underscore. */
  function EanShort(ean: string): string {
    if '_' in ean then ean[..IndexOf(ean, '_')] else ean
  }

  /** The short EAN is the longest prefix without an underscore: the whole EAN, or the part
      before its first underscore. */
  lemma EanShortSpec(ean: string)
    ensures var r := EanShort(ean);
      && r <= ean && '_' !in r
      && (r == ean <==> '_' !in ean)
      && (r != ean ==> ean[|r|] == '_')
  {
    if '_' in ean {
      var i := IndexOf(ean, '_');
      assert ean[..i] != ean by { assert |ean[..i]| == i < |ean|; }
    }
  }

  /** `value_key.split(".")` unpacked into two names: defined for keys with exactly one dot. */
  predicate IsValueKey(s: string) {
    '.' in s && '.' !in s[IndexOf(s, '.') + 1..]
  }

  function SplitValueKey(s: string): (string, string)
    requires IsValueKey(s)
  {
    var i := IndexOf(s, '.');
    (s[..i], s[i + 1..])
  }

  /** Joining a direction and a field with a dot and splitting the result gives them back. */
  lemma SplitJoin(direction: string, field: string)
    requires '.' !in direction && '.' !in field
    ensures IsValueKey(direction + "." + field)
    ensures SplitValueKey(direction + "." + field) == (direction, field)
  {
    var s := direction + "." + field;
    assert s[|direction|] == '.';
    assert s[..|direction|] == direction;
    assert IndexOf(s, '.') == |direction|;
    assert s[|direction| + 1..] == field;
  }

  // ---------------------------------------------------------------------
  // Energy type and current price
  // ---------------------------------------------------------------------

  /** `_detect_energy_type`. */
  function DetectEnergyType(ean: string): string {
    if StartsWith(ean, Const.GasEanPrefix) then "Gas"
    else if StartsWith(ean, Const.ElectricityEanPrefix) then "Electricity"
    else ean
  }

  /** A gas EAN gives "Gas", an electricity EAN "Electricity", any other EAN itself; the two
      prefixes differ in their eighth digit, so no EAN has both and the order of the
      checks does not matter. */
  lemma DetectEnergyTypeSpec(ean: string)
    ensures !(StartsWith(ean, Const.GasEanPrefix) && StartsWith(ean, Const.ElectricityEanPrefix))
    ensures StartsWith(ean, Const.GasEanPrefix) ==> DetectEnergyType(ean) == "Gas"
    ensures StartsWith(ean, Const.ElectricityEanPrefix) ==> DetectEnergyType(ean) == "Electricity"
    ensures !StartsWith(ean, Const.GasEanPrefix) && !StartsWith(ean, Const.ElectricityEanPrefix) ==>
      DetectEnergyType(ean) == ean
  {
    if |ean| >= 10 {
      assert ean[..10][7] == ean[7];
      assert Const.GasEanPrefix[7] != Const.ElectricityEanPrefix[7];
    }
  }

  /** The entry is valid on day today: `from_date <= today < to_date`. */
  predicate Covers(p: PriceEntry, today: Day) {
    p.from <= today < p.to
  }

  /** The first position at or after i whose entry covers today. */
  function FirstCovering(prices: seq<PriceEntry>, today: Day, i: nat): (r: Option<nat>)
    decreases |prices| - i
    ensures r.Some? ==> i <= r.value < |prices|
  {
    if i >= |prices| then None
    else if Covers(prices[i], today) then Some(i)
    else FirstCovering(prices, today, i + 1)
  }

  /** `_find_current_price`: the first entry covering today, else the last entry, else None. */
  function CurrentPrice(prices: seq<PriceEntry>, today: Day): Option<PriceEntry> {
    match FirstCovering(prices, today, 0)
    case Some(i) => Some(prices[i])
    case None => if |prices| == 0 then None else Some(prices[|prices| - 1])
  }

  /** A position found covers today and none before it from i on does; none found means
      no entry from i on covers today. */
  lemma {:induction false} FirstCoveringSpec(prices: seq<PriceEntry>, today: Day, i: nat)
    decreases |prices| - i
    ensures var r := FirstCovering(prices, today, i);
      && (r.Some? ==> Covers(prices[r.value], today) && forall j | i <= j < r.value :: !Covers(prices[j], today))
      && (r.None? ==> forall j | i <= j < |prices| :: !Covers(prices[j], today))
  {
    if i < |prices| && !Covers(prices[i], today) {
      FirstCoveringSpec(prices, today, i + 1);
    }
  }

  /** None only for an empty list; when some entry covers today, the first such one;
      otherwise the last entry. */
  lemma CurrentPriceSpec(prices: seq<PriceEntry>, today: Day)
    ensures var r := CurrentPrice(prices, today);
      && (r.None? <==> |prices| == 0)
      && ((forall k | 0 <= k < |prices| :: !Covers(prices[k], today)) && |prices| > 0 ==>
           r == Some(prices[|prices| - 1]))
    ensures var r := CurrentPrice(prices, today);
      forall k | 0 <= k < |prices| && Covers(prices[k], today) && (forall j | 0 <= j < k :: !Covers(prices[j], today)) ::
        r == Some(prices[k])
  {
    FirstCoveringSpec(prices, today, 0);
  }

  /** The `for price in prices` loop of `_find_current_price`, with its fallback. */
  method FindCurrentPrice(prices: seq<PriceEntry>, today: Day) returns (r: Option<PriceEntry>)
    ensures r == CurrentPrice(prices, today)
  {
    var i := 0;
    while i < |prices|
      invariant 0 <= i <= |prices|
      invariant FirstCovering(prices, today, i) == FirstCovering(prices, today, 0)
    {
      if Covers(prices[i], today) {
        return Some(prices[i]);
      }
      i := i + 1;
    }
    if |prices| == 0 {
      return None;
    }
    r := Some(prices[|prices| - 1]);
  }

  // ---------------------------------------------------------------------
  // Sensor descriptions
  // ---------------------------------------------------------------------

  /** The two directions a price configuration has sensors for. */
  datatype Direction = Offtake | Injection

  function DirectionName(d: Direction): string {
    if d == Offtake then "offtake" else "injection"
  }

  /** One tuple of `_build_sensor_descriptions`: a description, the item's full EAN and the
      dotted value key, all determined by the short EAN, the energy type, the direction
      and whether the price excludes VAT. The unit (EUR/kWh), the measurement state class
      and the display precision (6) are the same for every sensor. */
  datatype Descriptor = Descriptor(eanShort: string, energyType: string, ean: string, direction: Direction, exclVat: bool)
  {
    function Suffix(): string {
      DirectionName(direction) + (if exclVat then "_excl_vat" else "")
    }

    /** The description's `key`: the short EAN, an underscore and the suffix. */
    function Key(): string {
      eanShort + "_" + Suffix()
    }

    /** The description's `translation_key`, from the lower-cased energy type. */
    function TranslationKey(): string {
      Lower(energyType) + "_" + Suffix()
    }

    function Icon(): string {
      if direction == Offtake then "mdi:cash-minus" else "mdi:cash-plus"
    }

    /** The price field the sensor shows. */
    function FieldName(): string {
      if exclVat then "priceValueExclVAT" else "priceValue"
    }

    /** The value key `direction.field`, which `split(".")` takes apart again. */
    function ValueKey(): (r: string)
      ensures IsValueKey(r) && SplitValueKey(r) == (DirectionName(direction), FieldName())
    {
      SplitJoin(DirectionName(direction), FieldName());
      DirectionName(direction) + "." + FieldName()
    }
  }

  /** The direction has at least one slot: `configs.get(direction, [])` is non-empty. */
  predicate HasSlots(p: PriceEntry, direction: Direction) {
    DirectionName(direction) in p.configs && |p.configs[DirectionName(direction)]| > 0
  }

  /** The two sensors of one direction: the price and the price excluding VAT. */
  function DirectionSensors(short: string, energy: string, ean: string, direction: Direction): seq<Descriptor> {
    [Descriptor(short, energy, ean, direction, false), Descriptor(short, energy, ean, direction, true)]
  }

  /** The sensors of an item with the given short EAN, energy type, full EAN and current
      price: none without a current price, then the offtake pair when the current entry
      has offtake slots, then the injection pair when it has injection slots. */
  function SensorsFor(short: string, energy: string, ean: string, current: Option<PriceEntry>): seq<Descriptor> {
    match current
    case None => []
    case Some(p) =>
      (if HasSlots(p, Offtake) then DirectionSensors(short, energy, ean, Offtake) else [])
      + (if HasSlots(p, Injection) then DirectionSensors(short, energy, ean, Injection) else [])
  }

  /** The sensors of one item: its EAN defaults to "unknown"; the key uses the short EAN and
      the translation key the lower-cased energy type. */
  function ItemSensors(item: Item, today: Day): seq<Descriptor> {
    var ean := item.ean.GetOr("unknown");
    SensorsFor(EanShort(ean), DetectEnergyType(ean), ean, CurrentPrice(item.prices, today))
  }

  /** The sensors of a list of items, item by item. */
  function AllSensors(items: seq<Item>, today: Day): seq<Descriptor> {
    if items == [] then [] else AllSensors(items[..|items| - 1], today) + ItemSensors(items[|items| - 1], today)
  }

  /** `_build_sensor_descriptions`: the loop over the document's items. */
  method BuildSensorDescriptions(data: PriceData, today: Day) returns (sensors: seq<Descriptor>)
    ensures sensors == AllSensors(data.items, today)
  {
    sensors := [];
    var i := 0;
    while i < |data.items|
      invariant 0 <= i <= |data.items|
      invariant sensors == AllSensors(data.items[..i], today)
    {
      assert data.items[..i + 1][..i] == data.items[..i];
      ghost var before := sensors;
      var item := data.items[i];
      var ean := item.ean.GetOr("unknown");
      var energyType := DetectEnergyType(ean);
      var eanShort := EanShort(ean);
      var currentPrice := FindCurrentPrice(item.prices, today);
      if currentPrice.None? {
        i := i + 1;
        continue;
      }
      var configs := currentPrice.value.configs;
      var offtakeList := Get(configs, "offtake").GetOr([]);
      if |offtakeList| > 0 {
        sensors := sensors + DirectionSensors(eanShort, energyType, ean, Offtake);
      }
      var injectionList := Get(configs, "injection").GetOr([]);
      if |injectionList| > 0 {
        sensors := sensors + DirectionSensors(eanShort, energyType, ean, Injection);
      }
      assert sensors == before + SensorsFor(eanShort, energyType, ean, currentPrice);
      i := i + 1;
    }
    assert data.items[..i] == data.items;
  }

  /** An item yields 0, 2 or 4 sensors: none without a current price; otherwise the
      offtake price and its excl.-VAT twin exactly when the current entry has offtake
      slots, followed by the injection pair exactly when it has injection slots. Every
      sensor carries the item's full EAN, short EAN and energy type. */
  lemma SensorsForShape(short: string, energy: string, ean: string, current: Option<PriceEntry>)
    ensures var r := SensorsFor(short, energy, ean, current);
      var off := current.Some? && HasSlots(current.value, Offtake);
      var inj := current.Some? && HasSlots(current.value, Injection);
      && |r| == (if off then 2 else 0) + (if inj then 2 else 0)
      && (off ==> r[0].direction == Offtake && !r[0].exclVat && r[1].direction == Offtake && r[1].exclVat)
      && (inj ==> r[|r| - 2].direction == Injection && !r[|r| - 2].exclVat && r[|r| - 1].direction == Injection && r[|r| - 1].exclVat)
      && (forall k | 0 <= k < |r| :: r[k].ean == ean && r[k].eanShort == short && r[k].energyType == energy)
  {
  }

  /** Over a whole document: at most four sensors per item, and every sensor carries the
      EAN of one of the items (or "unknown"), with the short EAN and energy type derived
      from that EAN. */
  lemma {:induction false} AllSensorsProvenance(items: seq<Item>, today: Day)
    ensures |AllSensors(items, today)| <= 4 * |items|
    ensures var all := AllSensors(items, today);
      forall k | 0 <= k < |all| ::
        && all[k].eanShort == EanShort(all[k].ean) && all[k].energyType == DetectEnergyType(all[k].ean)
        && exists j | 0 <= j < |items| :: items[j].ean.GetOr("unknown") == all[k].ean
  {
    if items != [] {
      var init := items[..|items| - 1];
      var last := items[|items| - 1];
      AllSensorsProvenance(init, today);
      var ean := last.ean.GetOr("unknown");
      SensorsForShape(EanShort(ean), DetectEnergyType(ean), ean, CurrentPrice(last.prices, today));
      var all := AllSensors(items, today);
      var front := AllSensors(init, today);
      assert all == front + ItemSensors(last, today);
      forall k | 0 <= k < |all|
        ensures exists j | 0 <= j < |items| :: items[j].ean.GetOr("unknown") == all[k].ean
      {
        if k < |front| {
          var j :| 0 <= j < |init| && init[j].ean.GetOr("unknown") == front[k].ean;
          assert items[j] == init[j];
        } else {
          assert items[|items| - 1].ean.GetOr("unknown") == all[k].ean;
        }
      }
    }
  }

  /** A sensor's key is the short EAN, an underscore and its suffix, and distinct sensors of
      one item have distinct keys. */
  lemma DescriptorKeys(d: Descriptor, e: Descriptor)
    ensures StartsWith(d.Key(), d.eanShort + "_")
    ensures d.eanShort == e.eanShort && d != e && d.ean == e.ean && d.energyType == e.energyType ==> d.Key() != e.Key()
  {
    var p := d.eanShort + "_";
    assert d.Key()[..|p|] == p;
    if d.eanShort == e.eanShort && d.ean == e.ean && d.energyType == e.energyType && d.Key() == e.Key() {
      assert d.Key()[|p|..] == d.Suffix();
      assert e.Key()[|p|..] == e.Suffix();
    }
  }

  // ---------------------------------------------------------------------
  // What a sensor reads
  // ---------------------------------------------------------------------

  /** The first item whose `ean` is the given one, from position i on. */
  function FirstItemWith(items: seq<Item>, ean: string, i: nat): (r: Option<nat>)
    decreases |items| - i
    ensures r.Some? ==> i <= r.value < |items| && items[r.value].ean == Some(ean)
  {
    if i >= |items| then None
    else if items[i].ean == Some(ean) then Some(i)
    else FirstItemWith(items, ean, i + 1)
  }

  /** `_get_current_price_entry`: no data, or no item with the sensor's EAN, gives None;
      otherwise the current price of the first such item. */
  function CurrentPriceEntry(data: Option<PriceData>, ean: string, today: Day): Option<PriceEntry> {
    if data.None? then None
    else match FirstItemWith(data.value.items, ean, 0)
      case None => None
      case Some(i) => CurrentPrice(data.value.items[i].prices, today)
  }

  /** A position found is the first from i on whose item carries the EAN; none found means
      no item from i on carries it. */
  lemma {:induction false} FirstItemWithSpec(items: seq<Item>, ean: string, i: nat)
    decreases |items| - i
    ensures var r := FirstItemWith(items, ean, i);
      && (r.Some? ==> forall j | i <= j < r.value :: items[j].ean != Some(ean))
      && (r.None? ==> forall j | i <= j < |items| :: items[j].ean != Some(ean))
  {
    if i < |items| && items[i].ean != Some(ean) {
      FirstItemWithSpec(items, ean, i + 1);
    }
  }

  /** No data, or no item carrying the EAN, gives no entry; otherwise the result is the
      current price of the first item that carries the EAN, and an entry found is one. */
  lemma CurrentPriceEntrySpec(data: Option<PriceData>, ean: string, today: Day)
    ensures var r := CurrentPriceEntry(data, ean, today);
      && (data.None? ==> r.None?)
      && (data.Some? && (forall j | 0 <= j < |data.value.items| :: data.value.items[j].ean != Some(ean)) ==> r.None?)
      && (data.Some? ==> forall k | 0 <= k < |data.value.items| && data.value.items[k].ean == Some(ean)
                                    && (forall j | 0 <= j < k :: data.value.items[j].ean != Some(ean)) ::
            r == CurrentPrice(data.value.items[k].prices, today))
      && (r.Some? ==> data.Some? && exists k | 0 <= k < |data.value.items| ::
            && data.value.items[k].ean == Some(ean)
            && (forall j | 0 <= j < k :: data.value.items[j].ean != Some(ean))
            && r == CurrentPrice(data.value.items[k].prices, today))
  {
    if data.Some? {
      FirstItemWithSpec(data.value.items, ean, 0);
    }
  }

  /** The loop of `_get_current_price_entry`. */
  method GetCurrentPriceEntry(data: Option<PriceData>, ean: string, today: Day) returns (r: Option<PriceEntry>)
    ensures r == CurrentPriceEntry(data, ean, today)
  {
    if data.None? {
      return None;
    }
    var items := data.value.items;
    var i := 0;
    while i < |items|
      invariant 0 <= i <= |items|
      invariant FirstItemWith(items, ean, i) == FirstItemWith(items, ean, 0)
    {
      if items[i].ean == Some(ean) {
        r := FindCurrentPrice(items[i].prices, today);
        return;
      }
      i := i + 1;
    }
    r := None;
  }

  /** The slots of a direction of an entry: `configs.get(direction, [])`. */
  function Slots(p: PriceEntry, direction: string): seq<Slot> {
    Get(p.configs, direction).GetOr([])
  }

  /** `_get_price_value` on the entry found: the field of the direction's first slot, or
      None when there is no entry, the direction has no slot, or the field is absent or null. */
  function PriceValue(entry: Option<PriceEntry>, valueKey: string): Option<Json>
    requires IsValueKey(valueKey)
  {
    var (direction, field) := SplitValueKey(valueKey);
    if entry.None? then None
    else
      var slots := Slots(entry.value, direction);
      if |slots| == 0 then None
      else match Get(slots[0], field)
        case None => None
        case Some(v) => if v == JNull then None else Some(v)
  }

  /** For a sensor's value key: the value is present exactly when there is an entry, the
      sensor's direction has a slot, and the first slot holds the sensor's field with a
      non-null value, which is then the value. */
  lemma PriceValueSpec(entry: Option<PriceEntry>, d: Descriptor)
    ensures var r := PriceValue(entry, d.ValueKey());
      var first := if entry.Some? && HasSlots(entry.value, d.direction) then entry.value.configs[DirectionName(d.direction)][0] else map[];
      && (r.Some? <==> (entry.Some? && HasSlots(entry.value, d.direction) && d.FieldName() in first && first[d.FieldName()] != JNull))
      && (r.Some? ==> r.value == first[d.FieldName()])
  {
  }

  /** `native_value` before `float()`: the sensor's value read from the coordinator's data. */
  method GetPriceValue(sensor: Descriptor, data: Option<PriceData>, today: Day) returns (r: Option<Json>)
    ensures r == PriceValue(CurrentPriceEntry(data, sensor.ean, today), sensor.ValueKey())
  {
    var priceEntry := GetCurrentPriceEntry(data, sensor.ean, today);
    if priceEntry.None? {
      return None;
    }
    var (direction, fieldName) := SplitValueKey(sensor.ValueKey());
    var directionList := Get(priceEntry.value.configs, direction).GetOr([]);
    if |directionList| == 0 {
      return None;
    }
    var value := Get(directionList[0], fieldName);
    if value.None? || value.value == JNull {
      return None;
    }
    r := Some(value.value);
  }

  /** The attributes added when there is a current entry: its range, its VAT tariff and,
      when the sensor's direction has a slot, that slot's `timeOfUseSlotCode` (JNull when
      the slot has none). */
  datatype Period = Period(from: Day, to: Day, vatTariff: Json, slotCode: Option<Json>)

  /** `extra_state_attributes`: the EAN always, the period when there is a current entry. */
  datatype Attributes = Attributes(ean: string, period: Option<Period>)

  function StateAttributes(ean: string, entry: Option<PriceEntry>, valueKey: string): Attributes
    requires IsValueKey(valueKey)
  {
    match entry
    case None => Attributes(ean, None)
    case Some(p) =>
      var slots := Slots(p, SplitValueKey(valueKey).0);
      Attributes(ean, Some(Period(p.from, p.to, p.vatTariff,
        if |slots| > 0 then Some(Get(slots[0], "timeOfUseSlotCode").GetOr(JNull)) else None)))
  }

  /** The attributes always name the sensor's EAN; they carry a period exactly when there is
      a current entry, with the entry's own range and tariff, and a slot code exactly when the
      sensor's direction has a slot: the first slot's `timeOfUseSlotCode`, JNull when absent. */
  lemma StateAttributesSpec(entry: Option<PriceEntry>, d: Descriptor)
    ensures var a := StateAttributes(d.ean, entry, d.ValueKey());
      && a.ean == d.ean
      && (a.period.Some? <==> entry.Some?)
      && (entry.Some? ==> a.period.value.from == entry.value.from && a.period.value.to == entry.value.to
                          && a.period.value.vatTariff == entry.value.vatTariff
                          && (a.period.value.slotCode.Some? <==> HasSlots(entry.value, d.direction))
                          && (HasSlots(entry.value, d.direction) ==>
                                a.period.value.slotCode ==
                                  Some(Get(Slots(entry.value, DirectionName(d.direction))[0], "timeOfUseSlotCode").GetOr(JNull))))
  {
  }

  /** `extra_state_attributes` of a sensor over the coordinator's data. */
  method ExtraStateAttributes(sensor: Descriptor, data: Option<PriceData>, today: Day) returns (a: Attributes)
    ensures a == StateAttributes(sensor.ean, CurrentPriceEntry(data, sensor.ean, today), sensor.ValueKey())
  {
    var priceEntry := GetCurrentPriceEntry(data, sensor.ean, today);
    if priceEntry.None? {
      return Attributes(sensor.ean, None);
    }
    var (direction, _) := SplitValueKey(sensor.ValueKey());
    var directionList := Get(priceEntry.value.configs, direction).GetOr([]);
    var slotCode := None;
    if |directionList| > 0 {
      slotCode := Some(Get(directionList[0], "timeOfUseSlotCode").GetOr(JNull));
    }
    a := Attributes(sensor.ean, Some(Period(priceEntry.value.from, priceEntry.value.to, priceEntry.value.vatTariff, slotCode)));
  }
}
