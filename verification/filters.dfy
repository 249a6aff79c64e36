/**
 The browse-view filter panel: how one edit rewrites the filter state, what
 the controls display for a given state, and the Clear Filters button.
 */
module Filters {
  import opened Optional
  import opened Types

  /** The keys of the filter state. */
  datatype FilterKey = CategoryKey | MinPriceKey | MaxPriceKey | MinRevenueKey | SortByKey

  /** A value a control hands to the change handler: the text of a select, a
      number from `Number(...)` applied to a number box, or a sort key. */
  datatype FieldValue = TextValue(text: string) | Number(number: real) | Sort(key: SortKey)

  /** The value stored under `key`, if any. */
  function Get(f: AssetFilters, key: FilterKey): Option<FieldValue> {
    match key
    case CategoryKey => if f.category.Some? then Some(TextValue(f.category.value)) else None
    case MinPriceKey => if f.minPrice.Some? then Some(Number(f.minPrice.value)) else None
    case MaxPriceKey => if f.maxPrice.Some? then Some(Number(f.maxPrice.value)) else None
    case MinRevenueKey => if f.minRevenue.Some? then Some(Number(f.minRevenue.value)) else None
    case SortByKey => if f.sortBy.Some? then Some(Sort(f.sortBy.value)) else None
  }

  /** `v` has the kind of value `key` holds. */
  predicate Fits(key: FilterKey, v: FieldValue) {
    match key
    case CategoryKey => v.TextValue?
    case MinPriceKey | MaxPriceKey | MinRevenueKey => v.Number?
    case SortByKey => v.Sort?
  }

  /** A control may pass a value of its key's kind, or the empty text. */
  predicate Admissible(key: FilterKey, v: FieldValue) {
    v == TextValue("") || Fits(key, v)
  }

  /** Stores `o` under `key` and leaves every other key as it was. */
  function Put(f: AssetFilters, key: FilterKey, o: Option<FieldValue>): (r: AssetFilters)
    requires o.Some? ==> Fits(key, o.value)
    ensures Get(r, key) == o
    ensures forall k :: k != key ==> Get(r, k) == Get(f, k)
  {
    match key
    case CategoryKey => f.(category := if o.Some? then Some(o.value.text) else None)
    case MinPriceKey => f.(minPrice := if o.Some? then Some(o.value.number) else None)
    case MaxPriceKey => f.(maxPrice := if o.Some? then Some(o.value.number) else None)
    case MinRevenueKey => f.(minRevenue := if o.Some? then Some(o.value.number) else None)
    case SortByKey => f.(sortBy := if o.Some? then Some(o.value.key) else None)
  }

  /** `handleFilterChange`: the empty string unsets the key, any other value
      is stored exactly, and no other key changes. */
  function HandleFilterChange(f: AssetFilters, key: FilterKey, v: FieldValue): (r: AssetFilters)
    requires Admissible(key, v)
    ensures v == TextValue("") ==> Get(r, key) == None
    ensures v != TextValue("") ==> Get(r, key) == Some(v)
    ensures forall k :: k != key ==> Get(r, k) == Get(f, k)
  {
    Put(f, key, if v == TextValue("") then None else Some(v))
  }

  /** Making the same edit twice leaves the state the first edit produced. */
  lemma HandleFilterChangeIdempotent(f: AssetFilters, key: FilterKey, v: FieldValue)
    requires Admissible(key, v)
    ensures HandleFilterChange(HandleFilterChange(f, key, v), key, v) == HandleFilterChange(f, key, v)
  {
  }

  /** The category select passes its option value; "" is "All Categories",
      which unsets the category. */
  function OnCategorySelect(f: AssetFilters, option: string): (r: AssetFilters)
    ensures r.category == if option == "" then None else Some(option)
    ensures forall k :: k != CategoryKey ==> Get(r, k) == Get(f, k)
  {
    HandleFilterChange(f, CategoryKey, TextValue(option))
  }

  /** The sort select passes one of its three option values. */
  function OnSortSelect(f: AssetFilters, key: SortKey): (r: AssetFilters)
    ensures r.sortBy == Some(key)
    ensures forall k :: k != SortByKey ==> Get(r, k) == Get(f, k)
  {
    HandleFilterChange(f, SortByKey, Sort(key))
  }

  predicate IsNumericKey(key: FilterKey) {
    key == MinPriceKey || key == MaxPriceKey || key == MinRevenueKey
  }

  /** A number box passes `Number(text)` of what was typed; `toNumber` stands
      for JavaScript's `Number`, which maps the empty string to 0. A number is
      never the empty string, so the value is always stored. */
  function OnNumberInput(f: AssetFilters, key: FilterKey, text: string, toNumber: string -> real): (r: AssetFilters)
    requires IsNumericKey(key)
    ensures Get(r, key) == Some(Number(toNumber(text)))
    ensures forall k :: k != key ==> Get(r, k) == Get(f, k)
  {
    HandleFilterChange(f, key, Number(toNumber(text)))
  }

  /** What the controls show. `None` in a number box is a blank box. */
  datatype FilterDisplay = FilterDisplay(
    categoryOption: string,
    minPriceBox: Option<real>,
    maxPriceBox: Option<real>,
    minRevenueBox: Option<real>,
    sortOption: SortKey)

  /** `value || ''` for a number box: an unset value and 0 both show blank. */
  function NumberBox(o: Option<real>): (shown: Option<real>)
    ensures shown.None? <==> o.None? || o.value == 0.0
    ensures shown.Some? ==> shown == o
  {
    if o.Some? && o.value != 0.0 then o else None
  }

  /** The option each select shows and the content of each number box: an
      unset or empty category shows "All Categories" (""), an unset sort
      shows "Most Recent" (date). */
  function Display(f: AssetFilters): (d: FilterDisplay)
    ensures d.categoryOption == (if f.category.Some? then f.category.value else "")
    ensures f.sortBy.None? ==> d.sortOption == ByDate
    ensures f.sortBy.Some? ==> d.sortOption == f.sortBy.value
    ensures d.minPriceBox == NumberBox(f.minPrice)
    ensures d.maxPriceBox == NumberBox(f.maxPrice)
    ensures d.minRevenueBox == NumberBox(f.minRevenue)
  {
    FilterDisplay(
      if f.category.Some? && f.category.value != "" then f.category.value else "",
      NumberBox(f.minPrice),
      NumberBox(f.maxPrice),
      NumberBox(f.minRevenue),
      if f.sortBy.Some? then f.sortBy.value else ByDate)
  }

  /** The state with nothing chosen. */
  const NoFilters := AssetFilters(None, None, None, None, None)

  /** Clear Filters: exactly `{sortBy: 'date'}`, with no category, price or
      revenue bound. */
  function ClearFilters(): (r: AssetFilters)
    ensures forall k :: k != SortByKey ==> Get(r, k) == None
    ensures Get(r, SortByKey) == Some(Sort(ByDate))
  {
    AssetFilters(None, None, None, None, Some(ByDate))
  }

  /** After Clear Filters the panel looks exactly as it does with nothing
      chosen, whatever the state was before. */
  lemma ClearedLooksUnfiltered()
    ensures Display(ClearFilters()) == Display(NoFilters)
  {
  }

  /** As written, emptying a number box does not clear the key: `Number("")`
      is 0, so the key holds 0 while the box shows blank, and the state is
      indistinguishable on screen from one where the key is unset. */
  lemma EmptiedNumberBoxStoresZero(f: AssetFilters, key: FilterKey, toNumber: string -> real)
    requires IsNumericKey(key)
    requires toNumber("") == 0.0
    ensures Get(OnNumberInput(f, key, "", toNumber), key) == Some(Number(0.0))
    ensures Display(OnNumberInput(f, key, "", toNumber)) == Display(Put(f, key, None))
  {
  }

  /** The number box as the clearing comment intends it: an empty box passes
      the empty string through, so the key is unset; any other text is stored
      as its number. */
  function OnNumberInputCorrected(f: AssetFilters, key: FilterKey, text: string, toNumber: string -> real): (r: AssetFilters)
    requires IsNumericKey(key)
    ensures text == "" ==> Get(r, key) == None
    ensures text != "" ==> Get(r, key) == Some(Number(toNumber(text)))
    ensures forall k :: k != key ==> Get(r, k) == Get(f, k)
  {
    HandleFilterChange(f, key, if text == "" then TextValue("") else Number(toNumber(text)))
  }
}
