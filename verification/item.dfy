/** The `Item` record: construction from a details hash and its field setters. */
module Items {
  import opened Values
  import opened Decimals

  /** An opaque timestamp: the `created_at`/`updated_at` object a caller supplied, or the
      clock reading `update_time` stores. The model never looks inside it. */
  datatype Stamp = Stamp(ticks: int)

  /** The details hash handed to `Item.new`; a missing key reads as `None` (nil). */
  datatype ItemDetails = ItemDetails(
    id: Option<int>,
    name: Option<string>,
    description: Option<string>,
    unitPrice: Option<Decimal>,
    createdAt: Option<Stamp>,
    updatedAt: Option<Stamp>,
    merchantId: Option<int>)

  /** An Item's instance variables. `id` may be nil because `update_id` stores whatever it is
      given; `unitPrice` is never nil because both the constructor and the setter reject nil. */
  datatype Item = Item(
    id: Option<int>,
    name: Option<string>,
    description: Option<string>,
    unitPrice: Decimal,
    createdAt: Option<Stamp>,
    updatedAt: Option<Stamp>,
    merchantId: int)

  /** `BigDecimal(nil)` raises a TypeError. */
  datatype ConstructionError = NilUnitPrice

  /** Ruby's `to_i` on an Integer or on nil (nil becomes 0). */
  function ToI(v: Option<int>): int {
    v.GetOr(0)
  }

  /** `Item.new(details)`. */
  function New(d: ItemDetails): (r: Result<Item, ConstructionError>)
    ensures r.Failure? <==> d.unitPrice.None?
    ensures r.Success? ==>
      && r.value.id.Some?
      && (d.id.Some? ==> r.value.id.value == d.id.value)
      && (d.id.None? ==> r.value.id.value == 0)
      && (d.merchantId.Some? ==> r.value.merchantId == d.merchantId.value)
      && (d.merchantId.None? ==> r.value.merchantId == 0)
    ensures r.Success? ==> Value(r.value.unitPrice) == Value(d.unitPrice.value) / 100.0
    ensures r.Success? ==>
      && r.value.name == d.name
      && r.value.description == d.description
      && r.value.createdAt == d.createdAt
      && r.value.updatedAt == d.updatedAt
  {
    match d.unitPrice
    case None => Failure(NilUnitPrice)
    case Some(p) =>
      Success(Item(
        id := Some(ToI(d.id)),
        name := d.name,
        description := d.description,
        unitPrice := DivBy100(p),
        createdAt := d.createdAt,
        updatedAt := d.updatedAt,
        merchantId := ToI(d.merchantId)))
  }

  /** An Integer price of `n` minor units becomes exactly `n / 100`. */
  lemma NewFromMinorUnits(d: ItemDetails, n: int)
    requires d.unitPrice == Some(FromInteger(n))
    ensures New(d).Success?
    ensures Value(New(d).value.unitPrice) == n as real / 100.0
  {
  }

  /** `update_id`: no nil guard, so nil is stored too. */
  function UpdateId(item: Item, id: Option<int>): (r: Item)
    ensures r.id == id
    ensures r.(id := item.id) == item
  {
    item.(id := id)
  }

  /** `update_name`: nil leaves the item as it was. */
  function UpdateName(item: Item, name: Option<string>): (r: Item)
    ensures name.None? ==> r == item
    ensures name.Some? ==> r.name == name
    ensures r.(name := item.name) == item
  {
    if name.None? then item else item.(name := name)
  }

  /** `update_description`: nil leaves the item as it was. */
  function UpdateDescription(item: Item, description: Option<string>): (r: Item)
    ensures description.None? ==> r == item
    ensures description.Some? ==> r.description == description
    ensures r.(description := item.description) == item
  {
    if description.None? then item else item.(description := description)
  }

  /** `update_unit_price`: nil leaves the item as it was; any other price is stored as given,
      without the division by 100 the constructor applies. */
  function UpdateUnitPrice(item: Item, price: Option<Decimal>): (r: Item)
    ensures price.None? ==> r == item
    ensures price.Some? ==> r.unitPrice == price.value
    ensures r.(unitPrice := item.unitPrice) == item
  {
    match price
    case None => item
    case Some(p) => item.(unitPrice := p)
  }

  /** `update_time`, with the clock reading `now` passed in. */
  function UpdateTime(item: Item, now: Stamp): (r: Item)
    ensures r.updatedAt == Some(now)
    ensures r.(updatedAt := item.updatedAt) == item
  {
    item.(updatedAt := Some(now))
  }

  /** Storing the price a new item was built from through `update_unit_price` gives 100 times
      the constructed price: the two paths agree only on a zero price. */
  lemma {:induction false} UnitPriceSetterSkipsScaling(d: ItemDetails)
    requires d.unitPrice.Some?
    ensures New(d).Success?
    ensures Value(UpdateUnitPrice(New(d).value, d.unitPrice).unitPrice)
            == 100.0 * Value(New(d).value.unitPrice)
    ensures Value(UpdateUnitPrice(New(d).value, d.unitPrice).unitPrice) == Value(New(d).value.unitPrice)
            <==> Value(d.unitPrice.value) == 0.0
  {
  }
}
