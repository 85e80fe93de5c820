/** A series of setter calls made on one Item object, in order. Each call replaces the
    object's state, so the series is a left fold of the single-call setters. */
module ItemHistory {
  import opened Values
  import opened Decimals
  import opened Items

  /** One call to an Item setter, with its argument. */
  datatype Call =
    | SetId(newId: Option<int>)
    | SetName(newName: Option<string>)
    | SetDescription(newDescription: Option<string>)
    | SetUnitPrice(newPrice: Option<Decimal>)
    | SetTime(now: Stamp)

  function Apply(item: Item, c: Call): Item {
    match c
    case SetId(v) => UpdateId(item, v)
    case SetName(v) => UpdateName(item, v)
    case SetDescription(v) => UpdateDescription(item, v)
    case SetUnitPrice(v) => UpdateUnitPrice(item, v)
    case SetTime(now) => UpdateTime(item, now)
  }

  /** The item after performing `calls` first to last. */
  function Run(item: Item, calls: seq<Call>): Item
    decreases |calls|
  {
    if |calls| == 0 then item else Run(Apply(item, calls[0]), calls[1..])
  }

  /** The argument of the last `update_id` call, nil included (no guard). */
  function LastId(calls: seq<Call>): Option<Option<int>>
    decreases |calls|
  {
    if |calls| == 0 then None
    else if calls[|calls| - 1].SetId? then Some(calls[|calls| - 1].newId)
    else LastId(calls[..|calls| - 1])
  }

  /** The last non-nil argument of an `update_name` call. */
  function LastName(calls: seq<Call>): Option<string>
    decreases |calls|
  {
    if |calls| == 0 then None
    else if calls[|calls| - 1].SetName? && calls[|calls| - 1].newName.Some? then calls[|calls| - 1].newName
    else LastName(calls[..|calls| - 1])
  }

  /** The last non-nil argument of an `update_description` call. */
  function LastDescription(calls: seq<Call>): Option<string>
    decreases |calls|
  {
    if |calls| == 0 then None
    else if calls[|calls| - 1].SetDescription? && calls[|calls| - 1].newDescription.Some?
    then calls[|calls| - 1].newDescription
    else LastDescription(calls[..|calls| - 1])
  }

  /** The last non-nil argument of an `update_unit_price` call. */
  function LastPrice(calls: seq<Call>): Option<Decimal>
    decreases |calls|
  {
    if |calls| == 0 then None
    else if calls[|calls| - 1].SetUnitPrice? && calls[|calls| - 1].newPrice.Some?
    then calls[|calls| - 1].newPrice
    else LastPrice(calls[..|calls| - 1])
  }

  /** The clock reading of the last `update_time` call. */
  function LastTime(calls: seq<Call>): Option<Stamp>
    decreases |calls|
  {
    if |calls| == 0 then None
    else if calls[|calls| - 1].SetTime? then Some(calls[|calls| - 1].now)
    else LastTime(calls[..|calls| - 1])
  }

  /** Running one more call is applying it to the result of the earlier ones. */
  lemma {:induction false} RunSnoc(item: Item, calls: seq<Call>, c: Call)
    ensures Run(item, calls + [c]) == Apply(Run(item, calls), c)
    decreases |calls|
  {
    if |calls| == 0 {
      assert calls + [c] == [c];
    } else {
      assert (calls + [c])[1..] == calls[1..] + [c];
      RunSnoc(Apply(item, calls[0]), calls[1..], c);
    }
  }

  /** Every call's effect on the item, field by field: a field holds the last value stored into
      it (nil arguments to the guarded setters store nothing), or its old value when no call
      stored one; `merchant_id` and `created_at` have no setter and never change. */
  lemma {:induction false} RunFields(item: Item, calls: seq<Call>)
    ensures Run(item, calls).id == (if LastId(calls).Some? then LastId(calls).value else item.id)
    ensures Run(item, calls).name == (if LastName(calls).Some? then LastName(calls) else item.name)
    ensures Run(item, calls).description
            == (if LastDescription(calls).Some? then LastDescription(calls) else item.description)
    ensures Run(item, calls).unitPrice
            == (if LastPrice(calls).Some? then LastPrice(calls).value else item.unitPrice)
    ensures Run(item, calls).updatedAt
            == (if LastTime(calls).Some? then LastTime(calls) else item.updatedAt)
    ensures Run(item, calls).merchantId == item.merchantId
    ensures Run(item, calls).createdAt == item.createdAt
    decreases |calls|
  {
    if |calls| > 0 {
      var init, c := calls[..|calls| - 1], calls[|calls| - 1];
      assert calls == init + [c];
      RunSnoc(item, init, c);
      RunFields(item, init);
    }
  }

  /** The guarded setters never store nil, so a name or description that is present stays
      present through any series of calls. */
  lemma {:induction false} RunKeepsPresentText(item: Item, calls: seq<Call>)
    ensures item.name.Some? ==> Run(item, calls).name.Some?
    ensures item.description.Some? ==> Run(item, calls).description.Some?
  {
    RunFields(item, calls);
  }

  /** Which instance variable a call writes. */
  datatype Field = IdField | NameField | DescriptionField | PriceField | TimeField

  function FieldOf(c: Call): Field {
    match c
    case SetId(_) => IdField
    case SetName(_) => NameField
    case SetDescription(_) => DescriptionField
    case SetUnitPrice(_) => PriceField
    case SetTime(_) => TimeField
  }

  /** Calls that write different fields can be made in either order. */
  lemma DistinctFieldsCommute(item: Item, a: Call, b: Call)
    requires FieldOf(a) != FieldOf(b)
    ensures Apply(Apply(item, a), b) == Apply(Apply(item, b), a)
  {
  }

  /** Repeating a call changes nothing more. For `SetTime` this covers a repeat that reads the
      same clock value; a real second `update_time` reads a later `Time.now`. */
  lemma ApplyIdempotent(item: Item, c: Call)
    ensures Apply(Apply(item, c), c) == Apply(item, c)
  {
  }
}
