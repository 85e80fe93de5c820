/** The `Merchant` record: it keeps its details exactly as given. */
module Merchants {
  import opened Values

  /** The details hash handed to `Merchant.new`; a missing key reads as `None` (nil). */
  datatype MerchantDetails = MerchantDetails(id: Option<int>, name: Option<string>)

  datatype Merchant = Merchant(id: Option<int>, name: Option<string>)

  /** `Merchant.new(details)`: no coercion, so a nil id stays nil. */
  function New(d: MerchantDetails): (m: Merchant)
    ensures m.id == d.id
    ensures m.name == d.name
  {
    Merchant(d.id, d.name)
  }

  /** The two attribute readers, `id` and `name`, read back as a details hash. */
  function Details(m: Merchant): (d: MerchantDetails)
    ensures d.id == m.id
    ensures d.name == m.name
  {
    MerchantDetails(m.id, m.name)
  }

  /** Construction loses nothing: reading a new merchant back gives the details it was built
      from, and every merchant is the one built from its own readers. */
  lemma NewDetailsRoundTrip(d: MerchantDetails, m: Merchant)
    ensures Details(New(d)) == d
    ensures New(Details(m)) == m
  {
  }

  /** `update_name`: unconditional, so nil is stored too; the id is untouched. */
  function UpdateName(m: Merchant, name: Option<string>): (r: Merchant)
    ensures r.name == name
    ensures r.id == m.id
  {
    m.(name := name)
  }

  /** Renaming twice with the same value is renaming once. */
  lemma UpdateNameIdempotent(m: Merchant, name: Option<string>)
    ensures UpdateName(UpdateName(m, name), name) == UpdateName(m, name)
  {
  }

  /** The later of two renames wins outright, nil or not. */
  lemma UpdateNameLastWins(m: Merchant, first: Option<string>, second: Option<string>)
    ensures UpdateName(UpdateName(m, first), second) == UpdateName(m, second)
  {
  }

  /** The merchant after calling `update_name` with each of `names`, first to last. */
  function RenameAll(m: Merchant, names: seq<Option<string>>): Merchant
    decreases |names|
  {
    if |names| == 0 then m else RenameAll(UpdateName(m, names[0]), names[1..])
  }

  /** Any series of renames leaves the id alone and the last name given in place. */
  lemma {:induction false} RenameAllKeepsLast(m: Merchant, names: seq<Option<string>>)
    ensures RenameAll(m, names).id == m.id
    ensures RenameAll(m, names).name == (if |names| == 0 then m.name else names[|names| - 1])
    decreases |names|
  {
    if |names| > 0 {
      RenameAllKeepsLast(UpdateName(m, names[0]), names[1..]);
    }
  }
}
