/** Where the two records treat the same input differently. */
module Entities {
  import opened Values
  import Items
  import Merchants

  /** A missing id becomes 0 in an Item (`to_i`) but stays nil in a Merchant. */
  lemma NilIdCoercedOnlyForItems(d: Items.ItemDetails, md: Merchants.MerchantDetails)
    requires d.id.None? && d.unitPrice.Some?
    requires md.id.None?
    ensures Items.New(d).Success? && Items.New(d).value.id == Some(0)
    ensures Merchants.New(md).id.None?
  {
  }

  /** Renaming with nil is ignored by an Item but clears a Merchant's name. */
  lemma NilNameGuardedOnlyForItems(item: Items.Item, m: Merchants.Merchant)
    ensures Items.UpdateName(item, None) == item
    ensures Merchants.UpdateName(m, None).name.None?
  {
  }
}
