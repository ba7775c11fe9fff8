/**
 * The transaction record. The source keeps each transaction as a mutable
 * dictionary that is shared between the global pending list and the views of
 * its dialogue; `Transaction` is that dictionary, and `TxData` is its value
 * at one moment (what the dispatcher and the cache receive as JSON).
 * An absent key is `None`. Field values are opaque JSON scalars, kept as strings.
 */
module Records {

  import opened Wrappers

  datatype TxData = TxData(
    uuid: string,
    reference: string,
    date: string,
    time: string,
    amount: string,
    recipient: string,
    category: Option<string>,
    subcategory: Option<string>,
    remarks: Option<string>)

  /** Python truthiness of the `remarks` argument of save_category: None and "" are false. */
  predicate Truthy(remarks: Option<string>)
  {
    remarks.Some? && remarks.value != ""
  }

  /**
   * The record after save_category has written into it: `category` and
   * `subcategory` are set, `remarks` is set only for a truthy remark and is
   * otherwise left as it was, and every other field is untouched.
   */
  function Saved(d: TxData, category: string, subcategory: string, remarks: Option<string>): (r: TxData)
    ensures r.category == Some(category) && r.subcategory == Some(subcategory)
    ensures Truthy(remarks) ==> r.remarks == remarks
    ensures !Truthy(remarks) ==> r.remarks == d.remarks
    ensures r.uuid == d.uuid && r.reference == d.reference && r.date == d.date
    ensures r.time == d.time && r.amount == d.amount && r.recipient == d.recipient
  {
    d.(category := Some(category), subcategory := Some(subcategory),
       remarks := if Truthy(remarks) then remarks else d.remarks)
  }

  /** A record never carries a subcategory without a category (the ordering invariant). */
  predicate Ordered(d: TxData)
  {
    (d.subcategory.Some? ==> d.category.Some?) && (d.remarks.Some? ==> d.subcategory.Some?)
  }

  /** After save_category every record satisfies the ordering invariant, even one that lacked it. */
  lemma SavedKeepsOrder(d: TxData, category: string, subcategory: string, remarks: Option<string>)
    ensures Ordered(Saved(d, category, subcategory, remarks))
  {
  }

  /** On an uncategorised record, a falsy remark leaves the `remarks` key absent. */
  lemma FalsyRemarkLeavesKeyAbsent(d: TxData, category: string, subcategory: string, remarks: Option<string>)
    requires d.remarks.None?
    ensures Saved(d, category, subcategory, remarks).remarks.Some? <==> Truthy(remarks)
  {
  }

  /** The shared, mutable transaction dictionary. */
  class Transaction {
    var uuid: string
    var reference: string
    var date: string
    var time: string
    var amount: string
    var recipient: string
    var category: Option<string>
    var subcategory: Option<string>
    var remarks: Option<string>

    /** A new dictionary decoded from a JSON object. */
    constructor (d: TxData)
      ensures Snapshot() == d
    {
      uuid, reference, date, time := d.uuid, d.reference, d.date, d.time;
      amount, recipient := d.amount, d.recipient;
      category, subcategory, remarks := d.category, d.subcategory, d.remarks;
    }

    /** The dictionary's current contents, as they would be serialised. */
    function Snapshot(): TxData
      reads this
    {
      TxData(uuid, reference, date, time, amount, recipient, category, subcategory, remarks)
    }

    /** The in-place writes of save_category (bot.py:126-130). */
    method Save(cat: string, sub: string, rem: Option<string>)
      modifies this
      ensures Snapshot() == Saved(old(Snapshot()), cat, sub, rem)
    {
      category := Some(cat);
      subcategory := Some(sub);
      if Truthy(rem) {
        remarks := rem;
      }
    }
  }
}
