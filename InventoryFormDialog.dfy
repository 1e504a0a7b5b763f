/**
 * The dialog that edits an inventory batch or creates one for a product: how its form is
 * filled, how input changes it, and the checks run before the batch is handed to the caller.
 */
module InventoryFormDialog {
  import opened Wrappers
  import opened Text
  import Numeric
  import Db
  import opened FormOutcome
  import AddStockForm

  /** The inputs of the form, by their `name`. */
  datatype Field = QuantityField | LocationField | BatchIdField | ThresholdField

  /** A blank batch of a product: quantity 0, no location, threshold 5, a generated batch id. */
  function Blank(productId: int, now: nat): (item: Db.InventoryItem)
    ensures item.productId == productId && item.quantity == 0 && item.location == ""
    ensures item.lowStockThreshold == AddStockForm.DefaultThreshold
    ensures item.batchId == AddStockForm.GenerateBatchId(now)
    ensures item.expiryDate.None? && item.purchaseDate.None?
  {
    Db.InventoryItem(productId, 0, "", AddStockForm.DefaultThreshold, AddStockForm.GenerateBatchId(now), None, None)
  }

  /** The form copy of a batch: its five editable fields; expiry and purchase dates are dropped. */
  function Editable(item: Db.InventoryItem): (form: Db.InventoryItem)
    ensures form.productId == item.productId && form.quantity == item.quantity
    ensures form.location == item.location && form.lowStockThreshold == item.lowStockThreshold
    ensures form.batchId == item.batchId
    ensures form.expiryDate.None? && form.purchaseDate.None?
  {
    Db.InventoryItem(item.productId, item.quantity, item.location, item.lowStockThreshold, item.batchId, None, None)
  }

  /** Taking the form copy twice is taking it once; a batch without dates is its own copy. */
  lemma EditableIdempotent(item: Db.InventoryItem)
    ensures Editable(Editable(item)) == Editable(item)
    ensures item.expiryDate.None? && item.purchaseDate.None? ==> Editable(item) == item
  {
  }

  /**
   * The submit guards, in order: the quantity may not be negative (0 is allowed), then the
   * location may not be empty or white space only.
   */
  function CheckInventory(item: Db.InventoryItem): (refusal: Option<string>)
    ensures refusal.None? <==> item.quantity >= 0 && !AllSpace(item.location)
    ensures item.quantity < 0 ==> refusal == Some("Quantity cannot be negative")
    ensures item.quantity >= 0 && AllSpace(item.location) ==> refusal == Some("Location is required")
  {
    TrimEmptyIff(item.location);
    if item.quantity < 0 then Some("Quantity cannot be negative")
    else if Trim(item.location) == "" then Some("Location is required")
    else None
  }

  class Dialog {
    var formData: Db.InventoryItem
    var isSubmitting: bool
    var open: bool

    /** The initial form: the given product id or 0, and otherwise blank. */
    constructor(productId: Option<int>, now: nat, open: bool)
      ensures formData == Blank(productId.GetOr(0), now)
      ensures !isSubmitting && this.open == open
    {
      formData := Blank(productId.GetOr(0), now);
      isSubmitting := false;
      this.open := open;
    }

    /**
     * The effect run when the batch, the product id or `open` changes: copy the batch being
     * edited; else, for a product id (0 counts as none), start a blank batch of that product;
     * else keep the form.
     */
    method Load(inventoryItem: Option<Db.InventoryItem>, productId: Option<int>, now: nat)
      modifies this
      ensures inventoryItem.Some? ==> formData == Editable(inventoryItem.value)
      ensures inventoryItem.None? && productId.Some? && productId.value != 0 ==>
        formData == Blank(productId.value, now)
      ensures inventoryItem.None? && (productId.None? || productId.value == 0) ==> formData == old(formData)
      ensures isSubmitting == old(isSubmitting) && open == old(open)
    {
      if inventoryItem.Some? {
        formData := Editable(inventoryItem.value);
      } else if productId.Some? && productId.value != 0 {
        formData := Blank(productId.value, now);
      }
    }

    /** `handleChange`: only the named field changes; the numeric ones are parsed. */
    method HandleChange(field: Field, value: string)
      modifies this
      ensures field == QuantityField ==> formData == old(formData).(quantity := Numeric.IntegerInput(value))
      ensures field == LocationField ==> formData == old(formData).(location := value)
      ensures field == BatchIdField ==> formData == old(formData).(batchId := value)
      ensures field == ThresholdField ==> formData == old(formData).(lowStockThreshold := Numeric.IntegerInput(value))
      ensures isSubmitting == old(isSubmitting) && open == old(open)
    {
      match field
      case QuantityField => formData := formData.(quantity := Numeric.IntegerInput(value));
      case LocationField => formData := formData.(location := value);
      case BatchIdField => formData := formData.(batchId := value);
      case ThresholdField => formData := formData.(lowStockThreshold := Numeric.IntegerInput(value));
    }

    /**
     * `handleSubmit`: a refused form changes nothing; an accepted one is handed to `onSave`,
     * whose success is `saveSucceeds`. The dialog closes only after a save, and `isSubmitting`
     * is false again whichever way the save went. The form itself is left as it was.
     */
    method Submit(saveSucceeds: bool) returns (outcome: Outcome<Db.InventoryItem>)
      modifies this
      ensures CheckInventory(old(formData)).Some? ==>
        outcome == Rejected(CheckInventory(old(formData)).value) && isSubmitting == old(isSubmitting)
      ensures CheckInventory(old(formData)).None? ==> !isSubmitting
      ensures CheckInventory(old(formData)).None? ==>
        outcome == (if saveSucceeds then Saved(old(formData))
                    else SaveFailed(old(formData), "Failed to save inventory item"))
      ensures formData == old(formData)
      ensures open == (old(open) && !outcome.Saved?)
    {
      var refusal := CheckInventory(formData);
      if refusal.Some? {
        return Rejected(refusal.value);
      }
      isSubmitting := true;
      if saveSucceeds {
        open := false;
        outcome := Saved(formData);
      } else {
        outcome := SaveFailed(formData, "Failed to save inventory item");
      }
      isSubmitting := false;
    }
  }

  /** A zero quantity is accepted and a location of spaces is refused. */
  lemma GuardExamples(now: nat)
    ensures CheckInventory(Blank(7, now).(location := "A-1")) == None
    ensures CheckInventory(Blank(7, now).(location := "  ")) == Some("Location is required")
    ensures CheckInventory(Blank(7, now).(quantity := -1)) == Some("Quantity cannot be negative")
  {
    assert !AllSpace("A-1") by { assert !IsJsSpace("A-1"[0]); }
    assert AllSpace("  ") by {
      assert forall i :: 0 <= i < |"  "| ==> "  "[i] == ' ';
    }
  }
}
