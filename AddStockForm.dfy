/**
 * The form that adds a stock batch of one product: its fields, the checks run on submit, the
 * batch record it saves, and how it resets afterwards.
 */
module AddStockForm {
  import opened Wrappers
  import Numeric
  import Db
  import opened FormOutcome

  const DefaultThreshold: int := 5
  const ShelfLifeDays: int := 365

  /** `BATCH-` and the last six characters of the millisecond clock's decimal text. */
  function GenerateBatchId(now: nat): (id: string)
    ensures 7 <= |id| <= 12 && id[..6] == "BATCH-"
    ensures now >= 100000 ==> id == "BATCH-" + Numeric.FixedDigits(now, 6)
    ensures now < 100000 ==> id == "BATCH-" + Numeric.NatToDecimal(now)
  {
    if now >= Numeric.Pow10(5) then
      Numeric.LastDigitsOfDecimal(now, 6);
      "BATCH-" + Numeric.LastChars(Numeric.NatToDecimal(now), 6)
    else
      Numeric.DecimalLengthAtMost(now, 5);
      "BATCH-" + Numeric.LastChars(Numeric.NatToDecimal(now), 6)
  }

  /** A present-day clock reading keeps its last six digits, leading zeros included. */
  lemma BatchIdExample()
    ensures GenerateBatchId(1700000012345) == "BATCH-012345"
  {
    assert Numeric.FixedDigits(17000000, 1) == "0";
    assert Numeric.FixedDigits(170000001, 2) == "01";
    assert Numeric.FixedDigits(1700000012, 3) == "012";
    assert Numeric.FixedDigits(17000000123, 4) == "0123";
    assert Numeric.FixedDigits(170000001234, 5) == "01234";
    assert Numeric.FixedDigits(1700000012345, 6) == "012345";
  }

  /**
   * The submit guards, in order: the quantity must be positive, then the location must be
   * non-empty; a location of spaces passes, since it is not trimmed.
   */
  function CheckNewStock(quantity: int, location: string): (refusal: Option<string>)
    ensures refusal.None? <==> quantity > 0 && location != ""
    ensures quantity <= 0 ==> refusal == Some("Quantity must be greater than zero")
    ensures quantity > 0 && location == "" ==> refusal == Some("Location is required")
  {
    if quantity <= 0 then Some("Quantity must be greater than zero")
    else if location == "" then Some("Location is required")
    else None
  }

  /**
   * The threshold input's `parseInt(value) || 5`, on the text of a number field (so decimal):
   * an empty input and `0` both give 5.
   */
  function ThresholdInput(text: string): (t: int)
    ensures t != 0
    ensures t == DefaultThreshold || Numeric.ParseInt(text) == Some(t)
    ensures Numeric.ParseInt(text).Some? && Numeric.ParseInt(text).value != 0 ==> t == Numeric.ParseInt(text).value
  {
    Numeric.ParseIntOr(text, DefaultThreshold)
  }

  /** Typing 0 as the threshold gives 5, typing 12 gives 12, clearing the input gives 5. */
  lemma ThresholdInputExamples()
    ensures ThresholdInput("0") == 5
    ensures ThresholdInput("12") == 12
    ensures ThresholdInput("") == 5
  {
    assert Numeric.IntToDecimal(0) == "0";
    ThresholdOfDecimal(0);
    assert Numeric.IntToDecimal(12) == "12" by {
      assert Numeric.NatToDecimal(12) == Numeric.NatToDecimal(1) + [Numeric.DigitChar(2)];
    }
    ThresholdOfDecimal(12);
    EmptyThreshold();
  }

  /** Typing a whole number gives that number as the threshold, except 0, which gives 5. */
  lemma ThresholdOfDecimal(n: int)
    ensures ThresholdInput(Numeric.IntToDecimal(n)) == if n == 0 then DefaultThreshold else n
  {
    Numeric.ParseIntOrDecimal(n, DefaultThreshold);
  }

  /** Clearing the threshold input gives 5. */
  lemma EmptyThreshold()
    ensures ThresholdInput("") == DefaultThreshold
  {
    assert Numeric.ParseInt("") == None by {
      assert Numeric.ParseDigits("") == None;
    }
  }

  /** The add-stock form of one product. */
  class Form {
    const productId: int
    var quantity: int
    var location: string
    var batchId: string
    var expiryDate: Option<int>
    var purchaseDate: Option<int>
    var lowStockThreshold: int
    /** Whether the dialog holding the form is open. */
    var open: bool

    /**
     * A fresh form for a stored product, whose id callers are taken to pass (the source's
     * `product.id!` checks nothing at run time): quantity 1, no location, a generated batch id,
     * expiry a year from now, purchased now, threshold 5.
     */
    constructor(product: Db.Product, now: nat)
      requires product.id.Some?
      ensures productId == product.id.value
      ensures quantity == 1 && location == "" && batchId == GenerateBatchId(now)
      ensures expiryDate == Some(now + ShelfLifeDays * Db.DAY) && purchaseDate == Some(now)
      ensures lowStockThreshold == DefaultThreshold
      ensures open
    {
      productId := product.id.value;
      quantity := 1;
      location := "";
      batchId := GenerateBatchId(now);
      expiryDate := Some(now + ShelfLifeDays * Db.DAY);
      purchaseDate := Some(now);
      lowStockThreshold := DefaultThreshold;
      open := true;
    }

    /** The batch the form would save. */
    function Batch(): Db.InventoryItem
      reads this
    {
      Db.InventoryItem(productId, quantity, location, lowStockThreshold, batchId, expiryDate, purchaseDate)
    }

    method EnterQuantity(text: string)
      modifies this
      ensures quantity == Numeric.IntegerInput(text)
      ensures Batch() == old(Batch()).(quantity := quantity) && open == old(open)
    {
      quantity := Numeric.IntegerInput(text);
    }

    method EnterLocation(text: string)
      modifies this
      ensures Batch() == old(Batch()).(location := text) && open == old(open)
    {
      location := text;
    }

    method EnterBatchId(text: string)
      modifies this
      ensures Batch() == old(Batch()).(batchId := text) && open == old(open)
    {
      batchId := text;
    }

    method PickPurchaseDate(date: Option<int>)
      modifies this
      ensures Batch() == old(Batch()).(purchaseDate := date) && open == old(open)
    {
      purchaseDate := date;
    }

    method PickExpiryDate(date: Option<int>)
      modifies this
      ensures Batch() == old(Batch()).(expiryDate := date) && open == old(open)
    {
      expiryDate := date;
    }

    method EnterThreshold(text: string)
      modifies this
      ensures lowStockThreshold == ThresholdInput(text)
      ensures Batch() == old(Batch()).(lowStockThreshold := lowStockThreshold) && open == old(open)
    {
      lowStockThreshold := ThresholdInput(text);
    }

    /**
     * `handleSubmit`: a refused form changes nothing. Otherwise the form's batch is handed to
     * the save call, whose success is `saveSucceeds`; after a save the dialog closes and the
     * form resets every field but the threshold; after a failure nothing changes.
     */
    method Submit(saveSucceeds: bool, now: nat) returns (outcome: Outcome<Db.InventoryItem>)
      modifies this
      ensures CheckNewStock(old(quantity), old(location)).Some? ==>
        outcome == Rejected(CheckNewStock(old(quantity), old(location)).value)
      ensures CheckNewStock(old(quantity), old(location)).None? ==>
        outcome == (if saveSucceeds then Saved(old(Batch())) else SaveFailed(old(Batch()), "Failed to add stock"))
      ensures outcome.Saved? ==>
        && quantity == 1 && location == "" && batchId == GenerateBatchId(now)
        && expiryDate == Some(now + ShelfLifeDays * Db.DAY) && purchaseDate == Some(now)
        && lowStockThreshold == old(lowStockThreshold) && !open
      ensures !outcome.Saved? ==> Batch() == old(Batch()) && open == old(open)
    {
      var refusal := CheckNewStock(quantity, location);
      if refusal.Some? {
        return Rejected(refusal.value);
      }
      var batch := Batch();
      if !saveSucceeds {
        return SaveFailed(batch, "Failed to add stock");
      }
      open := false;
      quantity := 1;
      location := "";
      batchId := GenerateBatchId(now);
      expiryDate := Some(now + ShelfLifeDays * Db.DAY);
      purchaseDate := Some(now);
      outcome := Saved(batch);
    }
  }
}
