/**
 * The product card's quantity picker: a counter that starts at 1, never drops below 1, does not
 * pass the stock of the batch shown, and goes back to 1 once the quantity is added to the bill.
 */
module ProductCard {
  import opened Wrappers
  import Db

  /** A press of one of the two counter buttons. */
  datatype Press = Increment | Decrement

  /** The stock the counter is capped at, when the card shows an inventory batch. */
  function StockOf(inventoryItem: Option<Db.InventoryItem>): Option<int>
  {
    match inventoryItem
    case Some(item) => Some(item.quantity)
    case None => None
  }

  /** The increment guard, which is also when the plus button is disabled. */
  predicate AtStockLimit(quantity: int, stock: Option<int>)
  {
    stock.Some? && quantity >= stock.value
  }

  /** The decrement guard's negation, which is when the minus button is disabled. */
  predicate AtMinimum(quantity: int)
  {
    quantity <= 1
  }

  /**
   * The counter after one press: plus adds exactly 1 unless the stock is reached, minus takes
   * exactly 1 unless the counter is at 1.
   */
  function Pressed(quantity: int, press: Press, stock: Option<int>): (q: int)
    ensures press == Increment ==> q == (if AtStockLimit(quantity, stock) then quantity else quantity + 1)
    ensures press == Decrement ==> q == (if AtMinimum(quantity) then quantity else quantity - 1)
    ensures quantity >= 1 ==> q >= 1
    ensures stock.Some? && quantity <= stock.value ==> q <= stock.value
  {
    match press
    case Increment => if AtStockLimit(quantity, stock) then quantity else quantity + 1
    case Decrement => if quantity > 1 then quantity - 1 else quantity
  }

  /** The counter after a run of presses. */
  function PressAll(quantity: int, presses: seq<Press>, stock: Option<int>): int
    decreases |presses|
  {
    if presses == [] then quantity else PressAll(Pressed(quantity, presses[0], stock), presses[1..], stock)
  }

  /**
   * No run of presses takes the counter below 1, nor above the stock once it is within it.
   */
  lemma {:induction false} PressesStayInBounds(quantity: int, presses: seq<Press>, stock: Option<int>)
    requires quantity >= 1
    ensures PressAll(quantity, presses, stock) >= 1
    ensures stock.Some? && quantity <= stock.value ==> PressAll(quantity, presses, stock) <= stock.value
    decreases |presses|
  {
    if presses != [] {
      PressesStayInBounds(Pressed(quantity, presses[0], stock), presses[1..], stock);
    }
  }

  /** A disabled button is exactly a button whose press would change nothing. */
  lemma DisabledButtonsAreNoOps(quantity: int, stock: Option<int>)
    requires quantity >= 1
    ensures AtStockLimit(quantity, stock) <==> Pressed(quantity, Increment, stock) == quantity
    ensures AtMinimum(quantity) <==> Pressed(quantity, Decrement, stock) == quantity
  {
  }

  /** `isLowStock`: the card shows a batch, and that batch is at or below its threshold. */
  function IsLowStock(inventoryItem: Option<Db.InventoryItem>): (low: bool)
    ensures low <==> (inventoryItem.Some? && inventoryItem.value.quantity <= inventoryItem.value.lowStockThreshold)
  {
    inventoryItem.Some? && Db.IsLowStock(inventoryItem.value)
  }

  /** The card of one product, with the state of its quantity picker. */
  class Card {
    const product: Db.Product
    const inventoryItem: Option<Db.InventoryItem>
    /** Whether the card was given an `onAddToBill` callback. */
    const canAddToBill: bool
    var quantity: int

    ghost predicate Valid()
      reads this
    {
      quantity >= 1
    }

    /** A new card's counter starts at 1. */
    constructor(product: Db.Product, inventoryItem: Option<Db.InventoryItem>, canAddToBill: bool)
      ensures Valid()
      ensures quantity == 1
      ensures this.product == product && this.inventoryItem == inventoryItem
      ensures this.canAddToBill == canAddToBill
    {
      this.product := product;
      this.inventoryItem := inventoryItem;
      this.canAddToBill := canAddToBill;
      quantity := 1;
    }

    /** `incrementQuantity`. */
    method IncrementQuantity()
      requires Valid()
      modifies this
      ensures Valid()
      ensures quantity == Pressed(old(quantity), Increment, StockOf(inventoryItem))
    {
      if inventoryItem.Some? && quantity >= inventoryItem.value.quantity {
        return;
      }
      quantity := quantity + 1;
    }

    /** `decrementQuantity`. */
    method DecrementQuantity()
      requires Valid()
      modifies this
      ensures Valid()
      ensures quantity == Pressed(old(quantity), Decrement, StockOf(inventoryItem))
    {
      if quantity > 1 {
        quantity := quantity - 1;
      }
    }

    /**
     * `handleAddToBill`: with a callback, hands over the product and the chosen quantity and
     * resets the counter to 1; without one, does nothing.
     */
    method AddToBill() returns (added: Option<(Db.Product, int)>)
      requires Valid()
      modifies this
      ensures Valid()
      ensures canAddToBill ==> added == Some((product, old(quantity))) && quantity == 1
      ensures !canAddToBill ==> added == None && quantity == old(quantity)
    {
      added := None;
      if canAddToBill {
        added := Some((product, quantity));
        quantity := 1;
      }
    }
  }
}
