/**
 * One line of the bill being built: its buttons turn into quantity-update and removal events
 * for the bill that owns the line. The line itself holds no state.
 */
module BillItem {
  import opened Wrappers
  import Db

  /** `onUpdateQuantity(productId, newQuantity)`. */
  datatype QuantityUpdate = QuantityUpdate(productId: int, newQuantity: int)

  /** `handleIncrementQuantity`: one more of the line's product, with no upper bound. */
  function IncrementEvent(line: Db.BillLine, canUpdate: bool): (e: Option<QuantityUpdate>)
    ensures e.Some? <==> canUpdate
    ensures e.Some? ==> e.value.productId == line.productId && e.value.newQuantity == line.quantity + 1
  {
    if canUpdate then Some(QuantityUpdate(line.productId, line.quantity + 1)) else None
  }

  /** `handleDecrementQuantity`: one fewer, only while the line holds more than one. */
  function DecrementEvent(line: Db.BillLine, canUpdate: bool): (e: Option<QuantityUpdate>)
    ensures e.Some? <==> canUpdate && line.quantity > 1
    ensures e.Some? ==> e.value.productId == line.productId && e.value.newQuantity == line.quantity - 1
    ensures e.Some? ==> e.value.newQuantity >= 1
  {
    if canUpdate && line.quantity > 1 then Some(QuantityUpdate(line.productId, line.quantity - 1)) else None
  }

  /** `handleRemove`: the id of the line's product. */
  function RemoveEvent(line: Db.BillLine, canRemove: bool): (e: Option<int>)
    ensures e.Some? <==> canRemove
    ensures e.Some? ==> e.value == line.productId
  {
    if canRemove then Some(line.productId) else None
  }

  predicate DecrementDisabled(line: Db.BillLine, editable: bool)
  {
    !editable || line.quantity <= 1
  }

  predicate IncrementDisabled(line: Db.BillLine, editable: bool)
  {
    !editable
  }

  /** The remove button is only rendered for an editable line. */
  predicate RemoveShown(line: Db.BillLine, editable: bool)
  {
    editable
  }

  /**
   * On an editable line with a callback, a button is disabled exactly when pressing it would
   * emit nothing.
   */
  lemma DisabledMeansSilent(line: Db.BillLine, canUpdate: bool, canRemove: bool)
    requires canUpdate && canRemove
    ensures DecrementDisabled(line, true) <==> DecrementEvent(line, canUpdate).None?
    ensures IncrementDisabled(line, true) <==> IncrementEvent(line, canUpdate).None?
    ensures RemoveShown(line, true) <==> RemoveEvent(line, canRemove).Some?
  {
  }

  /**
   * The line as its owner would rewrite it on an update: the new quantity for that product.
   * The owner (the billing page) is not part of this model; this states the intended effect of
   * an emitted event, so that the events can be checked against each other.
   */
  function Applied(line: Db.BillLine, e: QuantityUpdate): Db.BillLine
  {
    if e.productId == line.productId then line.(quantity := e.newQuantity) else line
  }

  /** An increment applied and then the decrement of the result give back the original line. */
  lemma IncrementThenDecrement(line: Db.BillLine)
    ensures var up := Applied(line, IncrementEvent(line, true).value);
      DecrementEvent(up, true).Some? ==> Applied(up, DecrementEvent(up, true).value) == line
    ensures line.quantity >= 1 ==> DecrementEvent(Applied(line, IncrementEvent(line, true).value), true).Some?
  {
  }

  /** Starting from at least 1, applied updates never take a line below 1. */
  lemma UpdatesKeepQuantityPositive(line: Db.BillLine, canUpdate: bool)
    requires line.quantity >= 1
    ensures IncrementEvent(line, canUpdate).Some? ==> Applied(line, IncrementEvent(line, canUpdate).value).quantity >= 1
    ensures DecrementEvent(line, canUpdate).Some? ==> Applied(line, DecrementEvent(line, canUpdate).value).quantity >= 1
  {
  }
}
