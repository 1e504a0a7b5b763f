/**
 * The batch list of one product: which batches belong to it, how close each is to expiry,
 * the badge that shows it, and the total quantity in stock.
 */
module InventoryBatchList {
  import Wrappers
  import opened Seqs
  import opened Db

  /** How many days ahead a batch counts as expiring soon. */
  const ExpiringWindowDays: int := 30

  datatype Status = Ok | Expiring | Expired

  datatype ExpiryStatus = ExpiryStatus(status: Status, caption: string)

  /**
   * `getExpiryStatus`: no expiry date is fine; an expiry strictly before now has expired; one
   * before now plus 30 days is expiring soon; anything later is valid.
   */
  function GetExpiryStatus(expiryDate: Wrappers.Option<int>, now: int): (r: ExpiryStatus)
    ensures expiryDate.None? ==> r == ExpiryStatus(Ok, "No Expiry")
    ensures expiryDate.Some? ==> (r.status == Expired <==> expiryDate.value < now)
    ensures expiryDate.Some? ==>
      (r.status == Expiring <==> now <= expiryDate.value < now + ExpiringWindowDays * DAY)
    ensures expiryDate.Some? ==> (r.status == Ok <==> now + ExpiringWindowDays * DAY <= expiryDate.value)
    ensures expiryDate.Some? ==> r.caption == StatusLabel(r.status)
  {
    match expiryDate
    case None => ExpiryStatus(Ok, "No Expiry")
    case Some(expiry) =>
      if expiry < now then ExpiryStatus(Expired, "Expired")
      else if expiry < now + ExpiringWindowDays * DAY then ExpiryStatus(Expiring, "Expiring Soon")
      else ExpiryStatus(Ok, "Valid")
  }

  /** The label shown for a batch that has an expiry date. */
  function StatusLabel(s: Status): string
  {
    match s
    case Expired => "Expired"
    case Expiring => "Expiring Soon"
    case Ok => "Valid"
  }

  /** How bad a status is: valid, then expiring, then expired. */
  function Severity(s: Status): (n: nat)
    ensures n <= 2
    ensures s == Ok <==> n == 0
    ensures s == Expired <==> n == 2
  {
    match s
    case Ok => 0
    case Expiring => 1
    case Expired => 2
  }

  /** As time passes a batch's status only gets worse: valid, then expiring, then expired. */
  lemma ExpiryWorsensOverTime(expiryDate: Wrappers.Option<int>, now: int, later: int)
    requires now <= later
    ensures Severity(GetExpiryStatus(expiryDate, now).status) <= Severity(GetExpiryStatus(expiryDate, later).status)
  {
  }

  /** A batch expiring exactly now is not yet expired, only expiring. */
  lemma ExpiryAtNowIsExpiring(now: int)
    ensures GetExpiryStatus(Wrappers.Some(now), now) == ExpiryStatus(Expiring, "Expiring Soon")
  {
  }

  /** `getExpiryBadgeVariant`. */
  function BadgeVariant(s: Status): (v: string)
    ensures v == "destructive" <==> s == Expired
    ensures v == "secondary" <==> s == Expiring
    ensures v == "outline" <==> s == Ok
  {
    match s
    case Expired => "destructive"
    case Expiring => "secondary"
    case Ok => "outline"
  }

  /** A batch belongs to a product when its product id is the product's id. */
  predicate BelongsTo(e: StockEntry, product: Product)
  {
    product.id == Wrappers.Some(e.item.productId)
  }

  /** The batches of `product`, in their listed order. */
  function BatchesOf(entries: seq<StockEntry>, product: Product): (r: seq<StockEntry>)
    ensures forall i :: 0 <= i < |r| ==> r[i] in entries && BelongsTo(r[i], product)
    ensures forall i :: 0 <= i < |entries| && BelongsTo(entries[i], product) ==> entries[i] in r
  {
    Filter(entries, e => BelongsTo(e, product))
  }

  /** A product that has never been saved has no id, so no batch belongs to it. */
  lemma UnsavedProductHasNoBatches(entries: seq<StockEntry>, product: Product)
    requires product.id.None?
    ensures BatchesOf(entries, product) == []
  {
    var r := BatchesOf(entries, product);
    assert |r| == 0 || BelongsTo(r[0], product);
  }

  function Quantity(e: StockEntry): int
  {
    e.item.quantity
  }

  /** The displayed total quantity. */
  function TotalQuantity(batches: seq<StockEntry>): int
  {
    SumInt(batches, Quantity)
  }

  /**
   * The total over a product's batches is the total over all batches where each batch of
   * another product counts as 0.
   */
  lemma TotalQuantityOfProduct(entries: seq<StockEntry>, product: Product)
    ensures TotalQuantity(BatchesOf(entries, product))
      == SumInt(entries, e => if BelongsTo(e, product) then e.item.quantity else 0)
  {
    SumIntFilter(entries, e => BelongsTo(e, product), Quantity,
      e => if BelongsTo(e, product) then e.item.quantity else 0);
  }

  /** One card per batch, with the batch and its expiry status and badge. */
  datatype BatchCard = BatchCard(item: InventoryItem, expiry: ExpiryStatus, badge: string)

  datatype BatchListView =
    | NoBatches(message: string)
    | Batches(totalQuantity: int, cards: seq<BatchCard>)

  function Card(e: StockEntry, now: int): BatchCard
  {
    var status := GetExpiryStatus(e.item.expiryDate, now);
    BatchCard(e.item, status, BadgeVariant(status.status))
  }

  /**
   * The rendered list: a message and no cards when the product has no batch; otherwise the
   * total quantity and one card per batch of the product, in order.
   */
  function RenderBatchList(entries: seq<StockEntry>, product: Product, now: int): (v: BatchListView)
    ensures v.NoBatches? <==> forall i :: 0 <= i < |entries| ==> !BelongsTo(entries[i], product)
    ensures v.Batches? ==> v.totalQuantity == TotalQuantity(BatchesOf(entries, product))
    ensures v.Batches? ==> |v.cards| == |BatchesOf(entries, product)|
    ensures v.Batches? ==> forall i :: 0 <= i < |v.cards| ==>
      v.cards[i].item == BatchesOf(entries, product)[i].item
      && v.cards[i].expiry == GetExpiryStatus(v.cards[i].item.expiryDate, now)
      && v.cards[i].badge == BadgeVariant(v.cards[i].expiry.status)
  {
    var batches := BatchesOf(entries, product);
    if |batches| == 0 then
      NoBatches("No inventory batches found for this product.")
    else
      assert batches[0] in entries;
      Batches(TotalQuantity(batches), seq(|batches|, i requires 0 <= i < |batches| => Card(batches[i], now)))
  }
}
