/**
 * The records kept in the browser database, and the list logic of the data hooks: product
 * search, the inventory-to-product join and low-stock selection, bill date filtering with
 * newest-first ordering, and the rewrites applied to records on save.
 */
module Db {
  import opened Wrappers
  import opened Text
  import opened Seqs

  /** One day in milliseconds; timestamps are milliseconds since the epoch. */
  const DAY: int := 86400000

  /** A catalogue entry; `id` is assigned by the store and absent before the first save. */
  datatype Product = Product(
    id: Option<int>,
    name: string,
    category: string,
    price: real,
    barcode: string,
    hsn: string)

  /** A stock batch of one product. */
  datatype InventoryItem = InventoryItem(
    productId: int,
    quantity: int,
    location: string,
    lowStockThreshold: int,
    batchId: string,
    expiryDate: Option<int>,
    purchaseDate: Option<int>)

  /** An inventory batch with the product it belongs to, if that product exists. */
  datatype StockEntry = StockEntry(item: InventoryItem, product: Option<Product>)

  datatype PaymentMethod = Cash | Upi | Card

  /** The `method` field of the source is called `kind` here, `method` being a keyword. */
  datatype Payment = Payment(kind: PaymentMethod, reference: Option<string>)

  datatype Customer = Customer(name: Option<string>, phone: Option<string>)

  /** One line of a bill; `cgst` and `sgst` are percentage rates. */
  datatype BillLine = BillLine(
    productId: int,
    name: string,
    price: real,
    quantity: int,
    hsn: string,
    amount: real,
    cgst: real,
    sgst: real)

  datatype Bill = Bill(
    id: Option<int>,
    billNumber: Option<string>,
    date: int,
    items: seq<BillLine>,
    subtotal: real,
    tax: real,
    total: real,
    payment: Payment,
    customer: Option<Customer>)

  /** The store's own details, printed on every bill; the receipt size is in millimetres. */
  datatype StoreInfo = StoreInfo(
    id: string,
    name: string,
    address: string,
    phone: string,
    email: string,
    gst: string,
    upiId: string,
    billWidth: Option<int>,
    billHeight: Option<int>,
    logo: Option<string>)

  /** The key the single store-settings record is saved under. */
  const StoreInfoKey: string := "storeInfo"

  // ---------------------------------------------------------------- products

  /** The optional filter of the product list; an empty string applies no filter. */
  datatype ProductFilter = ProductFilter(category: Option<string>, query: Option<string>)

  predicate Given(s: Option<string>)
  {
    s.Some? && s.value != ""
  }

  /** Same category, ignoring case. */
  predicate CategoryMatches(p: Product, category: string)
  {
    ToLower(p.category) == ToLower(category)
  }

  /**
   * The search: the lower-cased query occurs in the lower-cased name, or in the barcode as
   * stored (the barcode is not lower-cased).
   */
  predicate QueryMatches(p: Product, query: string)
  {
    Contains(ToLower(p.name), ToLower(query)) || Contains(p.barcode, ToLower(query))
  }

  /** Whether a product is listed under `filter`. */
  predicate ProductMatches(p: Product, filter: ProductFilter)
  {
    && (Given(filter.category) ==> CategoryMatches(p, filter.category.value))
    && (Given(filter.query) ==> QueryMatches(p, filter.query.value))
  }

  /**
   * `fetchProducts`: the category filter, then the search filter, each applied only when given.
   * The result is the stored list with exactly the non-matching products removed.
   */
  method FetchProducts(all: seq<Product>, filter: ProductFilter) returns (products: seq<Product>)
    ensures products == Filter(all, p => ProductMatches(p, filter))
  {
    var matches := p => ProductMatches(p, filter);
    var filtered := all;
    if Given(filter.category) {
      var category := filter.category.value;
      filtered := Filter(filtered, p => CategoryMatches(p, category));
    }
    if Given(filter.query) {
      var query := filter.query.value;
      var before := filtered;
      filtered := Filter(filtered, p => QueryMatches(p, query));
      if Given(filter.category) {
        var category := filter.category.value;
        FilterFilter(all, p => CategoryMatches(p, category), p => QueryMatches(p, query), matches);
      } else {
        FilterAgree(all, p => QueryMatches(p, query), matches);
      }
    } else if Given(filter.category) {
      var category := filter.category.value;
      FilterAgree(all, p => CategoryMatches(p, category), matches);
    } else {
      FilterAll(all, matches);
    }
    products := filtered;
  }

  /**
   * The product list: every listed product is stored and matches, every stored product that
   * matches is listed, and the listing keeps the stored order.
   */
  lemma ProductListing(all: seq<Product>, filter: ProductFilter)
    ensures var r := Filter(all, p => ProductMatches(p, filter));
      && IsSubsequence(r, all)
      && (forall i :: 0 <= i < |r| ==> r[i] in all && ProductMatches(r[i], filter))
      && (forall i :: 0 <= i < |all| && ProductMatches(all[i], filter) ==> all[i] in r)
  {
    FilterIsSubsequence(all, p => ProductMatches(p, filter));
  }

  /** Without a category or a query, every stored product is listed. */
  lemma NoFilterListsAll(all: seq<Product>, filter: ProductFilter)
    requires !Given(filter.category) && !Given(filter.query)
    ensures Filter(all, p => ProductMatches(p, filter)) == all
  {
    FilterAll(all, p => ProductMatches(p, filter));
  }

  /** An upper-case barcode is not found by typing it: the query is lower-cased, the barcode not. */
  lemma BarcodeSearchIsCaseSensitive()
    ensures !QueryMatches(Product(None, "", "", 1.0, "AB", ""), "AB")
  {
    var p := Product(None, "", "", 1.0, "AB", "");
    assert ToLower("AB") == "ab";
    assert ToLower("") == "";
    assert !Contains("", "ab");
    assert !Contains("AB", "ab") by {
      assert !StartsWith("AB", "ab") by { assert "AB"[..2][0] == 'A'; }
      assert "AB"[1..] == "B";
      assert !StartsWith("B", "ab");
      assert "B"[1..] == "";
    }
  }

  // ---------------------------------------------------------------- inventory

  /** Position `i` holds the first product with id `id`. */
  predicate FirstWithId(products: seq<Product>, i: int, id: int)
  {
    0 <= i < |products| && products[i].id == Some(id) && forall j :: 0 <= j < i ==> products[j].id != Some(id)
  }

  /** `products.find(p => p.id === id)`: the first product with that id. */
  function FindProduct(products: seq<Product>, id: int): (r: Option<Product>)
    ensures r.None? ==> forall i :: 0 <= i < |products| ==> products[i].id != Some(id)
    ensures r.Some? ==> exists i :: FirstWithId(products, i, id) && products[i] == r.value
  {
    if products == [] then None
    else if products[0].id == Some(id) then
      assert FirstWithId(products, 0, id);
      Some(products[0])
    else
      var r := FindProduct(products[1..], id);
      assert r.Some? ==> exists i :: FirstWithId(products, i, id) && products[i] == r.value by {
        if r.Some? {
          var i :| FirstWithId(products[1..], i, id) && products[1..][i] == r.value;
          assert FirstWithId(products, i + 1, id) by {
            forall j | 0 <= j < i + 1
              ensures products[j].id != Some(id)
            {
              if j > 0 {
                assert products[j] == products[1..][j - 1];
              }
            }
          }
        }
      }
      r
  }

  /** The join: each batch, in order, with the first product of its id. */
  function Join(items: seq<InventoryItem>, products: seq<Product>): (r: seq<StockEntry>)
    ensures |r| == |items|
    ensures forall i :: 0 <= i < |r| ==> r[i].item == items[i]
    ensures forall i :: 0 <= i < |r| ==> r[i].product == FindProduct(products, items[i].productId)
  {
    seq(|items|, i requires 0 <= i < |items| => StockEntry(items[i], FindProduct(products, items[i].productId)))
  }

  /** A batch is low on stock at its threshold, not only below it. */
  predicate IsLowStock(item: InventoryItem)
  {
    item.quantity <= item.lowStockThreshold
  }

  /** `fetchInventory`: the join, restricted to the low-stock batches when asked. */
  function FetchInventory(items: seq<InventoryItem>, products: seq<Product>, lowStockOnly: bool): seq<StockEntry>
  {
    var full := Join(items, products);
    if lowStockOnly then Filter(full, (e: StockEntry) => IsLowStock(e.item)) else full
  }

  /**
   * Every batch keeps all its fields and gets the first product whose id matches, or none when
   * no product has that id.
   */
  lemma JoinAttachesFirstMatch(items: seq<InventoryItem>, products: seq<Product>, i: int)
    requires 0 <= i < |items|
    ensures var e := Join(items, products)[i];
      && e.item == items[i]
      && (e.product.None? <==> forall k :: 0 <= k < |products| ==> products[k].id != Some(items[i].productId))
      && (e.product.Some? ==> exists k :: FirstWithId(products, k, items[i].productId) && products[k] == e.product.value)
  {
  }

  /**
   * The inventory listing: all batches in order without `lowStockOnly`; with it, exactly the
   * batches whose quantity is at most their threshold, in order.
   */
  lemma InventoryListing(items: seq<InventoryItem>, products: seq<Product>, lowStockOnly: bool)
    ensures var r := FetchInventory(items, products, lowStockOnly);
      && IsSubsequence(r, Join(items, products))
      && (!lowStockOnly ==> |r| == |items| && forall i :: 0 <= i < |r| ==> r[i].item == items[i])
      && (lowStockOnly ==> forall i :: 0 <= i < |r| ==> IsLowStock(r[i].item))
      && (lowStockOnly ==> forall i :: 0 <= i < |items| && IsLowStock(items[i]) ==>
            Join(items, products)[i] in r)
  {
    var full := Join(items, products);
    FilterIsSubsequence(full, (e: StockEntry) => IsLowStock(e.item));
    if !lowStockOnly {
      SubsequenceRefl(full);
    }
  }

  lemma {:induction false} SubsequenceRefl<T>(s: seq<T>)
    ensures IsSubsequence(s, s)
  {
    if s != [] {
      SubsequenceRefl(s[1..]);
    }
  }

  // ---------------------------------------------------------------- bills

  /**
   * The date filter: on or after the start, and before the day after the end, so bills of the
   * whole end day are kept.
   */
  predicate InDateRange(date: int, startDate: Option<int>, endDate: Option<int>)
  {
    && (startDate.Some? ==> !(date < startDate.value))
    && (endDate.Some? ==> !(date >= endDate.value + DAY))
  }

  /** The bound is half-open: the end day is included in full, the next day is not. */
  lemma DateRangeBounds(date: int, startDate: Option<int>, endDate: Option<int>)
    ensures InDateRange(date, startDate, endDate) <==>
      (startDate.None? || startDate.value <= date) && (endDate.None? || date < endDate.value + DAY)
    ensures endDate.Some? && startDate.None? ==>
      InDateRange(endDate.value + DAY - 1, startDate, endDate) && !InDateRange(endDate.value + DAY, startDate, endDate)
  {
  }

  /** Newest first: dates never increase along the list. */
  predicate NewestFirst(bills: seq<Bill>)
  {
    forall i, j :: 0 <= i < j < |bills| ==> bills[i].date >= bills[j].date
  }

  /**
   * `fetchBills`: keep the bills in the date range (only when a bound is given), then sort
   * them newest first, in place.
   */
  method FetchBills(all: seq<Bill>, startDate: Option<int>, endDate: Option<int>) returns (bills: seq<Bill>)
    ensures NewestFirst(bills)
    ensures multiset(bills) == multiset(Filter(all, (b: Bill) => InDateRange(b.date, startDate, endDate)))
  {
    var inRange := (b: Bill) => InDateRange(b.date, startDate, endDate);
    var filtered := all;
    if startDate.Some? || endDate.Some? {
      filtered := Filter(filtered, inRange);
    } else {
      FilterAll(all, inRange);
    }
    var a := new Bill[|filtered|](i requires 0 <= i < |filtered| => filtered[i]);
    assert a[..] == filtered;
    SortNewestFirst(a);
    bills := a[..];
  }

  /** `sort((a, b) => b.date - a.date)`, as an insertion sort by adjacent swaps. */
  method SortNewestFirst(a: array<Bill>)
    modifies a
    ensures NewestFirst(a[..])
    ensures multiset(a[..]) == multiset(old(a[..]))
  {
    if a.Length == 0 {
      return;
    }
    var i := 1;
    while i < a.Length
      invariant 1 <= i <= a.Length
      invariant NewestFirst(a[..i])
      invariant multiset(a[..]) == multiset(old(a[..]))
    {
      InsertNewest(a, i);
      i := i + 1;
    }
  }

  /** Moves `a[i]` left into the sorted prefix `a[..i]`. */
  method InsertNewest(a: array<Bill>, i: int)
    requires 1 <= i < a.Length
    requires NewestFirst(a[..i])
    modifies a
    ensures NewestFirst(a[..i + 1])
    ensures multiset(a[..]) == multiset(old(a[..]))
  {
    var j := i;
    InsertStart(a[..], i);
    while j > 0 && a[j - 1].date < a[j].date
      invariant 0 <= j <= i
      invariant NewestFirstExcept(a[..], j, i) && NewerThanRest(a[..], j, i)
      invariant multiset(a[..]) == multiset(old(a[..]))
    {
      ghost var before := a[..];
      SwapStep(before, j, i);
      a[j - 1], a[j] := a[j], a[j - 1];
      assert a[..] == before[j - 1 := before[j]][j := before[j - 1]];
      j := j - 1;
    }
    InsertDone(a[..], j, i);
  }

  /** Up to position `i`, dates never increase, leaving aside the bill at `j`. */
  predicate NewestFirstExcept(s: seq<Bill>, j: int, i: int)
    requires i < |s|
  {
    forall k, l :: 0 <= k < l <= i && k != j && l != j ==> s[k].date >= s[l].date
  }

  /** The bill at `j` is newer than every bill after it up to position `i`. */
  predicate NewerThanRest(s: seq<Bill>, j: int, i: int)
    requires 0 <= j <= i < |s|
  {
    forall l :: j < l <= i ==> s[j].date > s[l].date
  }

  lemma InsertStart(s: seq<Bill>, i: int)
    requires 0 <= i < |s| && NewestFirst(s[..i])
    ensures NewestFirstExcept(s, i, i) && NewerThanRest(s, i, i)
  {
    forall k, l | 0 <= k < l <= i && k != i && l != i
      ensures s[k].date >= s[l].date
    {
      assert s[k] == s[..i][k] && s[l] == s[..i][l];
    }
  }

  /** One exchange moves the newer bill one place left and keeps both facts. */
  lemma SwapStep(s: seq<Bill>, j: int, i: int)
    requires 0 < j <= i < |s| && s[j - 1].date < s[j].date
    requires NewestFirstExcept(s, j, i) && NewerThanRest(s, j, i)
    ensures var t := s[j - 1 := s[j]][j := s[j - 1]];
      NewestFirstExcept(t, j - 1, i) && NewerThanRest(t, j - 1, i) && multiset(t) == multiset(s)
  {
    var t := s[j - 1 := s[j]][j := s[j - 1]];
    assert s == s[..j - 1] + [s[j - 1], s[j]] + s[j + 1..];
    assert t == s[..j - 1] + [s[j], s[j - 1]] + s[j + 1..];
  }

  /** When the bill at `j` is no newer than the one before it, the prefix is in order. */
  lemma InsertDone(s: seq<Bill>, j: int, i: int)
    requires 0 <= j <= i < |s|
    requires NewestFirstExcept(s, j, i) && NewerThanRest(s, j, i)
    requires j == 0 || s[j - 1].date >= s[j].date
    ensures NewestFirst(s[..i + 1])
  {
    var p := s[..i + 1];
    forall k, l | 0 <= k < l < |p|
      ensures p[k].date >= p[l].date
    {
      if k == j {
      } else if l == j {
        assert s[k].date >= s[j - 1].date || k == j - 1;
      }
    }
  }

  /** `addBill`: the bill is stored with the current time as its date and nothing else changed. */
  function WithCurrentDate(bill: Bill, now: int): (r: Bill)
    ensures r.date == now
    ensures r.(date := bill.date) == bill
  {
    bill.(date := now)
  }

  /** `updateProduct` refuses a product without an id; an id of 0 is falsy and refused too. */
  function CheckUpdatable(product: Product): (r: Result<Product>)
    ensures r.Ok? <==> product.id.Some? && product.id.value != 0
    ensures r.Ok? ==> r.value == product
    ensures r.Err? ==> r.message == "Product ID is required for updates"
  {
    if product.id.None? || product.id.value == 0 then Err("Product ID is required for updates")
    else Ok(product)
  }

  /** `updateStoreInfo`: whatever id was passed, the settings record is written under its key. */
  function WithStoreId(info: StoreInfo): (r: StoreInfo)
    ensures r.id == StoreInfoKey
    ensures r.(id := info.id) == info
  {
    info.(id := StoreInfoKey)
  }
}
