/**
 * The product-list screen of the dashboard: the filter and page state, the
 * query it derives for the remote product API, what it does with the
 * answers, the optimistic add and the local delete, the single-slot
 * notification, and the figures the screen derives from the list.
 *
 * Network answers and the delete confirmation are inputs of the handlers.
 * A refetch is split in two steps, `StartFetch` (the query, read from the
 * state at the moment the debounce timer fires) and `FinishFetch` (the
 * answer, applied when it arrives), so answers that overlap may arrive in
 * any order and the last one to arrive wins.
 */
module App {
  import opened Strings
  import opened ProductModal

  /** `itemsPerPage`. */
  const PageSize: nat := 10
  const ApiBase := "https://dummyjson.com/products"
  const PlaceholderThumbnail := "https://via.placeholder.com/150"
  const FallbackBrand := "Generic Brand"
  const FallbackStock := 10
  /** A product is low on stock below this many units. */
  const LowStockLimit := 10

  const LoadFailedMessage := "Failed to load products"
  const AddedMessage := "Product added successfully!"
  const AddFailedMessage := "Error adding product. Please try again."
  const DeletedMessage := "Product deleted successfully"

  /**
   * A decimal amount (price, rating, discount), kept as the numeral it is
   * read from; its floating-point value is not modelled.
   */
  datatype Amount = Amount(numeral: string)

  datatype Product = Product(
    id: int,
    title: string,
    description: string,
    category: string,
    brand: string,
    price: Amount,
    discountPercentage: Amount,
    rating: Amount,
    stock: int,
    availabilityStatus: string,
    thumbnail: string)

  datatype ToastKind = SuccessToast | ErrorToast
  datatype Toast = Toast(message: string, kind: ToastKind)

  /** The three listings of the remote API, each with its page window. */
  datatype Query =
    | Listing(limit: nat, skip: nat)
    | Search(term: string, limit: nat, skip: nat)
    | InCategory(category: string, limit: nat, skip: nat)

  /** The answer to a listing query, or a failed fetch. */
  datatype FetchOutcome = Fetched(items: seq<Product>, total: nat) | FetchFailed

  /** The answer to the create request: the identifier it assigned, or a failure. */
  datatype AddOutcome = Created(id: int) | AddFailed

  /** The record `POST /products/add` is sent: the form with its numbers parsed. */
  datatype Payload = Payload(
    title: string,
    description: string,
    category: string,
    brand: string,
    price: Amount,
    discountPercentage: Amount,
    rating: Amount,
    stock: int,
    availabilityStatus: string,
    thumbnail: string)

  // ---------------------------------------------------------------------
  // The query

  /**
   * The query `fetchProducts` issues: a search when there is a search text
   * (even if a category is also set), else the category listing when a
   * category is chosen, else the plain listing; always one page of
   * `PageSize` items starting after the items of the earlier pages.
   */
  function QueryFor(searchTerm: string, category: string, page: int): (q: Query)
    requires page >= 1
    ensures q.limit == PageSize && q.skip == (page - 1) * PageSize
    ensures q.Search? <==> searchTerm != ""
    ensures q.InCategory? <==> searchTerm == "" && category != ""
    ensures q.Listing? <==> searchTerm == "" && category == ""
    ensures q.Search? ==> q.term == searchTerm
    ensures q.InCategory? ==> q.category == category
  {
    var skip := (page - 1) * PageSize;
    if searchTerm != "" then Search(searchTerm, PageSize, skip)
    else if category != "" then InCategory(category, PageSize, skip)
    else Listing(PageSize, skip)
  }

  /** The URL of a query; the search text and the category are inserted as they are, without encoding. */
  function Url(q: Query): string {
    match q
    case Listing(limit, skip) =>
      ApiBase + "?limit=" + Decimal(limit) + "&skip=" + Decimal(skip)
    case Search(term, limit, skip) =>
      ApiBase + "/search?q=" + term + "&limit=" + Decimal(limit) + "&skip=" + Decimal(skip)
    case InCategory(category, limit, skip) =>
      ApiBase + "/category/" + category + "?limit=" + Decimal(limit) + "&skip=" + Decimal(skip)
  }

  /** The text of a URL up to the page offset. */
  function UrlHead(q: Query): string {
    match q
    case Listing(limit, _) => ApiBase + "?limit=" + Decimal(limit) + "&skip="
    case Search(term, limit, _) => ApiBase + "/search?q=" + term + "&limit=" + Decimal(limit) + "&skip="
    case InCategory(category, limit, _) =>
      ApiBase + "/category/" + category + "?limit=" + Decimal(limit) + "&skip="
  }

  /** Every URL ends with the decimal page offset. */
  lemma UrlEndsWithSkip(q: Query)
    ensures Url(q) == UrlHead(q) + Decimal(q.skip)
  {
  }

  /**
   * With the filters fixed, different pages are fetched from different
   * URLs: the offset at the end of the URL tells the page.
   */
  lemma UrlTellsPage(searchTerm: string, category: string, p1: int, p2: int)
    requires p1 >= 1 && p2 >= 1
    requires Url(QueryFor(searchTerm, category, p1)) == Url(QueryFor(searchTerm, category, p2))
    ensures p1 == p2
  {
    var q1, q2 := QueryFor(searchTerm, category, p1), QueryFor(searchTerm, category, p2);
    assert UrlHead(q1) == UrlHead(q2);
    UrlEndsWithSkip(q1);
    UrlEndsWithSkip(q2);
    var n := |UrlHead(q1)|;
    assert Decimal(q1.skip) == Url(q1)[n..];
    assert Decimal(q2.skip) == Url(q2)[n..];
    DecimalInjective(q1.skip, q2.skip);
  }

  // ---------------------------------------------------------------------
  // Pages

  /** `Math.ceil(totalProducts / itemsPerPage)`: the fewest pages that hold every item. */
  function TotalPages(total: nat): (pages: nat)
    ensures pages * PageSize >= total
    ensures pages == 0 || (pages - 1) * PageSize < total
  {
    (total + PageSize - 1) / PageSize
  }

  /** The guard of `handlePageChange`. */
  predicate PageAccepted(n: int, total: nat) {
    0 < n <= TotalPages(total)
  }

  /** A page is accepted exactly when at least one item falls on it. */
  lemma PageAcceptedIffNonEmpty(n: int, total: nat)
    ensures PageAccepted(n, total) <==> n >= 1 && (n - 1) * PageSize < total
  {
    var pages := TotalPages(total);
    if n >= 1 && (n - 1) * PageSize < total {
      assert (n - 1) * PageSize < pages * PageSize;
    }
    if PageAccepted(n, total) {
      assert (n - 1) * PageSize <= (pages - 1) * PageSize;
    }
  }

  /** Without any item no page is accepted. */
  lemma NoPageOfEmptyList(n: int)
    ensures !PageAccepted(n, 0)
  {
    PageAcceptedIffNonEmpty(n, 0);
  }

  function Min(a: int, b: int): int {
    if a <= b then a else b
  }

  /** The "Showing first-last of total" figures. */
  function ShowingRange(page: int, total: nat): (int, int) {
    ((page - 1) * PageSize + 1, Min(page * PageSize, total))
  }

  /**
   * On an accepted page the figures give the positions (counted from 1) of
   * the items on that page: at least one, at most a page, inside the total.
   */
  lemma ShowingRangeOfAcceptedPage(page: int, total: nat)
    requires PageAccepted(page, total)
    ensures var (first, last) := ShowingRange(page, total);
      first == (page - 1) * PageSize + 1
      && 1 <= first <= last <= total
      && last - first + 1 == Min(PageSize, total - (page - 1) * PageSize)
  {
    PageAcceptedIffNonEmpty(page, total);
  }

  /** With no item the figures read "1-0 of 0": the range is empty. */
  lemma ShowingRangeOfEmptyList()
    ensures ShowingRange(1, 0) == (1, 0)
  {
  }

  /** `disabled={currentPage === 1}` on Previous. */
  predicate PreviousDisabled(page: int) {
    page == 1
  }

  /** `disabled={currentPage === totalPages}` on Next, as written. */
  predicate NextDisabled(page: int, total: nat) {
    page == TotalPages(total)
  }

  /**
   * On an accepted page, Previous is enabled exactly when the page before
   * would be accepted, and Next exactly when the page after would be.
   */
  lemma NavigationOnAcceptedPage(page: int, total: nat)
    requires PageAccepted(page, total)
    ensures !PreviousDisabled(page) <==> PageAccepted(page - 1, total)
    ensures !NextDisabled(page, total) <==> PageAccepted(page + 1, total)
  {
  }

  /**
   * As written, Next stays enabled on an empty list (page 1 of 0 pages),
   * although the page it asks for is rejected.
   */
  lemma NextEnabledOnEmptyList()
    ensures !NextDisabled(1, 0) && !PageAccepted(2, 0)
  {
    NoPageOfEmptyList(2);
  }

  /** Next disabled whenever there is no later page: `currentPage >= totalPages`. */
  predicate NextDisabledWhenLast(page: int, total: nat) {
    page >= TotalPages(total)
  }

  /** With this guard, Next is enabled exactly when its page would be accepted, on every page. */
  lemma NextDisabledWhenLastMatchesAcceptance(page: int, total: nat)
    requires page >= 1
    ensures !NextDisabledWhenLast(page, total) <==> PageAccepted(page + 1, total)
  {
  }

  // ---------------------------------------------------------------------
  // Figures derived from the list

  /** `products.filter(p => p.stock < 10).length`. */
  function LowStockCount(ps: seq<Product>): (n: nat)
    ensures n <= |ps|
  {
    if ps == [] then 0
    else (if ps[0].stock < LowStockLimit then 1 else 0) + LowStockCount(ps[1..])
  }

  /** The count of a joined list is the sum of the counts. */
  lemma {:induction false} LowStockCountAppend(a: seq<Product>, b: seq<Product>)
    ensures LowStockCount(a + b) == LowStockCount(a) + LowStockCount(b)
  {
    if a != [] {
      assert (a + b)[1..] == a[1..] + b;
      LowStockCountAppend(a[1..], b);
    } else {
      assert a + b == b;
    }
  }

  /** The count is zero exactly when no product is low, and the length exactly when all are. */
  lemma {:induction false} LowStockCountBounds(ps: seq<Product>)
    ensures LowStockCount(ps) == 0 <==> forall k :: 0 <= k < |ps| ==> ps[k].stock >= LowStockLimit
    ensures LowStockCount(ps) == |ps| <==> forall k :: 0 <= k < |ps| ==> ps[k].stock < LowStockLimit
  {
    if ps != [] {
      LowStockCountBounds(ps[1..]);
      assert forall k :: 1 <= k < |ps| ==> ps[k] == ps[1..][k - 1];
    }
  }

  /** `totalProducts - lowStockCount`, not clamped at zero. */
  function InStockCount(total: nat, ps: seq<Product>): int {
    total - LowStockCount(ps)
  }

  /** The in-stock figure goes negative when more listed products are low than the total says. */
  lemma InStockCountNotClamped(total: nat, ps: seq<Product>)
    requires LowStockCount(ps) > total
    ensures InStockCount(total, ps) < 0
  {
  }

  // ---------------------------------------------------------------------
  // Delete

  /** `products.filter(p => p.id !== id)`. */
  function RemoveId(ps: seq<Product>, id: int): (r: seq<Product>)
    ensures |r| <= |ps|
    ensures forall k :: 0 <= k < |r| ==> r[k].id != id
    ensures forall p :: p in r <==> p in ps && p.id != id
  {
    if ps == [] then []
    else if ps[0].id == id then RemoveId(ps[1..], id)
    else [ps[0]] + RemoveId(ps[1..], id)
  }

  /** Filtering a joined list filters each part and keeps them in order. */
  lemma {:induction false} RemoveIdAppend(a: seq<Product>, b: seq<Product>, id: int)
    ensures RemoveId(a + b, id) == RemoveId(a, id) + RemoveId(b, id)
  {
    if a != [] {
      assert (a + b)[1..] == a[1..] + b;
      RemoveIdAppend(a[1..], b, id);
    } else {
      assert a + b == b;
    }
  }

  /** Deleting an identifier no product has changes nothing. */
  lemma {:induction false} RemoveAbsentId(ps: seq<Product>, id: int)
    requires forall k :: 0 <= k < |ps| ==> ps[k].id != id
    ensures RemoveId(ps, id) == ps
  {
    if ps != [] {
      RemoveAbsentId(ps[1..], id);
    }
  }

  /** Deleting the same identifier twice is the same as once. */
  lemma RemoveIdIdempotent(ps: seq<Product>, id: int)
    ensures RemoveId(RemoveId(ps, id), id) == RemoveId(ps, id)
  {
    RemoveAbsentId(RemoveId(ps, id), id);
  }

  /** Every product kept is kept as many times as it was listed. */
  lemma {:induction false} RemoveIdMultiplicity(ps: seq<Product>, id: int, p: Product)
    requires p.id != id
    ensures multiset(RemoveId(ps, id))[p] == multiset(ps)[p]
  {
    if ps != [] {
      RemoveIdMultiplicity(ps[1..], id, p);
      assert ps == [ps[0]] + ps[1..];
      assert multiset(ps) == multiset{ps[0]} + multiset(ps[1..]);
      if ps[0].id != id {
        assert multiset(RemoveId(ps, id)) == multiset{ps[0]} + multiset(RemoveId(ps[1..], id));
      }
    }
  }

  /** Deleting never raises the low-stock figure. */
  lemma {:induction false} RemoveIdLowStock(ps: seq<Product>, id: int)
    ensures LowStockCount(RemoveId(ps, id)) <= LowStockCount(ps)
  {
    if ps != [] {
      RemoveIdLowStock(ps[1..], id);
      if ps[0].id != id {
        assert ([ps[0]] + RemoveId(ps[1..], id))[1..] == RemoveId(ps[1..], id);
      }
    }
  }

  // ---------------------------------------------------------------------
  // Add

  /** `parseInt(stock) || 0`: NaN becomes 0. */
  function StockOf(text: string): int {
    match ParseInt(text)
    case Some(v) => v
    case None => 0
  }

  /** The stock typed as a numeral is sent as that number; a text without digits as 0. */
  lemma StockOfNumeral(n: nat, tail: string)
    requires tail == [] || !IsDecimalDigit(tail[0])
    requires n == 0 && tail != [] ==> tail[0] != 'x' && tail[0] != 'X'
    ensures StockOf(Decimal(n) + tail) == n
    ensures StockOf("-" + Decimal(n) + tail) == -(n as int)
  {
    ParseIntOfNumeral(n, tail);
    ParseIntOfNegativeNumeral(n, tail);
  }

  /** A lone `0` followed by `x` starts a hexadecimal number: "0x1f" is sent as 31, not 0. */
  lemma StockOfHexPrefix()
    ensures StockOf("0x1f") == 31
  {
    HexDigits1f();
    ParseIntOfHex("1f");
    assert "0x1f" == "0x" + "1f";
  }

  lemma HexDigits1f()
    ensures "1f" != [] && DigitRun("1f", 16) == "1f" && Value("1f", 16) == 31
  {
    var z := "1f";
    assert z[1..] == "f" && z[..1] == "1";
    assert DigitRun("f", 16) == "f";
  }

  lemma StockOfNoDigits(text: string)
    requires forall i :: 0 <= i < |text| ==> !IsDecimalDigit(text[i])
    ensures StockOf(text) == 0
  {
    ParseIntWithoutDigits(text);
  }

  /** The create request's body: the form, with its numeric fields parsed. */
  function PayloadOf(d: FormData): Payload {
    Payload(d.title, d.description, d.category, d.brand,
            Amount(d.price), Amount(d.discountPercentage), Amount(d.rating),
            StockOf(d.stock), d.availabilityStatus, d.thumbnail)
  }

  /** `text || fallback`. */
  function OrElse(text: string, fallback: string): string {
    if text == "" then fallback else text
  }

  /** The record shown at once after a successful create. */
  function Optimistic(p: Payload, id: int): Product {
    Product(id, p.title, p.description, p.category, OrElse(p.brand, FallbackBrand),
            p.price, p.discountPercentage, p.rating,
            if p.stock == 0 then FallbackStock else p.stock,
            p.availabilityStatus, OrElse(p.thumbnail, PlaceholderThumbnail))
  }

  /**
   * The optimistic record carries the assigned identifier and the form's
   * texts; an empty brand or thumbnail gets its fallback, and a stock that
   * parses to 0 (or not at all) becomes 10.
   */
  lemma OptimisticRecord(d: FormData, id: int)
    ensures var r := Optimistic(PayloadOf(d), id);
      r.id == id && r.title == d.title && r.description == d.description
      && r.category == d.category && r.availabilityStatus == d.availabilityStatus
      && r.price == Amount(d.price) && r.rating == Amount(d.rating)
      && r.discountPercentage == Amount(d.discountPercentage)
      && (d.brand == "" ==> r.brand == FallbackBrand) && (d.brand != "" ==> r.brand == d.brand)
      && (d.thumbnail == "" ==> r.thumbnail == PlaceholderThumbnail)
      && (d.thumbnail != "" ==> r.thumbnail == d.thumbnail)
      && (StockOf(d.stock) == 0 ==> r.stock == FallbackStock)
      && (StockOf(d.stock) != 0 ==> r.stock == StockOf(d.stock))
  {
  }

  /** A form left at its initial value yields the fallback brand, thumbnail and stock. */
  lemma OptimisticFromEmptyForm(id: int)
    ensures var r := Optimistic(PayloadOf(EmptyForm()), id);
      r.brand == FallbackBrand && r.thumbnail == PlaceholderThumbnail && r.stock == FallbackStock
  {
    StockOfNoDigits("");
  }

  /** The added record is the first of the list; deleting its identifier removes it again. */
  lemma DeleteAfterAdd(r: Product, ps: seq<Product>)
    ensures RemoveId([r] + ps, r.id) == RemoveId(ps, r.id)
  {
    assert ([r] + ps)[1..] == ps;
  }

  // ---------------------------------------------------------------------
  // The screen's state

  /** The two filters are never both set. */
  predicate FiltersExclusive(searchTerm: string, category: string) {
    searchTerm == "" || category == ""
  }

  class AppState {
    var products: seq<Product>
    var loading: bool
    var toast: Option<Toast>
    var searchTerm: string
    var selectedCategory: string
    var currentPage: int
    var totalProducts: nat
    var categories: seq<string>
    var isModalOpen: bool

    ghost predicate Valid()
      reads this
    {
      FiltersExclusive(searchTerm, selectedCategory) && currentPage >= 1
    }

    /** The state on mount: nothing loaded yet, loading, first page, no filter. */
    constructor ()
      ensures Valid()
      ensures products == [] && loading && toast == None
      ensures searchTerm == "" && selectedCategory == "" && currentPage == 1
      ensures totalProducts == 0 && categories == [] && !isModalOpen
    {
      products := [];
      loading := true;
      toast := None;
      searchTerm := "";
      selectedCategory := "";
      currentPage := 1;
      totalProducts := 0;
      categories := [];
      isModalOpen := false;
    }

    /** `showToast(message, type = 'success')`: the new notice replaces any shown one. */
    method ShowToast(message: string, kind: Option<ToastKind>)
      modifies this`toast
      ensures toast == Some(Toast(message, if kind.Some? then kind.value else SuccessToast))
    {
      toast := Some(Toast(message, if kind.Some? then kind.value else SuccessToast));
    }

    /** The notice's close button. */
    method CloseToast()
      modifies this`toast
      ensures toast == None
    {
      toast := None;
    }

    /** The category-list fetch on mount: its answer, or `None` when it failed (the list stays empty). */
    method ApplyCategoryList(answer: Option<seq<string>>)
      modifies this`categories
      ensures categories == if answer.Some? then answer.value else old(categories)
    {
      if answer.Some? {
        categories := answer.value;
      }
    }

    /** `handleSearchChange`: the new text, no category, first page. */
    method SearchChange(text: string)
      requires Valid()
      modifies this`searchTerm, this`selectedCategory, this`currentPage
      ensures Valid()
      ensures searchTerm == text && selectedCategory == "" && currentPage == 1
    {
      searchTerm := text;
      selectedCategory := "";
      currentPage := 1;
    }

    /** `handleCategoryChange`: the new category, no search text, first page. */
    method CategoryChange(category: string)
      requires Valid()
      modifies this`searchTerm, this`selectedCategory, this`currentPage
      ensures Valid()
      ensures selectedCategory == category && searchTerm == "" && currentPage == 1
    {
      selectedCategory := category;
      searchTerm := "";
      currentPage := 1;
    }

    /** `handlePageChange`: the page changes only to a page that has items. */
    method PageChange(n: int)
      requires Valid()
      modifies this`currentPage
      ensures Valid()
      ensures currentPage == if PageAccepted(n, totalProducts) then n else old(currentPage)
    {
      if n > 0 && n <= TotalPages(totalProducts) {
        currentPage := n;
      }
    }

    /** `fetchProducts` when the debounce timer fires: loading, and the query for the state at that moment. */
    method StartFetch() returns (q: Query)
      requires Valid()
      modifies this`loading
      ensures loading
      ensures q == QueryFor(searchTerm, selectedCategory, currentPage)
    {
      loading := true;
      q := QueryFor(searchTerm, selectedCategory, currentPage);
    }

    /**
     * The answer to a fetch: on success the list and the total are those
     * of the answer; on failure they stay and an error notice is shown.
     * Loading ends either way.
     */
    method FinishFetch(outcome: FetchOutcome)
      modifies this`products, this`totalProducts, this`loading, this`toast
      ensures !loading
      ensures outcome.Fetched? ==>
        products == outcome.items && totalProducts == outcome.total && toast == old(toast)
      ensures outcome.FetchFailed? ==>
        products == old(products) && totalProducts == old(totalProducts)
        && toast == Some(Toast(LoadFailedMessage, ErrorToast))
    {
      match outcome
      case Fetched(items, total) =>
        products := items;
        totalProducts := total;
        loading := false;
      case FetchFailed =>
        loading := false;
        ShowToast(LoadFailedMessage, Some(ErrorToast));
    }

    /**
     * `handleAddProduct`: sends the parsed form; on success the optimistic
     * record goes in front of the list, without a refetch and without
     * changing the total. On failure the list stays and an error notice
     * is shown.
     */
    method AddProduct(draft: FormData, outcome: AddOutcome) returns (sent: Payload)
      modifies this`products, this`toast
      ensures sent == PayloadOf(draft)
      ensures outcome.Created? ==>
        products == [Optimistic(sent, outcome.id)] + old(products)
        && toast == Some(Toast(AddedMessage, SuccessToast))
      ensures outcome.AddFailed? ==>
        products == old(products) && toast == Some(Toast(AddFailedMessage, ErrorToast))
    {
      sent := PayloadOf(draft);
      match outcome
      case Created(id) =>
        products := [Optimistic(sent, id)] + products;
        ShowToast(AddedMessage, Some(SuccessToast));
      case AddFailed =>
        ShowToast(AddFailedMessage, Some(ErrorToast));
    }

    /** `handleDelete`: after confirmation the list loses the products with that identifier, locally only. */
    method Delete(id: int, confirmed: bool)
      modifies this`products, this`toast
      ensures confirmed ==>
        products == RemoveId(old(products), id) && toast == Some(Toast(DeletedMessage, SuccessToast))
      ensures !confirmed ==> products == old(products) && toast == old(toast)
    {
      if confirmed {
        products := RemoveId(products, id);
        ShowToast(DeletedMessage, Some(SuccessToast));
      }
    }

    /** `handleEdit`: only logs the product; no state changes. */
    method Edit(p: Product)
      ensures unchanged(this)
    {
    }

    /** The "Add Product" button. */
    method OpenModal()
      modifies this`isModalOpen
      ensures isModalOpen
    {
      isModalOpen := true;
    }

    /** The dialog's `onClose`. */
    method CloseModal()
      modifies this`isModalOpen
      ensures !isModalOpen
    {
      isModalOpen := false;
    }
  }

  // ---------------------------------------------------------------------
  // Scenarios

  /** Searching "phone" fetches the first page of the search; five hits fit one page. */
  method PhoneSearchScenario(hits: seq<Product>)
    requires |hits| == 5
  {
    var app := new AppState();
    app.SearchChange("phone");
    var q := app.StartFetch();
    assert q == Search("phone", 10, 0);
    app.FinishFetch(Fetched(hits, 5));
    assert |app.products| == 5 && app.totalProducts == 5 && !app.loading;
    assert TotalPages(app.totalProducts) == 1;
    assert NextDisabled(app.currentPage, app.totalProducts);
    app.PageChange(2);
    assert app.currentPage == 1;
  }

  /**
   * Two overlapping fetches: A is issued first and answered last, B issued
   * second and answered first. The list shown is A's answer.
   */
  method OverlappingFetchScenario(a: seq<Product>, b: seq<Product>) {
    var app := new AppState();
    app.CategoryChange("laptops");
    var qa := app.StartFetch();
    app.SearchChange("phone");
    var qb := app.StartFetch();
    assert qa.InCategory? && qb.Search?;
    app.FinishFetch(Fetched(b, |b|));
    app.FinishFetch(Fetched(a, |a|));
    assert app.products == a && app.searchTerm == "phone";
  }

  /** Adding through the dialog: the form is handed over, reset, and the record shown first. */
  method AddThroughDialogScenario(id: int) {
    var app := new AppState();
    app.OpenModal();
    var form := new ModalState();
    form.Change(Title, "Lamp");
    var submitted := form.BeginSubmit();
    assert submitted == EmptyForm().With(Title, "Lamp");
    assert form.isSubmitting && submitted.Get(Title) == "Lamp";
    form.EndSubmit();
    app.CloseModal();
    assert form.formData == EmptyForm() && !form.isSubmitting && !app.isModalOpen;
    var sent := app.AddProduct(submitted, Created(id));
    assert sent == PayloadOf(submitted);
    assert app.products == [Optimistic(sent, id)] + [];
  }

  /**
   * The in-stock figure goes negative: on an empty listing, adding a
   * product with a stock of 5 makes one low product against a total of 0.
   */
  method NegativeInStockScenario(id: int) {
    var app := new AppState();
    app.FinishFetch(Fetched([], 0));
    var total := app.totalProducts;
    var d := EmptyForm().With(Stock, "5");
    StockOfNumeral(5, "");
    assert d.stock == Decimal(5) + "";
    var sent := app.AddProduct(d, Created(id));
    assert app.products == [Optimistic(sent, id)] && app.products[0].stock == 5;
    assert LowStockCount(app.products) == 1;
    assert InStockCount(total, app.products) == -1;
  }

  /**
   * The page is not kept within the page count: an answer that arrives
   * late can shrink the total under a page accepted earlier. The screen
   * then reads "Showing 41-5 of 5", with Previous and Next enabled and
   * the pages both ask for rejected.
   */
  method ShrinkingTotalScenario(a: seq<Product>, b: seq<Product>) {
    var app := new AppState();
    app.FinishFetch(Fetched(b, 194));
    app.PageChange(5);
    assert app.currentPage == 5;
    app.FinishFetch(Fetched(a, 5));
    assert app.currentPage == 5 && app.totalProducts == 5;
    PageOutOfRange();
  }

  /**
   * Page 5 of a total of 5 is not a page the guard accepts, yet nothing
   * stops it being shown; both arrows are enabled and both are rejected.
   */
  lemma PageOutOfRange()
    ensures !PageAccepted(5, 5) && ShowingRange(5, 5) == (41, 5)
    ensures !PreviousDisabled(5) && !PageAccepted(4, 5)
    ensures !NextDisabled(5, 5) && !PageAccepted(6, 5)
  {
  }
}
