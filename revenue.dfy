/** The revenue summary of scripts/get_revenue.py: every completed
    session's total is converted to euro cents and added to a grand total,
    and every line item with a product is added, converted item by item,
    to a per-show bucket; the buckets are listed by decreasing revenue. */
module Revenue {
  import opened Wrappers
  import opened Text
  import opened Sessions
  import opened Dicts
  import Sorting

  // ---------------------------------------------------------------------
  // Currency conversion (`to_eur_cents`)

  datatype RevenueError = NoExchangeRate(currency: string)

  /** The rate snapshot: lower-case currency code to units per euro. */
  type Rates = map<string, real>

  /** `round(amount_cents / rate)`, left uninterpreted: floating-point
      division and rounding are not modelled. */
  type Converter = (int, real) -> int

  /** The currency can be converted: it is the euro, or it has a rate. */
  predicate HasRate(currency: string, rates: Rates) {
    Lower(currency) == "eur" || Lower(currency) in rates
  }

  /** An amount in the smallest unit of `currency`, in euro cents. */
  function ToEurCents(amountCents: int, currency: string, rates: Rates, convert: Converter): (r: Result<int, RevenueError>)
    ensures r.Ok? <==> HasRate(currency, rates)
  {
    var cur := Lower(currency);
    if cur == "eur" then Ok(amountCents)
    else if cur !in rates then Err(NoExchangeRate(Upper(currency)))
    else Ok(convert(amountCents, rates[cur]))
  }

  /** The euro code in one of its eight letter cases. */
  predicate IsEurSpelling(c: string) {
    && |c| == 3
    && (c[0] == 'e' || c[0] == 'E')
    && (c[1] == 'u' || c[1] == 'U')
    && (c[2] == 'r' || c[2] == 'R')
  }

  lemma LowerIsEur(c: string)
    ensures Lower(c) == "eur" <==> IsEurSpelling(c)
  {
    LowerAt(c);
    if |c| == 3 {
      assert Lower(c) == [LowerChar(c[0]), LowerChar(c[1]), LowerChar(c[2])];
    }
  }

  lemma LowerEur()
    ensures Lower("eur") == "eur"
  {
    LowerIsEur("eur");
  }

  /** "eur" in any letter case is returned unchanged, whatever the rates. */
  lemma EurIsUnchanged(amountCents: int, currency: string, rates: Rates, convert: Converter)
    requires IsEurSpelling(currency)
    ensures ToEurCents(amountCents, currency, rates, convert) == Ok(amountCents)
  {
    LowerIsEur(currency);
  }

  /** Any other currency without a rate fails, and the error names the
      currency upper-cased; otherwise the converter is applied to the
      rate of the lower-cased code. */
  lemma OtherCurrencies(amountCents: int, currency: string, rates: Rates, convert: Converter)
    requires !IsEurSpelling(currency)
    ensures var r := ToEurCents(amountCents, currency, rates, convert);
      && (Lower(currency) !in rates ==>
            r.Err? && r.error.currency == Upper(currency) && Lower(r.error.currency) == Lower(currency))
      && (Lower(currency) in rates ==> r == Ok(convert(amountCents, rates[Lower(currency)])))
  {
    LowerIsEur(currency);
    LowerOfUpper(currency);
  }

  // ---------------------------------------------------------------------
  // Product names (`get_product_name` and its cache)

  /** The reply of the remote product lookup. */
  datatype Lookup = Found(name: Option<string>) | LookupFailed

  /** The remote product catalogue as seen during one run: the reply to
      the run's `attempt`-th lookup (counting from 0) when it asks for `id`.
      The attempt number lets the catalogue change while the run goes on (a
      renamed product, a passing failure); only the cache decides what a
      later call returns. */
  type Catalogue = (string, nat) -> Lookup

  /** `product.get("name") or product_id`, and the raw id when the lookup
      fails. */
  function DisplayName(remote: Catalogue, productId: string, attempt: nat): string {
    match remote(productId, attempt)
    case Found(Some(n)) => if n != "" then n else productId
    case _ => productId
  }

  /** A failed lookup or an empty or missing name shows the raw id;
      otherwise the product's name is shown. */
  lemma DisplayNameFallsBack(remote: Catalogue, productId: string, attempt: nat)
    ensures var reply := remote(productId, attempt);
      DisplayName(remote, productId, attempt) == productId <==>
        reply.LookupFailed? || reply.name.None? || reply.name.value in {"", productId}
    ensures var reply := remote(productId, attempt);
      reply.Found? && reply.name.Some? && reply.name.value != "" ==>
        DisplayName(remote, productId, attempt) == reply.name.value
  {
  }

  /** Each cached id was looked up exactly once, and caches the display
      name that its own lookup gave; the cache's size counts the lookups. */
  ghost predicate Caches(cache: map<string, string>, fetched: seq<string>, remote: Catalogue) {
    && (forall id :: id in cache <==> id in fetched)
    && Distinct(fetched)
    && |cache| == |fetched|
    && (forall i :: 0 <= i < |fetched| ==> cache[fetched[i]] == DisplayName(remote, fetched[i], i))
  }

  /** Caching the answer of a new lookup keeps the relation. */
  lemma CacheNew(cache: map<string, string>, fetched: seq<string>, remote: Catalogue, productId: string)
    requires Caches(cache, fetched, remote) && productId !in cache
    ensures Caches(cache[productId := DisplayName(remote, productId, |fetched|)], fetched + [productId], remote)
  {
    var n := |fetched|;
    var cache', fetched' := cache[productId := DisplayName(remote, productId, n)], fetched + [productId];
    assert forall i :: 0 <= i < n ==> fetched[i] in cache && fetched[i] != productId && fetched'[i] == fetched[i];
    assert |cache'| == |cache| + 1;
  }

  /** `product_cache` together with the lookups it has issued. */
  class ProductDirectory {
    const remote: Catalogue
    var cache: map<string, string>
    /** The ids sent to the remote catalogue, in order. */
    ghost var fetched: seq<string>

    ghost predicate Valid()
      reads this
    {
      Caches(cache, fetched, remote)
    }

    constructor (remote: Catalogue)
      ensures Valid() && this.remote == remote
      ensures cache == map[] && fetched == []
    {
      this.remote := remote;
      cache := map[];
      fetched := [];
    }

    /** The display name of `productId`; the remote catalogue is asked only
        if the id is not cached yet, and the answer, a fallback to the raw
        id included, is kept for the rest of the run. */
    method GetName(productId: string) returns (name: string)
      requires Valid()
      modifies this
      ensures Valid()
      ensures cache == old(cache)[productId := name]
      ensures productId in old(cache) ==> name == old(cache)[productId] && fetched == old(fetched)
      ensures productId !in old(cache) ==>
        name == DisplayName(remote, productId, |old(fetched)|) && fetched == old(fetched) + [productId]
    {
      if productId !in cache {
        ghost var n := |fetched|;
        var reply := remote(productId, |cache|);
        var shown: string;
        match reply {
          case Found(name) =>
            shown := if name.Some? && name.value != "" then name.value else productId;
          case LookupFailed =>
            shown := productId;
        }
        assert shown == DisplayName(remote, productId, n);
        CacheNew(cache, fetched, remote, productId);
        cache := cache[productId := shown];
        fetched := fetched + [productId];
      }
      name := cache[productId];
    }
  }

  /** Two calls in a row answer the same name, whatever the catalogue
      would answer a second time, and ask the remote catalogue at most
      once. */
  method GetNameTwice(directory: ProductDirectory, productId: string) returns (first: string, second: string)
    requires directory.Valid()
    modifies directory
    ensures first == second
    ensures first == if productId in old(directory.cache) then old(directory.cache)[productId]
      else DisplayName(directory.remote, productId, |old(directory.fetched)|)
    ensures |directory.fetched| <= |old(directory.fetched)| + 1
  {
    first := directory.GetName(productId);
    second := directory.GetName(productId);
  }

  // ---------------------------------------------------------------------
  // The aggregation loop

  /** One `by_show` bucket. */
  datatype Show = Show(name: string, revenueEur: int, tickets: nat)

  /** The value the `defaultdict` creates for a new product id. */
  const NewShow: Show := Show("", 0, 0)

  type ByShow = Dict<string, Show>

  /** `by_show`, `grand_total_eur` and `session_count`. */
  datatype Totals = Totals(byShow: ByShow, grandTotalEur: int, sessionCount: nat)

  /** `(session.get("currency") or "").lower()` */
  function SessionCurrency(s: Session): string {
    Lower(s.currency.GetOr(""))
  }

  /** `quantity * unit_amount` of a line item, in the session currency. */
  function LineAmount(item: LineItem): int {
    Quantity(item) as int * UnitAmount(item) as int
  }

  /** The name `get_product_name` answers for `pid` while the buckets are
      `d`: the product cache holds exactly the ids that have a bucket, in
      the same order, so a known id keeps the name of its bucket and a new
      one is the run's `|d.keys|`-th remote lookup. */
  function CachedName(d: ByShow, pid: string, remote: Catalogue): string {
    if pid in d.entries then d.entries[pid].name else DisplayName(remote, pid, |d.keys|)
  }

  /** The effect of one line item on the buckets (lines 111-126). */
  function AddItem(d: ByShow, item: LineItem, cur: string, rates: Rates, convert: Converter, remote: Catalogue): ByShow
    requires HasRate(cur, rates)
  {
    match RevenueProductId(item)
    case None => d
    case Some(pid) =>
      var quantity := Quantity(item);
      var itemRevenueEur := ToEurCents(quantity * UnitAmount(item), cur, rates, convert).value;
      var show := Get(d, pid, NewShow);
      Put(d, pid, Show(CachedName(d, pid, remote), show.revenueEur + itemRevenueEur, show.tickets + quantity))
  }

  /** The buckets after the loop over `items`. */
  function AddItems(d: ByShow, items: seq<LineItem>, cur: string, rates: Rates, convert: Converter, remote: Catalogue): ByShow
    requires HasRate(cur, rates)
  {
    if items == [] then d
    else AddItem(AddItems(d, items[..|items| - 1], cur, rates, convert, remote), items[|items| - 1], cur, rates, convert, remote)
  }

  /** One iteration of the session loop (lines 99-126): it fails when the
      session's currency has no rate. */
  function AddSession(t: Totals, s: Session, rates: Rates, convert: Converter, remote: Catalogue): Result<Totals, RevenueError> {
    var cur := SessionCurrency(s);
    match ToEurCents(s.amountTotal.GetOr(0), cur, rates, convert)
    case Err(e) => Err(e)
    case Ok(totalEur) =>
      Ok(Totals(AddItems(t.byShow, Items(s), cur, rates, convert, remote), t.grandTotalEur + totalEur, t.sessionCount + 1))
  }

  /** The totals after the session loop has seen `ss`, or the error of the
      first session whose currency has no rate. */
  function Summarise(ss: seq<Session>, rates: Rates, convert: Converter, remote: Catalogue): Result<Totals, RevenueError> {
    if ss == [] then Ok(Totals(Empty(), 0, 0))
    else
      match Summarise(ss[..|ss| - 1], rates, convert, remote)
      case Err(e) => Err(e)
      case Ok(t) => AddSession(t, ss[|ss| - 1], rates, convert, remote)
  }

  // ---------------------------------------------------------------------
  // Reference definitions

  predicate AllConvertible(ss: seq<Session>, rates: Rates) {
    forall i :: 0 <= i < |ss| ==> HasRate(SessionCurrency(ss[i]), rates)
  }

  /** The sum of every session's converted `amount_total` (missing is 0). */
  function GrossEur(ss: seq<Session>, rates: Rates, convert: Converter): int
    requires AllConvertible(ss, rates)
  {
    if ss == [] then 0
    else
      var s := ss[|ss| - 1];
      GrossEur(ss[..|ss| - 1], rates, convert) + ToEurCents(s.amountTotal.GetOr(0), SessionCurrency(s), rates, convert).value
  }

  /** The line item is for product `pid`. */
  predicate ForProduct(item: LineItem, pid: string) {
    RevenueProductId(item) == Some(pid)
  }

  function ItemsTickets(items: seq<LineItem>, pid: string): nat {
    if items == [] then 0
    else ItemsTickets(items[..|items| - 1], pid) + (if ForProduct(items[|items| - 1], pid) then Quantity(items[|items| - 1]) else 0)
  }

  /** The per-item conversions of `quantity * unit_amount` for product `pid`. */
  function ItemsRevenue(items: seq<LineItem>, pid: string, cur: string, rates: Rates, convert: Converter): int
    requires HasRate(cur, rates)
  {
    if items == [] then 0
    else
      var item := items[|items| - 1];
      ItemsRevenue(items[..|items| - 1], pid, cur, rates, convert)
        + (if ForProduct(item, pid) then ToEurCents(LineAmount(item), cur, rates, convert).value else 0)
  }

  /** `quantity * unit_amount` summed over the items for `pid`, unconverted. */
  function ItemsGross(items: seq<LineItem>, pid: string): int {
    if items == [] then 0
    else
      var item := items[|items| - 1];
      ItemsGross(items[..|items| - 1], pid) + (if ForProduct(item, pid) then LineAmount(item) else 0)
  }

  predicate ItemsMention(items: seq<LineItem>, pid: string) {
    exists j :: 0 <= j < |items| && ForProduct(items[j], pid)
  }

  function ShowTickets(ss: seq<Session>, pid: string): nat {
    if ss == [] then 0
    else ShowTickets(ss[..|ss| - 1], pid) + ItemsTickets(Items(ss[|ss| - 1]), pid)
  }

  function ShowRevenue(ss: seq<Session>, pid: string, rates: Rates, convert: Converter): int
    requires AllConvertible(ss, rates)
  {
    if ss == [] then 0
    else
      var s := ss[|ss| - 1];
      ShowRevenue(ss[..|ss| - 1], pid, rates, convert) + ItemsRevenue(Items(s), pid, SessionCurrency(s), rates, convert)
  }

  function ShowGross(ss: seq<Session>, pid: string): int {
    if ss == [] then 0
    else ShowGross(ss[..|ss| - 1], pid) + ItemsGross(Items(ss[|ss| - 1]), pid)
  }

  predicate Mentions(ss: seq<Session>, pid: string) {
    exists i :: 0 <= i < |ss| && ItemsMention(Items(ss[i]), pid)
  }

  // ---------------------------------------------------------------------
  // Lemmas

  /** Once a session fails, the whole run fails with its error. */
  lemma {:induction false} ErrorPersists(ss: seq<Session>, n: nat, rates: Rates, convert: Converter, remote: Catalogue)
    requires n <= |ss| && Summarise(ss[..n], rates, convert, remote).Err?
    ensures Summarise(ss, rates, convert, remote) == Summarise(ss[..n], rates, convert, remote)
  {
    if n < |ss| {
      var m := |ss| - 1;
      assert ss[..m][..n] == ss[..n];
      ErrorPersists(ss[..m], n, rates, convert, remote);
    } else {
      assert ss[..n] == ss;
    }
  }

  /** The run succeeds exactly when every session's currency is the euro
      or has a rate; the error names the upper-cased currency of the
      first session that has none. */
  lemma {:induction false} SummariseFails(ss: seq<Session>, rates: Rates, convert: Converter, remote: Catalogue)
    ensures Summarise(ss, rates, convert, remote).Ok? <==> AllConvertible(ss, rates)
    ensures Summarise(ss, rates, convert, remote).Err? ==>
      exists i :: 0 <= i < |ss| && AllConvertible(ss[..i], rates) && !HasRate(SessionCurrency(ss[i]), rates)
        && Summarise(ss, rates, convert, remote).error == NoExchangeRate(Upper(SessionCurrency(ss[i])))
  {
    if ss != [] {
      var n := |ss| - 1;
      var p, s := ss[..n], ss[n];
      SummariseFails(p, rates, convert, remote);
      assert forall i :: 0 <= i < n ==> p[i] == ss[i];
      assert forall i :: 0 <= i <= n ==> ss[..i] == p[..i];
      if Summarise(p, rates, convert, remote).Ok? {
        var cur := SessionCurrency(s);
        if !HasRate(cur, rates) {
          assert ToEurCents(s.amountTotal.GetOr(0), cur, rates, convert) == Err(NoExchangeRate(Upper(cur)));
          assert AllConvertible(ss[..n], rates);
        }
      }
    }
  }

  /** The session counter counts every session, with or without line
      items, and the grand total adds every session's converted total. */
  lemma {:induction false} GrandTotal(ss: seq<Session>, rates: Rates, convert: Converter, remote: Catalogue)
    requires AllConvertible(ss, rates)
    ensures Summarise(ss, rates, convert, remote).Ok?
    ensures Summarise(ss, rates, convert, remote).value.sessionCount == |ss|
    ensures Summarise(ss, rates, convert, remote).value.grandTotalEur == GrossEur(ss, rates, convert)
  {
    SummariseFails(ss, rates, convert, remote);
    if ss != [] {
      var n := |ss| - 1;
      assert forall i :: 0 <= i < n ==> ss[..n][i] == ss[i];
      GrandTotal(ss[..n], rates, convert, remote);
    }
  }

  /** With every session in euros, the grand total is the plain sum of
      the sessions' `amount_total`. */
  lemma {:induction false} GrossInEuros(ss: seq<Session>, rates: Rates, convert: Converter)
    requires forall i :: 0 <= i < |ss| ==> SessionCurrency(ss[i]) == "eur"
    ensures AllConvertible(ss, rates)
    ensures GrossEur(ss, rates, convert) == AmountsTotal(ss)
  {
    LowerEur();
    if ss != [] {
      var n := |ss| - 1;
      assert forall i :: 0 <= i < n ==> ss[..n][i] == ss[i];
      GrossInEuros(ss[..n], rates, convert);
    }
  }

  function AmountsTotal(ss: seq<Session>): int {
    if ss == [] then 0 else AmountsTotal(ss[..|ss| - 1]) + ss[|ss| - 1].amountTotal.GetOr(0)
  }

  /** What one line item does to the bucket of product `pid`. */
  lemma AddItemAt(d: ByShow, item: LineItem, pid: string, cur: string, rates: Rates, convert: Converter, remote: Catalogue)
    requires HasRate(cur, rates)
    ensures var d' := AddItem(d, item, cur, rates, convert, remote);
      if ForProduct(item, pid) then
        && pid in d'.entries
        && d'.entries[pid] == Show(CachedName(d, pid, remote),
             Get(d, pid, NewShow).revenueEur + ToEurCents(LineAmount(item), cur, rates, convert).value,
             Get(d, pid, NewShow).tickets + Quantity(item))
      else
        (pid in d'.entries <==> pid in d.entries) && (pid in d.entries ==> d'.entries[pid] == d.entries[pid])
  {
  }

  /** Items that never name `pid` add nothing to its bucket. */
  lemma {:induction false} UnmentionedItems(items: seq<LineItem>, pid: string, cur: string, rates: Rates, convert: Converter)
    requires HasRate(cur, rates) && !ItemsMention(items, pid)
    ensures ItemsRevenue(items, pid, cur, rates, convert) == 0 && ItemsTickets(items, pid) == 0
  {
    if items != [] {
      var n := |items| - 1;
      assert forall j :: 0 <= j < n ==> items[..n][j] == items[j];
      assert !ForProduct(items[n], pid);
      UnmentionedItems(items[..n], pid, cur, rates, convert);
    }
  }

  /** A product that no line item names has no tickets and no revenue. */
  lemma {:induction false} UnmentionedShow(ss: seq<Session>, pid: string, rates: Rates, convert: Converter)
    requires AllConvertible(ss, rates) && !Mentions(ss, pid)
    ensures ShowRevenue(ss, pid, rates, convert) == 0 && ShowTickets(ss, pid) == 0
  {
    if ss != [] {
      var n := |ss| - 1;
      assert forall i :: 0 <= i < n ==> ss[..n][i] == ss[i];
      assert !ItemsMention(Items(ss[n]), pid);
      UnmentionedItems(Items(ss[n]), pid, SessionCurrency(ss[n]), rates, convert);
      UnmentionedShow(ss[..n], pid, rates, convert);
    }
  }

  /** An item whose price has no product, whose product id is empty, or
      whose expanded product has a missing or empty id is skipped: it
      names no show and leaves the buckets unchanged. */
  lemma ProductlessItemsCountForNoShow(d: ByShow, item: LineItem, cur: string, rates: Rates, convert: Converter, remote: Catalogue)
    requires HasRate(cur, rates)
    ensures RevenueProductId(item).None? <==>
      ProductOf(item) in {NoProduct, ProductId(""), ProductObject(None), ProductObject(Some(""))}
    ensures RevenueProductId(item).None? ==>
      (forall pid :: !ForProduct(item, pid)) && AddItem(d, item, cur, rates, convert, remote) == d
  {
  }

  /** What the loop over one session's items does to the bucket of `pid`. */
  lemma {:induction false} AddItemsAt(d: ByShow, items: seq<LineItem>, pid: string, cur: string, rates: Rates, convert: Converter, remote: Catalogue)
    requires HasRate(cur, rates)
    ensures var d' := AddItems(d, items, cur, rates, convert, remote);
      && (pid in d'.entries <==> pid in d.entries || ItemsMention(items, pid))
      && (pid in d'.entries ==>
            && d'.entries[pid].revenueEur == Get(d, pid, NewShow).revenueEur + ItemsRevenue(items, pid, cur, rates, convert)
            && d'.entries[pid].tickets == Get(d, pid, NewShow).tickets + ItemsTickets(items, pid))
      && (pid in d.entries ==> d'.entries[pid].name == d.entries[pid].name)
  {
    if items != [] {
      var n := |items| - 1;
      var p, item := items[..n], items[n];
      AddItemsAt(d, p, pid, cur, rates, convert, remote);
      AddItemAt(AddItems(d, p, cur, rates, convert, remote), item, pid, cur, rates, convert, remote);
      ItemsMentionLast(items, pid);
      if !ItemsMention(p, pid) {
        UnmentionedItems(p, pid, cur, rates, convert);
      }
    }
  }

  lemma MentionsLast(ss: seq<Session>, pid: string)
    requires ss != []
    ensures Mentions(ss, pid) <==> Mentions(ss[..|ss| - 1], pid) || ItemsMention(Items(ss[|ss| - 1]), pid)
  {
    var n := |ss| - 1;
    if Mentions(ss, pid) && !ItemsMention(Items(ss[n]), pid) {
      var i :| 0 <= i < |ss| && ItemsMention(Items(ss[i]), pid);
      assert ss[..n][i] == ss[i];
    }
    if Mentions(ss[..n], pid) {
      var i :| 0 <= i < n && ItemsMention(Items(ss[..n][i]), pid);
      assert ss[..n][i] == ss[i];
    }
  }

  lemma ItemsMentionLast(items: seq<LineItem>, pid: string)
    requires items != []
    ensures ItemsMention(items, pid) <==> ItemsMention(items[..|items| - 1], pid) || ForProduct(items[|items| - 1], pid)
  {
    var n := |items| - 1;
    if ItemsMention(items, pid) && !ForProduct(items[n], pid) {
      var j :| 0 <= j < |items| && ForProduct(items[j], pid);
      assert items[..n][j] == items[j];
    }
    if ItemsMention(items[..n], pid) {
      var j :| 0 <= j < n && ForProduct(items[..n][j], pid);
      assert items[..n][j] == items[j];
    }
  }

  /** Per show: a bucket exists exactly for the product ids some line item
      resolves to; its tickets are the sum of those items' quantities and
      its revenue the sum of their per-item conversions. Its name is given
      by `SummaryNamed`. */
  lemma {:induction false} ShowTotals(ss: seq<Session>, pid: string, rates: Rates, convert: Converter, remote: Catalogue)
    requires AllConvertible(ss, rates)
    ensures Summarise(ss, rates, convert, remote).Ok?
    ensures var d := Summarise(ss, rates, convert, remote).value.byShow;
      && (pid in d.entries <==> Mentions(ss, pid))
      && (pid in d.entries ==>
            d.entries[pid].revenueEur == ShowRevenue(ss, pid, rates, convert) && d.entries[pid].tickets == ShowTickets(ss, pid))
  {
    SummariseFails(ss, rates, convert, remote);
    if ss != [] {
      var n := |ss| - 1;
      var p, s := ss[..n], ss[n];
      assert forall i :: 0 <= i < n ==> p[i] == ss[i];
      assert AllConvertible(p, rates);
      ShowTotals(p, pid, rates, convert, remote);
      var t := Summarise(p, rates, convert, remote).value;
      var cur := SessionCurrency(s);
      assert Summarise(ss, rates, convert, remote).value.byShow == AddItems(t.byShow, Items(s), cur, rates, convert, remote);
      AddItemsAt(t.byShow, Items(s), pid, cur, rates, convert, remote);
      assert ShowRevenue(ss, pid, rates, convert) == ShowRevenue(p, pid, rates, convert) + ItemsRevenue(Items(s), pid, cur, rates, convert);
      assert ShowTickets(ss, pid) == ShowTickets(p, pid) + ItemsTickets(Items(s), pid);
      MentionsLast(ss, pid);
      if !Mentions(p, pid) {
        UnmentionedShow(p, pid, rates, convert);
        assert Get(t.byShow, pid, NewShow) == NewShow;
      } else {
        assert Get(t.byShow, pid, NewShow).revenueEur == ShowRevenue(p, pid, rates, convert);
        assert Get(t.byShow, pid, NewShow).tickets == ShowTickets(p, pid);
      }
    }
  }

  lemma {:induction false} ItemsInEuros(items: seq<LineItem>, pid: string, rates: Rates, convert: Converter)
    ensures ItemsRevenue(items, pid, "eur", rates, convert) == ItemsGross(items, pid)
  {
    LowerEur();
    if items != [] {
      ItemsInEuros(items[..|items| - 1], pid, rates, convert);
    }
  }

  /** With every session in euros, a show's revenue is exactly the sum of
      `quantity * unit_amount` over its line items. */
  lemma {:induction false} ShowRevenueInEuros(ss: seq<Session>, pid: string, rates: Rates, convert: Converter)
    requires forall i :: 0 <= i < |ss| ==> SessionCurrency(ss[i]) == "eur"
    ensures AllConvertible(ss, rates)
    ensures ShowRevenue(ss, pid, rates, convert) == ShowGross(ss, pid)
  {
    LowerEur();
    if ss != [] {
      var n := |ss| - 1;
      assert forall i :: 0 <= i < n ==> ss[..n][i] == ss[i];
      ShowRevenueInEuros(ss[..n], pid, rates, convert);
      ItemsInEuros(Items(ss[n]), pid, rates, convert);
    }
  }

  // ---------------------------------------------------------------------
  // Conservation of tickets over all buckets

  /** The tickets of the buckets listed in `keys`. */
  function TicketSum(keys: seq<string>, m: map<string, Show>): int
    requires forall i :: 0 <= i < |keys| ==> keys[i] in m
  {
    if keys == [] then 0 else TicketSum(keys[..|keys| - 1], m) + m[keys[|keys| - 1]].tickets
  }

  function BucketTickets(d: ByShow): int
    requires Valid(d)
  {
    TicketSum(d.keys, d.entries)
  }

  lemma {:induction false} TicketSumIgnores(keys: seq<string>, m: map<string, Show>, k: string, v: Show)
    requires forall i :: 0 <= i < |keys| ==> keys[i] in m && keys[i] != k
    ensures TicketSum(keys, m[k := v]) == TicketSum(keys, m)
  {
    if keys != [] {
      TicketSumIgnores(keys[..|keys| - 1], m, k, v);
    }
  }

  lemma {:induction false} TicketSumUpdate(keys: seq<string>, m: map<string, Show>, k: string, v: Show)
    requires forall i :: 0 <= i < |keys| ==> keys[i] in m
    requires Distinct(keys) && k in keys
    ensures TicketSum(keys, m[k := v]) == TicketSum(keys, m) - m[k].tickets + v.tickets
  {
    var n := |keys| - 1;
    var p := keys[..n];
    if keys[n] == k {
      assert forall i :: 0 <= i < n ==> p[i] != k;
      TicketSumIgnores(p, m, k, v);
    } else {
      assert k in p by {
        var j :| 0 <= j < |keys| && keys[j] == k;
        assert j < n && p[j] == k;
      }
      TicketSumUpdate(p, m, k, v);
    }
  }

  /** Storing a bucket changes the ticket total by the bucket's change. */
  lemma PutTickets(d: ByShow, k: string, v: Show)
    requires Valid(d)
    ensures Valid(Put(d, k, v))
    ensures BucketTickets(Put(d, k, v)) == BucketTickets(d) - Get(d, k, NewShow).tickets + v.tickets
  {
    assert forall i :: 0 <= i < |d.keys| ==> d.keys[i] in d.entries;
    if k in d.entries {
      TicketSumUpdate(d.keys, d.entries, k, v);
    } else {
      var keys := d.keys + [k];
      assert keys[..|keys| - 1] == d.keys;
      TicketSumIgnores(d.keys, d.entries, k, v);
    }
  }

  /** The quantities of every line item that has a product. */
  function AllItemsTickets(items: seq<LineItem>): nat {
    if items == [] then 0
    else AllItemsTickets(items[..|items| - 1]) + (if RevenueProductId(items[|items| - 1]).Some? then Quantity(items[|items| - 1]) else 0)
  }

  function TotalTickets(ss: seq<Session>): nat {
    if ss == [] then 0 else TotalTickets(ss[..|ss| - 1]) + AllItemsTickets(Items(ss[|ss| - 1]))
  }

  lemma AddItemConserves(d: ByShow, item: LineItem, cur: string, rates: Rates, convert: Converter, remote: Catalogue)
    requires HasRate(cur, rates) && Valid(d)
    ensures Valid(AddItem(d, item, cur, rates, convert, remote))
    ensures BucketTickets(AddItem(d, item, cur, rates, convert, remote)) ==
      BucketTickets(d) + (if RevenueProductId(item).Some? then Quantity(item) else 0)
  {
    var r := RevenueProductId(item);
    if r.Some? {
      var pid := r.value;
      var show := Get(d, pid, NewShow);
      var rev := ToEurCents(LineAmount(item), cur, rates, convert).value;
      var v := Show(CachedName(d, pid, remote), show.revenueEur + rev, show.tickets + Quantity(item));
      assert AddItem(d, item, cur, rates, convert, remote) == Put(d, pid, v);
      PutTickets(d, pid, v);
    } else {
      assert AddItem(d, item, cur, rates, convert, remote) == d;
    }
  }

  lemma {:induction false} AddItemsConserves(d: ByShow, items: seq<LineItem>, cur: string, rates: Rates, convert: Converter, remote: Catalogue)
    requires HasRate(cur, rates) && Valid(d)
    ensures Valid(AddItems(d, items, cur, rates, convert, remote))
    ensures BucketTickets(AddItems(d, items, cur, rates, convert, remote)) == BucketTickets(d) + AllItemsTickets(items)
  {
    if items != [] {
      var n := |items| - 1;
      AddItemsConserves(d, items[..n], cur, rates, convert, remote);
      AddItemConserves(AddItems(d, items[..n], cur, rates, convert, remote), items[n], cur, rates, convert, remote);
    }
  }

  /** Conservation: the tickets of all buckets add up to the quantities of
      all line items that have a product. */
  lemma {:induction false} TicketsConserved(ss: seq<Session>, rates: Rates, convert: Converter, remote: Catalogue)
    requires AllConvertible(ss, rates)
    ensures Summarise(ss, rates, convert, remote).Ok?
    ensures Valid(Summarise(ss, rates, convert, remote).value.byShow)
    ensures BucketTickets(Summarise(ss, rates, convert, remote).value.byShow) == TotalTickets(ss)
  {
    SummariseFails(ss, rates, convert, remote);
    if ss != [] {
      var n := |ss| - 1;
      var s := ss[n];
      assert forall i :: 0 <= i < n ==> ss[..n][i] == ss[i];
      TicketsConserved(ss[..n], rates, convert, remote);
      var t := Summarise(ss[..n], rates, convert, remote).value;
      AddItemsConserves(t.byShow, Items(s), SessionCurrency(s), rates, convert, remote);
    }
  }

  lemma {:induction false} SummaryValid(ss: seq<Session>, rates: Rates, convert: Converter, remote: Catalogue)
    requires Summarise(ss, rates, convert, remote).Ok?
    ensures Valid(Summarise(ss, rates, convert, remote).value.byShow)
  {
    SummariseFails(ss, rates, convert, remote);
    TicketsConserved(ss, rates, convert, remote);
  }

  /** The buckets of a successful run are exactly the product ids that
      some line item names. */
  lemma LookupsAreMentions(ss: seq<Session>, rates: Rates, convert: Converter, remote: Catalogue)
    requires Summarise(ss, rates, convert, remote).Ok?
    ensures forall id :: id in Summarise(ss, rates, convert, remote).value.byShow.keys <==> Mentions(ss, id)
  {
    SummariseFails(ss, rates, convert, remote);
    SummaryValid(ss, rates, convert, remote);
    forall id ensures id in Summarise(ss, rates, convert, remote).value.byShow.keys <==> Mentions(ss, id) {
      ShowTotals(ss, id, rates, convert, remote);
    }
  }

  // ---------------------------------------------------------------------
  // Show names

  /** Every bucket carries the display name that its own product lookup
      gave: the bucket inserted `i`-th is the run's `i`-th lookup. */
  ghost predicate NamedByFirstLookup(d: ByShow, remote: Catalogue) {
    && Valid(d)
    && forall i :: 0 <= i < |d.keys| ==> d.entries[d.keys[i]].name == DisplayName(remote, d.keys[i], i)
  }

  lemma AddItemNamed(d: ByShow, item: LineItem, cur: string, rates: Rates, convert: Converter, remote: Catalogue)
    requires HasRate(cur, rates) && NamedByFirstLookup(d, remote)
    ensures NamedByFirstLookup(AddItem(d, item, cur, rates, convert, remote), remote)
  {
    var d' := AddItem(d, item, cur, rates, convert, remote);
    if RevenueProductId(item).Some? {
      var pid := RevenueProductId(item).value;
      var n := |d.keys|;
      assert d'.entries.Keys == d.entries.Keys + {pid} && d'.entries[pid].name == CachedName(d, pid, remote);
      assert forall i :: 0 <= i < n ==> d'.keys[i] == d.keys[i];
      if pid in d.entries {
        assert d'.keys == d.keys;
      } else {
        assert forall i :: 0 <= i < n ==> d.keys[i] in d.entries && d.keys[i] != pid;
        assert d'.keys == d.keys + [pid] && d'.keys[n] == pid;
      }
      forall i | 0 <= i < |d'.keys| ensures d'.entries[d'.keys[i]].name == DisplayName(remote, d'.keys[i], i) {
        if d'.keys[i] != pid {
          assert d'.entries[d'.keys[i]] == d.entries[d.keys[i]];
        }
      }
    }
  }

  lemma {:induction false} AddItemsNamed(d: ByShow, items: seq<LineItem>, cur: string, rates: Rates, convert: Converter, remote: Catalogue)
    requires HasRate(cur, rates) && NamedByFirstLookup(d, remote)
    ensures NamedByFirstLookup(AddItems(d, items, cur, rates, convert, remote), remote)
  {
    if items != [] {
      var n := |items| - 1;
      AddItemsNamed(d, items[..n], cur, rates, convert, remote);
      AddItemNamed(AddItems(d, items[..n], cur, rates, convert, remote), items[n], cur, rates, convert, remote);
    }
  }

  /** Each show is listed under the name its first and only product lookup
      gave, in the order the products were first seen; a later lookup
      answering differently would not change it. */
  lemma {:induction false} SummaryNamed(ss: seq<Session>, rates: Rates, convert: Converter, remote: Catalogue)
    requires Summarise(ss, rates, convert, remote).Ok?
    ensures NamedByFirstLookup(Summarise(ss, rates, convert, remote).value.byShow, remote)
  {
    if ss != [] {
      var n := |ss| - 1;
      var p, s := ss[..n], ss[n];
      SummaryNamed(p, rates, convert, remote);
      var t := Summarise(p, rates, convert, remote).value;
      assert HasRate(SessionCurrency(s), rates);
      AddItemsNamed(t.byShow, Items(s), SessionCurrency(s), rates, convert, remote);
    }
  }

  // ---------------------------------------------------------------------
  // The by-show listing

  /** One printed line of the by-show listing. */
  datatype ShowLine = ShowLine(productId: string, name: string, revenueEur: int, tickets: nat)

  /** The sort key order: `-s["revenue_eur"]` ascending. */
  predicate RevenueOrder(a: ShowLine, b: ShowLine) {
    -a.revenueEur <= -b.revenueEur
  }

  lemma RevenueOrderIsTotalPreorder()
    ensures Sorting.TotalPreorder(RevenueOrder)
  {
  }

  function UnsortedLines(d: ByShow): (lines: seq<ShowLine>)
    requires Valid(d)
    ensures |lines| == |d.keys|
  {
    seq(|d.keys|, i requires 0 <= i < |d.keys| =>
      ShowLine(d.keys[i], d.entries[d.keys[i]].name, d.entries[d.keys[i]].revenueEur, d.entries[d.keys[i]].tickets))
  }

  function LineOf(pid: string, show: Show): ShowLine {
    ShowLine(pid, show.name, show.revenueEur, show.tickets)
  }

  /** `sorted(by_show.values(), key=lambda s: -s["revenue_eur"])`: every
      bucket once, in non-increasing order of revenue. */
  function Listing(d: ByShow): (lines: seq<ShowLine>)
    requires Valid(d)
    ensures |lines| == |d.keys|
    ensures forall i, j :: 0 <= i < j < |lines| ==> lines[i].revenueEur >= lines[j].revenueEur
    ensures forall i :: 0 <= i < |lines| ==>
      lines[i].productId in d.entries && lines[i] == LineOf(lines[i].productId, d.entries[lines[i].productId])
    ensures forall k :: k in d.entries ==> exists i :: 0 <= i < |lines| && lines[i].productId == k
    ensures forall i, j :: 0 <= i < j < |lines| ==> lines[i].productId != lines[j].productId
  {
    RevenueOrderIsTotalPreorder();
    var lines := Sorting.SortBy(UnsortedLines(d), RevenueOrder);
    LinesArePermutedUnsorted(d, lines);
    lines
  }

  lemma LinesArePermutedUnsorted(d: ByShow, lines: seq<ShowLine>)
    requires Valid(d)
    requires multiset(lines) == multiset(UnsortedLines(d)) && Sorting.SortedBy(lines, RevenueOrder)
    ensures |lines| == |d.keys|
    ensures forall i, j :: 0 <= i < j < |lines| ==> lines[i].revenueEur >= lines[j].revenueEur
    ensures forall i :: 0 <= i < |lines| ==>
      lines[i].productId in d.entries && lines[i] == LineOf(lines[i].productId, d.entries[lines[i].productId])
    ensures forall k :: k in d.entries ==> exists i :: 0 <= i < |lines| && lines[i].productId == k
    ensures forall i, j :: 0 <= i < j < |lines| ==> lines[i].productId != lines[j].productId
  {
    var unsorted := UnsortedLines(d);
    assert |lines| == |multiset(lines)| == |multiset(unsorted)| == |unsorted|;
    forall i, j | 0 <= i < j < |lines| ensures lines[i].revenueEur >= lines[j].revenueEur {
      assert RevenueOrder(lines[i], lines[j]);
    }
    forall i | 0 <= i < |lines|
      ensures lines[i].productId in d.entries && lines[i] == LineOf(lines[i].productId, d.entries[lines[i].productId])
    {
      assert lines[i] in multiset(unsorted);
      var j :| 0 <= j < |unsorted| && unsorted[j] == lines[i];
    }
    forall k | k in d.entries ensures exists i :: 0 <= i < |lines| && lines[i].productId == k {
      var j :| 0 <= j < |d.keys| && d.keys[j] == k;
      assert unsorted[j] in multiset(lines);
      var i :| 0 <= i < |lines| && lines[i] == unsorted[j];
    }
    assert Distinct(unsorted) by {
      forall i, j | 0 <= i < j < |unsorted| ensures unsorted[i] != unsorted[j] {
        assert unsorted[i].productId == d.keys[i];
      }
    }
    PermutationKeepsDistinct(unsorted, lines);
  }

  /** What the script prints: nothing but a notice when no session was
      found, otherwise the gross revenue, the number of transactions and
      the by-show listing. */
  datatype Report =
    | NoSales
    | Summary(grossEur: int, transactions: nat, byShow: seq<ShowLine>)

  function ReportOf(t: Totals): Report
    requires Valid(t.byShow)
  {
    if t.sessionCount == 0 then NoSales else Summary(t.grandTotalEur, t.sessionCount, Listing(t.byShow))
  }

  // ---------------------------------------------------------------------
  // The loop itself

  lemma SummariseNext(ss: seq<Session>, i: nat, rates: Rates, convert: Converter, remote: Catalogue)
    requires i < |ss| && Summarise(ss[..i], rates, convert, remote).Ok?
    ensures Summarise(ss[..i + 1], rates, convert, remote) ==
      AddSession(Summarise(ss[..i], rates, convert, remote).value, ss[i], rates, convert, remote)
  {
    assert ss[..i + 1][..i] == ss[..i];
  }

  lemma AddSessionIs(t: Totals, s: Session, rates: Rates, convert: Converter, remote: Catalogue)
    requires HasRate(SessionCurrency(s), rates)
    ensures AddSession(t, s, rates, convert, remote) == Ok(Totals(
      AddItems(t.byShow, Items(s), SessionCurrency(s), rates, convert, remote),
      t.grandTotalEur + ToEurCents(s.amountTotal.GetOr(0), SessionCurrency(s), rates, convert).value,
      t.sessionCount + 1))
    ensures s.lineItems.None? ==> AddItems(t.byShow, Items(s), SessionCurrency(s), rates, convert, remote) == t.byShow
  {
  }

  lemma AddItemsNext(d: ByShow, items: seq<LineItem>, j: nat, cur: string, rates: Rates, convert: Converter, remote: Catalogue)
    requires j < |items| && HasRate(cur, rates)
    ensures AddItems(d, items[..j + 1], cur, rates, convert, remote) ==
      AddItem(AddItems(d, items[..j], cur, rates, convert, remote), items[j], cur, rates, convert, remote)
  {
    assert items[..j + 1][..j] == items[..j];
  }

  /** One pass of the item loop body computes `AddItem`. */
  lemma AddItemIs(d: ByShow, item: LineItem, pid: string, show: Show,
                  cur: string, rates: Rates, convert: Converter, remote: Catalogue)
    requires HasRate(cur, rates) && RevenueProductId(item) == Some(pid)
    requires show.name == CachedName(d, pid, remote)
    requires show.revenueEur == Get(d, pid, NewShow).revenueEur + ToEurCents(LineAmount(item), cur, rates, convert).value
    requires show.tickets == Get(d, pid, NewShow).tickets + Quantity(item)
    ensures AddItem(d, item, cur, rates, convert, remote) == Put(d, pid, show)
  {
  }

  /** The product cache and the buckets describe the same ids: the ids
      looked up are the buckets' insertion order, and each cached name is
      its bucket's name. */
  ghost predicate Mirrors(cache: map<string, string>, fetched: seq<string>, d: ByShow) {
    && fetched == d.keys
    && forall id :: id in d.entries ==> id in cache && cache[id] == d.entries[id].name
  }

  /** Storing a bucket under the name just read through the cache keeps
      the cache and the buckets in step. */
  lemma MirrorsPut(cache: map<string, string>, fetched: seq<string>, remote: Catalogue, d: ByShow, pid: string, show: Show)
    requires Caches(cache, fetched, remote) && Valid(d) && Mirrors(cache, fetched, d)
    ensures pid in d.entries <==> pid in cache
    ensures Mirrors(cache[pid := show.name], if pid in cache then fetched else fetched + [pid], Put(d, pid, show))
  {
    assert pid in d.entries <==> pid in fetched;
    var d', cache' := Put(d, pid, show), cache[pid := show.name];
    forall id | id in d'.entries ensures id in cache' && cache'[id] == d'.entries[id].name {
      if id != pid {
        assert d'.entries[id] == d.entries[id];
      }
    }
  }

  /** The loop over one session's line items (lines 111-126), reading
      product names through `directory`: the buckets become `AddItems` of
      the items, and exactly the new product ids are looked up, once each. */
  method AddLineItems(directory: ProductDirectory, byShow: ByShow, items: seq<LineItem>, sessionCurrency: string, rates: Rates, convert: Converter)
    returns (result: ByShow)
    requires directory.Valid() && Valid(byShow) && Mirrors(directory.cache, directory.fetched, byShow) && HasRate(sessionCurrency, rates)
    modifies directory
    ensures directory.Valid() && Valid(result) && Mirrors(directory.cache, directory.fetched, result)
    ensures result == AddItems(byShow, items, sessionCurrency, rates, convert, directory.remote)
    ensures old(directory.fetched) <= directory.fetched
    ensures forall id :: id in directory.cache <==> id in old(directory.cache) || ItemsMention(items, id)
  {
    result := byShow;
    ghost var remote := directory.remote;
    ghost var fetched0 := directory.fetched;
    for j := 0 to |items|
      invariant directory.Valid() && Valid(result) && Mirrors(directory.cache, directory.fetched, result)
      invariant directory.remote == remote
      invariant fetched0 <= directory.fetched
      invariant result == AddItems(byShow, items[..j], sessionCurrency, rates, convert, remote)
    {
      AddItemsNext(byShow, items, j, sessionCurrency, rates, convert, remote);
      var item := items[j];
      var productId := RevenueProductId(item);
      if productId.None? {
        assert AddItem(result, item, sessionCurrency, rates, convert, remote) == result;
        continue;
      }
      MirrorsPut(directory.cache, directory.fetched, remote, result, productId.value, Get(result, productId.value, NewShow));
      ghost var cache0, fetched1 := directory.cache, directory.fetched;
      var productName := directory.GetName(productId.value);
      assert productName == CachedName(result, productId.value, remote);
      var quantity := Quantity(item);
      var unitAmount: int := UnitAmount(item);
      assert quantity * unitAmount == LineAmount(item);
      var itemRevenueEur := ToEurCents(quantity * unitAmount, sessionCurrency, rates, convert).value;

      assert itemRevenueEur == ToEurCents(LineAmount(item), sessionCurrency, rates, convert).value;
      var show := Get(result, productId.value, NewShow);
      show := Show(productName, show.revenueEur + itemRevenueEur, show.tickets + quantity);
      AddItemIs(result, item, productId.value, show, sessionCurrency, rates, convert, remote);
      MirrorsPut(cache0, fetched1, remote, result, productId.value, show);
      result := Put(result, productId.value, show);
    }
    assert items[..|items|] == items;
    forall id ensures id in directory.cache <==> id in old(directory.cache) || ItemsMention(items, id) {
      AddItemsAt(byShow, items, id, sessionCurrency, rates, convert, remote);
    }
  }

  /** One pass of the session loop (lines 100-126) on `by_show`,
      `grand_total_eur` and `session_count`, held together in `t`: the
      session is counted, its total converted and added, and its line
      items added to the buckets; a currency without a rate stops it. */
  method CountSession(directory: ProductDirectory, t: Totals, session: Session, rates: Rates, convert: Converter)
    returns (next: Result<Totals, RevenueError>)
    requires directory.Valid() && Valid(t.byShow) && Mirrors(directory.cache, directory.fetched, t.byShow)
    modifies directory
    ensures next == AddSession(t, session, rates, convert, directory.remote)
    ensures directory.Valid()
    ensures next.Ok? ==> Valid(next.value.byShow) && Mirrors(directory.cache, directory.fetched, next.value.byShow)
  {
    var byShow, grandTotalEur, sessionCount := t.byShow, t.grandTotalEur, t.sessionCount;
    sessionCount := sessionCount + 1;
    var sessionCurrency := Lower(session.currency.GetOr(""));

    var amountTotal := session.amountTotal.GetOr(0);
    var converted := ToEurCents(amountTotal, sessionCurrency, rates, convert);
    if converted.Err? {
      return Err(converted.error);
    }
    grandTotalEur := grandTotalEur + converted.value;
    AddSessionIs(t, session, rates, convert, directory.remote);

    if session.lineItems.Some? {
      byShow := AddLineItems(directory, byShow, session.lineItems.value, sessionCurrency, rates, convert);
    }
    next := Ok(Totals(byShow, grandTotalEur, sessionCount));
  }

  /** `get_revenue` once the sessions of the period have been fetched
      (lines 73-144): the rate snapshot, the converter and the remote
      catalogue are parameters; `lookups` is the run's log of product
      lookups. */
  method GetRevenue(sessions: seq<Session>, rates: Rates, convert: Converter, remote: Catalogue)
    returns (r: Result<Report, RevenueError>, ghost lookups: seq<string>)
    ensures Distinct(lookups)
    ensures Summarise(sessions, rates, convert, remote).Ok? ==>
      (forall id :: id in lookups <==> Mentions(sessions, id)) &&
      lookups == Summarise(sessions, rates, convert, remote).value.byShow.keys
    ensures Summarise(sessions, rates, convert, remote).Err? ==>
      r == Err(Summarise(sessions, rates, convert, remote).error)
    ensures Summarise(sessions, rates, convert, remote).Ok? ==>
      Valid(Summarise(sessions, rates, convert, remote).value.byShow) &&
      r == Ok(ReportOf(Summarise(sessions, rates, convert, remote).value))
  {
    var directory := new ProductDirectory(remote);
    var totals := Totals(Empty(), 0, 0);

    for i := 0 to |sessions|
      invariant directory.Valid() && directory.remote == remote
      invariant Valid(totals.byShow) && Mirrors(directory.cache, directory.fetched, totals.byShow)
      invariant Summarise(sessions[..i], rates, convert, remote) == Ok(totals)
    {
      SummariseNext(sessions, i, rates, convert, remote);
      var next := CountSession(directory, totals, sessions[i], rates, convert);
      if next.Err? {
        ErrorPersists(sessions, i + 1, rates, convert, remote);
        r, lookups := Err(next.error), directory.fetched;
        return;
      }
      totals := next.value;
    }
    assert sessions[..|sessions|] == sessions;
    lookups := directory.fetched;
    LookupsAreMentions(sessions, rates, convert, remote);
    if totals.sessionCount == 0 {
      r := Ok(NoSales);
    } else {
      r := Ok(Summary(totals.grandTotalEur, totals.sessionCount, Listing(totals.byShow)));
    }
  }
}
