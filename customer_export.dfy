/** The customer export for one show (`export_customers` in
    scripts/export_stripe_customers.py): completed checkout sessions are
    folded into a dictionary keyed by normalised email, then turned into
    one CSV row per buyer, sorted by lower-cased name. */
module CustomerExport {
  import opened Wrappers
  import opened Text
  import opened Sessions
  import opened Dicts
  import Sorting

  /** What is known about one buyer: the best-known name and phone (absent
      until a non-empty one is seen) and the tickets bought. */
  datatype Customer = Customer(name: Option<string>, phone: Option<string>, tickets: nat)

  /** The value the `defaultdict` creates for a new email. */
  const Fresh: Customer := Customer(None, None, 0)

  /** One row of the CSV file. */
  datatype Row = Row(name: string, email: string, phone: string, tickets: nat, show: string)

  type Customers = Dict<string, Customer>

  /** The tickets one line item adds for the target product. */
  function ItemTickets(item: LineItem, target: string): nat {
    if ExportProductId(item) == Some(target) then Quantity(item) else 0
  }

  /** `matching_quantity` after the loop over `items`. */
  function MatchingQuantity(items: seq<LineItem>, target: string): nat {
    if items == [] then 0
    else MatchingQuantity(items[..|items| - 1], target) + ItemTickets(items[|items| - 1], target)
  }

  /** A session's tickets for the target product; a session without line
      items has none. */
  function Contribution(s: Session, target: string): nat {
    match s.lineItems
    case None => 0
    case Some(items) => MatchingQuantity(items, target)
  }

  /** `email.strip().lower()`: the dictionary key of a buyer. */
  function NormalizeEmail(email: string): string {
    Lower(Strip(email))
  }

  function EmailKey(s: Session): string {
    NormalizeEmail(EmailOf(s))
  }

  /** `(value or "").strip() or None` */
  function Cleaned(raw: string): (r: Option<string>)
    ensures r.Some? ==> r.value != "" && Strip(r.value) == r.value
  {
    StripIdempotent(raw);
    var t := Strip(raw);
    if t == "" then None else Some(t)
  }

  /** The session is neither skipped for missing line items, nor for zero
      matching tickets, nor for an empty email. */
  predicate Counted(s: Session, target: string) {
    s.lineItems.Some? && Contribution(s, target) != 0 && EmailKey(s) != ""
  }

  /** The session is counted, for the buyer whose key is `k`. */
  predicate CountsFor(s: Session, k: string, target: string) {
    Counted(s, target) && EmailKey(s) == k
  }

  /** The stored buyer after one more purchase of `q` tickets: a present
      name or phone replaces the stored one, an absent one keeps it. */
  function Record(c: Customer, q: nat, name: Option<string>, phone: Option<string>): Customer {
    Customer(
      if name.Some? then name else c.name,
      if phone.Some? then phone else c.phone,
      c.tickets + q)
  }

  /** The effect of one iteration of the session loop. */
  function Step(d: Customers, s: Session, target: string): Customers {
    if !Counted(s, target) then d
    else
      var k := EmailKey(s);
      Put(d, k, Record(Get(d, k, Fresh), Contribution(s, target), Cleaned(NameOf(s)), Cleaned(PhoneOf(s))))
  }

  /** `customers` after the session loop has seen `ss`; its insertion
      order lists every key once. */
  function Aggregate(ss: seq<Session>, target: string): (d: Customers)
    ensures Valid(d)
  {
    if ss == [] then Empty()
    else Step(Aggregate(ss[..|ss| - 1], target), ss[|ss| - 1], target)
  }

  // ---------------------------------------------------------------------
  // Reference definitions, one buyer at a time

  /** The tickets of all counted sessions whose key is `k`. */
  function TicketsOf(ss: seq<Session>, k: string, target: string): nat {
    if ss == [] then 0
    else
      var s := ss[|ss| - 1];
      TicketsOf(ss[..|ss| - 1], k, target) + (if CountsFor(s, k, target) then Contribution(s, target) else 0)
  }

  datatype Field = NameField | PhoneField

  function RawField(s: Session, f: Field): string {
    match f
    case NameField => NameOf(s)
    case PhoneField => PhoneOf(s)
  }

  function Stored(c: Customer, f: Field): Option<string> {
    match f
    case NameField => c.name
    case PhoneField => c.phone
  }

  /** The cleaned value of field `f` in the latest counted session with key
      `k` that has a non-empty one; absent if there is none. */
  function LatestField(ss: seq<Session>, k: string, target: string, f: Field): Option<string> {
    if ss == [] then None
    else
      var s := ss[|ss| - 1];
      if CountsFor(s, k, target) && Cleaned(RawField(s, f)).Some? then Cleaned(RawField(s, f))
      else LatestField(ss[..|ss| - 1], k, target, f)
  }

  /** Every buyer field that is present is non-empty and stripped. */
  predicate CleanField(v: Option<string>) {
    v.Some? ==> v.value != "" && Strip(v.value) == v.value
  }

  /** Every stored buyer has a normalised non-empty email, at least one
      ticket, and a name and phone that are absent or non-empty and stripped. */
  ghost predicate WellFormed(d: Customers) {
    && Valid(d)
    && forall k :: k in d.entries ==> GoodEntry(k, d.entries[k])
  }

  predicate GoodEntry(k: string, c: Customer) {
    k != "" && Lower(k) == k && c.tickets > 0 && CleanField(c.name) && CleanField(c.phone)
  }

  lemma {:induction false} LowerIdempotent(s: string)
    ensures Lower(Lower(s)) == Lower(s)
  {
    if s != [] {
      LowerIdempotent(s[1..]);
    }
  }

  lemma StepWellFormed(d: Customers, s: Session, target: string)
    requires WellFormed(d)
    ensures WellFormed(Step(d, s, target))
  {
    if Counted(s, target) {
      var k := EmailKey(s);
      LowerIdempotent(Strip(EmailOf(s)));
      var c := Record(Get(d, k, Fresh), Contribution(s, target), Cleaned(NameOf(s)), Cleaned(PhoneOf(s)));
      assert GoodEntry(k, c);
      var d' := Put(d, k, c);
      assert d' == Step(d, s, target);
      forall j | j in d'.entries ensures GoodEntry(j, d'.entries[j]) {
        if j != k {
          assert d'.entries[j] == d.entries[j];
        }
      }
    }
  }

  /** The session loop keeps the dictionary well formed. */
  lemma {:induction false} AggregateWellFormed(ss: seq<Session>, target: string)
    ensures WellFormed(Aggregate(ss, target))
  {
    if ss != [] {
      var n := |ss| - 1;
      AggregateWellFormed(ss[..n], target);
      StepWellFormed(Aggregate(ss[..n], target), ss[n], target);
    }
  }

  /** What one loop iteration does to the entry of key `k`. */
  lemma StepAtKey(d: Customers, s: Session, k: string, target: string)
    ensures var d' := Step(d, s, target);
      if CountsFor(s, k, target) then
        k in d'.entries && d'.entries[k] == Record(Get(d, k, Fresh), Contribution(s, target), Cleaned(NameOf(s)), Cleaned(PhoneOf(s)))
      else
        (k in d'.entries <==> k in d.entries) && (k in d.entries ==> d'.entries[k] == d.entries[k])
  {
  }

  /** Conservation of tickets, and the best-known name and phone: a buyer
      is stored exactly when the counted sessions with their key hold
      tickets; the stored tickets are the sum over those sessions; the
      stored name and phone are the latest non-empty ones, so a later
      session without a name or phone never clears them. */
  lemma {:induction false} CustomerTotals(ss: seq<Session>, k: string, target: string)
    ensures k in Aggregate(ss, target).entries <==> TicketsOf(ss, k, target) > 0
    ensures k in Aggregate(ss, target).entries ==>
      && Aggregate(ss, target).entries[k].tickets == TicketsOf(ss, k, target)
      && Aggregate(ss, target).entries[k].name == LatestField(ss, k, target, NameField)
      && Aggregate(ss, target).entries[k].phone == LatestField(ss, k, target, PhoneField)
    ensures k !in Aggregate(ss, target).entries ==>
      LatestField(ss, k, target, NameField).None? && LatestField(ss, k, target, PhoneField).None?
  {
    if ss != [] {
      var n := |ss| - 1;
      var p, s := ss[..n], ss[n];
      CustomerTotals(p, k, target);
      var d := Aggregate(p, target);
      assert Aggregate(ss, target) == Step(d, s, target);
      StepAtKey(d, s, k, target);
      var here := CountsFor(s, k, target);
      assert TicketsOf(ss, k, target) == TicketsOf(p, k, target) + (if here then Contribution(s, target) else 0);
      assert LatestField(ss, k, target, NameField) ==
        if here && Cleaned(NameOf(s)).Some? then Cleaned(NameOf(s)) else LatestField(p, k, target, NameField);
      assert LatestField(ss, k, target, PhoneField) ==
        if here && Cleaned(PhoneOf(s)).Some? then Cleaned(PhoneOf(s)) else LatestField(p, k, target, PhoneField);
    }
  }

  /** A stored name or phone is never cleared by later sessions. */
  lemma {:induction false} StoredFieldNeverCleared(ss: seq<Session>, more: seq<Session>, k: string, target: string, f: Field)
    requires k in Aggregate(ss, target).entries && Stored(Aggregate(ss, target).entries[k], f).Some?
    ensures k in Aggregate(ss + more, target).entries && Stored(Aggregate(ss + more, target).entries[k], f).Some?
  {
    if more == [] {
      assert ss + more == ss;
    } else {
      var m', s := more[..|more| - 1], more[|more| - 1];
      StoredFieldNeverCleared(ss, m', k, target, f);
      var x := ss + more;
      assert x[..|x| - 1] == ss + m' && x[|x| - 1] == s;
      assert Aggregate(x, target) == Step(Aggregate(ss + m', target), s, target);
      StepAtKey(Aggregate(ss + m', target), s, k, target);
    }
  }

  /** A buyer with tickets has a session that counts for them. */
  lemma {:induction false} BuyerWitness(ss: seq<Session>, k: string, target: string) returns (i: nat)
    requires TicketsOf(ss, k, target) > 0
    ensures i < |ss| && CountsFor(ss[i], k, target)
  {
    var n := |ss| - 1;
    var p, s := ss[..n], ss[n];
    if CountsFor(s, k, target) {
      i := n;
    } else {
      assert TicketsOf(ss, k, target) == TicketsOf(p, k, target);
      i := BuyerWitness(p, k, target);
      assert p[i] == ss[i];
    }
  }

  /** A session that counts for a buyer gives them tickets. */
  lemma {:induction false} WitnessGivesTickets(ss: seq<Session>, k: string, target: string, i: nat)
    requires i < |ss| && CountsFor(ss[i], k, target)
    ensures TicketsOf(ss, k, target) > 0
  {
    var n := |ss| - 1;
    var p, s := ss[..n], ss[n];
    if i == n {
      assert Contribution(s, target) > 0;
    } else {
      assert p[i] == ss[i];
      WitnessGivesTickets(p, k, target, i);
    }
  }

  /** A buyer is stored exactly when one of the sessions counts for them. */
  lemma {:induction false} BuyersAreCounted(ss: seq<Session>, k: string, target: string)
    ensures TicketsOf(ss, k, target) > 0 <==>
      exists i :: 0 <= i < |ss| && CountsFor(ss[i], k, target)
  {
    if TicketsOf(ss, k, target) > 0 {
      var i := BuyerWitness(ss, k, target);
    }
    if exists i :: 0 <= i < |ss| && CountsFor(ss[i], k, target) {
      var i :| 0 <= i < |ss| && CountsFor(ss[i], k, target);
      WitnessGivesTickets(ss, k, target, i);
    }
  }

  /** A skipped session (no line items, no tickets for the target, or no
      email) leaves the result unchanged wherever it occurs. */
  lemma {:induction false} SkippedSessionIsIgnored(a: seq<Session>, s: Session, b: seq<Session>, target: string)
    requires !Counted(s, target)
    ensures Aggregate(a + [s] + b, target) == Aggregate(a + b, target)
  {
    var x, y := a + [s] + b, a + b;
    if b == [] {
      assert x[..|x| - 1] == a && x[|x| - 1] == s;
      assert y == a;
    } else {
      var b', e := b[..|b| - 1], b[|b| - 1];
      assert x[..|x| - 1] == a + [s] + b' && x[|x| - 1] == e;
      assert y[..|y| - 1] == a + b' && y[|y| - 1] == e;
      calc {
        Aggregate(x, target);
        Step(Aggregate(a + [s] + b', target), e, target);
        { SkippedSessionIsIgnored(a, s, b', target); }
        Step(Aggregate(a + b', target), e, target);
        Aggregate(y, target);
      }
    }
  }

  /** A session without line items, whether missing or empty, is never counted. */
  lemma NoLineItemsNotCounted(s: Session, target: string)
    requires s.lineItems.None? || s.lineItems == Some([])
    ensures !Counted(s, target) && Contribution(s, target) == 0
  {
  }

  /** A session is counted exactly when some line item for the target has
      a positive quantity and its email is not blank. */
  lemma {:induction false} CountedWhenTicketsAndEmail(s: Session, target: string)
    ensures Counted(s, target) <==>
      && s.lineItems.Some?
      && (exists i :: 0 <= i < |Items(s)| && ExportProductId(Items(s)[i]) == Some(target) && Quantity(Items(s)[i]) > 0)
      && Strip(EmailOf(s)) != ""
  {
    assert |EmailKey(s)| == |Strip(EmailOf(s))|;
    if s.lineItems.Some? {
      assert Items(s) == s.lineItems.value;
      MatchingPositive(s.lineItems.value, target);
    }
  }

  /** The matching quantity is positive exactly when some line item for
      the target has a positive quantity. */
  lemma {:induction false} MatchingPositive(items: seq<LineItem>, target: string)
    ensures MatchingQuantity(items, target) > 0 <==>
      exists i :: 0 <= i < |items| && ExportProductId(items[i]) == Some(target) && Quantity(items[i]) > 0
  {
    if items != [] {
      var n := |items| - 1;
      MatchingPositive(items[..n], target);
      if exists i :: 0 <= i < |items| && ExportProductId(items[i]) == Some(target) && Quantity(items[i]) > 0 {
        var i :| 0 <= i < |items| && ExportProductId(items[i]) == Some(target) && Quantity(items[i]) > 0;
        if i < n {
          assert items[..n][i] == items[i];
        }
      }
    }
  }

  /** Line items of other products add nothing: the matching quantity of
      two lists together is the sum of theirs. */
  lemma {:induction false} MatchingQuantityAppend(a: seq<LineItem>, b: seq<LineItem>, target: string)
    ensures MatchingQuantity(a + b, target) == MatchingQuantity(a, target) + MatchingQuantity(b, target)
  {
    if b == [] {
      assert a + b == a;
    } else {
      MatchingQuantityAppend(a, b[..|b| - 1], target);
      assert (a + b)[..|a + b| - 1] == a + b[..|b| - 1];
    }
  }

  /** Line items none of which is for the target contribute nothing. */
  lemma {:induction false} OtherProductsContributeNothing(items: seq<LineItem>, target: string)
    requires forall i :: 0 <= i < |items| ==> ExportProductId(items[i]) != Some(target)
    ensures MatchingQuantity(items, target) == 0
  {
    if items != [] {
      OtherProductsContributeNothing(items[..|items| - 1], target);
    }
  }

  /** Two emails that differ only in letter case and surrounding whitespace
      give the same key, so their sessions merge into one buyer. */
  lemma EmailKeyIgnoresCaseAndPadding(w1: string, e: string, w2: string, e': string)
    requires AllSpace(w1) && AllSpace(w2) && Lower(e) == Lower(e')
    ensures NormalizeEmail(w1 + e + w2) == NormalizeEmail(e')
  {
    StripPadding(w1, e, w2);
    StripLowerCommute(e);
    StripLowerCommute(e');
  }

  // ---------------------------------------------------------------------
  // Rows

  function RowOf(email: string, c: Customer, show: string): Row {
    Row(c.name.GetOr(""), email, c.phone.GetOr(""), c.tickets, show)
  }

  /** The sort key order: `r["name"].lower()` compared as strings. */
  predicate NameOrder(a: Row, b: Row) {
    StrLe(Lower(a.name), Lower(b.name))
  }

  lemma NameOrderIsTotalPreorder()
    ensures Sorting.TotalPreorder(NameOrder)
  {
    forall a: Row, b: Row ensures NameOrder(a, b) || NameOrder(b, a) {
      StrLeTotal(Lower(a.name), Lower(b.name));
    }
    forall a: Row, b: Row, c: Row | NameOrder(a, b) && NameOrder(b, c) ensures NameOrder(a, c) {
      StrLeTransitive(Lower(a.name), Lower(b.name), Lower(c.name));
    }
  }

  /** The rows in the dictionary's iteration order, before sorting. */
  function UnsortedRows(d: Customers, show: string): (rows: seq<Row>)
    requires Valid(d)
    ensures |rows| == |d.keys|
  {
    seq(|d.keys|, i requires 0 <= i < |d.keys| => RowOf(d.keys[i], d.entries[d.keys[i]], show))
  }

  /** `rows`: one row per stored buyer, with a missing name or phone shown
      as "", each naming the show, in non-decreasing order of lower-cased
      name. */
  function Rows(d: Customers, show: string): (rows: seq<Row>)
    requires Valid(d)
    ensures |rows| == |d.keys|
    ensures Sorting.SortedBy(rows, NameOrder)
    ensures forall i :: 0 <= i < |rows| ==>
      rows[i].email in d.entries && rows[i] == RowOf(rows[i].email, d.entries[rows[i].email], show)
    ensures forall k :: k in d.entries ==> exists i :: 0 <= i < |rows| && rows[i].email == k
    ensures forall i, j :: 0 <= i < j < |rows| ==> rows[i].email != rows[j].email
  {
    var unsorted := UnsortedRows(d, show);
    NameOrderIsTotalPreorder();
    var rows := Sorting.SortBy(unsorted, NameOrder);
    assert |rows| == |multiset(rows)| == |multiset(unsorted)| == |unsorted|;
    RowsArePermutedUnsorted(d, show, rows);
    rows
  }

  lemma RowsArePermutedUnsorted(d: Customers, show: string, rows: seq<Row>)
    requires Valid(d)
    requires multiset(rows) == multiset(UnsortedRows(d, show))
    ensures forall i :: 0 <= i < |rows| ==>
      rows[i].email in d.entries && rows[i] == RowOf(rows[i].email, d.entries[rows[i].email], show)
    ensures forall k :: k in d.entries ==> exists i :: 0 <= i < |rows| && rows[i].email == k
    ensures forall i, j :: 0 <= i < j < |rows| ==> rows[i].email != rows[j].email
  {
    var unsorted := UnsortedRows(d, show);
    forall i | 0 <= i < |rows|
      ensures rows[i].email in d.entries && rows[i] == RowOf(rows[i].email, d.entries[rows[i].email], show)
    {
      assert rows[i] in multiset(unsorted);
      var j :| 0 <= j < |unsorted| && unsorted[j] == rows[i];
    }
    forall k | k in d.entries ensures exists i :: 0 <= i < |rows| && rows[i].email == k {
      var j :| 0 <= j < |d.keys| && d.keys[j] == k;
      assert unsorted[j] in multiset(rows);
      var i :| 0 <= i < |rows| && rows[i] == unsorted[j];
    }
    assert Distinct(unsorted) by {
      forall i, j | 0 <= i < j < |unsorted| ensures unsorted[i] != unsorted[j] {
        assert unsorted[i].email == d.keys[i];
      }
    }
    PermutationKeepsDistinct(unsorted, rows);
  }

  // ---------------------------------------------------------------------
  // The export loop

  lemma AggregateNext(ss: seq<Session>, i: nat, target: string)
    requires i < |ss|
    ensures Aggregate(ss[..i + 1], target) == Step(Aggregate(ss[..i], target), ss[i], target)
    ensures !Counted(ss[i], target) ==> Aggregate(ss[..i + 1], target) == Aggregate(ss[..i], target)
  {
    assert ss[..i + 1][..i] == ss[..i];
  }

  /** One pass of the session loop body that reaches the update computes
      `Step`. */
  lemma StepIs(d: Customers, s: Session, target: string, info: Customer)
    requires Counted(s, target)
    requires info == Record(Get(d, EmailKey(s), Fresh), Contribution(s, target), Cleaned(NameOf(s)), Cleaned(PhoneOf(s)))
    ensures Step(d, s, target) == Put(d, EmailKey(s), info)
  {
  }

  /** The session loop of `export_customers` (lines 38-70) followed by the
      row building and sort (lines 78-90). The product's display name is
      passed in as `showName`. */
  method ExportCustomers(sessions: seq<Session>, productId: string, showName: string)
    returns (rows: seq<Row>, sessionCount: nat)
    ensures sessionCount == |sessions|
    ensures forall i :: 0 <= i < |rows| ==>
      rows[i].email != "" && Lower(rows[i].email) == rows[i].email && rows[i].tickets > 0
    ensures rows == Rows(Aggregate(sessions, productId), showName)
  {
    var customers: Customers := Empty();
    sessionCount := 0;
    for i := 0 to |sessions|
      invariant sessionCount == i
      invariant customers == Aggregate(sessions[..i], productId)
    {
      AggregateNext(sessions, i, productId);
      var session := sessions[i];
      sessionCount := sessionCount + 1;

      if session.lineItems.None? {
        continue;
      }
      var items := session.lineItems.value;

      var matchingQuantity := 0;
      for j := 0 to |items|
        invariant matchingQuantity == MatchingQuantity(items[..j], productId)
      {
        assert items[..j + 1][..j] == items[..j];
        if ExportProductId(items[j]) == Some(productId) {
          matchingQuantity := matchingQuantity + Quantity(items[j]);
        }
      }
      assert items[..|items|] == items;

      if matchingQuantity == 0 {
        continue;
      }

      var email := Lower(Strip(EmailOf(session)));
      if email == "" {
        continue;
      }

      var name := Cleaned(NameOf(session));
      var phone := Cleaned(PhoneOf(session));

      var info := Get(customers, email, Fresh);
      info := info.(tickets := info.tickets + matchingQuantity);
      if name.Some? {
        info := info.(name := name);
      }
      if phone.Some? {
        info := info.(phone := phone);
      }
      StepIs(customers, session, productId, info);
      customers := Put(customers, email, info);
    }
    assert sessions[..|sessions|] == sessions;
    AggregateWellFormed(sessions, productId);
    rows := Rows(customers, showName);
  }
}
