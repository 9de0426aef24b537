/** The Slack message of src/daily_status_report.py (`format_report`): a
    seven-line header with the totals, then one line per subscription row, grouped
    by product in ascending name order, each product's "Monthly" row first. */
module StatusReport {
  import opened Text
  import opened Sorting

  /** One row of the subscription table: "Product Name", "Billing Cycle",
      "# of Active Subscriptions" and "Revenue per Cycle" (whole currency units). */
  datatype Row = Row(product: string, billingCycle: string, subs: int, revenue: int)

  /** `f"{amount:,.0f}"`, left abstract. */
  type MoneyText = int -> string

  const Title := "📊 *TWY Daily Status Report*"
  const Marker := "*By Product:*"
  const Check := '✅'

  /** `sum(row["# of Active Subscriptions"] ...)` */
  function SubsTotal(rows: seq<Row>): int
  {
    if rows == [] then 0 else SubsTotal(rows[..|rows| - 1]) + rows[|rows| - 1].subs
  }

  /** `sum(row["Revenue per Cycle"] ...)` */
  function RevenueTotal(rows: seq<Row>): int
  {
    if rows == [] then 0 else RevenueTotal(rows[..|rows| - 1]) + rows[|rows| - 1].revenue
  }

  /** The header; `today` is the `strftime` text of the current date. */
  function Header(today: string, totalSubs: int, totalRevenue: string): seq<string>
  {
    [Title, "_" + today + "_", "", "💰 *Active Subscriptions: " + IntToString(totalSubs) + "*",
     "Total Revenue: $" + totalRevenue + "/cycle", "", Marker]
  }

  /** The rows of product `p`, in input order (the list `products[p]`). */
  function RowsOf(rows: seq<Row>, p: string): seq<Row>
  {
    if rows == [] then []
    else RowsOf(rows[..|rows| - 1], p) + (if rows[|rows| - 1].product == p then [rows[|rows| - 1]] else [])
  }

  /** The product names in order of first appearance (the keys of `products`). */
  function FirstSeen(rows: seq<Row>): seq<string>
  {
    if rows == [] then []
    else
      var init := FirstSeen(rows[..|rows| - 1]);
      var p := rows[|rows| - 1].product;
      if p in init then init else init + [p]
  }

  /** The sort key of `sorted(products.keys())`. */
  function Name(p: string): string
  {
    p
  }

  /** The key `(cycle != "Monthly", cycle)` as one string: the flag becomes a
      leading '0' or '1', which orders exactly as the tuple does (lemma
      CycleKeyOrder). */
  function CycleKey(r: Row): string
  {
    (if r.billingCycle == "Monthly" then "0" else "1") + r.billingCycle
  }

  function SortedProducts(rows: seq<Row>): seq<string>
  {
    SortBy(FirstSeen(rows), Name)
  }

  /** One product's rows after `cycles.sort(...)`. */
  function Section(rows: seq<Row>, p: string): seq<Row>
  {
    SortBy(RowsOf(rows, p), CycleKey)
  }

  /** The sections of the products `ps`, one after the other. */
  function Sections(rows: seq<Row>, ps: seq<string>): seq<Row>
  {
    if ps == [] then [] else Sections(rows, ps[..|ps| - 1]) + Section(rows, ps[|ps| - 1])
  }

  /** The rows in the order their lines are emitted. */
  function Emitted(rows: seq<Row>): seq<Row>
  {
    Sections(rows, SortedProducts(rows))
  }

  function RowLine(r: Row, money: MoneyText): string
  {
    [Check] + " " + r.product + " (" + r.billingCycle + "): " + IntToString(r.subs) + " subs - $" + money(r.revenue)
  }

  function RowLines(rs: seq<Row>, money: MoneyText): seq<string>
  {
    MapSeq(rs, LineOf(money))
  }

  function LineOf(money: MoneyText): Row -> string
  {
    r => RowLine(r, money)
  }

  function MapSeq<A, B>(xs: seq<A>, f: A -> B): seq<B>
  {
    seq(|xs|, i requires 0 <= i < |xs| => f(xs[i]))
  }

  /** The lines `format_report` joins. */
  function ReportLines(rows: seq<Row>, today: string, money: MoneyText): seq<string>
  {
    Header(today, SubsTotal(rows), money(RevenueTotal(rows))) + RowLines(Emitted(rows), money)
  }

  // ---------------------------------------------------------------- the code

  /** The grouping loop: `products` maps each product to its rows, and `order`
      lists its keys in insertion order. */
  method GroupByProduct(rows: seq<Row>) returns (products: map<string, seq<Row>>, order: seq<string>)
    ensures order == FirstSeen(rows)
    ensures forall p :: p in products <==> p in order
    ensures forall p :: p in products ==> products[p] == RowsOf(rows, p)
  {
    products := map[];
    order := [];
    for i := 0 to |rows|
      invariant Grouped(rows[..i], products, order)
    {
      var product := rows[i].product;
      if product !in products {
        GroupStepNew(rows, i, products, order);
        // `products[product] = []` followed by the append
        products := products[product := [rows[i]]];
        order := order + [product];
      } else {
        GroupStepOld(rows, i, products, order);
        products := products[product := products[product] + [rows[i]]];
      }
    }
    assert rows[..|rows|] == rows;
  }

  /** `products` and its key order after the rows of `prefix`. */
  ghost predicate Grouped(prefix: seq<Row>, products: map<string, seq<Row>>, order: seq<string>)
  {
    && order == FirstSeen(prefix)
    && (forall p :: p in products <==> p in order)
    && (forall p :: p in products ==> products[p] == RowsOf(prefix, p))
    && (forall p :: p !in products ==> RowsOf(prefix, p) == [])
  }

  lemma GroupStepNew(rows: seq<Row>, i: nat, products: map<string, seq<Row>>, order: seq<string>)
    requires i < |rows| && Grouped(rows[..i], products, order) && rows[i].product !in products
    ensures Grouped(rows[..i + 1], products[rows[i].product := [rows[i]]], order + [rows[i].product])
  {
    var p := rows[i].product;
    var prods := products[p := [rows[i]]];
    FirstSeenSnoc(rows, i);
    forall q | q in prods
      ensures prods[q] == RowsOf(rows[..i + 1], q)
    {
      RowsOfSnoc(rows, i, q);
    }
    forall q | q !in prods
      ensures RowsOf(rows[..i + 1], q) == []
    {
      RowsOfSnoc(rows, i, q);
    }
  }

  lemma GroupStepOld(rows: seq<Row>, i: nat, products: map<string, seq<Row>>, order: seq<string>)
    requires i < |rows| && Grouped(rows[..i], products, order) && rows[i].product in products
    ensures Grouped(rows[..i + 1], products[rows[i].product := products[rows[i].product] + [rows[i]]], order)
  {
    var p := rows[i].product;
    var prods := products[p := products[p] + [rows[i]]];
    FirstSeenSnoc(rows, i);
    forall q | q in prods
      ensures prods[q] == RowsOf(rows[..i + 1], q)
    {
      RowsOfSnoc(rows, i, q);
    }
    forall q | q !in prods
      ensures RowsOf(rows[..i + 1], q) == []
    {
      RowsOfSnoc(rows, i, q);
    }
  }

  /** Appends the line of each row of `cycles`. */
  method AppendRowLines(lines: seq<string>, cycles: seq<Row>, money: MoneyText) returns (out: seq<string>)
    ensures out == lines + RowLines(cycles, money)
  {
    out := lines;
    for j := 0 to |cycles|
      invariant out == lines + RowLines(cycles[..j], money)
    {
      MapSeqSnoc(cycles, j, LineOf(money));
      out := out + [RowLine(cycles[j], money)];
    }
    assert cycles[..|cycles|] == cycles;
  }

  /** `format_report`. */
  method FormatReport(rows: seq<Row>, today: string, money: MoneyText) returns (message: string)
    ensures message == Join(ReportLines(rows, today, money), "\n")
  {
    var totalSubs := SubsTotal(rows);
    var totalRevenue := RevenueTotal(rows);
    var products, order := GroupByProduct(rows);
    var lines := Header(today, totalSubs, money(totalRevenue));
    ghost var header := lines;
    var keys := SortBy(order, Name);
    SortByPermutes(order, Name);
    for k := 0 to |keys|
      invariant lines == header + RowLines(Sections(rows, keys[..k]), money)
    {
      var product := keys[k];
      assert product in multiset(order);
      var cycles := SortBy(products[product], CycleKey);
      assert cycles == Section(rows, product);
      SectionsSnoc(rows, keys, k);
      ghost var done := RowLines(Sections(rows, keys[..k]), money);
      MapSeqAppend(Sections(rows, keys[..k]), cycles, LineOf(money));
      assert RowLines(Sections(rows, keys[..k + 1]), money) == done + RowLines(cycles, money);
      AppendAssoc(header, done, RowLines(cycles, money));
      lines := AppendRowLines(lines, cycles, money);
    }
    assert keys[..|keys|] == keys;
    message := Join(lines, "\n");
  }

  // ---------------------------------------------------------------- properties

  /** The message opens with the fixed seven-line header: title, date, a blank
      line, the subscription headline, the revenue line, a blank line and the
      product marker. */
  lemma ReportHeader(rows: seq<Row>, today: string, money: MoneyText)
    ensures var lines := ReportLines(rows, today, money);
      && |lines| == 7 + |rows|
      && lines[..7] == [Title, "_" + today + "_", "",
                        "💰 *Active Subscriptions: " + IntToString(SubsTotal(rows)) + "*",
                        "Total Revenue: $" + money(RevenueTotal(rows)) + "/cycle", "", Marker]
  {
    EmittedPermutes(rows);
    PrefixOfAppend(Header(today, SubsTotal(rows), money(RevenueTotal(rows))), RowLines(Emitted(rows), money));
  }

  /** The headline counts agree with the lines: the total of the emitted rows'
      subscriptions (and revenue) is the total over the input rows. */
  lemma HeadlineIsSumOfLines(rows: seq<Row>)
    ensures SubsTotal(Emitted(rows)) == SubsTotal(rows)
    ensures RevenueTotal(Emitted(rows)) == RevenueTotal(rows)
  {
    EmittedPermutes(rows);
    TotalsPermutation(Emitted(rows), rows);
  }

  /** After the header comes exactly one line per input row: the emitted rows are
      a permutation of the input, line `7 + i` is the line of emitted row `i`, and
      the lines starting with the check mark are exactly those. */
  lemma OneLinePerRow(rows: seq<Row>, today: string, money: MoneyText)
    ensures multiset(Emitted(rows)) == multiset(rows)
    ensures var lines := ReportLines(rows, today, money);
      && |lines| == 7 + |rows|
      && (forall i :: 7 <= i < |lines| ==> lines[i] == RowLine(Emitted(rows)[i - 7], money))
      && (forall i :: 0 <= i < |lines| ==> (IsRowLine(lines[i]) <==> 7 <= i))
  {
    var lines := ReportLines(rows, today, money);
    var h := Header(today, SubsTotal(rows), money(RevenueTotal(rows)));
    EmittedPermutes(rows);
    LinesAfter(h, Emitted(rows), money);
    HeaderNotRowLines(today, SubsTotal(rows), money(RevenueTotal(rows)));
    forall i | 7 <= i < |lines|
      ensures IsRowLine(lines[i])
    {
      RowLineStartsWithCheck(Emitted(rows)[i - 7], money);
    }
  }

  lemma RowLineStartsWithCheck(r: Row, money: MoneyText)
    ensures IsRowLine(RowLine(r, money))
  {
    var rest := " " + r.product + " (" + r.billingCycle + "): " + IntToString(r.subs) + " subs - $" + money(r.revenue);
    assert RowLine(r, money) == [Check] + rest;
  }

  /** Header lines `h` followed by the lines of `e`. */
  lemma LinesAfter(h: seq<string>, e: seq<Row>, money: MoneyText)
    ensures |h + RowLines(e, money)| == |h| + |e|
    ensures forall k :: 0 <= k < |h| ==> (h + RowLines(e, money))[k] == h[k]
    ensures forall i :: |h| <= i < |h| + |e| ==> (h + RowLines(e, money))[i] == RowLine(e[i - |h|], money)
  {
    AppendIndex(h, RowLines(e, money));
    MapSeqIndex(e, LineOf(money));
  }

  lemma PrefixOfAppend<T>(a: seq<T>, b: seq<T>)
    ensures (a + b)[..|a|] == a
  {
  }

  lemma AppendIndex<T>(a: seq<T>, b: seq<T>)
    ensures |a + b| == |a| + |b|
    ensures forall k :: 0 <= k < |a| ==> (a + b)[k] == a[k]
    ensures forall k :: |a| <= k < |a| + |b| ==> (a + b)[k] == b[k - |a|]
  {
  }

  lemma MapSeqIndex<A, B>(xs: seq<A>, f: A -> B)
    ensures |MapSeq(xs, f)| == |xs|
    ensures forall i :: 0 <= i < |xs| ==> MapSeq(xs, f)[i] == f(xs[i])
  {
  }

  lemma HeaderNotRowLines(today: string, totalSubs: int, totalRevenue: string)
    ensures forall k :: 0 <= k < 7 ==> !IsRowLine(Header(today, totalSubs, totalRevenue)[k])
  {
    var h := Header(today, totalSubs, totalRevenue);
    assert h[1][0] == '_';
    assert h[3][0] == '💰' && h[4][0] == 'T';
  }

  /** When no input text carries a newline, the message splits back into exactly
      its lines: no row can add or merge lines. */
  lemma MessageLines(rows: seq<Row>, today: string, money: MoneyText)
    requires NoNewline(today)
    requires forall n :: NoNewline(money(n))
    requires forall r :: r in rows ==> NoNewline(r.product) && NoNewline(r.billingCycle)
    ensures Split(Join(ReportLines(rows, today, money), "\n"), '\n') == ReportLines(rows, today, money)
  {
    var lines := ReportLines(rows, today, money);
    var e := Emitted(rows);
    EmittedPermutes(rows);
    LinesAfter(Header(today, SubsTotal(rows), money(RevenueTotal(rows))), e, money);
    HeaderNoNewline(today, SubsTotal(rows), money(RevenueTotal(rows)));
    forall i | 7 <= i < |lines|
      ensures NoNewline(lines[i])
    {
      assert e[i - 7] in multiset(rows);
      RowLineNoNewline(e[i - 7], money);
    }
    assert forall p :: p in lines ==> '\n' !in p;
    SplitJoin(lines, '\n');
  }

  lemma HeaderNoNewline(today: string, totalSubs: int, totalRevenue: string)
    requires NoNewline(today) && NoNewline(totalRevenue)
    ensures forall k :: 0 <= k < 7 ==> NoNewline(Header(today, totalSubs, totalRevenue)[k])
  {
    IntToStringNoNewline(totalSubs);
    assert NoNewline(Title) && NoNewline(Marker);
    assert NoNewline("💰 *Active Subscriptions: ") && NoNewline("Total Revenue: $") && NoNewline("/cycle");
  }

  lemma RowLineNoNewline(r: Row, money: MoneyText)
    requires NoNewline(r.product) && NoNewline(r.billingCycle) && NoNewline(money(r.revenue))
    ensures NoNewline(RowLine(r, money))
  {
    IntToStringNoNewline(r.subs);
    assert NoNewline(" (") && NoNewline("): ") && NoNewline(" subs - $");
  }

  predicate IsRowLine(line: string)
  {
    |line| > 0 && line[0] == Check
  }

  /** Products appear in ascending name order, each product's rows together. */
  lemma ProductsAscending(rows: seq<Row>)
    ensures var e := Emitted(rows);
      forall i, j :: 0 <= i < j < |e| ==> LexLe(e[i].product, e[j].product)
  {
    SortedProductsFacts(rows);
    SectionsOrdered(rows, SortedProducts(rows));
  }

  /** Within one product the rows follow `(cycle != "Monthly", cycle)`: the
      "Monthly" rows first, the others in ascending cycle order. */
  lemma MonthlyFirst(rows: seq<Row>)
    ensures var e := Emitted(rows);
      forall i, j :: 0 <= i < j < |e| && e[i].product == e[j].product ==> CycleOrder(e[i], e[j])
    ensures var e := Emitted(rows);
      forall i, j :: 0 <= i < j < |e| && e[i].product == e[j].product && e[j].billingCycle == "Monthly"
        ==> e[i].billingCycle == "Monthly"
  {
    SortedProductsFacts(rows);
    SectionsOrdered(rows, SortedProducts(rows));
    var e := Emitted(rows);
    forall i, j | 0 <= i < j < |e| && e[i].product == e[j].product
      ensures CycleOrder(e[i], e[j])
    {
      CycleKeyOrder(e[i], e[j]);
    }
  }

  /** Python's `<=` on the tuples `(cycle != "Monthly", cycle)`. */
  predicate CycleOrder(a: Row, b: Row)
  {
    var am := a.billingCycle == "Monthly";
    var bm := b.billingCycle == "Monthly";
    (am && !bm) || (am == bm && LexLe(a.billingCycle, b.billingCycle))
  }

  /** Rows of one product that share a billing cycle keep their input order. */
  lemma SameCycleInputOrder(rows: seq<Row>, p: string, k: string)
    ensures WithKey(Section(rows, p), CycleKey, k) == WithKey(RowsOf(rows, p), CycleKey, k)
  {
    SortByStable(RowsOf(rows, p), CycleKey, k);
  }

  /** The one-string key orders rows exactly as the tuple key does. */
  lemma CycleKeyOrder(a: Row, b: Row)
    ensures LexLe(CycleKey(a), CycleKey(b)) <==> CycleOrder(a, b)
  {
    var ka := CycleKey(a);
    var kb := CycleKey(b);
    assert ka[1..] == a.billingCycle && kb[1..] == b.billingCycle;
  }

  // ---------------------------------------------------------------- proofs

  lemma EmittedPermutes(rows: seq<Row>)
    ensures multiset(Emitted(rows)) == multiset(rows)
    ensures |Emitted(rows)| == |rows|
  {
    SortedProductsFacts(rows);
    SectionsPermute(rows, SortedProducts(rows));
    WithinAll(rows, SortedProducts(rows));
    assert |multiset(Emitted(rows))| == |multiset(rows)|;
  }

  /** The rows whose product is one of `ps`, in input order. */
  function Within(rows: seq<Row>, ps: seq<string>): seq<Row>
  {
    if rows == [] then []
    else Within(rows[..|rows| - 1], ps) + (if rows[|rows| - 1].product in ps then [rows[|rows| - 1]] else [])
  }

  lemma {:induction false} WithinAll(rows: seq<Row>, ps: seq<string>)
    requires forall r :: r in rows ==> r.product in ps
    ensures Within(rows, ps) == rows
  {
    if rows != [] {
      WithinAll(rows[..|rows| - 1], ps);
      assert rows[..|rows| - 1] + [rows[|rows| - 1]] == rows;
    }
  }

  lemma {:induction false} WithinSplit(rows: seq<Row>, ps: seq<string>, p: string)
    requires p !in ps
    ensures multiset(Within(rows, ps + [p])) == multiset(Within(rows, ps)) + multiset(RowsOf(rows, p))
  {
    if rows != [] {
      var init := rows[..|rows| - 1];
      var r := rows[|rows| - 1];
      WithinSplit(init, ps, p);
      assert r.product in ps + [p] <==> r.product in ps || r.product == p;
      assert multiset(Within(rows, ps + [p]))
          == multiset(Within(init, ps + [p])) + multiset(if r.product in ps + [p] then [r] else []);
      assert multiset(Within(rows, ps)) == multiset(Within(init, ps)) + multiset(if r.product in ps then [r] else []);
      assert multiset(RowsOf(rows, p)) == multiset(RowsOf(init, p)) + multiset(if r.product == p then [r] else []);
    } else {
      WithinNone(rows);
    }
  }

  lemma {:induction false} SectionsPermute(rows: seq<Row>, ps: seq<string>)
    requires Distinct(ps)
    ensures multiset(Sections(rows, ps)) == multiset(Within(rows, ps))
  {
    if ps == [] {
      WithinNone(rows);
    } else {
      var init := ps[..|ps| - 1];
      var last := ps[|ps| - 1];
      assert ps == init + [last];
      SectionsPermute(rows, init);
      SortByPermutes(RowsOf(rows, last), CycleKey);
      WithinSplit(rows, init, last);
    }
  }

  lemma {:induction false} WithinNone(rows: seq<Row>)
    ensures Within(rows, []) == []
  {
    if rows != [] {
      WithinNone(rows[..|rows| - 1]);
    }
  }

  /** The sorted keys are distinct, in ascending order, and name every product. */
  lemma SortedProductsFacts(rows: seq<Row>)
    ensures Distinct(SortedProducts(rows))
    ensures SortedBy(SortedProducts(rows), Name)
    ensures forall r :: r in rows ==> r.product in SortedProducts(rows)
  {
    FirstSeenFacts(rows);
    SortByDistinct(FirstSeen(rows), Name);
    SortBySorted(FirstSeen(rows), Name);
    SortByPermutes(FirstSeen(rows), Name);
    forall r | r in rows
      ensures r.product in SortedProducts(rows)
    {
      assert r.product in multiset(FirstSeen(rows));
    }
  }

  lemma {:induction false} FirstSeenFacts(rows: seq<Row>)
    ensures Distinct(FirstSeen(rows))
    ensures forall r :: r in rows ==> r.product in FirstSeen(rows)
  {
    if rows != [] {
      var init := rows[..|rows| - 1];
      FirstSeenFacts(init);
      assert rows == init + [rows[|rows| - 1]];
    }
  }

  lemma {:induction false} RowsOfProduct(rows: seq<Row>, p: string)
    ensures forall r :: r in RowsOf(rows, p) ==> r.product == p
  {
    if rows != [] {
      RowsOfProduct(rows[..|rows| - 1], p);
    }
  }

  lemma SectionFacts(rows: seq<Row>, p: string)
    ensures forall r :: r in Section(rows, p) ==> r.product == p
    ensures SortedBy(Section(rows, p), CycleKey)
  {
    RowsOfProduct(rows, p);
    SortByPermutes(RowsOf(rows, p), CycleKey);
    SortBySorted(RowsOf(rows, p), CycleKey);
    forall r | r in Section(rows, p)
      ensures r.product == p
    {
      assert r in multiset(Section(rows, p));
    }
  }

  lemma {:induction false} SectionsProducts(rows: seq<Row>, ps: seq<string>)
    ensures forall r :: r in Sections(rows, ps) ==> r.product in ps
  {
    if ps != [] {
      var init := ps[..|ps| - 1];
      SectionsProducts(rows, init);
      SectionFacts(rows, ps[|ps| - 1]);
    }
  }

  /** Rows of earlier products come first, and one product's rows are in cycle
      order. */
  ghost predicate RowsOrdered(e: seq<Row>)
  {
    forall i, j :: 0 <= i < j < |e| ==>
      && LexLe(e[i].product, e[j].product)
      && (e[i].product == e[j].product ==> LexLe(CycleKey(e[i]), CycleKey(e[j])))
  }

  lemma {:induction false} SectionsOrdered(rows: seq<Row>, ps: seq<string>)
    requires Distinct(ps) && SortedBy(ps, Name)
    ensures RowsOrdered(Sections(rows, ps))
  {
    if ps != [] {
      var init := ps[..|ps| - 1];
      var last := ps[|ps| - 1];
      SectionsOrdered(rows, init);
      SectionsProducts(rows, init);
      SectionFacts(rows, last);
      var a: seq<Row> := Sections(rows, init);
      var b: seq<Row> := Section(rows, last);
      var e: seq<Row> := a + b;
      forall i, j | 0 <= i < j < |e|
        ensures LexLe(e[i].product, e[j].product)
        ensures e[i].product == e[j].product ==> LexLe(CycleKey(e[i]), CycleKey(e[j]))
      {
        if j < |a| {
          assert e[i] == a[i] && e[j] == a[j];
        } else if |a| <= i {
          assert e[i] == b[i - |a|] && e[j] == b[j - |a|];
          assert b[i - |a|] in b && b[j - |a|] in b;
          LexLeReflexive(last);
        } else {
          assert e[i] == a[i] && e[j] == b[j - |a|];
          assert a[i] in a && b[j - |a|] in b;
          CrossSection(ps, a[i].product, b[j - |a|].product);
        }
      }
    }
  }

  /** A product among the earlier keys sorts before, and differs from, the last. */
  lemma CrossSection(ps: seq<string>, p: string, q: string)
    requires ps != [] && Distinct(ps) && SortedBy(ps, Name)
    requires p in ps[..|ps| - 1] && q == ps[|ps| - 1]
    ensures LexLe(p, q) && p != q
  {
    var m :| 0 <= m < |ps| - 1 && ps[m] == p;
    assert Name(ps[m]) == p && Name(ps[|ps| - 1]) == q;
  }

  lemma {:induction false} TotalsAppend(a: seq<Row>, b: seq<Row>)
    ensures SubsTotal(a + b) == SubsTotal(a) + SubsTotal(b)
    ensures RevenueTotal(a + b) == RevenueTotal(a) + RevenueTotal(b)
  {
    if b != [] {
      TotalsAppend(a, b[..|b| - 1]);
      assert (a + b)[..|a + b| - 1] == a + b[..|b| - 1];
    } else {
      assert a + b == a;
    }
  }

  lemma {:induction false} TotalsPermutation(a: seq<Row>, b: seq<Row>)
    requires multiset(a) == multiset(b)
    ensures SubsTotal(a) == SubsTotal(b) && RevenueTotal(a) == RevenueTotal(b)
    decreases |a|
  {
    if a != [] {
      var x := a[|a| - 1];
      var init := a[..|a| - 1];
      assert a == init + [x];
      assert x in multiset(b);
      var k :| 0 <= k < |b| && b[k] == x;
      var rest := b[..k] + b[k + 1..];
      assert b == b[..k] + [x] + b[k + 1..];
      calc {
        multiset(rest) + multiset{x};
        multiset(b[..k]) + multiset(b[k + 1..]) + multiset{x};
        multiset(b[..k] + [x] + b[k + 1..]);
        multiset(a);
        multiset(init) + multiset{x};
      }
      assert multiset(rest) == multiset(rest) + multiset{x} - multiset{x};
      assert multiset(init) == multiset(init) + multiset{x} - multiset{x};
      TotalsPermutation(init, rest);
      TotalsAppend(b[..k] + [x], b[k + 1..]);
      TotalsAppend(b[..k], [x]);
      TotalsAppend(b[..k], b[k + 1..]);
    }
  }

  // ---------------------------------------------------------------- helpers

  lemma FirstSeenSnoc(rows: seq<Row>, i: nat)
    requires i < |rows|
    ensures FirstSeen(rows[..i + 1]) == if rows[i].product in FirstSeen(rows[..i]) then FirstSeen(rows[..i]) else FirstSeen(rows[..i]) + [rows[i].product]
  {
    assert rows[..i + 1][..i] == rows[..i];
  }

  lemma RowsOfSnoc(rows: seq<Row>, i: nat, p: string)
    requires i < |rows|
    ensures RowsOf(rows[..i + 1], p) == RowsOf(rows[..i], p) + (if rows[i].product == p then [rows[i]] else [])
  {
    assert rows[..i + 1][..i] == rows[..i];
  }

  lemma MapSeqSnoc<A, B>(xs: seq<A>, j: nat, f: A -> B)
    requires j < |xs|
    ensures MapSeq(xs[..j + 1], f) == MapSeq(xs[..j], f) + [f(xs[j])]
  {
  }

  lemma MapSeqAppend<A, B>(a: seq<A>, b: seq<A>, f: A -> B)
    ensures MapSeq(a + b, f) == MapSeq(a, f) + MapSeq(b, f)
  {
  }

  lemma AppendAssoc<T>(a: seq<T>, b: seq<T>, c: seq<T>)
    ensures (a + b) + c == a + (b + c)
  {
  }

  lemma SectionsSnoc(rows: seq<Row>, ps: seq<string>, k: nat)
    requires k < |ps|
    ensures Sections(rows, ps[..k + 1]) == Sections(rows, ps[..k]) + Section(rows, ps[k])
  {
    assert ps[..k + 1][..k] == ps[..k];
  }
}
