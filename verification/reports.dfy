/** The income report: the years that have invoices, the total of paid invoices, and
    the paid invoices grouped by quarter (newest first) with a month breakdown inside
    each quarter (oldest first). A dictionary keyed by quarter or month followed by a
    sort of its keys is modelled as insertion into a list of groups kept sorted by key. */
module Reports {
  import opened Basics
  import opened Numbers
  import opened Models

  // ---------------------------------------------------------------- keys

  /** `QuarterKey` (year, quarter) and `YearMonth` (year, month) share this shape. */
  datatype Key = Key(year: int, part: int)

  /** `QuarterKey.<` and `YearMonth.<`: by year, then by the second field. */
  predicate Less(a: Key, b: Key)
  {
    if a.year != b.year then a.year < b.year else a.part < b.part
  }

  /** The key order is a strict total order. */
  lemma LessIsStrictTotalOrder(a: Key, b: Key, c: Key)
    ensures !Less(a, a)
    ensures Less(a, b) ==> !Less(b, a)
    ensures Less(a, b) && Less(b, c) ==> Less(a, c)
    ensures a == b || Less(a, b) || Less(b, a)
  {
  }

  /** `(month - 1) / 3 + 1` with Swift's truncating division. */
  function QuarterOf(month: int): (q: int)
    ensures 1 <= month <= 12 ==> 1 <= q <= 4 && 3 * q - 2 <= month <= 3 * q
  {
    TruncDiv(month - 1, 3) + 1
  }

  /** A missing month component (read as 0) still lands in the first quarter, because
      the division truncates toward zero. */
  lemma MissingMonthIsFirstQuarter()
    ensures QuarterOf(0) == 1
  {
  }

  function QuarterKeyOf(inv: Invoice): Key
  {
    Key(inv.issued.year, QuarterOf(inv.issued.month))
  }

  function MonthKeyOf(inv: Invoice): Key
  {
    Key(inv.issued.year, inv.issued.month)
  }

  // ---------------------------------------------------------------- grouping

  /** The invoices filed under one key, in the order they were encountered. */
  datatype Group = Group(key: Key, members: seq<Invoice>)

  /** The group keys are strictly ascending, hence distinct. */
  predicate SortedKeys(gs: seq<Group>)
  {
    forall i, j :: 0 <= i < j < |gs| ==> Less(gs[i].key, gs[j].key)
  }

  /** The invoices filed under `k`, or none. */
  function Lookup(gs: seq<Group>, k: Key): seq<Invoice>
  {
    if |gs| == 0 then []
    else if gs[0].key == k then gs[0].members
    else Lookup(gs[1..], k)
  }

  /** The keys that have a group. */
  function Keys(gs: seq<Group>): set<Key>
  {
    set g | g in gs :: g.key
  }

  /** `dict[k, default: []].append(x)` on the sorted group list: the list stays sorted,
      and its first key is the smaller of `k` and the previous first key. */
  function Insert(gs: seq<Group>, k: Key, x: Invoice): (r: seq<Group>)
    requires SortedKeys(gs)
    ensures SortedKeys(r)
    ensures |r| > 0 && (r[0].key == k || (|gs| > 0 && r[0].key == gs[0].key))
  {
    if |gs| == 0 then [Group(k, [x])]
    else if gs[0].key == k then
      SortedTail(gs);
      SortedCons(Group(k, gs[0].members + [x]), gs[1..]);
      [Group(k, gs[0].members + [x])] + gs[1..]
    else if Less(k, gs[0].key) then
      SortedCons(Group(k, [x]), gs);
      [Group(k, [x])] + gs
    else
      SortedTail(gs);
      var rest := Insert(gs[1..], k, x);
      assert Less(gs[0].key, k) by {
        LessIsStrictTotalOrder(k, gs[0].key, k);
      }
      SortedCons(gs[0], rest);
      [gs[0]] + rest
  }

  /** Dropping the first group keeps the keys sorted; the first key is below the next. */
  lemma SortedTail(gs: seq<Group>)
    requires SortedKeys(gs) && |gs| > 0
    ensures SortedKeys(gs[1..])
    ensures |gs| > 1 ==> gs[1..][0] == gs[1] && Less(gs[0].key, gs[1].key)
  {
  }

  /** A group whose key is below the first key of a sorted list may be put in front. */
  lemma SortedCons(g: Group, gs: seq<Group>)
    requires SortedKeys(gs)
    requires |gs| > 0 ==> Less(g.key, gs[0].key)
    ensures SortedKeys([g] + gs)
  {
    var r := [g] + gs;
    forall i, j | 0 <= i < j < |r|
      ensures Less(r[i].key, r[j].key)
    {
      assert r[j] == gs[j - 1];
      if i > 0 {
        assert r[i] == gs[i - 1];
      } else if j > 1 {
        LessIsStrictTotalOrder(g.key, gs[0].key, gs[j - 1].key);
      }
    }
  }

  lemma KeysCons(g: Group, gs: seq<Group>)
    ensures Keys([g] + gs) == {g.key} + Keys(gs)
  {
    assert forall h :: h in [g] + gs <==> h == g || h in gs;
  }

  /** Inserting adds `k` to the keys and no other. */
  lemma {:induction false} InsertKeys(gs: seq<Group>, k: Key, x: Invoice)
    requires SortedKeys(gs)
    ensures Keys(Insert(gs, k, x)) == Keys(gs) + {k}
    decreases |gs|
  {
    var r := Insert(gs, k, x);
    if |gs| > 0 {
      assert gs == [gs[0]] + gs[1..];
      KeysCons(gs[0], gs[1..]);
      if gs[0].key == k {
        KeysCons(r[0], gs[1..]);
      } else if Less(k, gs[0].key) {
        KeysCons(r[0], gs);
      } else {
        SortedTail(gs);
        InsertKeys(gs[1..], k, x);
        KeysCons(gs[0], Insert(gs[1..], k, x));
      }
    }
  }

  /** Inserting files `x` under `k` and under no other key. */
  lemma {:induction false} InsertLookup(gs: seq<Group>, k: Key, x: Invoice, k': Key)
    requires SortedKeys(gs)
    ensures Lookup(Insert(gs, k, x), k') == if k' == k then Lookup(gs, k) + [x] else Lookup(gs, k')
    decreases |gs|
  {
    var r := Insert(gs, k, x);
    if |gs| == 0 {
    } else if gs[0].key == k {
      assert r[1..] == gs[1..];
    } else if Less(k, gs[0].key) {
      LookupMissing(gs, k);
      assert r[1..] == gs;
    } else {
      SortedTail(gs);
      InsertLookup(gs[1..], k, x, k');
      assert r[1..] == Insert(gs[1..], k, x);
    }
  }

  /** A key smaller than every group's key has no group. */
  lemma LookupMissing(gs: seq<Group>, k: Key)
    requires SortedKeys(gs) && |gs| > 0 && Less(k, gs[0].key)
    ensures Lookup(gs, k) == []
  {
    var i := 0;
    while i < |gs|
      invariant 0 <= i <= |gs|
      invariant Lookup(gs, k) == Lookup(gs[i..], k)
    {
      assert Less(k, gs[i].key) by {
        if i > 0 {
          LessIsStrictTotalOrder(k, gs[0].key, gs[i].key);
        }
      }
      assert gs[i..][1..] == gs[i + 1..];
      i := i + 1;
    }
  }

  /** A predicate that selects the invoices with key `k`. */
  function HasKey(keyOf: Invoice -> Key, k: Key): Invoice -> bool
  {
    (inv: Invoice) => keyOf(inv) == k
  }

  /** Grouping by `keyOf`, invoices taken in order. */
  function GroupBy(xs: seq<Invoice>, keyOf: Invoice -> Key): (r: seq<Group>)
    ensures SortedKeys(r)
  {
    if |xs| == 0 then []
    else Insert(GroupBy(xs[..|xs| - 1], keyOf), keyOf(xs[|xs| - 1]), xs[|xs| - 1])
  }

  /** The group keys are exactly the keys of the invoices. */
  lemma {:induction false} GroupByKeys(xs: seq<Invoice>, keyOf: Invoice -> Key)
    ensures forall k :: k in Keys(GroupBy(xs, keyOf)) <==> exists j :: 0 <= j < |xs| && keyOf(xs[j]) == k
    decreases |xs|
  {
    if |xs| > 0 {
      var init := xs[..|xs| - 1];
      GroupByKeys(init, keyOf);
      InsertKeys(GroupBy(init, keyOf), keyOf(xs[|xs| - 1]), xs[|xs| - 1]);
      assert forall j :: 0 <= j < |xs| - 1 ==> init[j] == xs[j];
    }
  }

  /** Each group holds exactly the invoices with its key, in their original order. */
  lemma {:induction false} GroupByLookup(xs: seq<Invoice>, keyOf: Invoice -> Key, k: Key)
    ensures Lookup(GroupBy(xs, keyOf), k) == Filter(xs, HasKey(keyOf, k))
    decreases |xs|
  {
    if |xs| > 0 {
      var init := xs[..|xs| - 1];
      var x := xs[|xs| - 1];
      assert xs == init + [x];
      GroupByLookup(init, keyOf, k);
      FilterSnoc(init, x, HasKey(keyOf, k));
      InsertLookup(GroupBy(init, keyOf), keyOf(x), x, k);
    }
  }

  /** A group's members, read through `Lookup` in a sorted list. */
  lemma LookupAt(gs: seq<Group>, i: int)
    requires SortedKeys(gs) && 0 <= i < |gs|
    ensures Lookup(gs, gs[i].key) == gs[i].members
  {
    var j := 0;
    while j < i
      invariant 0 <= j <= i
      invariant Lookup(gs, gs[i].key) == Lookup(gs[j..], gs[i].key)
    {
      assert gs[j].key != gs[i].key by {
        assert Less(gs[j].key, gs[i].key);
      }
      assert gs[j..][1..] == gs[j + 1..];
      j := j + 1;
    }
  }

  /** The members of the `i`th group are exactly the invoices with its key, and there is at least one. */
  lemma GroupMembers(xs: seq<Invoice>, keyOf: Invoice -> Key, i: int)
    requires 0 <= i < |GroupBy(xs, keyOf)|
    ensures GroupBy(xs, keyOf)[i].members == Filter(xs, HasKey(keyOf, GroupBy(xs, keyOf)[i].key))
    ensures |GroupBy(xs, keyOf)[i].members| > 0
  {
    var gs := GroupBy(xs, keyOf);
    var k := gs[i].key;
    LookupAt(gs, i);
    GroupByLookup(xs, keyOf, k);
    GroupByKeys(xs, keyOf);
    assert k in Keys(gs);
    var j :| 0 <= j < |xs| && keyOf(xs[j]) == k;
    assert HasKey(keyOf, k)(xs[j]);
  }

  function GroupTotal(g: Group): real
  {
    Sum(g.members, InvoiceTotal)
  }

  /** Adding an invoice to the groups adds its total to the grand total. */
  lemma {:induction false} InsertTotal(gs: seq<Group>, k: Key, x: Invoice)
    requires SortedKeys(gs)
    ensures Sum(Insert(gs, k, x), GroupTotal) == Sum(gs, GroupTotal) + x.total
    decreases |gs|
  {
    SumSingleton(x, InvoiceTotal);
    if |gs| == 0 {
      SumSingleton(Group(k, [x]), GroupTotal);
    } else if gs[0].key == k {
      var g := Group(k, gs[0].members + [x]);
      assert g.members[..|g.members| - 1] == gs[0].members;
      SumCons(g, gs[1..], GroupTotal);
      SumCons(gs[0], gs[1..], GroupTotal);
      assert gs == [gs[0]] + gs[1..];
    } else if Less(k, gs[0].key) {
      SumCons(Group(k, [x]), gs, GroupTotal);
    } else {
      InsertTotal(gs[1..], k, x);
      SumCons(gs[0], Insert(gs[1..], k, x), GroupTotal);
      SumCons(gs[0], gs[1..], GroupTotal);
      assert gs == [gs[0]] + gs[1..];
    }
  }

  /** Grouping conserves the sum of totals. */
  lemma {:induction false} GroupByTotal(xs: seq<Invoice>, keyOf: Invoice -> Key)
    ensures Sum(GroupBy(xs, keyOf), GroupTotal) == Sum(xs, InvoiceTotal)
    decreases |xs|
  {
    if |xs| > 0 {
      GroupByTotal(xs[..|xs| - 1], keyOf);
      InsertTotal(GroupBy(xs[..|xs| - 1], keyOf), keyOf(xs[|xs| - 1]), xs[|xs| - 1]);
    }
  }

  // ---------------------------------------------------------------- the report

  predicate IsPaid(inv: Invoice) { inv.wasPaid }

  /** The stored invoices with `wasPaid == true`, in stored order. */
  function PaidInvoices(all: seq<Invoice>): seq<Invoice>
  {
    Filter(all, IsPaid)
  }

  /** `totalPaid`: the sum of `total` over the paid invoices. */
  function TotalPaid(all: seq<Invoice>): real
  {
    Sum(PaidInvoices(all), InvoiceTotal)
  }

  /** What an invoice contributes to the paid total. */
  function PaidAmount(inv: Invoice): real
  {
    if inv.wasPaid then inv.total else 0.0
  }

  /** The paid total counts each paid invoice's total once and each unpaid invoice not at all. */
  lemma {:induction false} TotalPaidCountsPaidOnly(all: seq<Invoice>)
    ensures TotalPaid(all) == Sum(all, PaidAmount)
    decreases |all|
  {
    if |all| > 0 {
      var init, x := all[..|all| - 1], all[|all| - 1];
      TotalPaidCountsPaidOnly(init);
      assert all == init + [x];
      FilterAppend(init, [x], IsPaid);
      SumAppend(Filter(init, IsPaid), Filter([x], IsPaid), InvoiceTotal);
      if x.wasPaid {
        SumSingleton(x, InvoiceTotal);
      }
    }
  }

  /** A month line: the month, the issue date of its first invoice (the source of its
      localized label; none stands for the current date, used for an empty group), and
      the month's total. */
  datatype MonthRow = MonthRow(key: Key, firstIssued: Option<Date>, value: real)

  function MonthValue(m: MonthRow): real { m.value }

  /** A quarter line: `"Q<quarter> <year>"`, the quarter's total and its months. */
  datatype QuarterRow = QuarterRow(key: Key, caption: string, sum: real, months: seq<MonthRow>)

  function QuarterLabel(k: Key): string
  {
    "Q" + FormatInt(k.part) + " " + FormatInt(k.year)
  }

  /** Reads a quarter label back into its key. */
  function ParseQuarterLabel(s: string): Option<Key>
  {
    if |s| == 0 || s[0] != 'Q' then None
    else
      match IndexOf(s, ' ')
      case None => None
      case Some(sp) =>
        if sp < 1 then None
        else
          match (ParseInt(s[1..sp]), ParseInt(s[sp + 1..]))
          case (Some(q), Some(y)) => Some(Key(y, q))
          case _ => None
  }

  /** A quarter label names its quarter and year recoverably. */
  lemma QuarterLabelRoundTrip(k: Key)
    requires InIntRange(k.year) && InIntRange(k.part)
    ensures ParseQuarterLabel(QuarterLabel(k)) == Some(k)
  {
    var q, y := FormatInt(k.part), FormatInt(k.year);
    var s := QuarterLabel(k);
    var sp := 1 + |q|;
    assert s[sp] == ' ';
    assert forall i :: 0 <= i < sp ==> s[i] != ' ' by {
      forall i | 1 <= i < sp
        ensures s[i] != ' '
      {
        assert s[i] == q[i - 1];
      }
    }
    assert IndexOf(s, ' ') == Some(sp) by {
      var r := IndexOf(s, ' ');
      assert ' ' in s[..sp + 1];
    }
    assert s[1..sp] == q;
    assert s[sp + 1..] == y;
    ParseFormatInt(k.part);
    ParseFormatInt(k.year);
  }

  /** Month lines for the month groups, in the groups' (ascending) order. */
  function MonthRows(gs: seq<Group>): (r: seq<MonthRow>)
    ensures |r| == |gs|
    ensures forall i :: 0 <= i < |gs| ==> r[i].key == gs[i].key && r[i].value == GroupTotal(gs[i])
    ensures forall i :: 0 <= i < |gs| && |gs[i].members| > 0 ==> r[i].firstIssued == Some(gs[i].members[0].issued)
    ensures Sum(r, MonthValue) == Sum(gs, GroupTotal)
  {
    if |gs| == 0 then []
    else
      var last := gs[|gs| - 1];
      var init := MonthRows(gs[..|gs| - 1]);
      var first := if |last.members| > 0 then Some(last.members[0].issued) else None;
      var r := init + [MonthRow(last.key, first, GroupTotal(last))];
      assert r[..|r| - 1] == init;
      r
  }

  /** Every month group inside a list of invoices has at least one member. */
  lemma MonthGroupsNonEmpty(xs: seq<Invoice>)
    ensures forall i :: 0 <= i < |GroupBy(xs, MonthKeyOf)| ==> |GroupBy(xs, MonthKeyOf)[i].members| > 0
  {
    forall i | 0 <= i < |GroupBy(xs, MonthKeyOf)|
      ensures |GroupBy(xs, MonthKeyOf)[i].members| > 0
    {
      GroupMembers(xs, MonthKeyOf, i);
    }
  }

  /** Every month line of a quarter is labelled from one of its invoices: the
      current-date fallback for an empty month group is never used. */
  lemma MonthLinesHaveDates(g: Group)
    ensures forall a :: 0 <= a < |QuarterRowOf(g).months| ==> QuarterRowOf(g).months[a].firstIssued.Some?
  {
    MonthGroupsNonEmpty(g.members);
  }

  /** The quarter line of one quarter group. */
  function QuarterRowOf(g: Group): (r: QuarterRow)
    ensures r.key == g.key && r.sum == GroupTotal(g)
  {
    QuarterRow(g.key, QuarterLabel(g.key), GroupTotal(g), MonthRows(GroupBy(g.members, MonthKeyOf)))
  }

  function RowSum(q: QuarterRow): real { q.sum }

  /** Quarter lines in descending key order: the groups read from the back. */
  function QuarterRows(gs: seq<Group>): (r: seq<QuarterRow>)
    ensures |r| == |gs|
    ensures forall i :: 0 <= i < |gs| ==> r[i] == QuarterRowOf(gs[|gs| - 1 - i])
  {
    Map(Reversed(gs), QuarterRowOf)
  }

  /** The quarter lines carry the whole grouped total. */
  lemma {:induction false} QuarterRowsTotal(gs: seq<Group>)
    ensures Sum(QuarterRows(gs), RowSum) == Sum(gs, GroupTotal)
    decreases |gs|
  {
    if |gs| > 0 {
      var init := gs[..|gs| - 1];
      var row := QuarterRowOf(gs[|gs| - 1]);
      assert QuarterRows(gs) == [row] + QuarterRows(init);
      QuarterRowsTotal(init);
      SumCons(row, QuarterRows(init), RowSum);
    }
  }

  /** `quartersTotals`. */
  function QuartersTotals(all: seq<Invoice>): seq<QuarterRow>
  {
    QuarterRows(GroupBy(PaidInvoices(all), QuarterKeyOf))
  }

  /** Quarters run newest first, with no quarter twice. */
  lemma QuartersDescending(all: seq<Invoice>)
    ensures forall i, j :: 0 <= i < j < |QuartersTotals(all)| ==>
      Less(QuartersTotals(all)[j].key, QuartersTotals(all)[i].key)
  {
  }

  /** The quarter totals add up to the paid total. */
  lemma QuarterSumsAddUpToTotalPaid(all: seq<Invoice>)
    ensures Sum(QuartersTotals(all), RowSum) == TotalPaid(all)
  {
    GroupByTotal(PaidInvoices(all), QuarterKeyOf);
    QuarterRowsTotal(GroupBy(PaidInvoices(all), QuarterKeyOf));
  }

  /** The months of a quarter line run oldest first, each belongs to the quarter, and
      their values add up to the quarter's sum. */
  predicate MonthsConsistent(q: QuarterRow)
  {
    && (forall a, b :: 0 <= a < b < |q.months| ==> Less(q.months[a].key, q.months[b].key))
    && (forall a :: 0 <= a < |q.months| ==>
          q.months[a].key.year == q.key.year && QuarterOf(q.months[a].key.part) == q.key.part)
    && Sum(q.months, MonthValue) == q.sum
  }

  /** The month lines of a group of invoices sharing one quarter key. */
  lemma QuarterRowMonths(g: Group)
    requires forall j :: 0 <= j < |g.members| ==> QuarterKeyOf(g.members[j]) == g.key
    ensures MonthsConsistent(QuarterRowOf(g))
  {
    var monthGroups := GroupBy(g.members, MonthKeyOf);
    MonthGroupsNonEmpty(g.members);
    var months := MonthRows(monthGroups);
    assert QuarterRowOf(g).months == months;
    GroupByTotal(g.members, MonthKeyOf);
    forall a | 0 <= a < |months|
      ensures months[a].key.year == g.key.year && QuarterOf(months[a].key.part) == g.key.part
    {
      GroupByKeys(g.members, MonthKeyOf);
      assert monthGroups[a] in monthGroups;
      assert monthGroups[a].key in Keys(monthGroups);
      var j :| 0 <= j < |g.members| && MonthKeyOf(g.members[j]) == monthGroups[a].key;
      assert QuarterKeyOf(g.members[j]) == g.key;
    }
  }

  /** Every member of a group carries the group's key. */
  lemma GroupKeyed(xs: seq<Invoice>, keyOf: Invoice -> Key, i: int)
    requires 0 <= i < |GroupBy(xs, keyOf)|
    ensures forall j :: 0 <= j < |GroupBy(xs, keyOf)[i].members| ==>
      keyOf(GroupBy(xs, keyOf)[i].members[j]) == GroupBy(xs, keyOf)[i].key
  {
    var g := GroupBy(xs, keyOf)[i];
    GroupMembers(xs, keyOf, i);
    forall j | 0 <= j < |g.members|
      ensures keyOf(g.members[j]) == g.key
    {
      assert HasKey(keyOf, g.key)(g.members[j]);
    }
  }

  /** Every quarter line of the report has consistent months. */
  lemma QuarterMonths(all: seq<Invoice>, i: int)
    requires 0 <= i < |QuartersTotals(all)|
    ensures MonthsConsistent(QuartersTotals(all)[i])
  {
    var paid := PaidInvoices(all);
    var gs := GroupBy(paid, QuarterKeyOf);
    QuarterGroupMonths(paid, |gs| - 1 - i);
    assert QuartersTotals(all) == QuarterRows(gs);
  }

  /** Every quarter group yields a line with consistent months. */
  lemma QuarterGroupMonths(xs: seq<Invoice>, k: int)
    requires 0 <= k < |GroupBy(xs, QuarterKeyOf)|
    ensures MonthsConsistent(QuarterRowOf(GroupBy(xs, QuarterKeyOf)[k]))
  {
    GroupKeyed(xs, QuarterKeyOf, k);
    QuarterRowMonths(GroupBy(xs, QuarterKeyOf)[k]);
  }

  /** An unpaid invoice changes neither the paid total nor the quarter breakdown. */
  lemma UnpaidInvoiceIgnored(all: seq<Invoice>, u: Invoice)
    requires !u.wasPaid
    ensures PaidInvoices(all + [u]) == PaidInvoices(all)
    ensures TotalPaid(all + [u]) == TotalPaid(all)
    ensures QuartersTotals(all + [u]) == QuartersTotals(all)
  {
    FilterAppend(all, [u], IsPaid);
    assert Filter([u], IsPaid) == [];
    assert PaidInvoices(all) + [] == PaidInvoices(all);
  }

  // ---------------------------------------------------------------- years

  predicate StrictlyDescending(ys: seq<int>)
  {
    forall i, j :: 0 <= i < j < |ys| ==> ys[i] > ys[j]
  }

  /** Adds `y` to a strictly descending list unless it is already there. */
  function InsertYear(ys: seq<int>, y: int): (r: seq<int>)
    requires StrictlyDescending(ys)
    ensures StrictlyDescending(r)
    ensures forall z :: z in r <==> z in ys || z == y
  {
    if |ys| == 0 then [y]
    else if ys[0] == y then ys
    else if y > ys[0] then
      var r := [y] + ys;
      assert forall j :: 1 <= j < |r| ==> r[j] == ys[j - 1];
      r
    else
      assert ys == [ys[0]] + ys[1..];
      assert StrictlyDescending(ys[1..]) by {
        forall i, j | 0 <= i < j < |ys[1..]|
          ensures ys[1..][i] > ys[1..][j]
        {
          assert ys[1..][i] == ys[i + 1] && ys[1..][j] == ys[j + 1];
        }
      }
      assert forall z :: z in ys[1..] ==> z < ys[0];
      var rest := InsertYear(ys[1..], y);
      var r := [ys[0]] + rest;
      assert forall z :: z in r <==> z == ys[0] || z in rest;
      assert forall j :: 1 <= j < |r| ==> r[j] == rest[j - 1] && r[j] in rest;
      r
  }

  /** `invoiceYears`: the distinct issue years, newest first. */
  function InvoiceYears(all: seq<Invoice>): (r: seq<int>)
    ensures StrictlyDescending(r)
    ensures forall y :: y in r <==> exists i :: 0 <= i < |all| && all[i].issued.year == y
  {
    if |all| == 0 then []
    else
      var init := InvoiceYears(all[..|all| - 1]);
      assert forall i :: 0 <= i < |all| - 1 ==> all[..|all| - 1][i] == all[i];
      InsertYear(init, all[|all| - 1].issued.year)
  }

  /** `currentYear`: the first of the years. */
  function CurrentYear(all: seq<Invoice>): Option<int>
  {
    var ys := InvoiceYears(all);
    if |ys| == 0 then None else Some(ys[0])
  }

  /** The current year is the latest issue year, and there is none exactly when there are no invoices. */
  lemma CurrentYearIsLatest(all: seq<Invoice>)
    ensures CurrentYear(all).None? <==> |all| == 0
    ensures CurrentYear(all).Some? ==>
      (exists i :: 0 <= i < |all| && all[i].issued.year == CurrentYear(all).value)
      && forall i :: 0 <= i < |all| ==> all[i].issued.year <= CurrentYear(all).value
  {
    var ys := InvoiceYears(all);
    if |all| > 0 {
      assert all[0].issued.year in ys;
    }
    if |ys| > 0 {
      assert ys[0] in ys;
      forall i | 0 <= i < |all|
        ensures all[i].issued.year <= ys[0]
      {
        var y := all[i].issued.year;
        assert y in ys;
        var k :| 0 <= k < |ys| && ys[k] == y;
      }
    }
  }
}
