/**
 * What the generator guarantees about the table it produces: its size and
 * order, the tampering sample, the labels, the tampering window, the two
 * nulling steps and the final sort.
 */
module GeneratorProperties {
  import opened Wrappers
  import opened StringOrder
  import opened CustomerIds
  import opened Records
  import opened RowOrder
  import opened Generator

  // ---------------------------------------------------------------- sample

  lemma CustomerIdListDistinct(n: nat)
    ensures Distinct(CustomerIdList(n))
  {
    var ids := CustomerIdList(n);
    forall i, j | 0 <= i < j < n
      ensures ids[i] != ids[j]
    {
      if ids[i] == ids[j] {
        CustomerIdInjective(i, j);
      }
    }
  }

  /** The tampering sample has exactly int(n * rate) members (truncated, not
      rounded), no duplicates, and only IDs of the customer list; it fails
      exactly when that size is negative or above the number of customers. */
  lemma TamperingSample(numCustomers: int, tamperingRate: real, order: seq<int>)
    requires IsPermutationOf(order, RangeLength(numCustomers))
    ensures var ids := CustomerIdList(RangeLength(numCustomers));
            var size := SampleSize(numCustomers, tamperingRate);
            var r := TamperingCustomers(numCustomers, tamperingRate, order);
            && (r.Failure? <==> size < 0 || size > RangeLength(numCustomers))
            && (r.Success? ==>
                  && |r.value| == size
                  && Distinct(r.value)
                  && (forall x :: x in r.value ==> x in ids))
  {
    CustomerIdListDistinct(RangeLength(numCustomers));
  }

  /** `int()` truncates the product toward zero instead of rounding it. */
  lemma SampleSizeTruncates()
    ensures SampleSize(7, 0.5) == 3
    ensures SampleSize(-7, 0.5) == -3
  {
    assert 7 as real * 0.5 == 3.5;
    assert -7 as real * 0.5 == -3.5;
  }

  /** For a rate in [0, 1] the sample never fails, and its size is the
      floor of n * rate. */
  lemma SampleFitsForRateInUnitInterval(numCustomers: int, tamperingRate: real, order: seq<int>)
    requires 0 <= numCustomers && 0.0 <= tamperingRate <= 1.0
    requires IsPermutationOf(order, numCustomers)
    ensures SampleSize(numCustomers, tamperingRate) == (numCustomers as real * tamperingRate).Floor
    ensures TamperingCustomers(numCustomers, tamperingRate, order).Success?
  {
    var x := numCustomers as real * tamperingRate;
    assert 0.0 <= x <= numCustomers as real by {
      assert numCustomers as real * tamperingRate <= numCustomers as real * 1.0;
    }
  }

  // ----------------------------------------------------------------- table

  /** Row j (0-based month index) of customer c sits at index c * months + j. */
  lemma TableRow(ids: seq<string>, tampering: seq<string>, draws: Draws, months: nat, c: nat, j: nat)
    requires DrawShapes(ids, draws) && NullsShape(draws, months)
    requires c < |ids| && j < months
    ensures c * months + j < |Table(ids, tampering, draws)| == |ids| * months
    ensures Table(ids, tampering, draws)[c * months + j]
            == MonthRow(ids[c], draws.customers[c], ids[c] in tampering, j + 1, draws.tamperingNulls[c][j])
  {
    FlattenAt(Blocks(ids, tampering, draws), months, c, j);
  }

  lemma {:induction false} FlattenSplit(blocks: seq<seq<Row>>, width: nat, k: nat) returns (c: nat, j: nat)
    requires Uniform(blocks, width) && k < |Flatten(blocks)|
    ensures c < |blocks| && j < width && k == c * width + j
    ensures Flatten(blocks)[k] == blocks[c][j]
  {
    assert blocks != [];
    if k < |blocks[0]| {
      c, j := 0, k;
    } else {
      var c', j' := FlattenSplit(blocks[1..], width, k - width);
      c, j := c' + 1, j';
      assert (c' + 1) * width == c' * width + width;
    }
  }

  /** Every row of the table belongs to one customer and one month. */
  lemma TableRowSplit(ids: seq<string>, tampering: seq<string>, draws: Draws, months: nat, k: nat)
    returns (c: nat, j: nat)
    requires DrawShapes(ids, draws) && NullsShape(draws, months)
    requires k < |Table(ids, tampering, draws)|
    ensures c < |ids| && j < months && k == c * months + j
    ensures Table(ids, tampering, draws)[k]
            == MonthRow(ids[c], draws.customers[c], ids[c] in tampering, j + 1, draws.tamperingNulls[c][j])
  {
    c, j := FlattenSplit(Blocks(ids, tampering, draws), months, k);
  }

  /** The columns other than the readings, in the row for customer c and
      month `month`: customer_id and month from the loops, the customer's
      attributes from its draw, the customer label exactly when it is
      sampled and the month label exactly inside its window. */
  predicate RowLabelsAre(row: Row, c: nat, month: int, draw: CustomerDraw, isTampering: bool)
  {
    && row.customerId == CustomerId(c)
    && row.month == month
    && row.paymentHistory == draw.paymentHistory
    && row.customerCategory == draw.customerCategory
    && (row.isTamperingCustomer == 1 <==> isTampering)
    && (row.isTamperingMonth == 1 <==> InTamperingWindow(isTampering, draw.tamperStartMonth, draw.tamperDuration, month))
  }

  /** The generated row of customer c and month j + 1, column by column:
      customer_id and month from the loops, customer attributes from the
      customer's draw, the tampering-month label exactly when the customer
      is sampled and the month is inside [start, start + duration), and the
      two readings missing together, exactly in a tampering month whose 10%
      draw fired. */
  lemma TableRowColumns(n: nat, tampering: seq<string>, draws: Draws, months: nat, c: nat, j: nat)
    requires DrawShapes(CustomerIdList(n), draws) && NullsShape(draws, months)
    requires c < n && j < months
    ensures c * months + j < |Table(CustomerIdList(n), tampering, draws)| == n * months
    ensures var row := Table(CustomerIdList(n), tampering, draws)[c * months + j];
            var draw := draws.customers[c];
            var isTampering := CustomerId(c) in tampering;
            && RowLabelsAre(row, c, j + 1, draw, isTampering)
            && (row.consumptionKwh == Missing <==>
                  InTamperingWindow(isTampering, draw.tamperStartMonth, draw.tamperDuration, j + 1) && draws.tamperingNulls[c][j])
            && row.billedAmountNgn == row.consumptionKwh
  {
    TableRow(CustomerIdList(n), tampering, draws, months, c, j);
  }

  /** Before the background pass: consumption and billing are nulled
      together and only in tampering months, and a customer outside the
      sample has no tampering month. */
  lemma TableLabelInvariants(ids: seq<string>, tampering: seq<string>, draws: Draws, months: nat)
    requires DrawShapes(ids, draws) && NullsShape(draws, months)
    ensures var t := Table(ids, tampering, draws);
            forall k :: 0 <= k < |t| ==>
              && t[k].consumptionKwh == t[k].billedAmountNgn
              && (t[k].consumptionKwh == Missing ==> t[k].isTamperingMonth == 1)
              && (t[k].isTamperingCustomer == 0 ==> t[k].isTamperingMonth == 0)
  {
    var t := Table(ids, tampering, draws);
    forall k | 0 <= k < |t|
      ensures t[k].consumptionKwh == t[k].billedAmountNgn
      ensures t[k].consumptionKwh == Missing ==> t[k].isTamperingMonth == 1
      ensures t[k].isTamperingCustomer == 0 ==> t[k].isTamperingMonth == 0
    {
      var c, j := TableRowSplit(ids, tampering, draws, months, k);
    }
  }

  /** Payment history, category and the tampering-customer flag are the same
      on every row that carries the same customer ID. */
  lemma PerCustomerConstants(n: nat, tampering: seq<string>, draws: Draws, months: nat)
    requires DrawShapes(CustomerIdList(n), draws) && NullsShape(draws, months)
    ensures var t := Table(CustomerIdList(n), tampering, draws);
            forall k1, k2 :: 0 <= k1 < |t| && 0 <= k2 < |t| && t[k1].customerId == t[k2].customerId ==>
              && t[k1].paymentHistory == t[k2].paymentHistory
              && t[k1].customerCategory == t[k2].customerCategory
              && t[k1].isTamperingCustomer == t[k2].isTamperingCustomer
  {
    var ids := CustomerIdList(n);
    var t := Table(ids, tampering, draws);
    forall k1, k2 | 0 <= k1 < |t| && 0 <= k2 < |t| && t[k1].customerId == t[k2].customerId
      ensures t[k1].paymentHistory == t[k2].paymentHistory
      ensures t[k1].customerCategory == t[k2].customerCategory
      ensures t[k1].isTamperingCustomer == t[k2].isTamperingCustomer
    {
      var c1, j1 := TableRowSplit(ids, tampering, draws, months, k1);
      var c2, j2 := TableRowSplit(ids, tampering, draws, months, k2);
      CustomerIdInjective(c1, c2);
    }
  }

  lemma {:induction false} MulMonotone(a: nat, b: nat, width: nat)
    requires a <= b
    ensures a * width <= b * width
    decreases b - a
  {
    if a < b {
      MulMonotone(a + 1, b, width);
    }
  }

  lemma SplitOrder(c1: nat, j1: nat, c2: nat, j2: nat, width: nat)
    requires j1 < width && j2 < width
    requires c1 * width + j1 < c2 * width + j2
    ensures c1 < c2 || (c1 == c2 && j1 < j2)
  {
    if c1 > c2 {
      MulMonotone(c2 + 1, c1, width);
    }
  }

  /** No two generated rows share a (customer_id, month) key. */
  lemma TableKeysDistinct(n: nat, tampering: seq<string>, draws: Draws, months: nat)
    requires DrawShapes(CustomerIdList(n), draws) && NullsShape(draws, months)
    ensures KeysDistinct(Table(CustomerIdList(n), tampering, draws))
  {
    var ids := CustomerIdList(n);
    var t := Table(ids, tampering, draws);
    forall k1, k2 | 0 <= k1 < k2 < |t|
      ensures !SameKey(t[k1], t[k2])
    {
      var c1, j1 := TableRowSplit(ids, tampering, draws, months, k1);
      var c2, j2 := TableRowSplit(ids, tampering, draws, months, k2);
      SplitOrder(c1, j1, c2, j2, months);
      if SameKey(t[k1], t[k2]) {
        CustomerIdInjective(c1, c2);
      }
    }
  }

  /** Up to 100000 customers the rows come out of the loops already in
      (customer_id, month) order: customers in ID order, and each customer's
      months 1 .. num_months ascending, without gaps or repeats. */
  lemma TableAscending(n: nat, tampering: seq<string>, draws: Draws, months: nat)
    requires n <= 100000
    requires DrawShapes(CustomerIdList(n), draws) && NullsShape(draws, months)
    ensures StrictlyAscending(Table(CustomerIdList(n), tampering, draws))
  {
    var ids := CustomerIdList(n);
    var t := Table(ids, tampering, draws);
    forall k1, k2 | 0 <= k1 < k2 < |t|
      ensures KeyLess(t[k1], t[k2])
    {
      var c1, j1 := TableRowSplit(ids, tampering, draws, months, k1);
      var c2, j2 := TableRowSplit(ids, tampering, draws, months, k2);
      SplitOrder(c1, j1, c2, j2, months);
      if c1 < c2 {
        CustomerIdOrder(c1, c2);
      }
    }
  }

  /** Past 100000 customers the loop order is no longer the sorted order:
      the rows of CUST_100000 belong before those of CUST_99999. */
  lemma TableOutOfOrderPastPadding(n: nat, tampering: seq<string>, draws: Draws, months: nat)
    requires n > 100000 && months >= 1
    requires DrawShapes(CustomerIdList(n), draws) && NullsShape(draws, months)
    ensures !Sorted(Table(CustomerIdList(n), tampering, draws))
  {
    var ids := CustomerIdList(n);
    var t := Table(ids, tampering, draws);
    TableRow(ids, tampering, draws, months, 99999, 0);
    TableRow(ids, tampering, draws, months, 100000, 0);
    CustomerIdOrderPastPadding();
    assert 99999 * months < 100000 * months;
    assert KeyLess(t[100000 * months], t[99999 * months]);
  }

  // ------------------------------------------------------ tampering window

  function CountTamperingMonths(rows: seq<Row>): nat
  {
    if rows == [] then 0
    else CountTamperingMonths(rows[..|rows| - 1]) + rows[|rows| - 1].isTamperingMonth
  }

  /** How many of the months 1 .. k fall in [start, start + duration). */
  function MonthsInWindowUpTo(k: nat, start: int, duration: nat): nat
  {
    if k < start then 0
    else if k >= start + duration then duration
    else k - start + 1
  }

  lemma {:induction false} CountTamperingMonthsPrefix(id: string, draw: CustomerDraw, nulls: seq<bool>, k: nat)
    requires 1 <= draw.tamperStartMonth && 0 <= draw.tamperDuration
    requires k <= |nulls|
    ensures CountTamperingMonths(CustomerRows(id, draw, true, nulls)[..k])
            == MonthsInWindowUpTo(k, draw.tamperStartMonth, draw.tamperDuration)
  {
    var rows := CustomerRows(id, draw, true, nulls);
    if k > 0 {
      assert rows[..k][..k - 1] == rows[..k - 1];
      CountTamperingMonthsPrefix(id, draw, nulls, k - 1);
    }
  }

  /** The rows the loops emit for customer c. */
  function CustomerSlice(rows: seq<Row>, months: nat, c: nat): seq<Row>
    requires c * months + months <= |rows|
  {
    rows[c * months .. c * months + months]
  }

  lemma CustomerSliceFits(n: nat, months: nat, c: nat)
    requires c < n
    ensures c * months + months <= n * months
  {
    assert (c + 1) * months <= n * months;
  }

  /** Customer c's slice of the table is the block its inner loop emitted. */
  lemma TableSlice(ids: seq<string>, tampering: seq<string>, draws: Draws, months: nat, c: nat)
    requires DrawShapes(ids, draws) && NullsShape(draws, months)
    requires c < |ids|
    ensures c * months + months <= |Table(ids, tampering, draws)|
    ensures CustomerSlice(Table(ids, tampering, draws), months, c)
            == CustomerRows(ids[c], draws.customers[c], ids[c] in tampering, draws.tamperingNulls[c])
  {
    var blocks := Blocks(ids, tampering, draws);
    TableLength(ids, tampering, draws, months);
    CustomerSliceFits(|ids|, months, c);
    var block := CustomerSlice(Table(ids, tampering, draws), months, c);
    forall j | 0 <= j < months
      ensures block[j] == blocks[c][j]
    {
      FlattenAt(blocks, months, c, j);
    }
  }

  /** A tampering customer's rows carry the month label exactly inside the
      window, and as many labels as the window has months up to the last. */
  lemma TamperingCustomerRows(id: string, draw: CustomerDraw, nulls: seq<bool>)
    requires 1 <= draw.tamperStartMonth && 0 <= draw.tamperDuration
    ensures var rows := CustomerRows(id, draw, true, nulls);
            var d, s := draw.tamperDuration, draw.tamperStartMonth;
            && (forall j :: 0 <= j < |rows| ==> (rows[j].isTamperingMonth == 1 <==> s <= j + 1 < s + d))
            && CountTamperingMonths(rows) == MonthsInWindowUpTo(|nulls|, s, d)
  {
    var rows := CustomerRows(id, draw, true, nulls);
    CountTamperingMonthsPrefix(id, draw, nulls, |nulls|);
    assert rows[..|nulls|] == rows;
  }

  /** A sampled customer of a run whose checks pass draws a duration in [2, 5] and
      a start month of at least 3 whose window ends before the last month;
      its rows carry the tampering-month label on exactly the months
      [start, start + duration), that is on `duration` consecutive months. */
  lemma TamperingWindow(numCustomers: int, numMonths: int, tamperingRate: real, draws: Draws, c: nat)
    requires DrawsFit(numCustomers, numMonths, draws)
    requires ChecksPass(numCustomers, numMonths, tamperingRate, draws)
    requires c < RangeLength(numCustomers)
    requires CustomerId(c) in Sampled(numCustomers, numMonths, tamperingRate, draws)
    ensures c * RangeLength(numMonths) + RangeLength(numMonths) <= |GeneratedRows(numCustomers, numMonths, tamperingRate, draws)|
    ensures var d, s := draws.customers[c].tamperDuration, draws.customers[c].tamperStartMonth;
            var block := CustomerSlice(GeneratedRows(numCustomers, numMonths, tamperingRate, draws), RangeLength(numMonths), c);
            && 2 <= d <= 5 && 3 <= s && s + d <= numMonths
            && (forall j :: 0 <= j < |block| ==> (block[j].isTamperingMonth == 1 <==> s <= j + 1 < s + d))
            && CountTamperingMonths(block) == d
  {
    var n, months := RangeLength(numCustomers), RangeLength(numMonths);
    var ids := CustomerIdList(n);
    var tampering := Sampled(numCustomers, numMonths, tamperingRate, draws);
    var draw := draws.customers[c];
    assert GeneratedRows(numCustomers, numMonths, tamperingRate, draws) == Table(ids, tampering, draws);
    assert CustomerDrawFits(draw, numMonths);
    assert ids[c] in tampering && StartRangeNonEmpty(numMonths, draw.tamperDuration);
    TableSlice(ids, tampering, draws, months, c);
    TamperingCustomerRows(ids[c], draw, draws.tamperingNulls[c]);
  }

  /** A run fails on the start-month draw exactly when some sampled customer
      has fewer than duration + 3 months to place its window in. */
  lemma WindowsFitNeedsMonths(ids: seq<string>, tampering: seq<string>, numMonths: int, draws: Draws)
    requires DrawShapes(ids, draws)
    ensures WindowsFit(ids, tampering, numMonths, draws) <==>
            forall c :: 0 <= c < |ids| && ids[c] in tampering ==> numMonths >= draws.customers[c].tamperDuration + 3
  {
  }

  // ------------------------------------------------------- background pass

  /** The background pass changes nothing but the masked columns, and those
      only on rows outside a tampering month; the row count is unchanged. */
  lemma BackgroundPass(rows: seq<Row>, consumptionMask: seq<bool>, billedMask: seq<bool>)
    requires |consumptionMask| == |rows| && |billedMask| == |rows|
    ensures var out := BackgroundNulled(rows, consumptionMask, billedMask);
            && |out| == |rows|
            && (forall k :: 0 <= k < |rows| && rows[k].isTamperingMonth == 1 ==> out[k] == rows[k])
            && (forall k :: 0 <= k < |rows| ==>
                  out[k].(consumptionKwh := rows[k].consumptionKwh, billedAmountNgn := rows[k].billedAmountNgn) == rows[k])
            && (forall k :: 0 <= k < |rows| ==>
                  (out[k].consumptionKwh == Missing <==>
                     rows[k].consumptionKwh == Missing || (consumptionMask[k] && rows[k].isTamperingMonth == 0)))
            && (forall k :: 0 <= k < |rows| ==>
                  (out[k].billedAmountNgn == Missing <==>
                     rows[k].billedAmountNgn == Missing || (billedMask[k] && rows[k].isTamperingMonth == 0)))
  {
  }

  /** The background pass at one row. */
  lemma BackgroundPassAt(rows: seq<Row>, consumptionMask: seq<bool>, billedMask: seq<bool>, k: nat)
    requires |consumptionMask| == |rows| && |billedMask| == |rows| && k < |rows|
    ensures var out := BackgroundNulled(rows, consumptionMask, billedMask);
            var plain := rows[k].isTamperingMonth == 0;
            && |out| == |rows|
            && out[k] == rows[k].(consumptionKwh := if consumptionMask[k] && plain then Missing else rows[k].consumptionKwh,
                                  billedAmountNgn := if billedMask[k] && plain then Missing else rows[k].billedAmountNgn)
  {
  }

  lemma BackgroundKeepsKeys(rows: seq<Row>, consumptionMask: seq<bool>, billedMask: seq<bool>)
    requires |consumptionMask| == |rows| && |billedMask| == |rows|
    ensures StrictlyAscending(rows) ==> StrictlyAscending(BackgroundNulled(rows, consumptionMask, billedMask))
    ensures KeysDistinct(rows) ==> KeysDistinct(BackgroundNulled(rows, consumptionMask, billedMask))
  {
    BackgroundPass(rows, consumptionMask, billedMask);
  }

  // ------------------------------------------------------------ whole run

  /** The run fails exactly when numpy rejects the sample size, when a
      sampled customer leaves randint no start month to draw, or when the
      loops emit no rows, so that `df['is_tampering_month']` finds no column;
      otherwise it returns the final table. */
  lemma SyntheticDataOutcome(numCustomers: int, numMonths: int, tamperingRate: real, draws: Draws)
    requires DrawsFit(numCustomers, numMonths, draws)
    ensures var n, m := RangeLength(numCustomers), RangeLength(numMonths);
            var size := SampleSize(numCustomers, tamperingRate);
            var r := SyntheticData(numCustomers, numMonths, tamperingRate, draws);
            && (size < 0 || size > n ==> r.Failure? && r.error != EmptyStartMonthRange && r.error != MissingColumn)
            && (r.Success? <==> ChecksPass(numCustomers, numMonths, tamperingRate, draws) && n > 0 && m > 0)
            && (r.Success? ==> r.value == FinalTable(numCustomers, numMonths, tamperingRate, draws))
            && (0 <= size <= n ==>
                  (r == Failure(EmptyStartMonthRange) <==>
                     exists c :: 0 <= c < n && CustomerId(c) in TamperingCustomers(numCustomers, tamperingRate, draws.tamperingOrder).value &&
                                 numMonths < draws.customers[c].tamperDuration + 3))
            && (ChecksPass(numCustomers, numMonths, tamperingRate, draws) ==>
                  (r.Failure? <==> n == 0 || m == 0) && (r.Failure? ==> r.error == MissingColumn))
  {
    var n := RangeLength(numCustomers);
    TamperingSample(numCustomers, tamperingRate, draws.tamperingOrder);
    var chosen := TamperingCustomers(numCustomers, tamperingRate, draws.tamperingOrder);
    if chosen.Success? {
      var ids := CustomerIdList(n);
      WindowsFitNeedsMonths(ids, chosen.value, numMonths, draws);
    }
  }

  /** With no customers the sample is empty, so the only failure left is the
      `KeyError` of the column-less frame. */
  lemma NoCustomersRaisesKeyError(numMonths: int, tamperingRate: real)
    ensures DrawsFit(0, numMonths, Draws([], [], [], [], []))
    ensures SyntheticData(0, numMonths, tamperingRate, Draws([], [], [], [], [])) == Failure(MissingColumn)
  {
    var draws := Draws([], [], [], [], []);
    assert SampleSize(0, tamperingRate) == 0;
    assert TamperingCustomers(0, tamperingRate, draws.tamperingOrder) == Success([]);
  }

  /** With a negative month count a sampled customer has no start month to
      draw, so the run fails on `randint` before any row exists. */
  lemma NegativeMonthsRaiseStartMonthError()
    ensures DrawsFit(1, -1, Draws([0], [CustomerDraw(OnTime, Residential, 2, 3)], [[]], [], []))
    ensures SyntheticData(1, -1, 1.0, Draws([0], [CustomerDraw(OnTime, Residential, 2, 3)], [[]], [], []))
            == Failure(EmptyStartMonthRange)
  {
    var draws := Draws([0], [CustomerDraw(OnTime, Residential, 2, 3)], [[]], [], []);
    var ids := CustomerIdList(1);
    assert SampleSize(1, 1.0) == 1;
    var chosen := TamperingCustomers(1, 1.0, draws.tamperingOrder);
    assert chosen.Success? && |chosen.value| == 1;
    assert chosen.value[0] == ids[draws.tamperingOrder[0]] == ids[0];
    assert ids[0] in chosen.value && !StartRangeNonEmpty(-1, draws.customers[0].tamperDuration);
    assert !WindowsFit(ids, chosen.value, -1, draws);
  }

  /** When the checks pass, the final table has num_customers * num_months rows, sorted by
      (customer_id, month), with distinct keys, and is a permutation of the
      generated rows after the background pass. As the keys are distinct,
      every sorted permutation of those rows is this table, whatever sorting
      algorithm produced it. */
  lemma FinalTableSorted(numCustomers: int, numMonths: int, tamperingRate: real, draws: Draws, other: seq<Row>)
    requires DrawsFit(numCustomers, numMonths, draws)
    requires ChecksPass(numCustomers, numMonths, tamperingRate, draws)
    ensures var out := FinalTable(numCustomers, numMonths, tamperingRate, draws);
            var rows := GeneratedRows(numCustomers, numMonths, tamperingRate, draws);
            var nulled := BackgroundNulled(rows, draws.consumptionMask, draws.billedMask);
            && |out| == RangeLength(numCustomers) * RangeLength(numMonths)
            && Sorted(out)
            && KeysDistinct(out)
            && multiset(out) == multiset(nulled)
            && (Sorted(other) && multiset(other) == multiset(nulled) ==> other == out)
  {
    var n, months := RangeLength(numCustomers), RangeLength(numMonths);
    var tampering := Sampled(numCustomers, numMonths, tamperingRate, draws);
    var rows := GeneratedRows(numCustomers, numMonths, tamperingRate, draws);
    assert rows == Table(CustomerIdList(n), tampering, draws);
    var nulled := BackgroundNulled(rows, draws.consumptionMask, draws.billedMask);
    var out := SortByKey(nulled);
    SortByKeySorted(nulled);
    TableKeysDistinct(n, tampering, draws, months);
    BackgroundKeepsKeys(rows, draws.consumptionMask, draws.billedMask);
    SortByKeyKeysDistinct(nulled);
    if Sorted(other) && multiset(other) == multiset(nulled) {
      SortedPermutationsAgree(out, other);
    }
  }

  /** Up to 100000 customers the final sort leaves the generated order as it
      is: the output is the loops' rows after the background pass. */
  lemma FinalTableInGeneratedOrder(numCustomers: int, numMonths: int, tamperingRate: real, draws: Draws)
    requires DrawsFit(numCustomers, numMonths, draws)
    requires ChecksPass(numCustomers, numMonths, tamperingRate, draws)
    requires numCustomers <= 100000
    ensures FinalTable(numCustomers, numMonths, tamperingRate, draws)
            == BackgroundNulled(GeneratedRows(numCustomers, numMonths, tamperingRate, draws),
                                draws.consumptionMask, draws.billedMask)
  {
    var n, months := RangeLength(numCustomers), RangeLength(numMonths);
    var tampering := Sampled(numCustomers, numMonths, tamperingRate, draws);
    var rows := GeneratedRows(numCustomers, numMonths, tamperingRate, draws);
    assert rows == Table(CustomerIdList(n), tampering, draws);
    TableAscending(n, tampering, draws, months);
    BackgroundKeepsKeys(rows, draws.consumptionMask, draws.billedMask);
    SortByKeyKeepsAscending(BackgroundNulled(rows, draws.consumptionMask, draws.billedMask));
  }

  /** Past 100000 customers the final sort does move rows. */
  lemma FinalTableReorderedPastPadding(numCustomers: int, numMonths: int, tamperingRate: real, draws: Draws)
    requires DrawsFit(numCustomers, numMonths, draws)
    requires ChecksPass(numCustomers, numMonths, tamperingRate, draws)
    requires numCustomers > 100000 && numMonths >= 1
    ensures FinalTable(numCustomers, numMonths, tamperingRate, draws)
            != BackgroundNulled(GeneratedRows(numCustomers, numMonths, tamperingRate, draws),
                                draws.consumptionMask, draws.billedMask)
  {
    var n, months := RangeLength(numCustomers), RangeLength(numMonths);
    var tampering := Sampled(numCustomers, numMonths, tamperingRate, draws);
    var rows := GeneratedRows(numCustomers, numMonths, tamperingRate, draws);
    assert rows == Table(CustomerIdList(n), tampering, draws);
    var nulled := BackgroundNulled(rows, draws.consumptionMask, draws.billedMask);
    TableOutOfOrderPastPadding(n, tampering, draws, months);
    BackgroundPass(rows, draws.consumptionMask, draws.billedMask);
    SortByKeySorted(nulled);
    var i, j :| 0 <= i < j < |rows| && KeyLess(rows[j], rows[i]);
    assert KeyLess(nulled[j], nulled[i]);
  }

  /** The columns of the row for customer c and month `month` once both
      nulling steps have run: customer_id and month from the loops, the
      customer's attributes from its draw, the tampering-month label exactly
      inside the window, the 10% tampering draw nulling both readings of a
      tampering month, and each background mask nulling its own reading only
      outside tampering months. */
  predicate GeneratedRowIs(row: Row, c: nat, month: int, draw: CustomerDraw, isTampering: bool,
                           tamperingNull: bool, consumptionMasked: bool, billedMasked: bool)
  {
    var inWindow := InTamperingWindow(isTampering, draw.tamperStartMonth, draw.tamperDuration, month);
    && RowLabelsAre(row, c, month, draw, isTampering)
    && (row.consumptionKwh == Missing <==> if inWindow then tamperingNull else consumptionMasked)
    && (row.billedAmountNgn == Missing <==> if inWindow then tamperingNull else billedMasked)
  }

  /** After the background pass, row c * months + j is customer c's month j + 1. */
  lemma NulledRowColumns(n: nat, tampering: seq<string>, draws: Draws, months: nat, c: nat, j: nat)
    requires DrawShapes(CustomerIdList(n), draws) && NullsShape(draws, months)
    requires |draws.consumptionMask| == n * months && |draws.billedMask| == n * months
    requires c < n && j < months
    ensures c * months + j < n * months == |Table(CustomerIdList(n), tampering, draws)|
    ensures var k := c * months + j;
            GeneratedRowIs(BackgroundNulled(Table(CustomerIdList(n), tampering, draws), draws.consumptionMask, draws.billedMask)[k],
                           c, j + 1, draws.customers[c], CustomerId(c) in tampering,
                           draws.tamperingNulls[c][j], draws.consumptionMask[k], draws.billedMask[k])
  {
    var t := Table(CustomerIdList(n), tampering, draws);
    TableRowColumns(n, tampering, draws, months, c, j);
    BackgroundPassAt(t, draws.consumptionMask, draws.billedMask, c * months + j);
  }

  /** Up to 100000 customers, row k = c * num_months + j of the final table
      is customer c's month j + 1, column by column. */
  lemma FinalTableRow(numCustomers: int, numMonths: int, tamperingRate: real, draws: Draws, c: nat, j: nat, k: nat)
    requires DrawsFit(numCustomers, numMonths, draws)
    requires ChecksPass(numCustomers, numMonths, tamperingRate, draws)
    requires numCustomers <= 100000
    requires c < RangeLength(numCustomers) && j < RangeLength(numMonths)
    requires k == c * RangeLength(numMonths) + j
    ensures k < |draws.consumptionMask| && k < |FinalTable(numCustomers, numMonths, tamperingRate, draws)|
    ensures GeneratedRowIs(FinalTable(numCustomers, numMonths, tamperingRate, draws)[k],
                           c, j + 1, draws.customers[c], CustomerId(c) in Sampled(numCustomers, numMonths, tamperingRate, draws),
                           draws.tamperingNulls[c][j], draws.consumptionMask[k], draws.billedMask[k])
  {
    var n, months := RangeLength(numCustomers), RangeLength(numMonths);
    var tampering := Sampled(numCustomers, numMonths, tamperingRate, draws);
    var rows := GeneratedRows(numCustomers, numMonths, tamperingRate, draws);
    assert rows == Table(CustomerIdList(n), tampering, draws);
    FinalTableInGeneratedOrder(numCustomers, numMonths, tamperingRate, draws);
    NulledRowColumns(n, tampering, draws, months, c, j);
  }
}
