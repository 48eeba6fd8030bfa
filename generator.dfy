/**
 * `generate_and_save_synthetic_data` (app.py:8-64), with every random draw
 * supplied by the caller in a Draws value and the numeric readings reduced
 * to present-or-missing. The functions state what the generator computes;
 * the methods follow the source's loops and in-place updates and are proved
 * to compute exactly that.
 */
module Generator {
  import opened Wrappers
  import opened CustomerIds
  import opened Records
  import opened RowOrder

  /** The ValueErrors numpy raises for the inputs the generator passes it. */
  datatype Error =
    | EmptyPopulation             // choice: 'a' cannot be empty unless no samples are taken
    | SampleLargerThanPopulation  // choice: cannot take a larger sample than population when replace=False
    | NegativeSampleSize          // choice: negative dimensions are not allowed
    | EmptyStartMonthRange        // randint(3, high) with high <= 3: low >= high
    | MissingColumn               // df['is_tampering_month'] on the column-less DataFrame([]): KeyError

  /** What numpy draws once per customer (app.py:22-23, 27-28). The two
      tampering draws are only consulted for a tampering customer. */
  datatype CustomerDraw = CustomerDraw(
    paymentHistory: PaymentHistory,
    customerCategory: CustomerCategory,
    tamperDuration: int,
    tamperStartMonth: int)

  /** Every random draw of one run. */
  datatype Draws = Draws(
    tamperingOrder: seq<int>,          // the permutation choice(replace=False) takes its sample from
    customers: seq<CustomerDraw>,      // one per customer
    tamperingNulls: seq<seq<bool>>,    // per customer and month: rand() < 0.1
    consumptionMask: seq<bool>,        // per row: rand(len(df)) < 0.005 for consumption_kwh
    billedMask: seq<bool>)             // per row: the same for billed_amount_ngn

  /** The length of `range(bound)`. */
  function RangeLength(bound: int): nat
  {
    if bound < 0 then 0 else bound
  }

  predicate Distinct<T(==)>(s: seq<T>)
  {
    forall i, j :: 0 <= i < j < |s| ==> s[i] != s[j]
  }

  predicate IsPermutationOf(order: seq<int>, n: nat)
  {
    && |order| == n
    && (forall k :: 0 <= k < n ==> 0 <= order[k] < n)
    && Distinct(order)
  }

  /** The draws lie where numpy puts them: `randint(2, 6)` gives 2..5, and
      `randint(3, high)` gives 3..high-1 whenever that range is not empty. */
  predicate CustomerDrawFits(draw: CustomerDraw, numMonths: int)
  {
    && 2 <= draw.tamperDuration <= 5
    && (StartRangeNonEmpty(numMonths, draw.tamperDuration) ==>
          3 <= draw.tamperStartMonth <= numMonths - draw.tamperDuration)
  }

  /** Every customer has one tampering-null draw per month. */
  predicate NullsShape(draws: Draws, months: nat)
  {
    forall c :: 0 <= c < |draws.tamperingNulls| ==> |draws.tamperingNulls[c]| == months
  }

  /** The draws of one run have the shapes numpy gives them. */
  predicate DrawsFit(numCustomers: int, numMonths: int, draws: Draws)
  {
    var n, m := RangeLength(numCustomers), RangeLength(numMonths);
    && IsPermutationOf(draws.tamperingOrder, n)
    && |draws.customers| == n
    && (forall c :: 0 <= c < n ==> CustomerDrawFits(draws.customers[c], numMonths))
    && |draws.tamperingNulls| == n
    && NullsShape(draws, m)
    && |draws.consumptionMask| == n * m
    && |draws.billedMask| == n * m
  }

  /** `[f'CUST_{i:05d}' for i in range(n)]` (app.py:10). */
  function CustomerIdList(n: nat): seq<string>
  {
    seq(n, (i: nat) => CustomerId(i))
  }

  /** Python's `int(x)` on a float: truncation toward zero. */
  function Trunc(x: real): (t: int)
    ensures 0.0 <= x ==> 0 <= t && t as real <= x < t as real + 1.0
    ensures x < 0.0 ==> t <= 0 && t as real - 1.0 < x <= t as real
  {
    if x >= 0.0 then x.Floor else -((-x).Floor)
  }

  /** The tampering sample size `int(num_customers * tampering_rate)` (app.py:14). */
  function SampleSize(numCustomers: int, tamperingRate: real): int
  {
    Trunc(numCustomers as real * tamperingRate)
  }

  /** `np.random.choice(population, size, replace=False)`: numpy checks the size,
      then takes the first `size` entries of a random permutation (app.py:12-16). */
  function ChooseWithoutReplacement(population: seq<string>, size: int, order: seq<int>): (r: Result<seq<string>, Error>)
    requires IsPermutationOf(order, |population|)
    ensures r.Failure? <==> size < 0 || size > |population|
    ensures r.Failure? ==> r.error == (if |population| == 0 then EmptyPopulation
                                       else if size < 0 then NegativeSampleSize
                                       else SampleLargerThanPopulation)
    ensures r.Success? ==> |r.value| == size
    ensures r.Success? ==> forall x :: x in r.value ==> x in population
    ensures r.Success? && Distinct(population) ==> Distinct(r.value)
  {
    if |population| == 0 && size != 0 then Failure(EmptyPopulation)
    else if size > |population| then Failure(SampleLargerThanPopulation)
    else if size < 0 then Failure(NegativeSampleSize)
    else
      var sample := seq(size, k requires 0 <= k < size => population[order[k]]);
      assert forall x :: x in sample ==> x in population by {
        forall x | x in sample ensures x in population {
          var k :| 0 <= k < size && sample[k] == x;
          assert population[order[k]] == x;
        }
      }
      Success(sample)
  }

  /** The tampering customers of a run (app.py:10-16). */
  function TamperingCustomers(numCustomers: int, tamperingRate: real, order: seq<int>): Result<seq<string>, Error>
    requires IsPermutationOf(order, RangeLength(numCustomers))
  {
    ChooseWithoutReplacement(CustomerIdList(RangeLength(numCustomers)), SampleSize(numCustomers, tamperingRate), order)
  }

  /** `randint(3, num_months - tamper_duration + 1)` has something to draw from (app.py:28). */
  predicate StartRangeNonEmpty(numMonths: int, tamperDuration: int)
  {
    3 < numMonths - tamperDuration + 1
  }

  /** The condition of app.py:35. */
  predicate InTamperingWindow(isTampering: bool, tamperStartMonth: int, tamperDuration: int, month: int)
  {
    isTampering && month >= tamperStartMonth && month < tamperStartMonth + tamperDuration
  }

  /** The duration and start month the source sets (0 and -1 for a customer outside the sample). */
  function TamperDuration(draw: CustomerDraw, isTampering: bool): int
  {
    if isTampering then draw.tamperDuration else 0
  }

  function TamperStartMonth(draw: CustomerDraw, isTampering: bool): int
  {
    if isTampering then draw.tamperStartMonth else -1
  }

  /** The row one inner-loop iteration appends (app.py:31-53). */
  function MonthRow(customerId: string, draw: CustomerDraw, isTampering: bool, month: int, nullDraw: bool): Row
  {
    var inWindow := InTamperingWindow(isTampering, TamperStartMonth(draw, isTampering), TamperDuration(draw, isTampering), month);
    var reading := if inWindow && nullDraw then Missing else Present;
    Row(customerId, month, reading, reading, draw.paymentHistory, draw.customerCategory,
        if inWindow then 1 else 0, if isTampering then 1 else 0)
  }

  /** The rows the inner loop emits for one customer: months 1 .. |nulls|. */
  function CustomerRows(customerId: string, draw: CustomerDraw, isTampering: bool, nulls: seq<bool>): seq<Row>
  {
    seq(|nulls|, j requires 0 <= j < |nulls| => MonthRow(customerId, draw, isTampering, j + 1, nulls[j]))
  }

  predicate DrawShapes(ids: seq<string>, draws: Draws)
  {
    |draws.customers| == |ids| && |draws.tamperingNulls| == |ids|
  }

  /** One block of rows per customer, in the order of the ID list. */
  function Blocks(ids: seq<string>, tampering: seq<string>, draws: Draws): seq<seq<Row>>
    requires DrawShapes(ids, draws)
  {
    seq(|ids|, c requires 0 <= c < |ids| =>
      CustomerRows(ids[c], draws.customers[c], ids[c] in tampering, draws.tamperingNulls[c]))
  }

  function Flatten(blocks: seq<seq<Row>>): seq<Row>
  {
    if blocks == [] then [] else blocks[0] + Flatten(blocks[1..])
  }

  /** The list `data` once both loops have run to the end (app.py:18-53). */
  function Table(ids: seq<string>, tampering: seq<string>, draws: Draws): seq<Row>
    requires DrawShapes(ids, draws)
  {
    Flatten(Blocks(ids, tampering, draws))
  }

  /** No tampering customer hits an empty `randint` range for its start month. */
  predicate WindowsFit(ids: seq<string>, tampering: seq<string>, numMonths: int, draws: Draws)
    requires DrawShapes(ids, draws)
  {
    forall c :: 0 <= c < |ids| ==>
      (ids[c] in tampering ==> StartRangeNonEmpty(numMonths, draws.customers[c].tamperDuration))
  }

  /** What the row-emission loops produce: the table, or the ValueError of
      the first tampering customer whose start-month range is empty. */
  function Rows(ids: seq<string>, tampering: seq<string>, numMonths: int, draws: Draws): Result<seq<Row>, Error>
    requires DrawShapes(ids, draws)
  {
    if WindowsFit(ids, tampering, numMonths, draws) then Success(Table(ids, tampering, draws))
    else Failure(EmptyStartMonthRange)
  }

  datatype Column = ConsumptionKwh | BilledAmountNgn

  function WithMissing(row: Row, col: Column): Row
  {
    match col
    case ConsumptionKwh => row.(consumptionKwh := Missing)
    case BilledAmountNgn => row.(billedAmountNgn := Missing)
  }

  /** `df.loc[mask & (df['is_tampering_month'] == 0), col] = np.nan` (app.py:59). */
  function NullColumnWhere(rows: seq<Row>, col: Column, mask: seq<bool>): seq<Row>
    requires |mask| == |rows|
  {
    seq(|rows|, k requires 0 <= k < |rows| =>
      if mask[k] && rows[k].isTamperingMonth == 0 then WithMissing(rows[k], col) else rows[k])
  }

  /** The background pass over both numeric columns (app.py:57-59). */
  function BackgroundNulled(rows: seq<Row>, consumptionMask: seq<bool>, billedMask: seq<bool>): seq<Row>
    requires |consumptionMask| == |rows| && |billedMask| == |rows|
  {
    NullColumnWhere(NullColumnWhere(rows, ConsumptionKwh, consumptionMask), BilledAmountNgn, billedMask)
  }

  /** The checks numpy makes pass: it accepts the sample size, and every
      sampled customer has a start month to draw. */
  predicate ChecksPass(numCustomers: int, numMonths: int, tamperingRate: real, draws: Draws)
    requires DrawsFit(numCustomers, numMonths, draws)
  {
    var chosen := TamperingCustomers(numCustomers, tamperingRate, draws.tamperingOrder);
    chosen.Success? && WindowsFit(CustomerIdList(RangeLength(numCustomers)), chosen.value, numMonths, draws)
  }

  /** The tampering customers of a run whose checks pass. */
  function Sampled(numCustomers: int, numMonths: int, tamperingRate: real, draws: Draws): seq<string>
    requires DrawsFit(numCustomers, numMonths, draws)
    requires ChecksPass(numCustomers, numMonths, tamperingRate, draws)
  {
    TamperingCustomers(numCustomers, tamperingRate, draws.tamperingOrder).value
  }

  /** The rows the loops emit in a run whose checks pass. */
  function GeneratedRows(numCustomers: int, numMonths: int, tamperingRate: real, draws: Draws): (rows: seq<Row>)
    requires DrawsFit(numCustomers, numMonths, draws)
    requires ChecksPass(numCustomers, numMonths, tamperingRate, draws)
    ensures |rows| == RangeLength(numCustomers) * RangeLength(numMonths)
  {
    var ids := CustomerIdList(RangeLength(numCustomers));
    var tampering := Sampled(numCustomers, numMonths, tamperingRate, draws);
    TableLength(ids, tampering, draws, RangeLength(numMonths));
    Table(ids, tampering, draws)
  }

  /** The table of a run whose checks pass, after the background pass and the sort. */
  function FinalTable(numCustomers: int, numMonths: int, tamperingRate: real, draws: Draws): seq<Row>
    requires DrawsFit(numCustomers, numMonths, draws)
    requires ChecksPass(numCustomers, numMonths, tamperingRate, draws)
  {
    SortByKey(BackgroundNulled(GeneratedRows(numCustomers, numMonths, tamperingRate, draws),
                               draws.consumptionMask, draws.billedMask))
  }

  /** The table the whole run produces (app.py:8-61), or the error it raises. */
  function SyntheticData(numCustomers: int, numMonths: int, tamperingRate: real, draws: Draws): Result<seq<Row>, Error>
    requires DrawsFit(numCustomers, numMonths, draws)
  {
    var chosen := TamperingCustomers(numCustomers, tamperingRate, draws.tamperingOrder);
    if chosen.Failure? then Failure(chosen.error)
    else if !ChecksPass(numCustomers, numMonths, tamperingRate, draws) then Failure(EmptyStartMonthRange)
    else if RangeLength(numCustomers) == 0 || RangeLength(numMonths) == 0 then Failure(MissingColumn)
    else Success(FinalTable(numCustomers, numMonths, tamperingRate, draws))
  }

  lemma {:induction false} FlattenSnoc(blocks: seq<seq<Row>>, b: seq<Row>)
    ensures Flatten(blocks + [b]) == Flatten(blocks) + b
  {
    if blocks == [] {
      assert blocks + [b] == [b];
    } else {
      assert (blocks + [b])[1..] == blocks[1..] + [b];
      FlattenSnoc(blocks[1..], b);
    }
  }

  predicate Uniform(blocks: seq<seq<Row>>, width: nat)
  {
    forall c :: 0 <= c < |blocks| ==> |blocks[c]| == width
  }

  lemma {:induction false} FlattenLength(blocks: seq<seq<Row>>, width: nat)
    requires Uniform(blocks, width)
    ensures |Flatten(blocks)| == |blocks| * width
  {
    if blocks != [] {
      FlattenLength(blocks[1..], width);
    }
  }

  /** Row j of block c sits at index c * width + j of the flattened table. */
  lemma {:induction false} FlattenAt(blocks: seq<seq<Row>>, width: nat, c: nat, j: nat)
    requires Uniform(blocks, width) && c < |blocks| && j < width
    ensures c * width + j < |Flatten(blocks)| == |blocks| * width
    ensures Flatten(blocks)[c * width + j] == blocks[c][j]
  {
    FlattenLength(blocks, width);
    if c > 0 {
      FlattenAt(blocks[1..], width, c - 1, j);
      assert c * width + j == width + ((c - 1) * width + j);
    }
  }

  lemma TableLength(ids: seq<string>, tampering: seq<string>, draws: Draws, months: nat)
    requires DrawShapes(ids, draws)
    requires NullsShape(draws, months)
    ensures |Table(ids, tampering, draws)| == |ids| * months
  {
    FlattenLength(Blocks(ids, tampering, draws), months);
  }

  /** The inner loop of app.py:30-53 for one customer: appends its rows for
      months 1 .. num_months to `data`. */
  method EmitCustomerRows(data: seq<Row>, custId: string, draw: CustomerDraw, isTamperingCustomer: bool,
                          tamperStartMonth: int, tamperDuration: int, nulls: seq<bool>, numMonths: int)
    returns (out: seq<Row>)
    requires tamperStartMonth == TamperStartMonth(draw, isTamperingCustomer)
    requires tamperDuration == TamperDuration(draw, isTamperingCustomer)
    requires |nulls| == RangeLength(numMonths)
    ensures out == data + CustomerRows(custId, draw, isTamperingCustomer, nulls)
  {
    ghost var block := CustomerRows(custId, draw, isTamperingCustomer, nulls);
    out := data;
    var month := 1;
    while month <= numMonths
      invariant 1 <= month <= RangeLength(numMonths) + 1
      invariant out == data + block[..month - 1]
    {
      var consumption := Present;
      var billedAmount := Present;
      var isTamperingMonth: Flag := 0;
      if isTamperingCustomer && month >= tamperStartMonth && month < tamperStartMonth + tamperDuration {
        if nulls[month - 1] {
          consumption := Missing;
          billedAmount := Missing;
        }
        isTamperingMonth := 1;
      }
      var row := Row(custId, month, consumption, billedAmount, draw.paymentHistory,
                     draw.customerCategory, isTamperingMonth, if isTamperingCustomer then 1 else 0);
      assert row == block[month - 1];
      assert block[..month] == block[..month - 1] + [row];
      out := out + [row];
      month := month + 1;
    }
    assert block[..month - 1] == block;
  }

  /** The nested loops of app.py:18-53. */
  method BuildRows(ids: seq<string>, tampering: seq<string>, numMonths: int, draws: Draws)
    returns (r: Result<seq<Row>, Error>)
    requires DrawShapes(ids, draws)
    requires NullsShape(draws, RangeLength(numMonths))
    ensures r == Rows(ids, tampering, numMonths, draws)
  {
    ghost var blocks := Blocks(ids, tampering, draws);
    var data: seq<Row> := [];
    var c := 0;
    while c < |ids|
      invariant 0 <= c <= |ids|
      invariant forall c' :: 0 <= c' < c ==>
        (ids[c'] in tampering ==> StartRangeNonEmpty(numMonths, draws.customers[c'].tamperDuration))
      invariant data == Flatten(blocks[..c])
    {
      var custId := ids[c];
      var draw := draws.customers[c];
      var isTamperingCustomer := custId in tampering;
      var tamperDuration := if isTamperingCustomer then draw.tamperDuration else 0;
      if isTamperingCustomer && !StartRangeNonEmpty(numMonths, tamperDuration) {
        return Failure(EmptyStartMonthRange);
      }
      var tamperStartMonth := if isTamperingCustomer then draw.tamperStartMonth else -1;
      data := EmitCustomerRows(data, custId, draw, isTamperingCustomer, tamperStartMonth, tamperDuration,
                               draws.tamperingNulls[c], numMonths);
      assert blocks[..c + 1] == blocks[..c] + [blocks[c]];
      FlattenSnoc(blocks[..c], blocks[c]);
      c := c + 1;
    }
    assert blocks[..c] == blocks;
    return Success(data);
  }

  /** One iteration of the `for col` loop of app.py:57-59, applied in place. */
  method NullColumn(df: array<Row>, col: Column, mask: seq<bool>)
    requires |mask| == df.Length
    modifies df
    ensures df[..] == NullColumnWhere(old(df[..]), col, mask)
  {
    var k := 0;
    while k < df.Length
      invariant 0 <= k <= df.Length
      invariant forall i :: 0 <= i < k ==>
        df[i] == (if mask[i] && old(df[i]).isTamperingMonth == 0 then WithMissing(old(df[i]), col) else old(df[i]))
      invariant forall i :: k <= i < df.Length ==> df[i] == old(df[i])
    {
      if mask[k] && df[k].isTamperingMonth == 0 {
        df[k] := WithMissing(df[k], col);
      }
      k := k + 1;
    }
  }

  method ApplyBackgroundNulls(df: array<Row>, consumptionMask: seq<bool>, billedMask: seq<bool>)
    requires |consumptionMask| == df.Length && |billedMask| == df.Length
    modifies df
    ensures df[..] == BackgroundNulled(old(df[..]), consumptionMask, billedMask)
  {
    NullColumn(df, ConsumptionKwh, consumptionMask);
    NullColumn(df, BilledAmountNgn, billedMask);
  }

  /** The whole generator, file output aside (app.py:8-61). */
  method GenerateSyntheticData(numCustomers: int, numMonths: int, tamperingRate: real, draws: Draws)
    returns (r: Result<seq<Row>, Error>)
    requires DrawsFit(numCustomers, numMonths, draws)
    ensures r == SyntheticData(numCustomers, numMonths, tamperingRate, draws)
  {
    var customerIds := CustomerIdList(RangeLength(numCustomers));
    var chosen := ChooseWithoutReplacement(customerIds, SampleSize(numCustomers, tamperingRate), draws.tamperingOrder);
    if chosen.Failure? {
      return Failure(chosen.error);
    }
    var tamperingCustomers := chosen.value;
    var data := BuildRows(customerIds, tamperingCustomers, numMonths, draws);
    if data.Failure? {
      return Failure(data.error);
    }
    var rows := data.value;
    TableLength(customerIds, tamperingCustomers, draws, RangeLength(numMonths));
    if |rows| == 0 {
      // pd.DataFrame([]) has no columns, so the mask of app.py:59 raises KeyError
      return Failure(MissingColumn);
    }
    var df := new Row[|rows|](k requires 0 <= k < |rows| => rows[k]);
    assert df[..] == rows;
    ApplyBackgroundNulls(df, draws.consumptionMask, draws.billedMask);
    return Success(SortByKey(df[..]));
  }
}
