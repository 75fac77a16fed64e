/**
 * The result-set helpers of the data viewer: the column list, the default chart
 * columns, and the group-by-and-sum aggregation behind the chart.
 */
module Table {
  import opened Wrappers
  import opened Strings

  /** A scalar value of a result row as the JSON response delivers it. */
  datatype Cell = Null | Num(n: int) | Text(s: string) | Flag(b: bool)

  /** A result row: its keys in `Object.keys` order, each with its value. */
  type Row = seq<(string, Cell)>

  /** `Object.keys(r)`. */
  function Keys(r: Row): (ks: seq<string>)
    ensures |ks| == |r|
    ensures forall i :: 0 <= i < |r| ==> ks[i] == r[i].0
  {
    seq(|r|, i requires 0 <= i < |r| => r[i].0)
  }

  /** `r[k]`, where `None` stands for `undefined`. */
  function Lookup(r: Row, k: string): Option<Cell> {
    if r == [] then None
    else if r[0].0 == k then Some(r[0].1)
    else Lookup(r[1..], k)
  }

  /** A value is found exactly when the key is among the row's keys, and it is the value of the first entry with that key. */
  lemma {:induction false} LookupFindsKey(r: Row, k: string)
    ensures Lookup(r, k).None? <==> k !in Keys(r)
    ensures Lookup(r, k).Some? ==>
      exists i :: 0 <= i < |r| && r[i] == (k, Lookup(r, k).value) && (forall j :: 0 <= j < i ==> r[j].0 != k)
  {
    if r != [] {
      assert Keys(r) == [r[0].0] + Keys(r[1..]);
      if r[0].0 == k {
        assert r[0] == (k, Lookup(r, k).value);
      } else {
        LookupFindsKey(r[1..], k);
        if Lookup(r, k).Some? {
          var i :| 0 <= i < |r[1..]| && r[1..][i] == (k, Lookup(r, k).value) && (forall j :: 0 <= j < i ==> r[1..][j].0 != k);
          assert r[i + 1] == (k, Lookup(r, k).value);
          forall j | 0 <= j < i + 1 ensures r[j].0 != k {
            if j > 0 { assert r[j] == r[1..][j - 1]; }
          }
        }
      }
    }
  }

  /**
   * `String(v)` of a present value: `null` and the booleans by their names, a number
   * by its decimal digits, a string as itself.
   */
  function CellString(c: Cell): (t: string)
    ensures c.Null? ==> t == "null"
    ensures c.Flag? ==> t == (if c.b then "true" else "false")
    ensures c.Num? ==> t == IntToString(c.n) && t != [] && (c.n >= 0 <==> t[0] != '-')
    ensures c.Text? ==> t == c.s
  {
    match c
    case Null => "null"
    case Num(n) => IntToString(n)
    case Text(s) => s
    case Flag(b) => if b then "true" else "false"
  }

  /** `typeof v === 'number'`: the value is present and a number. */
  predicate IsNumber(v: Option<Cell>): (b: bool)
    ensures b <==> v.Some? && v.value.Num?
  {
    v.Some? && v.value.Num?
  }

  /** A value of type number survives `Number(String(v))`. */
  lemma NumberReadsBack(v: Option<Cell>)
    requires IsNumber(v)
    ensures TextNumber(CellString(v.value)) == v.value.n
  {
    TextNumberOfIntToString(v.value.n);
  }

  /** `Object.keys(rows[0])`, or no columns when there are no rows. */
  function Columns(rows: seq<Row>): (cols: seq<string>)
    ensures rows == [] ==> cols == []
    ensures rows != [] ==> |cols| == |rows[0]| && forall i :: 0 <= i < |cols| ==> cols[i] == rows[0][i].0
  {
    if rows == [] then [] else Keys(rows[0])
  }

  /** The initial category column `columns[0] || null`: an empty column name counts as none. */
  function InitialX(cols: seq<string>): (x: Option<string>)
    ensures x.Some? <==> cols != [] && cols[0] != ""
    ensures x.Some? ==> x.value == cols[0] && IsTruthy(x)
  {
    if cols != [] && cols[0] != "" then Some(cols[0]) else None
  }

  /** The position of the first column whose first-row value is a number (`columns.find`). */
  function FirstNumericColumn(rows: seq<Row>, cols: seq<string>): (k: Option<nat>)
    ensures k.Some? ==> rows != [] && k.value < |cols| && IsNumber(Lookup(rows[0], cols[k.value]))
    ensures k.Some? ==> forall j :: 0 <= j < k.value ==> !IsNumber(Lookup(rows[0], cols[j]))
    ensures k.None? ==> forall j :: 0 <= j < |cols| ==> rows == [] || !IsNumber(Lookup(rows[0], cols[j]))
  {
    if rows == [] || cols == [] then None
    else if IsNumber(Lookup(rows[0], cols[0])) then Some(0)
    else match FirstNumericColumn(rows, cols[1..])
      case None => None
      case Some(k) => Some(k + 1)
  }

  /**
   * The initial value column: the first column whose first-row value is a number,
   * or none when there is no such column or its name is empty.
   */
  function InitialY(rows: seq<Row>, cols: seq<string>): (y: Option<string>)
    ensures y.Some? ==> IsTruthy(y) && y.value in cols && rows != [] && IsNumber(Lookup(rows[0], y.value))
    ensures y.Some? ==> FirstNumericColumn(rows, cols).Some? && y.value == cols[FirstNumericColumn(rows, cols).value]
    ensures y.None? ==> FirstNumericColumn(rows, cols).None? || cols[FirstNumericColumn(rows, cols).value] == ""
    ensures y.None? ==> forall j :: 0 <= j < |cols| && cols[j] != "" && rows != [] && IsNumber(Lookup(rows[0], cols[j]))
                          ==> exists i :: 0 <= i < j && IsNumber(Lookup(rows[0], cols[i]))
  {
    match FirstNumericColumn(rows, cols)
    case None => None
    case Some(k) => if cols[k] == "" then None else Some(cols[k])
  }

  /** The category of a row: `String(r[x])`, or "N/A" when the value is null or undefined. */
  function CategoryKey(r: Row, x: string): (k: string)
    ensures Lookup(r, x).None? || Lookup(r, x) == Some(Null) ==> k == "N/A"
    ensures Lookup(r, x).Some? && !Lookup(r, x).value.Null? ==> k == CellString(Lookup(r, x).value)
  {
    match Lookup(r, x)
    case None => "N/A"
    case Some(Null) => "N/A"
    case Some(c) => CellString(c)
  }

  /** Text that is ASCII digits, or a sign followed by at least one of them. */
  predicate IntegerText(t: string) {
    AllDigits(t) || (|t| > 1 && (t[0] == '-' || t[0] == '+') && AllDigits(t[1..]))
  }

  /**
   * `Number(s)` for text: after trimming, an optional sign and ASCII digits give their
   * value and the empty text gives 0; other text is treated as not a number (0 here).
   */
  function TextNumber(s: string): (n: int)
    ensures Trim(s) == [] ==> n == 0
    ensures Trim(s) != [] && !IntegerText(Trim(s)) ==> n == 0
    ensures AllDigits(Trim(s)) ==> n == DigitsValue(Trim(s))
    ensures |Trim(s)| > 1 && Trim(s)[0] == '-' && AllDigits(Trim(s)[1..]) ==> n == -(DigitsValue(Trim(s)[1..]) as int)
    ensures |Trim(s)| > 1 && Trim(s)[0] == '+' && AllDigits(Trim(s)[1..]) ==> n == DigitsValue(Trim(s)[1..])
  {
    var t := Trim(s);
    if t == [] then 0
    else if (t[0] == '-' || t[0] == '+') && |t| > 1 && AllDigits(t[1..]) then
      (if t[0] == '-' then -(DigitsValue(t[1..]) as int) else DigitsValue(t[1..]))
    else if AllDigits(t) then DigitsValue(t)
    else 0
  }

  /** Text that neither starts nor ends with whitespace is its own trimmed form. */
  lemma TrimKeepsSolidText(t: string)
    requires t != [] && !IsWhitespace(t[0]) && !IsWhitespace(t[|t| - 1])
    ensures Trim(t) == t
  {
    assert TrimStart(t) == t;
    assert TrimEnd(t) == t;
  }

  /** Reading back the rendering of an integer gives the integer: `Number(String(n)) == n`. */
  lemma TextNumberOfIntToString(n: int)
    ensures TextNumber(IntToString(n)) == n
  {
    var t := IntToString(n);
    var d := NatToString(if n < 0 then -n else n);
    assert IsDigit(d[0]) && IsDigit(d[|d| - 1]);
    TrimKeepsSolidText(t);
    if n < 0 {
      assert t[1..] == d;
    } else {
      assert t == d;
    }
  }

  /** What a row adds to its category: `Number(r[y]) || 0`. */
  function Contribution(r: Row, y: string): (c: int)
    ensures IsNumber(Lookup(r, y)) ==> c == Lookup(r, y).value.n
    ensures Lookup(r, y).None? || Lookup(r, y) == Some(Null) ==> c == 0
    ensures Lookup(r, y) == Some(Flag(true)) ==> c == 1
    ensures Lookup(r, y) == Some(Flag(false)) ==> c == 0
    ensures Lookup(r, y).Some? && Lookup(r, y).value.Text? ==> c == TextNumber(Lookup(r, y).value.s)
  {
    match Lookup(r, y)
    case None => 0
    case Some(Null) => 0
    case Some(Num(n)) => n
    case Some(Flag(b)) => if b then 1 else 0
    case Some(Text(s)) => TextNumber(s)
  }

  /**
   * A number's category label reads back as that number: the x axis shows `String(n)`
   * and `Number` of that label is `n` again.
   */
  lemma CategoryOfNumberReadsBack(r: Row, x: string)
    requires IsNumber(Lookup(r, x))
    ensures TextNumber(CategoryKey(r, x)) == Lookup(r, x).value.n
  {
    TextNumberOfIntToString(Lookup(r, x).value.n);
  }

  // ---------------------------------------------------------------------------
  // Group by and sum
  // ---------------------------------------------------------------------------

  /** What one row brings to the chart: its category and its contribution. */
  type Entry = (string, int)

  /** The entry of every row, in order. */
  function Entries(rows: seq<Row>, x: string, y: string): seq<Entry> {
    seq(|rows|, i requires 0 <= i < |rows| => (CategoryKey(rows[i], x), Contribution(rows[i], y)))
  }

  /** `map[key] = (map[key] || 0) + v`. */
  function Bump(m: map<string, int>, key: string, v: int): map<string, int> {
    m[key := (if key in m then m[key] else 0) + v]
  }

  /** The map the `forEach` loop builds from a list of entries, taken left to right. */
  function Tally(es: seq<Entry>): map<string, int>
    decreases |es|
  {
    if es == [] then map[]
    else Bump(Tally(es[..|es| - 1]), es[|es| - 1].0, es[|es| - 1].1)
  }

  /** The aggregation the chart shows: each category mapped to the summed contribution of its rows. */
  function GroupSum(rows: seq<Row>, x: string, y: string): map<string, int> {
    Tally(Entries(rows, x, y))
  }

  /** One more entry updates its own key and nothing else. */
  lemma {:induction false} TallySnoc(es: seq<Entry>, e: Entry)
    ensures Tally(es + [e]) == Bump(Tally(es), e.0, e.1)
  {
    var s := es + [e];
    assert s[..|s| - 1] == es;
  }

  /** One more row updates its own category and nothing else. */
  lemma {:induction false} GroupSumSnoc(rows: seq<Row>, r: Row, x: string, y: string)
    ensures GroupSum(rows + [r], x, y) == Bump(GroupSum(rows, x, y), CategoryKey(r, x), Contribution(r, y))
  {
    var e := (CategoryKey(r, x), Contribution(r, y));
    assert Entries(rows + [r], x, y) == Entries(rows, x, y) + [e];
    TallySnoc(Entries(rows, x, y), e);
  }

  /** The keys of a list of entries. */
  function EntryKeys(es: seq<Entry>): set<string> {
    set i | 0 <= i < |es| :: es[i].0
  }

  /** The keys of the tally are exactly the keys of the entries. */
  lemma {:induction false} TallyKeys(es: seq<Entry>)
    ensures Tally(es).Keys == EntryKeys(es)
    decreases |es|
  {
    if es != [] {
      var init := es[..|es| - 1];
      TallyKeys(init);
      forall k | k in EntryKeys(es) ensures k in EntryKeys(init) + {es[|es| - 1].0} {
        var i :| 0 <= i < |es| && k == es[i].0;
        if i < |init| { assert es[i] == init[i]; }
      }
      forall k | k in EntryKeys(init) ensures k in EntryKeys(es) {
        var i :| 0 <= i < |init| && k == init[i].0;
        assert init[i] == es[i];
      }
    }
  }

  /** The categories of the rows. */
  function Categories(rows: seq<Row>, x: string): set<string> {
    set i | 0 <= i < |rows| :: CategoryKey(rows[i], x)
  }

  /** Each category of some row appears in the aggregation, and nothing else does. */
  lemma GroupSumKeys(rows: seq<Row>, x: string, y: string)
    ensures GroupSum(rows, x, y).Keys == Categories(rows, x)
  {
    var es := Entries(rows, x, y);
    TallyKeys(es);
    forall k | k in EntryKeys(es) ensures k in Categories(rows, x) {
      var i :| 0 <= i < |es| && k == es[i].0;
    }
    forall k | k in Categories(rows, x) ensures k in EntryKeys(es) {
      var i :| 0 <= i < |rows| && k == CategoryKey(rows[i], x);
      assert es[i].0 == k;
    }
  }

  /** The summed value of the entries with one key. */
  function EntrySum(es: seq<Entry>, key: string): int
    decreases |es|
  {
    if es == [] then 0
    else EntrySum(es[..|es| - 1], key) + (if es[|es| - 1].0 == key then es[|es| - 1].1 else 0)
  }

  /** Each key of the tally holds the summed value of the entries with that key. */
  lemma {:induction false} TallyValue(es: seq<Entry>, key: string)
    requires key in Tally(es)
    ensures Tally(es)[key] == EntrySum(es, key)
    decreases |es|
  {
    var init := es[..|es| - 1];
    if key in Tally(init) {
      TallyValue(init, key);
    } else {
      EntrySumAbsent(init, key);
    }
  }

  /** A key missing from the tally has no entries with a value. */
  lemma {:induction false} EntrySumAbsent(es: seq<Entry>, key: string)
    requires key !in Tally(es)
    ensures EntrySum(es, key) == 0
    decreases |es|
  {
    if es != [] {
      EntrySumAbsent(es[..|es| - 1], key);
    }
  }

  /** The total contribution of the rows in one category. */
  function CategorySum(rows: seq<Row>, x: string, y: string, key: string): int
    decreases |rows|
  {
    if rows == [] then 0
    else
      var r := rows[|rows| - 1];
      CategorySum(rows[..|rows| - 1], x, y, key) + (if CategoryKey(r, x) == key then Contribution(r, y) else 0)
  }

  /** The per-row and the per-entry definitions of a category's sum agree. */
  lemma {:induction false} CategorySumOfEntries(rows: seq<Row>, x: string, y: string, key: string)
    ensures EntrySum(Entries(rows, x, y), key) == CategorySum(rows, x, y, key)
    decreases |rows|
  {
    if rows != [] {
      CategorySumOfEntries(rows[..|rows| - 1], x, y, key);
      assert Entries(rows[..|rows| - 1], x, y) == Entries(rows, x, y)[..|rows| - 1];
    }
  }

  /** Each category's value is the sum of the contributions of exactly the rows in that category. */
  lemma GroupSumValue(rows: seq<Row>, x: string, y: string, key: string)
    requires key in GroupSum(rows, x, y)
    ensures GroupSum(rows, x, y)[key] == CategorySum(rows, x, y, key)
  {
    TallyValue(Entries(rows, x, y), key);
    CategorySumOfEntries(rows, x, y, key);
  }

  /** A category no row falls in sums to nothing. */
  lemma CategorySumAbsent(rows: seq<Row>, x: string, y: string, key: string)
    requires key !in GroupSum(rows, x, y)
    ensures CategorySum(rows, x, y, key) == 0
  {
    EntrySumAbsent(Entries(rows, x, y), key);
    CategorySumOfEntries(rows, x, y, key);
  }

  /** The sum of all values of a map. */
  ghost function MapSum(m: map<string, int>): int
    decreases |m|
  {
    if m == map[] then 0
    else
      var k :| k in m;
      m[k] + MapSum(m - {k})
  }

  /** The sum of a map does not depend on which key is taken first. */
  lemma {:induction false} MapSumRemove(m: map<string, int>, k: string)
    requires k in m
    ensures MapSum(m) == m[k] + MapSum(m - {k})
    decreases |m|
  {
    var j :| j in m && MapSum(m) == m[j] + MapSum(m - {j});
    if j != k {
      MapSumRemove(m - {j}, k);
      MapSumRemove(m - {k}, j);
      assert (m - {j}) - {k} == (m - {k}) - {j};
    }
  }

  /** Updating one key changes the sum by the difference at that key. */
  lemma MapSumUpdate(m: map<string, int>, k: string, v: int)
    ensures MapSum(m[k := v]) == MapSum(m) - (if k in m then m[k] else 0) + v
  {
    MapSumRemove(m[k := v], k);
    assert m[k := v] - {k} == m - {k};
    if k in m {
      MapSumRemove(m, k);
    } else {
      assert m - {k} == m;
    }
  }

  /** The summed value of all entries. */
  function EntryTotal(es: seq<Entry>): int
    decreases |es|
  {
    if es == [] then 0 else EntryTotal(es[..|es| - 1]) + es[|es| - 1].1
  }

  /** The tally's values add up to the total value of the entries. */
  lemma {:induction false} TallyConserves(es: seq<Entry>)
    ensures MapSum(Tally(es)) == EntryTotal(es)
    decreases |es|
  {
    if es != [] {
      var init := es[..|es| - 1];
      var m := Tally(init);
      var e := es[|es| - 1];
      TallyConserves(init);
      MapSumUpdate(m, e.0, (if e.0 in m then m[e.0] else 0) + e.1);
    }
  }

  /** The summed contribution of all rows. */
  function TotalContribution(rows: seq<Row>, y: string): int
    decreases |rows|
  {
    if rows == [] then 0 else TotalContribution(rows[..|rows| - 1], y) + Contribution(rows[|rows| - 1], y)
  }

  /** The per-row and the per-entry totals agree. */
  lemma {:induction false} TotalOfEntries(rows: seq<Row>, x: string, y: string)
    ensures EntryTotal(Entries(rows, x, y)) == TotalContribution(rows, y)
    decreases |rows|
  {
    if rows != [] {
      TotalOfEntries(rows[..|rows| - 1], x, y);
      assert Entries(rows[..|rows| - 1], x, y) == Entries(rows, x, y)[..|rows| - 1];
    }
  }

  /** Conservation: the chart's values add up to the total contribution of all rows. */
  lemma GroupSumConserves(rows: seq<Row>, x: string, y: string)
    ensures MapSum(GroupSum(rows, x, y)) == TotalContribution(rows, y)
  {
    TallyConserves(Entries(rows, x, y));
    TotalOfEntries(rows, x, y);
  }

  /** `chartData`: nothing unless both columns are set (truthy), otherwise the aggregation. */
  function ChartDataOf(rows: seq<Row>, x: Option<string>, y: Option<string>): (data: map<string, int>)
    ensures !IsTruthy(x) || !IsTruthy(y) ==> data == map[]
  {
    if IsTruthy(x) && IsTruthy(y) then GroupSum(rows, x.value, y.value) else map[]
  }

  /** The chart is drawn when both columns are set and the chart data is not empty. */
  predicate ChartShown(x: Option<string>, y: Option<string>, data: map<string, int>) {
    IsTruthy(x) && IsTruthy(y) && |data| > 0
  }

  /** So a chart appears exactly when both columns are set and there is at least one row. */
  lemma ChartShownIff(rows: seq<Row>, x: Option<string>, y: Option<string>)
    ensures ChartShown(x, y, ChartDataOf(rows, x, y)) <==> IsTruthy(x) && IsTruthy(y) && rows != []
  {
    if IsTruthy(x) && IsTruthy(y) {
      GroupSumKeys(rows, x.value, y.value);
      if rows != [] {
        assert CategoryKey(rows[0], x.value) in GroupSum(rows, x.value, y.value);
      }
    }
  }

  /** The `forEach` loop that fills the chart map, one row at a time. */
  method Aggregate(rows: seq<Row>, x: string, y: string) returns (m: map<string, int>)
    ensures m == GroupSum(rows, x, y)
  {
    ghost var es := Entries(rows, x, y);
    m := map[];
    var i := 0;
    while i < |rows|
      invariant 0 <= i <= |rows|
      invariant m == Tally(es[..i])
    {
      var key := CategoryKey(rows[i], x);
      var v := Contribution(rows[i], y);
      assert es[i] == (key, v);
      assert es[..i + 1] == es[..i] + [(key, v)];
      TallySnoc(es[..i], (key, v));
      m := Bump(m, key, v);
      i := i + 1;
    }
    assert es[..i] == es;
  }

  /** `chartData` as the component computes it. */
  method ChartData(rows: seq<Row>, x: Option<string>, y: Option<string>) returns (data: map<string, int>)
    ensures data == ChartDataOf(rows, x, y)
    ensures IsTruthy(x) && IsTruthy(y) ==> data.Keys == Categories(rows, x.value)
  {
    if !IsTruthy(x) || !IsTruthy(y) {
      return map[];
    }
    data := Aggregate(rows, x.value, y.value);
    GroupSumKeys(rows, x.value, y.value);
  }
}
