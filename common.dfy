/** The helpers the two reports share: spreadsheet column letters and the
    per-name cell-address functions built from them, and the spreadsheet cell
    that the renderers emit. */
module Common {
  import opened Wrappers
  import opened Text

  /** `cols`: the spreadsheet column letters, "A" to "Z" in order. */
  const COLS: seq<string> := ["A", "B", "C", "D", "E", "F", "G", "H", "I", "J", "K", "L", "M",
                              "N", "O", "P", "Q", "R", "S", "T", "U", "V", "W", "X", "Y", "Z"]

  /** The k-th column is the k-th capital letter. */
  lemma ColsInOrder()
    ensures |COLS| == 26
    ensures forall k :: 0 <= k < |COLS| ==> COLS[k] == [('A' as int + k) as char]
  {
    assert COLS == seq(26, k requires 0 <= k < 26 => [('A' as int + k) as char]);
  }

  /** What a spreadsheet cell holds: text, an integer, the numeric value behind a
      port label (carried by its label), or a point in time (seconds since the epoch). */
  datatype CellValue = StringValue(s: string) | IntValue(n: int) | PortValue(port: string) | TimeValue(seconds: int)

  /** The text a cell value reads as: an integer in decimal, a time through the
      local-time formatter `localTime`, anything else as its label. */
  function CellText(v: CellValue, localTime: int -> string): (t: string)
    ensures v.IntValue? ==> ParseDecimal(t) == Some(v.n)
    ensures v.TimeValue? ==> t == localTime(v.seconds)
    ensures v.StringValue? ==> t == v.s
    ensures v.PortValue? ==> t == v.port
  {
    match v
    case StringValue(s) => s
    case IntValue(n) => DecimalRoundTrip(n); IntToDecimal(n)
    case PortValue(p) => p
    case TimeValue(t) => localTime(t)
  }

  /** One `SetCellValue` call: an address such as "B7" and the value put there. */
  datatype Cell = Cell(address: string, value: CellValue)

  /** Appending cells in two steps is appending them in one. */
  lemma AppendAssociative(a: seq<Cell>, b: seq<Cell>, c: seq<Cell>)
    ensures (a + b) + c == a + (b + c)
  {
  }

  /** The address of `row` in column `col`: the letter followed by the row number. */
  function Address(col: string, row: int): string {
    col + IntToDecimal(row)
  }

  /** Every column and row has its own address: cells in different columns or
      different rows are never addressed alike. */
  lemma AddressesDistinct(k1: nat, r1: int, k2: nat, r2: int)
    requires k1 < |COLS| && k2 < |COLS|
    requires k1 != k2 || r1 != r2
    ensures Address(COLS[k1], r1) != Address(COLS[k2], r2)
  {
    var a1, a2 := Address(COLS[k1], r1), Address(COLS[k2], r2);
    if a1 == a2 {
      ColsInOrder();
      assert a1[0] == COLS[k1][0] && a2[0] == COLS[k2][0];
      assert a1[1..] == IntToDecimal(r1) && a2[1..] == IntToDecimal(r2);
      DecimalInjective(r1, r2);
    }
  }

  /** The column letter `getColumns` binds to each name. The names are inserted in
      order, so a name that occurs twice keeps the letter of its last position. */
  function ColumnLetters(names: seq<string>): (letters: map<string, string>)
    requires |names| <= |COLS|
    ensures forall n :: n in letters <==> n in names
  {
    if names == [] then map[]
    else ColumnLetters(names[..|names| - 1])[names[|names| - 1] := COLS[|names| - 1]]
  }

  /** A name whose last position is `k` gets the k-th letter. */
  lemma {:induction false} ColumnLettersAt(names: seq<string>, k: nat)
    requires |names| <= |COLS| && k < |names|
    requires names[k] !in names[k + 1..]
    ensures names[k] in ColumnLetters(names) && ColumnLetters(names)[names[k]] == COLS[k]
  {
    var last := |names| - 1;
    if k < last {
      assert names[last] in names[k + 1..];
      var init := names[..last];
      assert init[k + 1..] == names[k + 1..last];
      ColumnLettersAt(init, k);
    }
  }

  /** With distinct names, distinct positions get distinct letters. */
  lemma ColumnLettersDistinct(names: seq<string>, i: nat, j: nat)
    requires |names| <= |COLS| && i < j < |names|
    requires forall a, b :: 0 <= a < b < |names| ==> names[a] != names[b]
    ensures ColumnLetters(names)[names[i]] != ColumnLetters(names)[names[j]]
  {
    assert names[i] !in names[i + 1..];
    assert names[j] !in names[j + 1..];
    ColsInOrder();
    ColumnLettersAt(names, i);
    ColumnLettersAt(names, j);
  }

  /** `index[name]` addresses the k-th column. */
  ghost predicate ColumnAt(index: map<string, int -> string>, name: string, k: nat)
    requires k < |COLS|
  {
    name in index && forall row :: index[name](row) == Address(COLS[k], row)
  }

  /** `getColumns`: for every name, the function from a row number to that name's
      cell address. The source indexes the 26-entry `cols` array by position, so
      more than 26 names is an index-out-of-range fault; callers pass at most 26. */
  method GetColumns(names: seq<string>) returns (index: map<string, int -> string>)
    requires |names| <= |COLS|
    ensures forall n :: n in index <==> n in names
    ensures forall n, row :: n in index ==> index[n](row) == Address(ColumnLetters(names)[n], row)
    ensures forall k :: 0 <= k < |names| && names[k] !in names[k + 1..] ==> ColumnAt(index, names[k], k)
  {
    index := map[];
    var k := 0;
    while k < |names|
      invariant 0 <= k <= |names|
      invariant index.Keys == ColumnLetters(names[..k]).Keys
      invariant forall n, row :: n in index ==> index[n](row) == Address(ColumnLetters(names[..k])[n], row)
    {
      var col := COLS[k];
      index := index[names[k] := row => col + IntToDecimal(row)];
      assert names[..k + 1][..k] == names[..k];
      k := k + 1;
    }
    assert names[..k] == names;
    forall k | 0 <= k < |names| && names[k] !in names[k + 1..]
      ensures ColumnLetters(names)[names[k]] == COLS[k]
    {
      ColumnLettersAt(names, k);
    }
  }

  /** The names of the source's own unit test. */
  const SAMPLE_NAMES: seq<string> := ["MAC", "IP", "Hostname", "Name", "Network", "Switch", "Port", "AP"]

  /** The source's unit test: the first name's cell in row 1 is "A1". */
  lemma SampleFirstColumn()
    ensures "MAC" in ColumnLetters(SAMPLE_NAMES)
    ensures Address(ColumnLetters(SAMPLE_NAMES)["MAC"], 1) == "A1"
  {
    assert "MAC" !in SAMPLE_NAMES[1..];
    ColumnLettersAt(SAMPLE_NAMES, 0);
    assert IntToDecimal(1) == "1";
  }
}
