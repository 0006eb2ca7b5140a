/** Models of the few Go library string routines the report code relies on:
    `fmt.Sprintf("%d", n)`, `filepath.Ext`, the `<` operator on strings, and the
    tab-terminated cells that `text/tabwriter` splits a line into. */
module Text {
  import opened Wrappers

  predicate IsDigit(c: char) {
    '0' <= c <= '9'
  }

  /** The decimal digit character for `d`. */
  function Digit(d: nat): (c: char)
    requires d < 10
    ensures IsDigit(c) && c as int - '0' as int == d
  {
    "0123456789"[d]
  }

  predicate AllDigits(s: string) {
    forall i :: 0 <= i < |s| ==> IsDigit(s[i])
  }

  /** `%d` of a non-negative integer: its shortest decimal numeral. */
  function NatToDecimal(n: nat): (s: string)
    ensures |s| >= 1 && AllDigits(s)
    ensures s[0] == '0' ==> n == 0
    decreases n
  {
    if n < 10 then [Digit(n)] else NatToDecimal(n / 10) + [Digit(n % 10)]
  }

  /** `%d` of any integer: a minus sign before negative numbers, no padding. */
  function IntToDecimal(i: int): (s: string)
    ensures |s| >= 1
    ensures i < 0 <==> s[0] == '-'
  {
    if i < 0 then "-" + NatToDecimal(-i) else NatToDecimal(i)
  }

  /** The value of a numeral, read digit by digit from the left. */
  function NumeralValue(s: string): nat
    requires AllDigits(s)
  {
    if s == [] then 0
    else NumeralValue(s[..|s| - 1]) * 10 + (s[|s| - 1] as int - '0' as int)
  }

  /** Reads back what `%d` writes: an optional minus sign and at least one digit. */
  function ParseDecimal(s: string): Option<int> {
    if |s| >= 2 && s[0] == '-' && AllDigits(s[1..]) then Option<int>.Some(0 - NumeralValue(s[1..]))
    else if |s| >= 1 && AllDigits(s) then Option<int>.Some(NumeralValue(s))
    else None
  }

  lemma {:induction false} NatToDecimalValue(n: nat)
    ensures NumeralValue(NatToDecimal(n)) == n
    decreases n
  {
    if n >= 10 {
      var prefix := NatToDecimal(n / 10);
      var s := prefix + [Digit(n % 10)];
      assert s[..|s| - 1] == prefix;
      NatToDecimalValue(n / 10);
    }
  }

  /** `%d` loses nothing: its output parses back to the number written. */
  lemma DecimalRoundTrip(i: int)
    ensures ParseDecimal(IntToDecimal(i)) == Some(i)
  {
    if i < 0 {
      var n: nat := -i;
      NegativeRoundTrip(n);
      assert IntToDecimal(i) == "-" + NatToDecimal(n);
    } else {
      NonNegativeRoundTrip(i);
      assert IntToDecimal(i) == NatToDecimal(i);
    }
  }

  lemma NegativeRoundTrip(n: nat)
    requires n > 0
    ensures ParseDecimal("-" + NatToDecimal(n)) == Some(0 - n)
  {
    var digits := NatToDecimal(n);
    var s := "-" + digits;
    assert s[1..] == digits;
    NatToDecimalValue(n);
  }

  lemma NonNegativeRoundTrip(n: nat)
    ensures ParseDecimal(NatToDecimal(n)) == Some(n)
  {
    var s := NatToDecimal(n);
    assert IsDigit(s[0]) && s[0] != '-';
    NatToDecimalValue(n);
  }

  /** Distinct numbers are written differently (so distinct rows get distinct cell addresses). */
  lemma DecimalInjective(i: int, j: int)
    requires IntToDecimal(i) == IntToDecimal(j)
    ensures i == j
  {
    DecimalRoundTrip(i);
    DecimalRoundTrip(j);
  }

  /** `filepath.Ext` on a '/'-separated path: the suffix that starts at the last
      '.' of the final path element, or "" when that element has no '.'. */
  function Ext(path: string): (e: string)
    ensures |e| <= |path| && e == path[|path| - |e|..]
    ensures e != "" ==> e[0] == '.' && forall i :: 0 < i < |e| ==> e[i] != '.' && e[i] != '/'
    ensures e == "" ==> forall i :: 0 <= i < |path| && path[i] == '.' ==> '/' in path[i + 1..]
  {
    if path == [] || path[|path| - 1] == '/' then ""
    else if path[|path| - 1] == '.' then "."
    else
      var e := Ext(path[..|path| - 1]);
      if e == "" then "" else e + [path[|path| - 1]]
  }

  /** A name ending in a dot followed by neither dots nor slashes has exactly that
      ending as its extension. */
  lemma {:induction false} ExtOfName(base: string, ext: string)
    requires |ext| >= 1 && ext[0] == '.'
    requires forall i :: 0 < i < |ext| ==> ext[i] != '.' && ext[i] != '/'
    ensures Ext(base + ext) == ext
  {
    var path := base + ext;
    if |ext| > 1 {
      var init := ext[..|ext| - 1];
      assert path[..|path| - 1] == base + init;
      ExtOfName(base, init);
      assert ext == init + [ext[|ext| - 1]];
    }
  }

  /** Go's `<` on strings: lexicographic order on characters. Go compares UTF-8 bytes,
      and byte order of UTF-8 agrees with the order of the code points it encodes. */
  predicate Less(a: string, b: string)
    decreases |a|
  {
    if b == [] then false
    else if a == [] then true
    else if a[0] != b[0] then a[0] < b[0]
    else Less(a[1..], b[1..])
  }

  lemma {:induction false} LessIrreflexive(a: string)
    ensures !Less(a, a)
    decreases |a|
  {
    if a != [] {
      LessIrreflexive(a[1..]);
    }
  }

  lemma {:induction false} LessTransitive(a: string, b: string, c: string)
    requires Less(a, b) && Less(b, c)
    ensures Less(a, c)
    decreases |a|
  {
    if a != [] && a[0] == b[0] && b[0] == c[0] {
      LessTransitive(a[1..], b[1..], c[1..]);
    }
  }

  lemma {:induction false} LessTotal(a: string, b: string)
    ensures a == b || Less(a, b) || Less(b, a)
    decreases |a|
  {
    if a != [] && b != [] && a[0] == b[0] {
      LessTotal(a[1..], b[1..]);
      if a[1..] == b[1..] {
        assert a == [a[0]] + a[1..] && b == [b[0]] + b[1..];
      }
    }
  }

  /** "Not after" is transitive: what a stable sort by `Less` relies on. */
  lemma NotLessTransitive(a: string, b: string, c: string)
    requires !Less(b, a) && !Less(c, b)
    ensures !Less(c, a)
  {
    LessTotal(a, b);
    LessTotal(b, c);
    if Less(c, a) {
      if a == b {
        assert false;
      } else if b == c {
        assert false;
      } else {
        LessTransitive(a, b, c);
        LessTransitive(c, a, c);
        LessIrreflexive(c);
        assert false;
      }
    }
  }

  /** The line `text/tabwriter` receives for `cells`: each cell followed by a tab. */
  function TabTerminated(cells: seq<string>): string
  {
    if cells == [] then "" else cells[0] + "\t" + TabTerminated(cells[1..])
  }

  /** Index of the first tab in `s`, or |s| when there is none. */
  function FirstTab(s: string): (k: nat)
    ensures k <= |s| && '\t' !in s[..k] && (k < |s| ==> s[k] == '\t')
  {
    if s == [] || s[0] == '\t' then 0
    else
      var k := FirstTab(s[1..]);
      assert s[..k + 1] == [s[0]] + s[1..][..k];
      k + 1
  }

  /** The cells `text/tabwriter` reads from a line: tab-terminated pieces, plus
      a final unterminated piece if the line does not end in a tab. */
  function Cells(line: string): seq<string>
    decreases |line|
  {
    if line == [] then []
    else
      var k := FirstTab(line);
      if k == |line| then [line] else [line[..k]] + Cells(line[k + 1..])
  }

  predicate NoTabs(cells: seq<string>) {
    forall i :: 0 <= i < |cells| ==> '\t' !in cells[i]
  }

  /** Appending one cell at the end of a tab-terminated line. */
  lemma {:induction false} TabTerminatedSnoc(cells: seq<string>, c: string)
    ensures TabTerminated(cells + [c]) == TabTerminated(cells) + c + "\t"
  {
    if cells != [] {
      assert (cells + [c])[1..] == cells[1..] + [c];
      TabTerminatedSnoc(cells[1..], c);
    }
  }

  /** Cells without tabs come back out of the line unchanged. */
  lemma {:induction false} CellsRoundTrip(cells: seq<string>)
    requires NoTabs(cells)
    ensures Cells(TabTerminated(cells)) == cells
  {
    if cells != [] {
      var rest := TabTerminated(cells[1..]);
      var line := cells[0] + "\t" + rest;
      FirstTabAt(cells[0], rest);
      assert line[..|cells[0]|] == cells[0];
      assert line[|cells[0]| + 1..] == rest;
      CellsRoundTrip(cells[1..]);
    }
  }

  lemma {:induction false} FirstTabAt(c: string, rest: string)
    requires '\t' !in c
    ensures FirstTab(c + "\t" + rest) == |c|
  {
    if c != [] {
      assert (c + "\t" + rest)[1..] == c[1..] + "\t" + rest;
      FirstTabAt(c[1..], rest);
    } else {
      assert (c + "\t" + rest)[0] == '\t';
    }
  }
}
