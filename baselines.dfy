/**
 * Baseline labels and baseline indices (`get_corrprods`, `get_bl_idx`).
 *
 * A correlation product is a pair of input names such as `m000h` and
 * `m001h`; `get_corrprods` drops the last character (the polarisation) of
 * each and concatenates them. `get_bl_idx` builds the table of labels
 * `'m{:03d}m{:03d}'.format(i, j)` for the pairs `(i, j)` of
 * `np.triu_indices(nant, 1)`, in that order, and looks every product up in
 * a `pandas` frame whose columns are those labels; an unknown label raises
 * `KeyError`, which lists every missing label.
 */
module Baselines {
  import opened Common

  type Label = string

  // ------------------------------------------------- decimal digits

  predicate IsDigit(c: char) {
    '0' <= c <= '9'
  }

  predicate AllDigits(s: string) {
    forall k :: 0 <= k < |s| ==> IsDigit(s[k])
  }

  function DigitChar(d: nat): (c: char)
    requires d < 10
    ensures IsDigit(c)
  {
    ('0' as int + d) as char
  }

  function DigitValue(c: char): nat
    requires IsDigit(c)
  {
    c as int - '0' as int
  }

  /** `str(n)` for a natural number: no leading zeros. */
  function Decimal(n: nat): (s: string)
    ensures 1 <= |s| && AllDigits(s)
    ensures n < 10 ==> |s| == 1
    ensures n < 100 ==> |s| <= 2
    ensures n < 1000 ==> |s| <= 3
    ensures |s| > 1 ==> s[0] != '0'
  {
    if n < 10 then [DigitChar(n)] else Decimal(n / 10) + [DigitChar(n % 10)]
  }

  /** The number a string of decimal digits denotes. */
  function Value(s: string): nat
    requires AllDigits(s)
  {
    if s == [] then 0 else 10 * Value(s[..|s| - 1]) + DigitValue(s[|s| - 1])
  }

  function Zeros(k: nat): (s: string)
    ensures |s| == k && AllDigits(s)
  {
    seq(k, _ => '0')
  }

  /** `'{:03d}'.format(n)`: at least three digits, padded on the left with zeros. */
  function Pad3(n: nat): (s: string)
    ensures AllDigits(s) && 3 <= |s|
    ensures n < 1000 ==> |s| == 3
  {
    var d := Decimal(n);
    if |d| >= 3 then d else Zeros(3 - |d|) + d
  }

  /** Reading back the decimal spelling of `n` gives `n`. */
  lemma {:induction false} ValueDecimal(n: nat)
    ensures Value(Decimal(n)) == n
  {
    if n >= 10 {
      ValueDecimal(n / 10);
      var s := Decimal(n);
      assert s[..|s| - 1] == Decimal(n / 10);
    }
  }

  /** Leading zeros do not change the value of a digit string. */
  lemma {:induction false} ValueLeadingZeros(k: nat, s: string)
    requires AllDigits(s)
    ensures Value(Zeros(k) + s) == Value(s)
    decreases |s|
  {
    var z := Zeros(k) + s;
    if s == [] {
      assert z == Zeros(k);
      ValueZeros(k);
    } else {
      assert z[..|z| - 1] == Zeros(k) + s[..|s| - 1];
      ValueLeadingZeros(k, s[..|s| - 1]);
    }
  }

  lemma {:induction false} ValueZeros(k: nat)
    ensures Value(Zeros(k)) == 0
  {
    if k > 0 {
      assert Zeros(k)[..k - 1] == Zeros(k - 1);
      ValueZeros(k - 1);
    }
  }

  /** The zero-padded field reads back as the number it was formatted from. */
  lemma ValuePad3(n: nat)
    ensures Value(Pad3(n)) == n
  {
    ValueDecimal(n);
    var d := Decimal(n);
    if |d| < 3 {
      ValueLeadingZeros(3 - |d|, d);
    }
  }

  // ------------------------------------------------- labels

  /** `'m{:03d}'.format(i)`: the name of antenna `i`. */
  function AntennaName(i: nat): Label {
    "m" + Pad3(i)
  }

  /** `'m{:03d}m{:03d}'.format(i, j)`. */
  function BaselineLabel(i: nat, j: nat): Label {
    AntennaName(i) + AntennaName(j)
  }

  /** The position of the first `'m'` at or after `k`, or `|s|` when there is none. */
  function FindM(s: string, k: nat): (r: nat)
    ensures k <= r || k > |s|
    decreases |s| - k
  {
    if k >= |s| then |s| else if s[k] == 'm' then k else FindM(s, k + 1)
  }

  /** Skipping digits from `k`, the first `'m'` found is the one at `i`. */
  lemma {:induction false} FindMAfterDigits(s: string, k: nat, i: nat)
    requires k <= i < |s| && s[i] == 'm'
    requires forall x :: k <= x < i ==> IsDigit(s[x])
    ensures FindM(s, k) == i
    decreases i - k
  {
    if k < i {
      FindMAfterDigits(s, k + 1, i);
    }
  }

  /** In a label the second antenna name starts right after the first number. */
  lemma SecondName(i: nat, j: nat)
    ensures FindM(BaselineLabel(i, j), 1) == 1 + |Pad3(i)|
    ensures BaselineLabel(i, j)[1..1 + |Pad3(i)|] == Pad3(i)
    ensures BaselineLabel(i, j)[2 + |Pad3(i)|..] == Pad3(j)
  {
    var l := BaselineLabel(i, j);
    var p := Pad3(i);
    assert l == "m" + p + "m" + Pad3(j);
    assert forall x :: 1 <= x < 1 + |p| ==> l[x] == p[x - 1];
    FindMAfterDigits(l, 1, 1 + |p|);
  }

  /** Distinct antenna pairs get distinct labels, whatever the number of digits. */
  lemma LabelInjective(i: nat, j: nat, i': nat, j': nat)
    requires BaselineLabel(i, j) == BaselineLabel(i', j')
    ensures i == i' && j == j'
  {
    SecondName(i, j);
    SecondName(i', j');
    assert |Pad3(i)| == |Pad3(i')|;
    assert Pad3(i) == Pad3(i');
    assert Pad3(j) == Pad3(j');
    ValuePad3(i);
    ValuePad3(i');
    ValuePad3(j);
    ValuePad3(j');
  }

  // ------------------------------------------------- np.triu_indices(n, 1)

  /** Row `i` of the strict upper triangle: `(i, i+1), ..., (i, n-1)`. */
  function Row(i: nat, n: nat): seq<(nat, nat)> {
    seq(if i < n then n - i - 1 else 0, k => (i, i + 1 + k))
  }

  /** Rows `i, ..., n-1`, one after the other. */
  function RowsFrom(i: nat, n: nat): seq<(nat, nat)>
    decreases n - i
  {
    if i >= n then [] else Row(i, n) + RowsFrom(i + 1, n)
  }

  /** `zip(*np.triu_indices(n, 1))`: the pairs `i < j < n` in row-major order. */
  function TriuPairs(n: nat): seq<(nat, nat)> {
    RowsFrom(0, n)
  }

  /** The number of pairs in the rows before row `i`. */
  function RowStart(i: nat, n: nat): nat
    requires i <= n
  {
    if i == 0 then 0 else RowStart(i - 1, n) + (n - i)
  }

  /** The position of the pair `(i, j)` among `TriuPairs(n)`. */
  function TriuIndex(i: nat, j: nat, n: nat): nat
    requires i < j < n
  {
    RowStart(i, n) + (j - i - 1)
  }

  lemma {:induction false} RowsFromLength(i: nat, n: nat)
    requires i <= n
    ensures RowStart(i, n) + |RowsFrom(i, n)| == RowStart(n, n)
    decreases n - i
  {
    if i < n {
      RowsFromLength(i + 1, n);
    }
  }

  lemma {:induction false} RowStartClosed(i: nat, n: nat)
    requires i <= n
    ensures 2 * RowStart(i, n) == i * (2 * n - i - 1)
  {
    if i > 0 {
      RowStartClosed(i - 1, n);
      assert (i - 1) * (2 * n - i) + 2 * (n - i) == i * (2 * n - i - 1);
    }
  }

  /** There are `n (n - 1) / 2` pairs. */
  lemma TriuLength(n: nat)
    ensures 2 * |TriuPairs(n)| == n * (n - 1)
  {
    RowsFromLength(0, n);
    RowStartClosed(n, n);
  }

  /** Every entry of the rows from `i0` on is a pair `i0 <= i < j < n` at its `TriuIndex`. */
  lemma {:induction false} RowsFromEntry(i0: nat, n: nat, p: nat)
    requires i0 <= n && p < |RowsFrom(i0, n)|
    ensures var (i, j) := RowsFrom(i0, n)[p];
            i0 <= i < j < n && RowStart(i0, n) + p == TriuIndex(i, j, n)
    decreases n - i0
  {
    var row := Row(i0, n);
    if p >= |row| {
      assert RowsFrom(i0, n)[p] == RowsFrom(i0 + 1, n)[p - |row|];
      RowsFromEntry(i0 + 1, n, p - |row|);
    }
  }

  /** The pair `(i, j)` with `i0 <= i < j < n` sits at its `TriuIndex` in the rows from `i0`. */
  lemma {:induction false} RowsFromAt(i0: nat, n: nat, i: nat, j: nat)
    requires i0 <= i < j < n
    ensures RowStart(i0, n) <= TriuIndex(i, j, n) < RowStart(i0, n) + |RowsFrom(i0, n)|
    ensures RowsFrom(i0, n)[TriuIndex(i, j, n) - RowStart(i0, n)] == (i, j)
    decreases i - i0
  {
    RowsFromLength(i0, n);
    RowsFromLength(i + 1, n);
    if i0 < i {
      RowsFromAt(i0 + 1, n, i, j);
    }
  }

  /** Every pair of `TriuPairs(n)` is `i < j < n`, at its own `TriuIndex`. */
  lemma TriuEntry(n: nat, p: nat)
    requires p < |TriuPairs(n)|
    ensures var (i, j) := TriuPairs(n)[p];
            i < j < n && TriuIndex(i, j, n) == p
  {
    RowsFromEntry(0, n, p);
  }

  /** Every pair `i < j < n` occurs in `TriuPairs(n)`, at its `TriuIndex`. */
  lemma TriuAt(n: nat, i: nat, j: nat)
    requires i < j < n
    ensures TriuIndex(i, j, n) < |TriuPairs(n)| && TriuPairs(n)[TriuIndex(i, j, n)] == (i, j)
  {
    RowsFromAt(0, n, i, j);
  }

  /** No pair occurs twice. */
  lemma TriuDistinct(n: nat)
    ensures Distinct(TriuPairs(n))
  {
    var t := TriuPairs(n);
    forall a, b | 0 <= a < b < |t| ensures t[a] != t[b] {
      TriuEntry(n, a);
      TriuEntry(n, b);
    }
  }

  // ------------------------------------------------- the label table

  /** `corr_products` in `get_bl_idx`: one label per pair of `np.triu_indices(nant, 1)`. */
  function CanonicalLabels(nant: nat): (table: seq<Label>)
    ensures |table| == |TriuPairs(nant)|
  {
    var t := TriuPairs(nant);
    seq(|t|, p requires 0 <= p < |t| => BaselineLabel(t[p].0, t[p].1))
  }

  /** A label is in the table exactly when it names a pair `i < j < nant`. */
  lemma LabelInTableIff(nant: nat, i: nat, j: nat)
    ensures BaselineLabel(i, j) in CanonicalLabels(nant) <==> i < j < nant
  {
    var table := CanonicalLabels(nant);
    if i < j < nant {
      TriuAt(nant, i, j);
      assert table[TriuIndex(i, j, nant)] == BaselineLabel(i, j);
    }
    if BaselineLabel(i, j) in table {
      var p :| 0 <= p < |table| && table[p] == BaselineLabel(i, j);
      TriuEntry(nant, p);
      LabelInjective(i, j, TriuPairs(nant)[p].0, TriuPairs(nant)[p].1);
    }
  }

  /** Every label of the table is a pair label, at the pair's `TriuIndex`. */
  lemma TableEntry(nant: nat, p: nat)
    requires p < |CanonicalLabels(nant)|
    ensures exists i: nat, j: nat :: i < j < nant && CanonicalLabels(nant)[p] == BaselineLabel(i, j) && TriuIndex(i, j, nant) == p
  {
    TriuEntry(nant, p);
    var (i, j) := TriuPairs(nant)[p];
    assert CanonicalLabels(nant)[p] == BaselineLabel(i, j);
  }

  /** The table has no duplicate label, so a `pandas` lookup in it is unambiguous. */
  lemma CanonicalDistinct(nant: nat)
    ensures Distinct(CanonicalLabels(nant))
  {
    var table := CanonicalLabels(nant);
    var t := TriuPairs(nant);
    forall a, b | 0 <= a < b < |table| ensures table[a] != table[b] {
      TriuEntry(nant, a);
      TriuEntry(nant, b);
      if table[a] == table[b] {
        LabelInjective(t[a].0, t[a].1, t[b].0, t[b].1);
      }
    }
  }

  /** 64 antennas give 2016 baselines. */
  lemma MeerKatTableSize()
    ensures |CanonicalLabels(64)| == 2016
  {
    TriuLength(64);
  }

  // ------------------------------------------------- lookups

  /** The column position of a label: the first index holding it, or nothing. */
  function IndexOf(table: seq<Label>, l: Label): (r: Option<nat>)
    ensures r.Some? ==> r.value < |table| && table[r.value] == l
    ensures r.Some? ==> forall k :: 0 <= k < r.value ==> table[k] != l
    ensures r.None? <==> l !in table
  {
    if table == [] then None
    else if table[0] == l then Some(0)
    else match IndexOf(table[1..], l)
      case None => None
      case Some(k) => Some(k + 1)
  }

  /** The labels of `corrProds` that are not in the table, in order. */
  function Missing(corrProds: seq<Label>, table: seq<Label>): (m: seq<Label>)
    ensures forall l :: l in m <==> l in corrProds && l !in table
  {
    if corrProds == [] then []
    else (if corrProds[0] in table then [] else [corrProds[0]]) + Missing(corrProds[1..], table)
  }

  /**
   * `df[corr_prods].values[0]`: the column position of each product, or the
   * `KeyError` of `pandas` listing the products not in the table.
   */
  function BlIdx(corrProds: seq<Label>, nant: nat): (r: Result<seq<nat>, seq<Label>>)
    ensures r.Success? <==> forall n :: 0 <= n < |corrProds| ==> corrProds[n] in CanonicalLabels(nant)
    ensures r.Success? ==> |r.value| == |corrProds|
    ensures r.Success? ==> forall n :: 0 <= n < |corrProds| ==>
              r.value[n] < |CanonicalLabels(nant)| && CanonicalLabels(nant)[r.value[n]] == corrProds[n]
    ensures r.Failure? ==> r.error != []
    ensures r.Failure? ==> forall l :: l in r.error <==> l in corrProds && l !in CanonicalLabels(nant)
  {
    var table := CanonicalLabels(nant);
    var missing := Missing(corrProds, table);
    if missing != [] then
      assert missing[0] in missing;
      Failure(missing)
    else
      Success(seq(|corrProds|, n requires 0 <= n < |corrProds| => IndexOf(table, corrProds[n]).value))
  }

  /** In a table without duplicates the lookup finds the one position holding the label. */
  lemma IndexOfDistinct(table: seq<Label>, p: nat)
    requires Distinct(table) && p < |table|
    ensures IndexOf(table, table[p]) == Some(p)
  {
    var k := IndexOf(table, table[p]).value;
    assert table[k] == table[p];
  }

  /** A product naming the pair `i < j < nant` resolves to that pair's position. */
  lemma IndexOfPair(nant: nat, i: nat, j: nat)
    requires i < j < nant
    ensures IndexOf(CanonicalLabels(nant), BaselineLabel(i, j)) == Some(TriuIndex(i, j, nant))
  {
    var table := CanonicalLabels(nant);
    TriuAt(nant, i, j);
    assert table[TriuIndex(i, j, nant)] == BaselineLabel(i, j);
    CanonicalDistinct(nant);
    IndexOfDistinct(table, TriuIndex(i, j, nant));
  }

  /**
   * When every product names a pair `i < j < nant`, `get_bl_idx` succeeds and
   * returns the positions of those pairs in `np.triu_indices(nant, 1)`.
   */
  lemma BlIdxOfPairs(nant: nat, pairs: seq<(nat, nat)>)
    requires forall n :: 0 <= n < |pairs| ==> pairs[n].0 < pairs[n].1 < nant
    ensures var corrProds := seq(|pairs|, n requires 0 <= n < |pairs| => BaselineLabel(pairs[n].0, pairs[n].1));
            BlIdx(corrProds, nant) ==
            Success(seq(|pairs|, n requires 0 <= n < |pairs| => TriuIndex(pairs[n].0, pairs[n].1, nant)))
  {
    var corrProds := seq(|pairs|, n requires 0 <= n < |pairs| => BaselineLabel(pairs[n].0, pairs[n].1));
    var expected := seq(|pairs|, n requires 0 <= n < |pairs| => TriuIndex(pairs[n].0, pairs[n].1, nant));
    forall n | 0 <= n < |pairs|
      ensures IndexOf(CanonicalLabels(nant), corrProds[n]) == Some(expected[n])
    {
      IndexOfPair(nant, pairs[n].0, pairs[n].1);
    }
    BlIdxFound(corrProds, nant, expected);
  }

  /** When the lookup finds every product, `get_bl_idx` returns the positions it found. */
  lemma BlIdxFound(corrProds: seq<Label>, nant: nat, idx: seq<nat>)
    requires |idx| == |corrProds|
    requires forall n :: 0 <= n < |corrProds| ==> IndexOf(CanonicalLabels(nant), corrProds[n]) == Some(idx[n])
    ensures BlIdx(corrProds, nant) == Success(idx)
  {
    var table := CanonicalLabels(nant);
    MissingNone(corrProds, table);
    var found := seq(|corrProds|, n requires 0 <= n < |corrProds| => IndexOf(table, corrProds[n]).value);
    assert found == idx;
  }

  lemma {:induction false} MissingNone(corrProds: seq<Label>, table: seq<Label>)
    requires forall n :: 0 <= n < |corrProds| ==> IndexOf(table, corrProds[n]).Some?
    ensures Missing(corrProds, table) == []
  {
    if corrProds != [] {
      assert IndexOf(table, corrProds[0]).Some?;
      MissingNone(corrProds[1..], table);
    }
  }

  /** An autocorrelation or a pair out of order or out of range is a `KeyError`. */
  lemma BlIdxRejects(nant: nat, i: nat, j: nat)
    requires !(i < j < nant)
    ensures BlIdx([BaselineLabel(i, j)], nant) == Failure([BaselineLabel(i, j)])
  {
    var l := BaselineLabel(i, j);
    LabelInTableIff(nant, i, j);
    assert [l][1..] == [];
    assert Missing([], CanonicalLabels(nant)) == [];
    assert Missing([l], CanonicalLabels(nant)) == [l];
  }

  /** Distinct products that resolve get distinct indices, each below `nant (nant - 1) / 2`. */
  lemma BlIdxDistinct(corrProds: seq<Label>, nant: nat)
    requires Distinct(corrProds) && BlIdx(corrProds, nant).Success?
    ensures Distinct(BlIdx(corrProds, nant).value)
    ensures forall n :: 0 <= n < |corrProds| ==> 2 * BlIdx(corrProds, nant).value[n] < nant * (nant - 1)
  {
    TriuLength(nant);
  }

  // ------------------------------------------------- correlation products

  /** Python's `s[0:-1]`: everything but the last character. */
  function DropLast(s: string): (r: string)
    ensures |s| > 0 ==> s == r + [s[|s| - 1]]
    ensures |s| == 0 ==> r == []
  {
    if |s| == 0 then [] else s[..|s| - 1]
  }

  /** The label of one correlation product `(a, b)`. */
  function CorrProdLabel(p: (string, string)): Label {
    DropLast(p.0) + DropLast(p.1)
  }

  /** Two inputs of antennas `i` and `j`, each with a polarisation letter, give the pair label. */
  lemma CorrProdOfInputs(i: nat, j: nat, pi: char, pj: char)
    ensures CorrProdLabel((AntennaName(i) + [pi], AntennaName(j) + [pj])) == BaselineLabel(i, j)
  {
    assert DropLast(AntennaName(i) + [pi]) == AntennaName(i);
    assert DropLast(AntennaName(j) + [pj]) == AntennaName(j);
  }

  /** `get_corrprods`: the label of every correlation product, in order. */
  method GetCorrProds(products: seq<(string, string)>) returns (blIdx: seq<Label>)
    ensures |blIdx| == |products|
    ensures forall n :: 0 <= n < |products| ==> blIdx[n] == CorrProdLabel(products[n])
  {
    blIdx := [];
    var i := 0;
    while i < |products|
      invariant 0 <= i <= |products|
      invariant |blIdx| == i
      invariant forall n :: 0 <= n < i ==> blIdx[n] == CorrProdLabel(products[n])
    {
      blIdx := blIdx + [DropLast(products[i].0) + DropLast(products[i].1)];
      i := i + 1;
    }
  }
}
