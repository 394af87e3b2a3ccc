/** The systematic Cauchy Reed-Solomon codec: repair symbols and the Gauss-Jordan decoder. */
module Rlc {
  import opened Bytes
  import opened Gf256
  import opened GfTables
  import opened Cauchy
  import opened GaussJordan

  datatype Symbol = Source(i: nat) | Repair(j: nat)

  /** A source of the block, or a repair whose Cauchy point k + j still is a byte. */
  predicate InBlock(k: nat, y: Symbol) {
    match y
    case Source(i) => i < k
    case Repair(j) => k + j < MAX_SYMBOLS
  }

  /** The coefficients of a symbol over the k sources. */
  ghost function SymbolRow(k: nat, y: Symbol): (row: seq<Byte>)
    requires InBlock(k, y)
    ensures |row| == k
  {
    match y
    case Source(i) => UnitRow(k, i)
    case Repair(j) => CauchyRow(k, k + j)
  }

  /** The payload of a symbol of the sources x. */
  ghost function SymbolData(k: nat, s: nat, x: Matrix, y: Symbol): (d: seq<Byte>)
    requires InBlock(k, y) && Shape(x, k, s)
    ensures |d| == s
  {
    seq(s, t requires 0 <= t < s => Dot(SymbolRow(k, y), Column(x, t)))
  }

  /** A source symbol's payload is the source itself. */
  lemma SourceData(k: nat, s: nat, x: Matrix, i: nat)
    requires i < k && Shape(x, k, s)
    ensures SymbolData(k, s, x, Source(i)) == x[i]
  {
    hide Mul, Add, Dot;
    forall t | 0 <= t < s ensures Dot(UnitRow(k, i), Column(x, t)) == x[i][t] {
      DotSingle(UnitRow(k, i), Column(x, t), i);
      MulUnit(x[i][t]);
    }
  }

  ghost predicate DistinctSymbols(k: nat, ys: seq<Symbol>) {
    && (forall r :: 0 <= r < |ys| ==> InBlock(k, ys[r]))
    && (forall q, r :: 0 <= q < r < |ys| ==> ys[q] != ys[r])
  }

  ghost function SourceIndices(ys: seq<Symbol>): set<int> {
    if ys == [] then {}
    else
      var rest := SourceIndices(ys[..|ys| - 1]);
      match ys[|ys| - 1]
      case Source(i) => rest + {i}
      case Repair(_) => rest
  }

  /** The Cauchy points of the repairs among ys. */
  ghost function RepairPoints(k: nat, ys: seq<Symbol>): (xs: seq<Byte>)
    requires forall r :: 0 <= r < |ys| ==> InBlock(k, ys[r])
  {
    if ys == [] then []
    else
      var rest := RepairPoints(k, ys[..|ys| - 1]);
      assert InBlock(k, ys[|ys| - 1]);
      match ys[|ys| - 1]
      case Source(_) => rest
      case Repair(j) => var x: Byte := k + j; rest + [x]
  }

  lemma {:induction false} SourcesSplit(k: nat, ys: seq<Symbol>)
    requires DistinctSymbols(k, ys)
    ensures forall i :: i in SourceIndices(ys) <==> 0 <= i && Source(i) in ys
  {
    if ys != [] {
      var n := |ys| - 1;
      SourcesSplit(k, ys[..n]);
      assert ys == ys[..n] + [ys[n]];
    }
  }

  lemma {:induction false} RepairsSplit(k: nat, ys: seq<Symbol>)
    requires DistinctSymbols(k, ys)
    ensures forall x :: x in RepairPoints(k, ys) <==> k <= x && Repair(x - k) in ys
    ensures Distinct(RepairPoints(k, ys))
  {
    if ys != [] {
      var n := |ys| - 1;
      var rest := RepairPoints(k, ys[..n]);
      RepairsSplit(k, ys[..n]);
      assert ys == ys[..n] + [ys[n]];
      assert ys[n] !in ys[..n];
      forall i | 0 <= i < |rest| && ys[n].Repair? ensures rest[i] != k + ys[n].j {
        assert rest[i] in rest;
      }
    }
  }

  /** Sources and repairs account for every symbol. */
  lemma {:induction false} SymbolsSplit(k: nat, ys: seq<Symbol>)
    requires DistinctSymbols(k, ys)
    ensures |SourceIndices(ys)| + |RepairPoints(k, ys)| == |ys|
  {
    if ys != [] {
      var n := |ys| - 1;
      SymbolsSplit(k, ys[..n]);
      SourcesSplit(k, ys[..n]);
      assert ys[n] !in ys[..n];
    }
  }

  ghost function Below(k: nat): (r: set<int>)
    ensures forall i :: i in r <==> 0 <= i < k
    ensures |r| == k
  {
    if k == 0 then {} else
      assert Below(k - 1) !! {k - 1};
      Below(k - 1) + {k - 1}
  }

  lemma CountMissing(k: nat, have: set<int>, missing: set<int>)
    requires forall i :: i in have ==> 0 <= i < k
    requires missing == Below(k) - have
    ensures |missing| + |have| == k
  {
    assert Below(k) == missing + have;
  }

  /** The MDS property: the rows of any k distinct symbols of a block are non-singular. */
  lemma Mds(k: nat, ys: seq<Symbol>, a: Matrix)
    requires DistinctSymbols(k, ys) && |ys| == k
    requires |a| == k && forall r :: 0 <= r < k ==> a[r] == SymbolRow(k, ys[r])
    ensures NonSingular(a, k)
  {
    hide Mul, Add, Dot, SourceIndices, RepairPoints, CauchyRow, UnitRow;
    SourcesSplit(k, ys);
    RepairsSplit(k, ys);
    SymbolsSplit(k, ys);
    var xs := RepairPoints(k, ys);
    forall i | i in SourceIndices(ys) ensures 0 <= i < k { SourcesInBlock(k, ys, i); }
    var missing := Below(k) - SourceIndices(ys);
    CountMissing(k, SourceIndices(ys), missing);
    forall v | Kernel(a, v, k) ensures Zero(v) {
      forall i | 0 <= i < k && i !in missing ensures v[i] == 0 {
        KernelVanishes(k, ys, a, v, i);
      }
      forall r | 0 <= r < |xs| ensures k <= xs[r] && Dot(CauchyRow(k, xs[r]), v) == 0 {
        assert xs[r] in xs;
        KernelRepair(k, ys, a, v, xs[r]);
      }
      CauchyKernel(v, missing, xs);
    }
  }

  lemma KernelVanishes(k: nat, ys: seq<Symbol>, a: Matrix, v: seq<Byte>, i: nat)
    requires DistinctSymbols(k, ys) && |ys| == k && Kernel(a, v, k)
    requires |a| == k && forall r :: 0 <= r < k ==> a[r] == SymbolRow(k, ys[r])
    requires i < k && Source(i) in ys
    ensures v[i] == 0
  {
    hide Mul, Dot, Add;
    var r :| 0 <= r < k && ys[r] == Source(i);
    DotSingle(a[r], v, i);
    MulUnit(v[i]);
  }

  lemma KernelRepair(k: nat, ys: seq<Symbol>, a: Matrix, v: seq<Byte>, x: Byte)
    requires DistinctSymbols(k, ys) && |ys| == k && Kernel(a, v, k)
    requires |a| == k && forall r :: 0 <= r < k ==> a[r] == SymbolRow(k, ys[r])
    requires k <= x && Repair(x - k) in ys
    ensures Dot(CauchyRow(k, x), v) == 0
  {
    hide Dot, CauchyRow;
    var q :| 0 <= q < k && ys[q] == Repair(x - k);
    assert Dot(a[q], v) == 0 && a[q] == SymbolRow(k, ys[q]);
  }

  lemma SourcesInBlock(k: nat, ys: seq<Symbol>, i: int)
    requires DistinctSymbols(k, ys) && i in SourceIndices(ys)
    ensures 0 <= i < k
  {
    SourcesSplit(k, ys);
    hide SourceIndices;
    var r :| 0 <= r < |ys| && ys[r] == Source(i);
    assert InBlock(k, ys[r]);
  }

  /** A non-singular system determines a column. */
  lemma ColumnUnique(a: Matrix, k: nat, v: seq<Byte>, w: seq<Byte>)
    requires NonSingular(a, k) && |v| == |w| == k
    requires forall r :: 0 <= r < k ==> Dot(a[r], v) == Dot(a[r], w)
    ensures v == w
  {
    hide Dot, Add;
    var d := seq(k, i requires 0 <= i < k => Add(v[i], w[i]));
    forall r | 0 <= r < k ensures Dot(a[r], d) == 0 {
      DotAdd(a[r], v, w, d);
      AddCancel(Dot(a[r], v), Dot(a[r], w));
    }
    assert Kernel(a, d, k);
    forall i | 0 <= i < k ensures v[i] == w[i] {
      assert d[i] == 0;
      AddCancel(v[i], w[i]);
    }
  }

  /** Two blocks that agree on k distinct symbols are the same block. */
  lemma SymbolsDetermineBlock(k: nat, s: nat, ys: seq<Symbol>, x: Matrix, x': Matrix)
    requires DistinctSymbols(k, ys) && |ys| == k && Shape(x, k, s) && Shape(x', k, s)
    requires forall r :: 0 <= r < k ==> SymbolData(k, s, x, ys[r]) == SymbolData(k, s, x', ys[r])
    ensures x == x'
  {
    hide Dot, UnitRow, CauchyRow, NonSingular;
    var a := seq(k, r requires 0 <= r < k => SymbolRow(k, ys[r]));
    Mds(k, ys, a);
    forall t | 0 <= t < s ensures Column(x, t) == Column(x', t) {
      forall r | 0 <= r < k ensures Dot(a[r], Column(x, t)) == Dot(a[r], Column(x', t)) {
        assert SymbolData(k, s, x, ys[r])[t] == SymbolData(k, s, x', ys[r])[t];
      }
      ColumnUnique(a, k, Column(x, t), Column(x', t));
    }
    forall i | 0 <= i < k ensures x[i] == x'[i] {
      forall t | 0 <= t < s ensures x[i][t] == x'[i][t] {
        assert Column(x, t)[i] == Column(x', t)[i];
      }
    }
  }

  /** The table reciprocal is the field inverse. */
  lemma InverseUnique(a: Byte, r: Byte)
    requires a != 0 && Mul(a, r) == 1
    ensures r == Inverse(a)
  {
    hide Mul;
    MulCancel(a, r);
    MulUnit(Inverse(a));
  }

  /** Coefficient i of repair j is what times (k + j) xor i is one. */
  lemma RowInverts(k: nat, j: Byte, i: nat)
    requires 1 <= k && k + j < MAX_SYMBOLS && i < k
    ensures Mul(Add(k + j, i), SymbolRow(k, Repair(j))[i]) == 1
  {
    hide Mul, Xor, Inverse;
  }

  /** rlc_repair_row. */
  method RepairRow(t: Tables, k: nat, j: Byte, row: array<Byte>)
    requires t.Valid() && 1 <= k && k + j < MAX_SYMBOLS && k <= row.Length
    requires t.Apart(row)
    modifies row
    ensures row[..k] == SymbolRow(k, Repair(j))
  {
    hide Mul, Power, Xor, CauchyRow, TablesCorrect;
    var x: Byte := k + j;
    ghost var want := CauchyRow(k, x);
    var i := 0;
    while i < k
      invariant 0 <= i <= k
      invariant forall n :: 0 <= n < i ==> row[n] == want[n]
    {
      assert Add(x, i) != 0 && want[i] == Inverse(Add(x, i));
      row[i] := t.Reciprocal(Add(x, i));
      InverseUnique(Add(x, i), row[i]);
      i := i + 1;
    }
  }

  /** The first i terms of a dot product. */
  ghost function Partial(u: seq<Byte>, v: seq<Byte>, i: nat): Byte
    requires i <= |u| == |v|
  {
    Dot(u[..i], v[..i])
  }

  lemma PartialStep(u: seq<Byte>, v: seq<Byte>, i: nat)
    requires i <= |u| == |v|
    ensures Partial(u, v, 0) == 0
    ensures i < |u| ==> Partial(u, v, i + 1) == Add(Partial(u, v, i), Mul(u[i], v[i]))
    ensures Partial(u, v, |u|) == Dot(u, v)
  {
    hide Mul, Add;
    assert u[..|u|] == u && v[..|v|] == v;
    if i < |u| {
      assert u[..i + 1][..i] == u[..i] && v[..i + 1][..i] == v[..i];
    }
  }

  /** rlc_encode_repair: the combination of the sources with the repair row. */
  method EncodeRepair(t: Tables, k: nat, j: Byte, sources: Matrix, out: array<Byte>)
    requires t.Valid() && 1 <= k && k + j < MAX_SYMBOLS && Shape(sources, k, out.Length)
    requires t.Apart(out)
    modifies out
    ensures out[..] == SymbolData(k, out.Length, sources, Repair(j))
  {
    hide Mul, Power, Xor, Add, TablesCorrect, Partial, Dot, CauchyRow;
    var row := new Byte[256];
    RepairRow(t, k, j, row);
    ghost var w := row[..k];
    var n := 0;
    while n < out.Length
      invariant 0 <= n <= out.Length
      invariant row[..k] == w && forall b :: 0 <= b < n ==> out[b] == 0
    {
      out[n] := 0;
      n := n + 1;
    }
    forall b | 0 <= b < out.Length ensures out[b] == Partial(w, Column(sources, b), 0) {
      PartialStep(w, Column(sources, b), 0);
    }
    var i := 0;
    while i < k
      invariant 0 <= i <= k && row[..k] == w
      invariant forall b :: 0 <= b < out.Length ==> out[b] == Partial(w, Column(sources, b), i)
    {
      var c := row[i];
      assert c == w[i];
      forall b | 0 <= b < out.Length
        ensures Partial(w, Column(sources, b), i + 1) == Add(out[b], Mul(c, sources[i][b]))
      {
        PartialStep(w, Column(sources, b), i);
      }
      if c != 0 {  // always so: no Cauchy coefficient is zero
        t.MulXor(c, sources[i], out);
      }
      i := i + 1;
    }
    forall b | 0 <= b < out.Length ensures out[b] == SymbolData(k, out.Length, sources, Repair(j))[b] {
      PartialStep(w, Column(sources, b), 0);
    }
  }

  lemma SameMatrix(m: Matrix, n: Matrix, rows: nat, columns: nat)
    requires Shape(m, rows, columns) && Shape(n, rows, columns)
    requires forall i, j :: 0 <= i < rows && 0 <= j < columns ==> m[i][j] == n[i][j]
    ensures m == n
  {
    forall i | 0 <= i < rows ensures m[i] == n[i] { }
  }

  /** The rows of a two-dimensional array. */
  ghost function Rows(m: array2<Byte>): (r: Matrix)
    reads m
    ensures Shape(r, m.Length0, m.Length1)
    ensures forall i, j :: 0 <= i < m.Length0 && 0 <= j < m.Length1 ==> r[i][j] == m[i, j]
  {
    seq(m.Length0, i requires 0 <= i < m.Length0 reads m =>
      seq(m.Length1, j requires 0 <= j < m.Length1 reads m => m[i, j]))
  }

  method SwapInPlace(m: array2<Byte>, p: nat, q: nat)
    requires p < m.Length0 && q < m.Length0
    modifies m
    ensures Rows(m) == SwapRows(old(Rows(m)), p, q)
  {
    var c := 0;
    while c < m.Length1
      invariant 0 <= c <= m.Length1
      invariant forall i, j :: 0 <= i < m.Length0 && 0 <= j < m.Length1 ==>
        m[i, j] == if j >= c then old(m[i, j]) else if i == p then old(m[q, j]) else if i == q then old(m[p, j]) else old(m[i, j])
    {
      m[p, c], m[q, c] := m[q, c], m[p, c];
      c := c + 1;
    }
    SameMatrix(Rows(m), SwapRows(old(Rows(m)), p, q), m.Length0, m.Length1);
  }

  method ScaleInPlace(t: Tables, m: array2<Byte>, p: nat, f: Byte)
    requires t.Valid() && p < m.Length0 && t.Apart2(m)
    modifies m
    ensures Rows(m) == ScaleRow(old(Rows(m)), p, f)
  {
    hide Mul, Power;
    var c := 0;
    while c < m.Length1
      invariant 0 <= c <= m.Length1
      invariant forall i, j :: 0 <= i < m.Length0 && 0 <= j < m.Length1 ==>
        m[i, j] == if i == p && j < c then Mul(old(m[i, j]), f) else old(m[i, j])
    {
      m[p, c] := t.Product(m[p, c], f);
      c := c + 1;
    }
    SameMatrix(Rows(m), ScaleRow(old(Rows(m)), p, f), m.Length0, m.Length1);
  }

  method AddInPlace(t: Tables, m: array2<Byte>, r: nat, f: Byte, p: nat)
    requires t.Valid() && r < m.Length0 && p < m.Length0 && r != p && t.Apart2(m)
    modifies m
    ensures Rows(m) == AddRow(old(Rows(m)), r, f, p)
  {
    hide Mul, Power, Add;
    var c := 0;
    while c < m.Length1
      invariant 0 <= c <= m.Length1
      invariant forall i, j :: 0 <= i < m.Length0 && 0 <= j < m.Length1 ==>
        m[i, j] == if i == r && j < c then Add(old(m[i, j]), Mul(f, old(m[p, j]))) else old(m[i, j])
    {
      m[r, c] := Add(m[r, c], t.Product(f, m[p, c]));
      c := c + 1;
    }
    SameMatrix(Rows(m), AddRow(old(Rows(m)), r, f, p), m.Length0, m.Length1);
  }

  ghost function Flatten(m: Matrix): seq<Byte> {
    if m == [] then [] else Flatten(m[..|m| - 1]) + m[|m| - 1]
  }

  /** What the elimination has reached: an equivalent system, reduced up to col. */
  ghost predicate Eliminating(a0: Matrix, b0: Matrix, a: Matrix, b: Matrix, k: nat, s: nat, col: nat) {
    Equivalent(a0, b0, a, b, k, s) && Reduced(a, k, col)
  }

  lemma PivotFound(a0: Matrix, b0: Matrix, a: Matrix, b: Matrix, k: nat, s: nat, col: nat)
    requires NonSingular(a0, k) && Eliminating(a0, b0, a, b, k, s, col) && col < k
    ensures exists r :: col <= r < k && a[r][col] != 0
  {
    assert NonSingular(a, k) by {
      forall v | Kernel(a, v, k) ensures Zero(v) { assert Kernel(a0, v, k); }
    }
    PivotExists(a, k, col);
  }

  /** The pivot row goes to its place and is scaled to a leading 1. */
  lemma PivotKeeps(a0: Matrix, b0: Matrix, a: Matrix, b: Matrix, k: nat, s: nat, col: nat, p: nat)
    requires Eliminating(a0, b0, a, b, k, s, col) && col <= p < k
    ensures Eliminating(a0, b0, SwapRows(a, col, p), SwapRows(b, col, p), k, s, col)
  {
    assert Shape(b, k, s);
    hide Equivalent;
    SwapKeeps(a, b, col, p, k, s);
    EquivalentTransitive(a0, b0, a, b, SwapRows(a, col, p), SwapRows(b, col, p), k, s);
  }

  lemma NormalizeKeeps(a0: Matrix, b0: Matrix, a: Matrix, b: Matrix, k: nat, s: nat, col: nat, f: Byte)
    requires Eliminating(a0, b0, a, b, k, s, col) && col < k && f != 0
    ensures Eliminating(a0, b0, ScaleRow(a, col, f), ScaleRow(b, col, f), k, s, col)
  {
    assert Shape(b, k, s);
    hide Equivalent, Mul;
    ScaleKeeps(a, b, col, f, k, s);
    EquivalentTransitive(a0, b0, a, b, ScaleRow(a, col, f), ScaleRow(b, col, f), k, s);
    MulUnit(f);
  }

  /** Rows below n are clear in column col, the pivot row excepted. */
  ghost predicate Cleared(a: Matrix, k: nat, col: nat, n: nat) {
    && Shape(a, k, k) && col < k && n <= k && a[col][col] == 1
    && forall r :: 0 <= r < n && r != col ==> a[r][col] == 0
  }

  lemma ClearKeeps(a0: Matrix, b0: Matrix, a: Matrix, b: Matrix, k: nat, s: nat, col: nat, r: nat)
    requires Eliminating(a0, b0, a, b, k, s, col) && Cleared(a, k, col, r) && r < k && r != col
    ensures Eliminating(a0, b0, AddRow(a, r, a[r][col], col), AddRow(b, r, a[r][col], col), k, s, col)
    ensures Cleared(AddRow(a, r, a[r][col], col), k, col, r + 1)
  {
    assert Shape(b, k, s);
    hide Equivalent, Mul, Add;
    var f := a[r][col];
    AddKeeps(a, b, r, f, col, k, s);
    EquivalentTransitive(a0, b0, a, b, AddRow(a, r, f, col), AddRow(b, r, f, col), k, s);
    MulUnit(f);
    AddCancel(f, f);
    forall c | 0 <= c < col ensures AddRow(a, r, f, col)[r][c] == a[r][c] {
      AddLaws(a[r][c], 0, 0);
    }
  }

  /** All rows but the pivot row cleared: the next column is reduced as well. */
  lemma ColumnDone(a: Matrix, k: nat, col: nat)
    requires Reduced(a, k, col) && Cleared(a, k, col, k)
    ensures Reduced(a, k, col + 1)
  {
  }

  /** Eliminate column col from every row but the pivot row. */
  method ClearColumn(t: Tables, a: array2<Byte>, b: array2<Byte>, col: nat, ghost a0: Matrix, ghost b0: Matrix)
    requires t.Valid() && t.Apart2(a) && t.Apart2(b) && a != b && col < a.Length0
    requires a.Length1 == a.Length0 == b.Length0
    requires Eliminating(a0, b0, Rows(a), Rows(b), a.Length0, b.Length1, col) && a[col, col] == 1
    modifies a, b
    ensures Eliminating(a0, b0, Rows(a), Rows(b), a.Length0, b.Length1, col + 1)
  {
    hide Eliminating, Mul, Add, Power, Equivalent;
    var k := a.Length0;
    ghost var s := b.Length1;
    var r := 0;
    while r < k
      invariant 0 <= r <= k
      invariant Eliminating(a0, b0, Rows(a), Rows(b), k, s, col)
      invariant Cleared(Rows(a), k, col, r)
    {
      if r != col {
        var factor := a[r, col];
        if factor != 0 {
          ClearKeeps(a0, b0, Rows(a), Rows(b), k, s, col, r);
          AddInPlace(t, a, r, factor, col);
          AddInPlace(t, b, r, factor, col);
        }
      }
      r := r + 1;
    }
    ClearedNext(a0, b0, Rows(a), Rows(b), k, s, col);
  }

  lemma ClearedNext(a0: Matrix, b0: Matrix, a: Matrix, b: Matrix, k: nat, s: nat, col: nat)
    requires Eliminating(a0, b0, a, b, k, s, col) && Cleared(a, k, col, k)
    ensures Eliminating(a0, b0, a, b, k, s, col + 1)
  {
    ColumnDone(a, k, col);
  }

  /** The first row from col down with a nonzero entry in column col. */
  method FindPivot(a: array2<Byte>, col: nat) returns (pivot: nat)
    requires a.Length0 == a.Length1 && col < a.Length0
    ensures col <= pivot <= a.Length0
    ensures pivot < a.Length0 ==> a[pivot, col] != 0
    ensures forall r :: col <= r < pivot ==> a[r, col] == 0
  {
    pivot := col;
    while pivot < a.Length0 && a[pivot, col] == 0
      invariant col <= pivot <= a.Length0
      invariant forall r :: col <= r < pivot ==> a[r, col] == 0
    {
      pivot := pivot + 1;
    }
  }

  /** Swap the pivot row into place and scale it to a leading 1. */
  method PlacePivot(t: Tables, a: array2<Byte>, b: array2<Byte>, col: nat, pivot: nat, ghost a0: Matrix,
                    ghost b0: Matrix)
    requires t.Valid() && t.Apart2(a) && t.Apart2(b) && a != b
    requires a.Length1 == a.Length0 == b.Length0 && col <= pivot < a.Length0 && a[pivot, col] != 0
    requires Eliminating(a0, b0, Rows(a), Rows(b), a.Length0, b.Length1, col)
    modifies a, b
    ensures Eliminating(a0, b0, Rows(a), Rows(b), a.Length0, b.Length1, col) && a[col, col] == 1
  {
    hide Eliminating, Mul, Add, Power;
    ghost var k, s := a.Length0, b.Length1;
    if pivot != col {
      PivotKeeps(a0, b0, Rows(a), Rows(b), k, s, col, pivot);
      ghost var lead := Rows(a)[pivot][col];
      SwapInPlace(a, col, pivot);
      SwapInPlace(b, col, pivot);
      assert Rows(a)[col][col] == lead;
    }
    var lead := a[col, col];
    var inv := t.Reciprocal(lead);
    MulUnit(lead);
    if inv != 1 {
      MulUnit(lead);
      NormalizeKeeps(a0, b0, Rows(a), Rows(b), k, s, col, inv);
      ScaleInPlace(t, a, col, inv);
      ScaleInPlace(t, b, col, inv);
      assert Rows(a)[col][col] == 1;
    }
  }

  /** The Gauss-Jordan loop: on a non-singular system it always ends with the identity on the left. */
  method Eliminate(t: Tables, a: array2<Byte>, b: array2<Byte>, ghost a0: Matrix, ghost b0: Matrix) returns (ok: bool)
    requires t.Valid() && t.Apart2(a) && t.Apart2(b) && a != b
    requires a.Length1 == a.Length0 == b.Length0
    requires NonSingular(a0, a.Length0) && Eliminating(a0, b0, Rows(a), Rows(b), a.Length0, b.Length1, 0)
    modifies a, b
    ensures ok && Eliminating(a0, b0, Rows(a), Rows(b), a.Length0, b.Length1, a.Length0)
  {
    hide Eliminating, NonSingular;
    var k := a.Length0;
    ghost var s := b.Length1;
    var col := 0;
    while col < k
      invariant 0 <= col <= k
      invariant Eliminating(a0, b0, Rows(a), Rows(b), k, s, col)
    {
      var pivot := FindPivot(a, col);
      PivotFound(a0, b0, Rows(a), Rows(b), k, s, col);
      if pivot == k {
        return false;  // singular: never reached
      }
      PlacePivot(t, a, b, col, pivot, a0, b0);
      ClearColumn(t, a, b, col, a0, b0);
      col := col + 1;
    }
    ok := true;
  }

  class RlcDecoder {
    const t: Tables
    const k: nat
    const s: nat
    var coeffs: seq<seq<Byte>>      // one coefficient row per collected symbol
    var data: seq<seq<Byte>>        // its payload
    var haveSource: seq<bool>
    var haveRepair: seq<bool>
    ghost var symbols: seq<Symbol>  // which symbol each row is

    ghost predicate Valid()
      reads this
    {
      && 1 <= k <= MAX_SYMBOLS
      && |coeffs| == |data| == |symbols| <= k
      && DistinctSymbols(k, symbols)
      && (forall r :: 0 <= r < |symbols| ==> coeffs[r] == SymbolRow(k, symbols[r]) && |data[r]| == s)
      && |haveSource| == k && (forall i :: 0 <= i < k ==> (haveSource[i] <==> Source(i) in symbols))
      && |haveRepair| == 256 && (forall j :: 0 <= j < 256 ==> (haveRepair[j] <==> Repair(j) in symbols))
    }

    /** Every collected payload is the named symbol of the block x. */
    ghost predicate Carries(x: Matrix)
      requires Valid()
      reads this
    {
      Shape(x, k, s) && forall r :: 0 <= r < |symbols| ==> data[r] == SymbolData(k, s, x, symbols[r])
    }

    constructor (tables: Tables, k: nat, s: nat)
      requires 1 <= k <= MAX_SYMBOLS
      ensures Valid() && t == tables && this.k == k && this.s == s && symbols == []
    {
      t := tables;
      this.k := k;
      this.s := s;
      coeffs, data, symbols := [], [], [];
      haveSource := seq(k, _ => false);
      haveRepair := seq(256, _ => false);
    }

    /** Collected unless out of range, held already, or k symbols are held. */
    method AddSource(i: nat, payload: seq<Byte>)
      requires Valid() && |payload| == s
      modifies this
      ensures Valid()
      ensures if i >= k || Source(i) in old(symbols) || |old(symbols)| >= k
              then symbols == old(symbols) && data == old(data)
              else symbols == old(symbols) + [Source(i)] && data == old(data) + [payload]
    {
      if i >= k || haveSource[i] || |coeffs| >= k {
        return;
      }
      haveSource := haveSource[i := true];
      coeffs := coeffs + [UnitRow(k, i)];
      data := data + [payload];
      symbols := symbols + [Source(i)];
    }

    method AddRepair(j: Byte, payload: seq<Byte>)
      requires Valid() && |payload| == s && k + j < MAX_SYMBOLS && t.Valid()
      modifies this
      ensures Valid()
      ensures if Repair(j) in old(symbols) || |old(symbols)| >= k
              then symbols == old(symbols) && data == old(data)
              else symbols == old(symbols) + [Repair(j)] && data == old(data) + [payload]
    {
      hide TablesCorrect, CauchyRow, Mul, Power;
      if haveRepair[j] || |coeffs| >= k {
        return;
      }
      haveRepair := haveRepair[j := true];
      var row := new Byte[k];
      RepairRow(t, k, j, row);
      assert row[..k] == row[..];
      coeffs := coeffs + [row[..]];
      data := data + [payload];
      symbols := symbols + [Repair(j)];
    }

    /** Once k distinct symbols are held, the elimination always succeeds and its result is the block. */
    method Decode(out: array<Byte>) returns (ok: bool)
      requires Valid() && t.Valid() && t.Apart(out) && out.Length == k * s
      modifies out
      ensures ok <==> |symbols| >= k
      ensures !ok ==> out[..] == old(out[..])
      ensures ok ==> exists x :: Carries(x) && out[..] == Flatten(x)
      ensures ok ==> forall x :: Carries(x) ==> out[..] == Flatten(x)
    {
      hide Mul, Add, Power, Dot, Eliminating, Equivalent, Solves, Kernel;
      if |coeffs| < k {
        return false;
      }
      var a := new Byte[k, k];
      var b := new Byte[k, s];
      CopyRows(coeffs, a);
      CopyRows(data, b);
      ghost var a0, b0 := coeffs, data;
      Mds(k, symbols, a0);
      EliminatingStart(a0, b0, k, s);
      var solved := Eliminate(t, a, b, a0, b0);
      if !solved {
        return false;
      }
      CopyOut(b, out);
      ok := true;
      EliminatedSolution(a0, b0, Rows(a), Rows(b), k, s);
      CarriesSolves();
    }

    lemma CarriesSolves()
      requires Valid() && |symbols| == k
      ensures forall x :: Carries(x) <==> Solves(coeffs, data, x, k, s)
    {
      hide Valid, Carries, Solves;
      forall x ensures Carries(x) <==> Solves(coeffs, data, x, k, s) {
        if Solves(coeffs, data, x, k, s) { SolutionCarries(x); }
        if Carries(x) { CarriedSolves(x); }
      }
    }

    lemma SolutionCarries(x: Matrix)
      requires Valid() && |symbols| == k && Solves(coeffs, data, x, k, s)
      ensures Carries(x)
    {
      hide Dot, CauchyRow, UnitRow;
      forall r | 0 <= r < k ensures data[r] == SymbolData(k, s, x, symbols[r]) {
        forall b | 0 <= b < s ensures data[r][b] == SymbolData(k, s, x, symbols[r])[b] {
          assert Dot(coeffs[r], Column(x, b)) == data[r][b];
        }
      }
    }

    lemma CarriedSolves(x: Matrix)
      requires Valid() && |symbols| == k && Carries(x)
      ensures Solves(coeffs, data, x, k, s)
    {
      hide Dot, CauchyRow, UnitRow;
      forall r, b | 0 <= r < k && 0 <= b < s ensures Dot(coeffs[r], Column(x, b)) == data[r][b] {
        assert data[r] == SymbolData(k, s, x, symbols[r]);
      }
    }
  }

  lemma EliminatingStart(a: Matrix, b: Matrix, k: nat, s: nat)
    requires Shape(a, k, k) && Shape(b, k, s)
    ensures Eliminating(a, b, a, b, k, s, 0)
  {
  }

  lemma EliminatedSolution(a0: Matrix, b0: Matrix, a: Matrix, b: Matrix, k: nat, s: nat)
    requires Eliminating(a0, b0, a, b, k, s, k)
    ensures Solves(a0, b0, b, k, s)
    ensures forall x :: Solves(a0, b0, x, k, s) ==> x == b
  {
    hide Solves, Kernel;
    ReducedSolution(a, b, k, s);
  }

  method CopyRows(m: Matrix, a: array2<Byte>)
    requires Shape(m, a.Length0, a.Length1)
    modifies a
    ensures Rows(a) == m
  {
    forall i, j | 0 <= i < a.Length0 && 0 <= j < a.Length1 {
      a[i, j] := m[i][j];
    }
    SameMatrix(Rows(a), m, a.Length0, a.Length1);
  }

  method CopyRow(b: array2<Byte>, i: nat, out: array<Byte>, off: nat)
    requires i < b.Length0 && off + b.Length1 <= out.Length
    modifies out
    ensures out[..off] == old(out[..off])
    ensures out[off..off + b.Length1] == Rows(b)[i]
  {
    var x := 0;
    while x < b.Length1
      invariant 0 <= x <= b.Length1
      invariant forall y :: 0 <= y < off ==> out[y] == old(out[y])
      invariant forall y :: 0 <= y < x ==> out[off + y] == b[i, y]
    {
      out[off + x] := b[i, x];
      x := x + 1;
    }
  }

  lemma RowFits(k: nat, s: nat, i: nat)
    requires i < k
    ensures i * s + s == (i + 1) * s <= k * s
  {
    assert (k - i - 1) * s >= 0;
    assert k * s == (i + 1) * s + (k - i - 1) * s;
  }

  /** Row i of the solution goes to the i-th stretch of the output. */
  method CopyOut(b: array2<Byte>, out: array<Byte>)
    requires out.Length == b.Length0 * b.Length1
    modifies out
    ensures out[..] == Flatten(Rows(b))
  {
    var k, s := b.Length0, b.Length1;
    ghost var m := Rows(b);
    var i, off := 0, 0;
    while i < k
      invariant 0 <= i <= k && off == i * s <= out.Length
      invariant out[..off] == Flatten(m[..i])
    {
      RowFits(k, s, i);
      ghost var before := out[..off];
      CopyRow(b, i, out, off);
      assert m[..i + 1][..i] == m[..i];
      assert out[..off + s] == before + m[i];
      i, off := i + 1, off + s;
    }
    assert m[..k] == m;
  }
}
