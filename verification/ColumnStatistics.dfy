/** Per-column statistics of a normalized report, gathered in one pass over its lines. */
module ColumnStatistics {
  import opened CreditModel
  import opened DecimalText
  import opened InsightModel
  import opened Permutations

  type Sheet = (int, string)

  datatype Line = Line(sheet: Sheet, values: map<string, Cell>)

  /** The columns that the profile declares for each sheet. */
  type Contract = map<Sheet, seq<string>>

  datatype Column = Column(filled: nat, blank: nat, numeric: Option<Stats>)

  const FRESH: Column := Column(0, 0, None)

  function Names(columns: seq<string>): set<string> { set c | c in columns }

  predicate Fits(contract: Contract, line: Line) {
    line.sheet in contract && line.values.Keys == Names(contract[line.sheet])
  }

  /** The snapshot parser: no currency, percent or grouping. */
  function CellNumber(c: Cell): Option<Decimal> {
    match c
    case Blank => None
    case Flag(_) => None
    case Number(n) => Some(if n < 0 then Decimal(true, -n, 0) else Decimal(false, n, 0))
    case Text(text) => SnapshotDecimal(text)
  }

  function Added(s: Option<Stats>, x: int): Option<Stats> {
    match s
    case None => Some(Stats(1, x, x, x))
    case Some(t) => Some(Stats(t.count + 1, t.total + x, Min(t.minimum, x), Max(t.maximum, x)))
  }

  function Observe(column: Column, c: Cell): Column {
    if c == Blank then column.(blank := column.blank + 1)
    else
      var number := CellNumber(c);
      Column(column.filled + 1, column.blank, if number.None? then column.numeric else Added(column.numeric, Scaled(number.value)))
  }

  /** One column on its own, over the lines of its sheet. */
  function ColumnOf(lines: seq<Line>, sheet: Sheet, name: string): Column {
    if lines == [] then FRESH
    else
      var before, line := ColumnOf(lines[..|lines| - 1], sheet, name), lines[|lines| - 1];
      if line.sheet == sheet && name in line.values then Observe(before, line.values[name]) else before
  }

  function LinesOf(lines: seq<Line>, sheet: Sheet): nat {
    if lines == [] then 0 else LinesOf(lines[..|lines| - 1], sheet) + if lines[|lines| - 1].sheet == sheet then 1 else 0
  }

  // ---------------------------------------------------------------- the plain reading

  function One(b: bool): int { if b then 1 else 0 }

  predicate IsFilled(line: Line, sheet: Sheet, name: string) {
    line.sheet == sheet && name in line.values && line.values[name] != Blank
  }

  predicate IsBlank(line: Line, sheet: Sheet, name: string) {
    line.sheet == sheet && name in line.values && line.values[name] == Blank
  }

  function ValueIn(line: Line, sheet: Sheet, name: string): Option<int> {
    if line.sheet != sheet || name !in line.values then None
    else
      match line.values[name]
      case Number(n) => Some(n * Pow10(20))
      case Text(text) => (match SnapshotDecimal(text) case None => None case Some(d) => Some(Scaled(d)))
      case _ => None
  }

  /** An integer counts as itself, in units of 10^-20. */
  lemma ValueOfCell(line: Line, sheet: Sheet, name: string)
    ensures ValueIn(line, sheet, name)
         == if line.sheet == sheet && name in line.values && CellNumber(line.values[name]).Some?
            then Some(Scaled(CellNumber(line.values[name]).value)) else None
  {
    hide SnapshotDecimal, Pow10;
  }

  function Counting(sheet: Sheet, name: string): Line -> int {
    (line: Line) => One(ValueIn(line, sheet, name).Some?)
  }

  function Valuing(sheet: Sheet, name: string): Line -> int {
    (line: Line) => if ValueIn(line, sheet, name).Some? then ValueIn(line, sheet, name).value else 0
  }

  ghost predicate NumericExact(s: Option<Stats>, lines: seq<Line>, sheet: Sheet, name: string) {
    match s
    case None => forall line | line in lines :: ValueIn(line, sheet, name) == None
    case Some(t) =>
      && t.count == SumBy(Counting(sheet, name), lines)
      && t.total == SumBy(Valuing(sheet, name), lines)
      && Within(t, lines, sheet, name)
  }

  ghost predicate ColumnExact(c: Column, lines: seq<Line>, sheet: Sheet, name: string) {
    && c.filled == SumBy((line: Line) => One(IsFilled(line, sheet, name)), lines)
    && c.blank == SumBy((line: Line) => One(IsBlank(line, sheet, name)), lines)
    && NumericExact(c.numeric, lines, sheet, name)
  }

  lemma NumericStep(s: Option<Stats>, lines: seq<Line>, line: Line, sheet: Sheet, name: string)
    requires NumericExact(s, lines, sheet, name)
    ensures var x := ValueIn(line, sheet, name);
      NumericExact(if x.Some? then Added(s, x.value) else s, lines + [line], sheet, name)
  {
    hide ValueIn;
    var next := lines + [line];
    var x := ValueIn(line, sheet, name);
    assert next[..|next| - 1] == lines && next[|next| - 1] == line;
    assert forall l :: l in next <==> l in lines || l == line;
    if s.None? {
      Nothing(lines, sheet, name);
      assert x.Some? ==> line in next;
    } else {
      var low :| low in lines && ValueIn(low, sheet, name) == Some(s.value.minimum);
      var high :| high in lines && ValueIn(high, sheet, name) == Some(s.value.maximum);
      assert low in next && high in next && line in next;
    }
  }

  lemma {:induction false} Nothing(lines: seq<Line>, sheet: Sheet, name: string)
    requires forall line | line in lines :: ValueIn(line, sheet, name) == None
    ensures SumBy(Counting(sheet, name), lines) == 0
    ensures SumBy(Valuing(sheet, name), lines) == 0
  {
    if lines != [] {
      assert lines[|lines| - 1] in lines;
      Nothing(lines[..|lines| - 1], sheet, name);
    }
  }

  /** A column's running statistics are plain counts, sums and extremes over the lines. */
  lemma {:induction false} ColumnIsExact(lines: seq<Line>, sheet: Sheet, name: string)
    ensures ColumnExact(ColumnOf(lines, sheet, name), lines, sheet, name)
  {
    if lines != [] {
      var before, line := lines[..|lines| - 1], lines[|lines| - 1];
      assert lines == before + [line];
      ColumnIsExact(before, sheet, name);
      NumericStep(ColumnOf(before, sheet, name).numeric, before, line, sheet, name);
      ValueOfCell(line, sheet, name);
      hide NumericExact, CellNumber, Scaled, ValueIn;
      assert CellNumber(Blank) == None by { BlankHasNoNumber(); }
    }
  }

  lemma BlankHasNoNumber()
    ensures CellNumber(Blank) == None
  {
  }

  /** A column's filled and blank cells are together the lines of its sheet. */
  lemma {:induction false} CellsAddUp(contract: Contract, lines: seq<Line>, sheet: Sheet, name: string)
    requires forall line | line in lines :: Fits(contract, line)
    requires sheet in contract && name in contract[sheet]
    ensures ColumnOf(lines, sheet, name).filled + ColumnOf(lines, sheet, name).blank == LinesOf(lines, sheet)
  {
    if lines != [] {
      assert Fits(contract, lines[|lines| - 1]);
      CellsAddUp(contract, lines[..|lines| - 1], sheet, name);
    }
  }

  ghost predicate Within(t: Stats, lines: seq<Line>, sheet: Sheet, name: string) {
    && (forall line | line in lines && ValueIn(line, sheet, name).Some? :: t.minimum <= ValueIn(line, sheet, name).value <= t.maximum)
    && (exists line | line in lines :: ValueIn(line, sheet, name) == Some(t.minimum))
    && (exists line | line in lines :: ValueIn(line, sheet, name) == Some(t.maximum))
  }

  lemma ExtremesUnique(a: Stats, b: Stats, lines: seq<Line>, others: seq<Line>, sheet: Sheet, name: string)
    requires Within(a, lines, sheet, name) && Within(b, others, sheet, name)
    requires forall line :: line in lines <==> line in others
    ensures a.minimum == b.minimum && a.maximum == b.maximum
  {
    hide ValueIn;
    var u :| u in lines && ValueIn(u, sheet, name) == Some(a.minimum);
    var v :| v in others && ValueIn(v, sheet, name) == Some(b.minimum);
    var x :| x in lines && ValueIn(x, sheet, name) == Some(a.maximum);
    var y :| y in others && ValueIn(y, sheet, name) == Some(b.maximum);
    assert u in others && v in lines && x in others && y in lines;
  }

  lemma StatsUnique(a: Option<Stats>, b: Option<Stats>, lines: seq<Line>, others: seq<Line>, sheet: Sheet, name: string)
    requires multiset(lines) == multiset(others)
    requires NumericExact(a, lines, sheet, name) && NumericExact(b, others, sheet, name)
    ensures a == b
  {
    MembersPermute(lines, others);
    SumByPermutes(Counting(sheet, name), lines, others);
    SumByPermutes(Valuing(sheet, name), lines, others);
    hide ValueIn, SumBy, Counting, Valuing;
    if a.Some? && b.Some? {
      ExtremesUnique(a.value, b.value, lines, others, sheet, name);
    }
  }

  /** The order of the lines changes no column. */
  lemma LineOrderIrrelevant(lines: seq<Line>, others: seq<Line>, sheet: Sheet, name: string)
    requires multiset(lines) == multiset(others)
    ensures ColumnOf(lines, sheet, name) == ColumnOf(others, sheet, name)
  {
    ColumnIsExact(lines, sheet, name);
    ColumnIsExact(others, sheet, name);
    SumByPermutes((line: Line) => One(IsFilled(line, sheet, name)), lines, others);
    SumByPermutes((line: Line) => One(IsBlank(line, sheet, name)), lines, others);
    hide NumericExact, ColumnOf, SumBy, IsFilled, IsBlank;
    StatsUnique(ColumnOf(lines, sheet, name).numeric, ColumnOf(others, sheet, name).numeric, lines, others, sheet, name);
  }

  // ---------------------------------------------------------------- the pass

  type Key = (Sheet, string)

  /** A sheet does not declare a column twice; the profile check sees to that. */
  ghost predicate Distinct(contract: Contract) {
    forall s, i, j | s in contract && 0 <= i < j < |contract[s]| :: contract[s][i] != contract[s][j]
  }

  /** The accumulators after some lines, one for each declared column. */
  ghost predicate Tracks(columns: map<Key, Column>, contract: Contract, lines: seq<Line>) {
    && (forall s, c :: (s, c) in columns <==> s in contract && c in contract[s])
    && (forall k | k in columns :: columns[k] == ColumnOf(lines, k.0, k.1))
  }

  /** Within a line: the columns handled so far are one line ahead. */
  ghost predicate Between(columns: map<Key, Column>, start: map<Key, Column>, line: Line, done: set<string>) {
    && columns.Keys == start.Keys
    && forall k | k in columns :: columns[k] ==
         if k.0 == line.sheet && k.1 in done && k.1 in line.values then Observe(start[k], line.values[k.1]) else start[k]
  }

  lemma LineDone(columns: map<Key, Column>, start: map<Key, Column>, contract: Contract, lines: seq<Line>, line: Line)
    requires Tracks(start, contract, lines) && Fits(contract, line)
    requires Between(columns, start, line, Names(contract[line.sheet]))
    ensures Tracks(columns, contract, lines + [line])
  {
    hide Observe;
    assert (lines + [line])[..|lines + [line]| - 1] == lines;
    forall k | k in columns ensures columns[k] == ColumnOf(lines + [line], k.0, k.1) {
      assert k == (k.0, k.1);
      assert k in start && k.0 in contract && k.1 in contract[k.0];
    }
    forall s, c ensures (s, c) in columns <==> s in contract && c in contract[s] {
      assert (s, c) in columns <==> (s, c) in start;
    }
  }

  lemma BetweenStep(columns: map<Key, Column>, start: map<Key, Column>, line: Line, names: seq<string>, i: nat)
    requires i < |names| && names[i] !in names[..i] && names[i] in line.values && (line.sheet, names[i]) in columns
    requires Between(columns, start, line, Names(names[..i]))
    ensures var k := (line.sheet, names[i]);
      Between(columns[k := Observe(columns[k], line.values[names[i]])], start, line, Names(names[..i + 1]))
  {
    hide Observe;
    assert Names(names[..i + 1]) == Names(names[..i]) + {names[i]} by {
      assert names[..i + 1] == names[..i] + [names[i]];
    }
    assert names[i] !in Names(names[..i]);
  }

  lemma BetweenNothing(columns: map<Key, Column>, line: Line, names: seq<string>)
    requires names == []
    ensures Between(columns, columns, line, Names(names))
  {
  }

  lemma Declared(columns: map<Key, Column>, contract: Contract, line: Line, lines: seq<Line>, i: nat)
    requires Tracks(columns, contract, lines) && Fits(contract, line) && Distinct(contract)
    requires i < |contract[line.sheet]|
    ensures var names := contract[line.sheet];
      (line.sheet, names[i]) in columns && names[i] in line.values && names[i] !in names[..i]
  {
    assert contract[line.sheet][i] in contract[line.sheet];
    assert contract[line.sheet][i] in Names(contract[line.sheet]);
  }

  method ObserveLine(columns: map<Key, Column>, contract: Contract, line: Line, ghost lines: seq<Line>) returns (next: map<Key, Column>)
    requires Tracks(columns, contract, lines) && Fits(contract, line) && Distinct(contract)
    ensures Tracks(next, contract, lines + [line])
  {
    SheetKnown(contract, line);
    hide Observe, ColumnOf, Fits, Tracks, Distinct, Names, Between;
    next := columns;
    var names := contract[line.sheet];
    var i := 0;
    BetweenNothing(columns, line, names[..0]);
    while i < |names|
      invariant 0 <= i <= |names|
      invariant next.Keys == columns.Keys && Between(next, columns, line, Names(names[..i]))
    {
      var k := (line.sheet, names[i]);
      Declared(columns, contract, line, lines, i);
      BetweenStep(next, columns, line, names, i);
      next := next[k := Observe(next[k], line.values[names[i]])];
      i := i + 1;
    }
    assert names[..i] == names;
    LineDone(next, columns, contract, lines, line);
  }

  function FreshColumns(contract: Contract): map<Key, Column> {
    map s, c | s in contract && c in contract[s] :: (s, c) := FRESH
  }

  function Zeroes(contract: Contract): map<Sheet, nat> { map s | s in contract :: 0 }

  /** The per-sheet line counters after some lines. */
  ghost predicate Counted(counts: map<Sheet, nat>, contract: Contract, lines: seq<Line>) {
    counts.Keys == contract.Keys && forall s | s in counts :: counts[s] == LinesOf(lines, s)
  }

  lemma CountNext(counts: map<Sheet, nat>, contract: Contract, lines: seq<Line>, line: Line)
    requires Counted(counts, contract, lines) && line.sheet in counts
    ensures Counted(counts[line.sheet := counts[line.sheet] + 1], contract, lines + [line])
  {
    assert (lines + [line])[..|lines + [line]| - 1] == lines;
  }

  lemma CountNone(contract: Contract)
    ensures Counted(Zeroes(contract), contract, []) && Zeroes(contract).Keys == contract.Keys
  {
  }

  /**
    The whole pass. It succeeds exactly when every line fits the declared columns and the line counts are those the
    job and the profile announce; then each column holds its statistics.
    */
  method Aggregate(contract: Contract, expected: map<Sheet, nat>, records: int, lines: seq<Line>)
    returns (result: Option<map<Key, Column>>)
    requires Distinct(contract) && forall s | s in contract :: s in expected
    ensures result.Some? <==>
      && (forall i | 0 <= i < |lines| :: Fits(contract, lines[i]))
      && |lines| == records
      && (forall s | s in contract :: LinesOf(lines, s) == expected[s])
    ensures result.Some? ==> Tracks(result.value, contract, lines)
  {
    hide Fits, Tracks, LinesOf, Distinct, Counted, FreshColumns, Zeroes;
    var columns := FreshColumns(contract);
    var counts := Zeroes(contract);
    var total := 0;
    FreshTracks(contract);
    CountNone(contract);
    var i := 0;
    assert lines[..0] == [];
    while i < |lines|
      invariant 0 <= i <= |lines| && total == i
      invariant forall j | 0 <= j < i :: Fits(contract, lines[j])
      invariant counts.Keys == contract.Keys && Counted(counts, contract, lines[..i])
      invariant Tracks(columns, contract, lines[..i])
    {
      if !Fits(contract, lines[i]) {
        return None;
      }
      SheetKnown(contract, lines[i]);
      assert lines[..i + 1] == lines[..i] + [lines[i]];
      columns := ObserveLine(columns, contract, lines[i], lines[..i]);
      CountNext(counts, contract, lines[..i], lines[i]);
      counts := counts[lines[i].sheet := counts[lines[i].sheet] + 1];
      total := total + 1;
      i := i + 1;
    }
    assert lines[..i] == lines;
    CountsAgree(counts, contract, lines);
    if total != records || exists s | s in contract :: counts[s] != expected[s] {
      return None;
    }
    result := Some(columns);
  }

  lemma CountsAgree(counts: map<Sheet, nat>, contract: Contract, lines: seq<Line>)
    requires Counted(counts, contract, lines)
    ensures forall s | s in contract :: s in counts && counts[s] == LinesOf(lines, s)
  {
  }

  lemma FreshTracks(contract: Contract)
    ensures Tracks(FreshColumns(contract), contract, [])
  {
  }

  lemma SheetKnown(contract: Contract, line: Line)
    requires Fits(contract, line)
    ensures line.sheet in contract
  {
  }
}
