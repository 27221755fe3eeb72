/**
 * The feature computation shared by the three predictors
 * (`load_and_preprocess_data`): column-name normalisation, the timestamp index,
 * the five-row rolling averages, the two-row threshold flags and the `target`
 * column. A table is a sequence of named columns; a missing value (pandas NaN)
 * is `None`. The thresholds are inputs, `None` standing for a NaN threshold.
 */
module Features {
  import opened Wrappers
  import opened Text

  /** One column of the table; `numeric` is whether pandas reads it with a numeric dtype. */
  datatype Column = Column(name: string, numeric: bool, cells: seq<Option<real>>)

  /** The exceptions `load_and_preprocess_data` lets escape. */
  datatype Failure = KeyError(key: string) | TypeError(key: string)

  datatype Prep = Prepared(columns: seq<Column>) | Failed(error: Failure)

  /** The CPU, memory and restart thresholds; `None` is a NaN threshold, which no value exceeds. */
  datatype Thresholds = Thresholds(cpu: Option<real>, memory: Option<real>, restart: Option<real>)

  /** Every column has one cell per row. */
  predicate Rectangular(cols: seq<Column>, rows: nat) {
    forall i :: 0 <= i < |cols| ==> |cols[i].cells| == rows
  }

  /** `name in df.columns`. */
  predicate HasColumn(cols: seq<Column>, name: string) {
    exists j :: 0 <= j < |cols| && cols[j].name == name
  }

  /** The position of the first column called `name` (pandas' `df[name]` on unique labels). */
  function Find(cols: seq<Column>, name: string): (r: Option<nat>)
    ensures r.None? <==> !HasColumn(cols, name)
    ensures r.Some? ==> r.value < |cols| && cols[r.value].name == name
                        && forall j :: 0 <= j < r.value ==> cols[j].name != name
  {
    if cols == [] then None
    else if cols[0].name == name then Some(0)
    else
      var rest := Find(cols[1..], name);
      assert forall j :: 1 <= j < |cols| ==> cols[j] == cols[1..][j - 1];
      if rest.None? then None else Some(rest.value + 1)
  }

  /** The first column of that name is the one `Find` returns. */
  lemma FindIs(cols: seq<Column>, name: string, k: nat)
    requires k < |cols| && cols[k].name == name && forall j :: 0 <= j < k ==> cols[j].name != name
    ensures Find(cols, name) == Some(k)
  {
  }

  // ---------------------------------------------------------------------
  // Column names and the timestamp index

  /** `df.columns.str.strip().str.replace(r'\s+', '_').str.lower()`. */
  function Renamed(cols: seq<Column>): (r: seq<Column>)
    ensures |r| == |cols|
    ensures forall i :: 0 <= i < |cols| ==>
      r[i] == Column(NormalizeName(cols[i].name), cols[i].numeric, cols[i].cells)
  {
    seq(|cols|, i requires 0 <= i < |cols| => Column(NormalizeName(cols[i].name), cols[i].numeric, cols[i].cells))
  }

  /** Normalised names are already normalised. */
  lemma RenamedIsStable(cols: seq<Column>)
    ensures Renamed(Renamed(cols)) == Renamed(cols)
  {
    forall i | 0 <= i < |cols|
      ensures Renamed(Renamed(cols))[i] == Renamed(cols)[i]
    {
      NormalizeIdempotent(cols[i].name);
    }
  }

  /** `df.set_index("timestamp")`: the column at `k` leaves the table. */
  function Without(cols: seq<Column>, k: nat): (r: seq<Column>)
    requires k < |cols|
    ensures |r| == |cols| - 1
    ensures forall j :: 0 <= j < |r| ==> r[j] == (if j < k then cols[j] else cols[j + 1])
  {
    cols[..k] + cols[k + 1..]
  }

  // ---------------------------------------------------------------------
  // Rolling means: rolling(window=5, min_periods=1).mean()

  /** The values of `w` that are present, in order. */
  function Present(w: seq<Option<real>>): (r: seq<real>)
    ensures |r| <= |w|
    ensures forall v :: v in r ==> Some(v) in w
    ensures r == [] <==> forall j :: 0 <= j < |w| ==> w[j].None?
    decreases |w|
  {
    if w == [] then []
    else
      var before := Present(w[..|w| - 1]);
      assert forall v :: Some(v) in w[..|w| - 1] ==> Some(v) in w;
      if w[|w| - 1].Some? then before + [w[|w| - 1].value] else before
  }

  function Sum(xs: seq<real>): real
    decreases |xs|
  {
    if xs == [] then 0.0 else Sum(xs[..|xs| - 1]) + xs[|xs| - 1]
  }

  /** The mean of the present values; NaN (`None`) when there is none. */
  function Mean(xs: seq<real>): Option<real> {
    if xs == [] then None else Some(Sum(xs) / (|xs| as real))
  }

  /** The first row of the five-row window ending at row `i`. */
  function WindowStart(i: nat): nat {
    if i >= 4 then i - 4 else 0
  }

  /** The `<col>_avg` column: at each row, the mean of the present values of the last five rows. */
  function RollingMean(x: seq<Option<real>>): (r: seq<Option<real>>)
    ensures |r| == |x|
  {
    seq(|x|, i requires 0 <= i < |x| => Mean(Present(x[WindowStart(i)..i + 1])))
  }

  /** The first row's average is the first row's value. */
  lemma RollingMeanFirstRow(x: seq<Option<real>>)
    requires |x| > 0
    ensures RollingMean(x)[0] == x[0]
  {
    var w := x[WindowStart(0)..1];
    assert w == [x[0]] && w[..0] == [];
    if x[0].Some? {
      assert Present(w) == [x[0].value];
      assert Sum([x[0].value]) == x[0].value by {
        assert [x[0].value][..0] == [];
      }
    }
  }

  /** The average is missing exactly when the whole window is missing. */
  lemma RollingMeanMissing(x: seq<Option<real>>, i: nat)
    requires i < |x|
    ensures RollingMean(x)[i].None? <==> forall j :: WindowStart(i) <= j <= i ==> x[j].None?
  {
    var w := x[WindowStart(i)..i + 1];
    assert forall j :: WindowStart(i) <= j <= i ==> w[j - WindowStart(i)] == x[j];
  }

  lemma {:induction false} SumBounds(xs: seq<real>, lo: real, hi: real)
    requires forall v :: v in xs ==> lo <= v <= hi
    ensures lo * (|xs| as real) <= Sum(xs) <= hi * (|xs| as real)
    decreases |xs|
  {
    if xs != [] {
      var init := xs[..|xs| - 1];
      assert forall v :: v in init ==> v in xs;
      SumBounds(init, lo, hi);
      assert xs[|xs| - 1] in xs;
    }
  }

  /** The average lies between the smallest and the largest present value of its window. */
  lemma RollingMeanBounds(x: seq<Option<real>>, i: nat, lo: real, hi: real)
    requires i < |x|
    requires forall j :: WindowStart(i) <= j <= i && x[j].Some? ==> lo <= x[j].value <= hi
    ensures RollingMean(x)[i].Some? ==> lo <= RollingMean(x)[i].value <= hi
  {
    var w := x[WindowStart(i)..i + 1];
    forall j | 0 <= j < |w| && w[j].Some?
      ensures lo <= w[j].value <= hi
    {
      assert w[j] == x[WindowStart(i) + j];
    }
    PresentWithin(w, lo, hi);
    var p := Present(w);
    assert RollingMean(x)[i] == Mean(p);
    if p != [] {
      MeanWithin(p, lo, hi);
    }
  }

  /** A mean lies between bounds of the values averaged. */
  lemma MeanWithin(p: seq<real>, lo: real, hi: real)
    requires p != [] && forall v :: v in p ==> lo <= v <= hi
    ensures lo <= Mean(p).value <= hi
  {
    SumBounds(p, lo, hi);
    DivBounds(Sum(p), |p| as real, lo, hi);
  }

  lemma PresentWithin(w: seq<Option<real>>, lo: real, hi: real)
    requires forall j :: 0 <= j < |w| && w[j].Some? ==> lo <= w[j].value <= hi
    ensures forall v :: v in Present(w) ==> lo <= v <= hi
  {
    forall v | v in Present(w)
      ensures lo <= v <= hi
    {
      assert Some(v) in w;
    }
  }

  lemma DivBounds(s: real, n: real, lo: real, hi: real)
    requires n > 0.0 && lo * n <= s <= hi * n
    ensures lo <= s / n <= hi
  {
    assert s / n * n == s;
  }

  // ---------------------------------------------------------------------
  // Failure flags: rolling(window=2).apply(np.any(x > t)).fillna(False)

  function Exceeds(v: real, t: Option<real>): bool {
    t.Some? && v > t.value
  }

  /**
   * The two-row window's result before `fillna`: NaN (`None`) at row 0 and
   * wherever a value of the window is missing (the window needs two values),
   * otherwise whether some value of the window exceeds the threshold.
   */
  function PairApply(x: seq<Option<real>>, t: Option<real>, i: nat): Option<bool>
    requires i < |x|
  {
    if i < 1 then None
    else
      var p := Present(x[i - 1..i + 1]);
      if |p| < 2 then None else Some(exists j :: 0 <= j < |p| && Exceeds(p[j], t))
  }

  /** A failure-flag column, NaN filled with `False`. */
  function Flags(x: seq<Option<real>>, t: Option<real>): (r: seq<bool>)
    ensures |r| == |x|
  {
    seq(|x|, i requires 0 <= i < |x| => PairApply(x, t, i).GetOr(false))
  }

  /**
   * The flag rule: false at row 0; at a later row, true exactly when both rows
   * of the pair are present and one of them exceeds the threshold.
   */
  lemma FlagRule(x: seq<Option<real>>, t: Option<real>, i: nat)
    requires i < |x|
    ensures Flags(x, t)[i] <==> i >= 1 && x[i - 1].Some? && x[i].Some?
                                && (Exceeds(x[i - 1].value, t) || Exceeds(x[i].value, t))
  {
    if i >= 1 {
      var w := x[i - 1..i + 1];
      assert w == [x[i - 1], x[i]];
      PresentPair(x[i - 1], x[i]);
      var p := Present(w);
      assert Flags(x, t)[i] == PairApply(x, t, i).GetOr(false);
      if |p| == 2 {
        assert (exists j :: 0 <= j < |p| && Exceeds(p[j], t)) <==> Exceeds(p[0], t) || Exceeds(p[1], t);
      }
    }
  }

  lemma PresentPair(a: Option<real>, b: Option<real>)
    ensures Present([a, b]) == (if a.Some? then [a.value] else []) + (if b.Some? then [b.value] else [])
  {
    assert [a, b][..1] == [a];
    assert [a][..0] == [];
  }

  /** A NaN threshold flags no row. */
  lemma NaNThresholdFlagsNothing(x: seq<Option<real>>)
    ensures forall i :: 0 <= i < |x| ==> !Flags(x, None)[i]
  {
    forall i | 0 <= i < |x|
      ensures !Flags(x, None)[i]
    {
      FlagRule(x, None, i);
    }
  }

  /** Two readings 0.1 then 0.99 against a threshold of 0.5: only the second row is flagged. */
  lemma TwoRowExample()
    ensures Flags([Some(0.1), Some(0.99)], Some(0.5)) == [false, true]
  {
    var x := [Some(0.1), Some(0.99)];
    FlagRule(x, Some(0.5), 0);
    FlagRule(x, Some(0.5), 1);
  }

  /** A boolean column stored as 1.0 / 0.0. */
  function BoolCells(b: seq<bool>): (r: seq<Option<real>>)
    ensures |r| == |b| && forall i :: 0 <= i < |b| ==> r[i] == Some(if b[i] then 1.0 else 0.0)
  {
    seq(|b|, i requires 0 <= i < |b| => Some(if b[i] then 1.0 else 0.0))
  }

  /** `column > 0`, NaN comparing false. */
  function Positive(c: Option<real>): bool {
    c.Some? && c.value > 0.0
  }

  /**
   * `((a > 0) | (b > 0) | (c > 0)).astype(int)`. The columns of a table have
   * equal lengths; the model cuts to the shortest.
   */
  function TargetCells(a: seq<Option<real>>, b: seq<Option<real>>, c: seq<Option<real>>): (r: seq<Option<real>>)
    ensures |r| == Min(|a|, Min(|b|, |c|))
  {
    seq(Min(|a|, Min(|b|, |c|)), i requires 0 <= i < Min(|a|, Min(|b|, |c|)) =>
      Some(if Positive(a[i]) || Positive(b[i]) || Positive(c[i]) then 1.0 else 0.0))
  }

  function Min(x: nat, y: nat): nat {
    if x <= y then x else y
  }

  /** On flag columns, the target is 1 exactly when one of the three flags is set. */
  lemma TargetOfFlags(a: seq<bool>, b: seq<bool>, c: seq<bool>)
    requires |a| == |b| == |c|
    ensures |TargetCells(BoolCells(a), BoolCells(b), BoolCells(c))| == |a|
    ensures forall i :: 0 <= i < |a| ==>
      TargetCells(BoolCells(a), BoolCells(b), BoolCells(c))[i] == Some(if a[i] || b[i] || c[i] then 1.0 else 0.0)
  {
  }

  // ---------------------------------------------------------------------
  // Setting and reading columns

  /** `df[name] = cells`: replaces the first column of that name, or appends a new one. */
  function SetColumn(cols: seq<Column>, name: string, cells: seq<Option<real>>): (r: seq<Column>)
    ensures HasColumn(r, name)
  {
    var k := Find(cols, name);
    if k.Some? then
      var r := cols[k.value := Column(name, true, cells)];
      assert r[k.value].name == name;
      r
    else
      var r := cols + [Column(name, true, cells)];
      assert r[|cols|].name == name;
      r
  }

  /** Reading back the column just set gives its cells; other names read as before. */
  lemma SetThenFind(cols: seq<Column>, name: string, cells: seq<Option<real>>, other: string)
    ensures var r := SetColumn(cols, name, cells);
            Find(r, name).Some? && r[Find(r, name).value] == Column(name, true, cells)
    ensures other != name ==>
              Find(SetColumn(cols, name, cells), other) == Find(cols, other)
              && (Find(cols, other).Some? ==>
                    SetColumn(cols, name, cells)[Find(cols, other).value] == cols[Find(cols, other).value])
  {
    var r := SetColumn(cols, name, cells);
    var k := Find(cols, name);
    if k.Some? {
      FindIs(r, name, k.value);
      FindSameNames(cols, r, other);
    } else {
      FindAfterAppend(cols, Column(name, true, cells), name);
      FindAfterAppend(cols, Column(name, true, cells), other);
    }
  }

  lemma FindSameNames(a: seq<Column>, b: seq<Column>, name: string)
    requires |a| == |b| && forall j :: 0 <= j < |a| ==> a[j].name == b[j].name
    ensures Find(a, name) == Find(b, name)
  {
    var k := Find(a, name);
    if k.Some? {
      FindIs(b, name, k.value);
    }
  }

  /** Appending a column does not change where an existing name is found. */
  lemma FindAfterAppend(a: seq<Column>, c: Column, name: string)
    ensures Find(a + [c], name)
         == if HasColumn(a, name) then Find(a, name) else if c.name == name then Some(|a|) else None
  {
    var ac := a + [c];
    if HasColumn(a, name) {
      FindIs(ac, name, Find(a, name).value);
    } else if c.name == name {
      FindIs(ac, name, |a|);
    } else {
      assert forall j :: 0 <= j < |a| ==> ac[j] == a[j];
    }
  }

  // ---------------------------------------------------------------------
  // The rolling-average loop

  function AvgName(name: string): string {
    name + "_avg"
  }

  /**
   * The table after the loop has visited the first `k` columns of `base` (the
   * numeric columns at the start of the loop): a visited numeric column gets a
   * `<name>_avg` column appended unless a column of that name already exists.
   */
  function Averaged(base: seq<Column>, k: nat): (r: seq<Column>)
    requires k <= |base|
    ensures |base| <= |r| <= |base| + k
    decreases k
  {
    if k == 0 then base
    else
      var before := Averaged(base, k - 1);
      var c := base[k - 1];
      if c.numeric && !HasColumn(before, AvgName(c.name)) then
        before + [Column(AvgName(c.name), true, RollingMean(c.cells))]
      else before
  }

  /** Existing columns, `_avg` ones included, are never overwritten: the loop only appends. */
  lemma {:induction false} AveragedKeepsColumns(base: seq<Column>, k: nat)
    requires k <= |base|
    ensures Averaged(base, k)[..|base|] == base
    decreases k
  {
    if k > 0 {
      AveragedKeepsColumns(base, k - 1);
      var before := Averaged(base, k - 1);
      assert forall c :: (before + [c])[..|base|] == before[..|base|];
    }
  }

  /** Every appended column is the rolling mean of a visited numeric column whose `_avg` was absent. */
  lemma {:induction false} AveragedOnlyAdds(base: seq<Column>, k: nat, p: nat)
    requires k <= |base| && |base| <= p < |Averaged(base, k)|
    ensures exists j :: 0 <= j < k && base[j].numeric && !HasColumn(base, AvgName(base[j].name))
                        && Averaged(base, k)[p] == Column(AvgName(base[j].name), true, RollingMean(base[j].cells))
    decreases k
  {
    var before := Averaged(base, k - 1);
    AveragedKeepsColumns(base, k - 1);
    if p < |before| {
      AveragedOnlyAdds(base, k - 1, p);
      var j :| 0 <= j < k - 1 && base[j].numeric && !HasColumn(base, AvgName(base[j].name))
               && before[p] == Column(AvgName(base[j].name), true, RollingMean(base[j].cells));
      assert Averaged(base, k)[p] == before[p];
    } else {
      assert !HasColumn(base, AvgName(base[k - 1].name));
    }
  }

  predicate DistinctNames(cols: seq<Column>) {
    forall i, j :: 0 <= i < j < |cols| ==> cols[i].name != cols[j].name
  }

  lemma AvgNameInjective(a: string, b: string)
    requires AvgName(a) == AvgName(b)
    ensures a == b
  {
    assert a == AvgName(a)[..|a|];
    assert b == AvgName(b)[..|b|];
  }

  /**
   * With distinct column names, each visited numeric column `c` without a
   * `c_avg` column gains one holding its rolling mean.
   */
  lemma {:induction false} AveragedAdds(base: seq<Column>, k: nat, j: nat)
    requires DistinctNames(base) && j < k <= |base|
    requires base[j].numeric && !HasColumn(base, AvgName(base[j].name))
    ensures Column(AvgName(base[j].name), true, RollingMean(base[j].cells)) in Averaged(base, k)
    decreases k
  {
    var before := Averaged(base, k - 1);
    var col := Column(AvgName(base[j].name), true, RollingMean(base[j].cells));
    if j < k - 1 {
      AveragedAdds(base, k - 1, j);
    } else {
      assert !HasColumn(before, AvgName(base[j].name)) by {
        if HasColumn(before, AvgName(base[j].name)) {
          var p :| 0 <= p < |before| && before[p].name == AvgName(base[j].name);
          AveragedKeepsColumns(base, k - 1);
          if p >= |base| {
            AveragedOnlyAdds(base, k - 1, p);
            var q :| 0 <= q < k - 1 && base[q].numeric && !HasColumn(base, AvgName(base[q].name))
                     && before[p] == Column(AvgName(base[q].name), true, RollingMean(base[q].cells));
            AvgNameInjective(base[q].name, base[j].name);
          }
        }
      }
      assert Averaged(base, k) == before + [col];
    }
  }

  // ---------------------------------------------------------------------
  // load_and_preprocess_data

  datatype Result<T> = Ok(value: T) | Err(error: Failure)

  /**
   * The column read for a threshold: a missing column raises `KeyError`,
   * a non-numeric one `TypeError` (its mean cannot be taken).
   */
  function Metric(cols: seq<Column>, name: string): (r: Result<seq<Option<real>>>)
    ensures r.Ok? <==> Find(cols, name).Some? && cols[Find(cols, name).value].numeric
    ensures r.Ok? ==> r.value == cols[Find(cols, name).value].cells
    ensures r.Err? ==> r.error == (if HasColumn(cols, name) then TypeError(name) else KeyError(name))
  {
    var k := Find(cols, name);
    if k.None? then Err(KeyError(name))
    else if !cols[k.value].numeric then Err(TypeError(name))
    else Ok(cols[k.value].cells)
  }

  /** The three threshold reads, in the order the thresholds are computed; the first failure escapes. */
  function Metrics(cols: seq<Column>): (r: Result<(seq<Option<real>>, seq<Option<real>>, seq<Option<real>>)>)
    ensures r.Err? ==> r.error.key == "cpu_usage" || r.error.key == "memory_usage"
                       || r.error.key == "container_restarts_avg"
    ensures r.Ok? ==> Metric(cols, "cpu_usage").Ok? && Metric(cols, "memory_usage").Ok?
                      && Metric(cols, "container_restarts_avg").Ok?
                      && r.value == (Metric(cols, "cpu_usage").value, Metric(cols, "memory_usage").value,
                                     Metric(cols, "container_restarts_avg").value)
  {
    var cpu := Metric(cols, "cpu_usage");
    var memory := Metric(cols, "memory_usage");
    var restarts := Metric(cols, "container_restarts_avg");
    if cpu.Err? then Err(cpu.error)
    else if memory.Err? then Err(memory.error)
    else if restarts.Err? then Err(restarts.error)
    else Ok((cpu.value, memory.value, restarts.value))
  }

  /** The cells of the first column called `name`, empty when there is none. */
  function Cells(cols: seq<Column>, name: string): (r: seq<Option<real>>)
    ensures HasColumn(cols, name) ==> r == cols[Find(cols, name).value].cells
  {
    var k := Find(cols, name);
    if k.Some? then cols[k.value].cells else []
  }

  /** The three flag columns, then `target` computed from the flag columns as read back. */
  function WithFlags(cols: seq<Column>, cpu: seq<Option<real>>, memory: seq<Option<real>>,
                     restarts: seq<Option<real>>, t: Thresholds): seq<Column>
  {
    var c1 := SetColumn(cols, "cpu_failure", BoolCells(Flags(cpu, t.cpu)));
    var c2 := SetColumn(c1, "memory_failure", BoolCells(Flags(memory, t.memory)));
    var c3 := SetColumn(c2, "restart_failure", BoolCells(Flags(restarts, t.restart)));
    SetColumn(c3, "target", TargetCells(Cells(c3, "cpu_failure"), Cells(c3, "memory_failure"), Cells(c3, "restart_failure")))
  }

  /** Everything after the rolling averages. */
  function Flagged(cols: seq<Column>, t: Thresholds): (r: Prep)
    ensures r.Failed? <==> Metrics(cols).Err?
    ensures r.Failed? ==> r.error == Metrics(cols).error
  {
    var m := Metrics(cols);
    if m.Err? then Failed(m.error) else Prepared(WithFlags(cols, m.value.0, m.value.1, m.value.2, t))
  }

  /**
   * The renamed table indexed by its timestamp column, `None` for the
   * `KeyError` when no column is called "timestamp" after renaming.
   */
  function Indexed(cols: seq<Column>): (r: Option<seq<Column>>)
    ensures r.None? <==> forall i :: 0 <= i < |cols| ==> NormalizeName(cols[i].name) != "timestamp"
  {
    var named := Renamed(cols);
    var k := Find(named, "timestamp");
    if k.None? then
      assert forall i :: 0 <= i < |cols| ==> named[i].name == NormalizeName(cols[i].name);
      None
    else Some(Without(named, k.value))
  }

  /** `load_and_preprocess_data` on the table as read from the CSV file. */
  function Preprocess(cols: seq<Column>, t: Thresholds): Prep {
    var indexed := Indexed(cols);
    if indexed.None? then Failed(KeyError("timestamp"))
    else Flagged(Averaged(indexed.value, |indexed.value|), t)
  }

  /** Without a column whose normalised name is "timestamp" the table is rejected. */
  lemma NoTimestampRejected(cols: seq<Column>, t: Thresholds)
    ensures Preprocess(cols, t) == Failed(KeyError("timestamp"))
        <==> forall i :: 0 <= i < |cols| ==> NormalizeName(cols[i].name) != "timestamp"
  {
    var indexed := Indexed(cols);
    if indexed.Some? {
      var r := Flagged(Averaged(indexed.value, |indexed.value|), t);
      assert r.Failed? ==> r.error.key != "timestamp";
    }
  }

  /**
   * On a table whose three metric columns can be read, `target` is 1 exactly
   * at the rows where the CPU, memory or restart flag is set, each flag
   * following `FlagRule` on its metric column.
   */
  lemma TargetIsAnyFlag(cols: seq<Column>, rows: nat, t: Thresholds)
    requires Rectangular(cols, rows) && Metrics(cols).Ok?
    ensures var r := Flagged(cols, t).columns;
            var m := Metrics(cols).value;
            r == WithFlags(cols, m.0, m.1, m.2, t) && Find(r, "target").Some?
            && |r[Find(r, "target").value].cells| == rows
            && forall i :: 0 <= i < rows ==>
                 r[Find(r, "target").value].cells[i]
                 == Some(if Flags(m.0, t.cpu)[i] || Flags(m.1, t.memory)[i] || Flags(m.2, t.restart)[i]
                         then 1.0 else 0.0)
  {
    var m := Metrics(cols).value;
    var f1, f2, f3 := BoolCells(Flags(m.0, t.cpu)), BoolCells(Flags(m.1, t.memory)), BoolCells(Flags(m.2, t.restart));
    var c1 := SetColumn(cols, "cpu_failure", f1);
    var c2 := SetColumn(c1, "memory_failure", f2);
    var c3 := SetColumn(c2, "restart_failure", f3);
    SetThenFind(cols, "cpu_failure", f1, "memory_failure");
    SetThenFind(c1, "memory_failure", f2, "cpu_failure");
    SetThenFind(c2, "restart_failure", f3, "cpu_failure");
    SetThenFind(c2, "restart_failure", f3, "memory_failure");
    assert Cells(c3, "cpu_failure") == f1 && Cells(c3, "memory_failure") == f2 && Cells(c3, "restart_failure") == f3;
    SetThenFind(c3, "target", TargetCells(f1, f2, f3), "target");
    assert |m.0| == rows && |m.1| == rows && |m.2| == rows;
    TargetOfFlags(Flags(m.0, t.cpu), Flags(m.1, t.memory), Flags(m.2, t.restart));
  }

  // ---------------------------------------------------------------------
  // The table as pandas holds it, changed in place

  class Frame {
    var columns: seq<Column>
    const rows: nat

    ghost predicate Valid()
      reads this
    {
      Rectangular(columns, rows)
    }

    constructor(columns: seq<Column>, rows: nat)
      requires Rectangular(columns, rows)
      ensures Valid() && this.columns == columns && this.rows == rows
    {
      this.columns := columns;
      this.rows := rows;
    }

    /** `df.columns = df.columns.str.strip().str.replace(...).str.lower()`. */
    method NormalizeColumnNames()
      requires Valid()
      modifies this
      ensures Valid() && columns == Renamed(old(columns))
    {
      columns := Renamed(columns);
    }

    /** `df.set_index("timestamp", inplace=True)`; `false` is the `KeyError`. */
    method SetTimestampIndex() returns (found: bool)
      requires Valid()
      modifies this
      ensures Valid()
      ensures found <==> Find(old(columns), "timestamp").Some?
      ensures found ==> columns == Without(old(columns), Find(old(columns), "timestamp").value)
      ensures !found ==> columns == old(columns)
    {
      var k := Find(columns, "timestamp");
      found := k.Some?;
      if found {
        columns := Without(columns, k.value);
      }
    }

    /** The rolling-average loop over the numeric columns present when it starts. */
    method AddRollingAverages()
      requires Valid()
      modifies this
      ensures Valid() && columns == Averaged(old(columns), |old(columns)|)
    {
      var numericCols := columns;
      for k := 0 to |numericCols|
        invariant columns == Averaged(numericCols, k)
        invariant Valid()
      {
        var c := numericCols[k];
        if c.numeric && !HasColumn(columns, AvgName(c.name)) {
          columns := columns + [Column(AvgName(c.name), true, RollingMean(c.cells))];
        }
      }
    }

    /** `df[name] = cells`. */
    method AssignColumn(name: string, cells: seq<Option<real>>)
      requires Valid() && |cells| == rows
      modifies this
      ensures Valid() && columns == SetColumn(old(columns), name, cells)
    {
      var k := Find(columns, name);
      if k.Some? {
        columns := columns[k.value := Column(name, true, cells)];
      } else {
        columns := columns + [Column(name, true, cells)];
      }
    }

    /** The threshold reads, the three flag columns and `target`; `Some` is the exception raised. */
    method AddFailureFlags(t: Thresholds) returns (error: Option<Failure>)
      requires Valid()
      modifies this
      ensures Valid()
      ensures error.None? <==> Flagged(old(columns), t).Prepared?
      ensures error.None? ==> columns == Flagged(old(columns), t).columns
      ensures error.Some? ==> Flagged(old(columns), t) == Failed(error.value)
    {
      var cpu := Metric(columns, "cpu_usage");
      var memory := Metric(columns, "memory_usage");
      var restarts := Metric(columns, "container_restarts_avg");
      if cpu.Err? {
        return Some(cpu.error);
      }
      if memory.Err? {
        return Some(memory.error);
      }
      if restarts.Err? {
        return Some(restarts.error);
      }
      AddFlagColumns(cpu.value, memory.value, restarts.value, t);
      error := None;
    }

    /** The three `df[...] = ...rolling(window=2)...` assignments and `df['target'] = ...`. */
    method AddFlagColumns(cpu: seq<Option<real>>, memory: seq<Option<real>>, restarts: seq<Option<real>>,
                          t: Thresholds)
      requires Valid() && |cpu| == rows && |memory| == rows && |restarts| == rows
      modifies this
      ensures Valid() && columns == WithFlags(old(columns), cpu, memory, restarts, t)
    {
      var f1, f2, f3 := BoolCells(Flags(cpu, t.cpu)), BoolCells(Flags(memory, t.memory)), BoolCells(Flags(restarts, t.restart));
      ghost var c0 := columns;
      AssignColumn("cpu_failure", f1);
      ghost var c1 := columns;
      AssignColumn("memory_failure", f2);
      ghost var c2 := columns;
      AssignColumn("restart_failure", f3);
      SetThenFind(c0, "cpu_failure", f1, "memory_failure");
      SetThenFind(c1, "memory_failure", f2, "cpu_failure");
      SetThenFind(c2, "restart_failure", f3, "cpu_failure");
      SetThenFind(c2, "restart_failure", f3, "memory_failure");
      var a, b, c := Cells(columns, "cpu_failure"), Cells(columns, "memory_failure"), Cells(columns, "restart_failure");
      assert a == f1 && b == f2 && c == f3;
      AssignColumn("target", TargetCells(a, b, c));
    }

    /** `load_and_preprocess_data` after the CSV has been read into this frame. */
    method LoadAndPreprocess(t: Thresholds) returns (error: Option<Failure>)
      requires Valid()
      modifies this
      ensures Valid()
      ensures error.None? <==> Preprocess(old(columns), t).Prepared?
      ensures error.None? ==> columns == Preprocess(old(columns), t).columns
      ensures error.Some? ==> Preprocess(old(columns), t) == Failed(error.value)
    {
      NormalizeColumnNames();
      var found := SetTimestampIndex();
      assert found <==> Indexed(old(columns)).Some?;
      if !found {
        return Some(KeyError("timestamp"));
      }
      AddRollingAverages();
      error := AddFailureFlags(t);
    }
  }
}
