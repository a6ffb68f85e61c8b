/**
 * The Flask handlers of backend/app.py over the dataset loaded at start-up:
 * `get_data` narrows the rows by the optional query arguments and projects
 * them onto eleven columns, `get_summary` counts, `health_check` reports
 * whether anything was loaded. The module-global DataFrame is a parameter.
 */
module Backend {
  import opened Wire
  import opened Sequences

  /**
   * One row of the loaded spreadsheet, restricted to the columns the handlers
   * read. `None` is a missing cell (NaN in pandas).
   */
  datatype Row = Row(
    batter: Option<string>,
    pitcher: Option<string>,
    gameDate: Option<string>,
    launchAngle: Option<real>,
    exitSpeed: Option<real>,
    exitDirection: Option<real>,
    hitDistance: Option<real>,
    hangTime: Option<real>,
    hitSpinRate: Option<real>,
    playOutcome: Option<string>,
    videoLink: Option<string>)

  function TextCell(c: Option<string>): Option<Value> {
    if c.Some? then Some(Text(c.value)) else None
  }

  function NumberCell(c: Option<real>): Option<Value> {
    if c.Some? then Some(Number(c.value)) else None
  }

  /** The cell of `row` in column `c`, as a JSON value; `None` when missing. */
  function Cell(row: Row, c: Col): Option<Value> {
    match c
    case Batter => TextCell(row.batter)
    case Pitcher => TextCell(row.pitcher)
    case GameDate => TextCell(row.gameDate)
    case LaunchAngle => NumberCell(row.launchAngle)
    case ExitSpeed => NumberCell(row.exitSpeed)
    case ExitDirection => NumberCell(row.exitDirection)
    case HitDistance => NumberCell(row.hitDistance)
    case HangTime => NumberCell(row.hangTime)
    case HitSpinRate => NumberCell(row.hitSpinRate)
    case PlayOutcome => TextCell(row.playOutcome)
    case VideoLink => TextCell(row.videoLink)
  }

  // ---------------------------------------------------------------------------
  // Case-insensitive substring match (`str.contains(pat, case=False, na=False)`)
  // ---------------------------------------------------------------------------

  function Lower(c: char): char {
    if 'A' <= c <= 'Z' then (c as int + 32) as char else c
  }

  function LowerAll(s: string): string {
    seq(|s|, i requires 0 <= i < |s| => Lower(s[i]))
  }

  predicate OccursAt(pat: string, s: string, i: int) {
    0 <= i <= |s| - |pat| && s[i..i + |pat|] == pat
  }

  predicate IsSubstring(pat: string, s: string) {
    exists i :: 0 <= i <= |s| - |pat| && OccursAt(pat, s, i)
  }

  predicate ContainsIgnoringCase(s: string, pat: string) {
    IsSubstring(LowerAll(pat), LowerAll(s))
  }

  // ---------------------------------------------------------------------------
  // The six filters of get_data
  // ---------------------------------------------------------------------------

  datatype Criterion =
    | BatterContains(pat: string)
    | PitcherContains(pat: string)
    | MinExitSpeed(bound: real)
    | MaxExitSpeed(bound: real)
    | MinLaunchAngle(bound: real)
    | MaxLaunchAngle(bound: real)

  /** The mask one filter computes for one row; a missing cell never passes. */
  predicate Matches(r: Row, c: Criterion) {
    match c
    case BatterContains(p) => r.batter.Some? && ContainsIgnoringCase(r.batter.value, p)
    case PitcherContains(p) => r.pitcher.Some? && ContainsIgnoringCase(r.pitcher.value, p)
    case MinExitSpeed(b) => r.exitSpeed.Some? && r.exitSpeed.value >= b
    case MaxExitSpeed(b) => r.exitSpeed.Some? && r.exitSpeed.value <= b
    case MinLaunchAngle(b) => r.launchAngle.Some? && r.launchAngle.value >= b
    case MaxLaunchAngle(b) => r.launchAngle.Some? && r.launchAngle.value <= b
  }

  predicate Satisfies(r: Row, cs: seq<Criterion>) {
    forall k :: 0 <= k < |cs| ==> Matches(r, cs[k])
  }

  /** The rows of `rows` that pass every criterion in `cs`, in their original order. */
  function Keep(rows: seq<Row>, cs: seq<Criterion>): (kept: seq<Row>)
    ensures |kept| <= |rows|
    ensures forall i :: 0 <= i < |kept| ==> Satisfies(kept[i], cs)
  {
    if rows == [] then []
    else (if Satisfies(rows[0], cs) then [rows[0]] else []) + Keep(rows[1..], cs)
  }

  lemma {:induction false} KeepAppend(a: seq<Row>, b: seq<Row>, cs: seq<Criterion>)
    ensures Keep(a + b, cs) == Keep(a, cs) + Keep(b, cs)
  {
    if a == [] {
      assert a + b == b;
    } else {
      var ab := a + b;
      assert ab[0] == a[0];
      assert ab[1..] == a[1..] + b;
      var head := if Satisfies(a[0], cs) then [a[0]] else [];
      KeepAppend(a[1..], b, cs);
      calc {
        Keep(ab, cs);
        head + Keep(a[1..] + b, cs);
        head + (Keep(a[1..], cs) + Keep(b, cs));
        (head + Keep(a[1..], cs)) + Keep(b, cs);
      }
    }
  }

  /** Selecting rows is an order-preserving subsequence of the rows. */
  lemma {:induction false} KeepIsSubsequence(rows: seq<Row>, cs: seq<Criterion>)
    ensures IsSubsequence(Keep(rows, cs), rows)
  {
    if rows != [] {
      KeepIsSubsequence(rows[1..], cs);
      assert rows == [rows[0]] + rows[1..];
      if Satisfies(rows[0], cs) {
        assert Keep(rows, cs) == [rows[0]] + Keep(rows[1..], cs);
        SubsequenceKeep(rows[0], Keep(rows[1..], cs), rows[1..]);
      } else {
        assert Keep(rows, cs) == Keep(rows[1..], cs);
        SubsequenceSkip(Keep(rows[1..], cs), rows[0], rows[1..]);
      }
    }
  }

  /** A row is selected exactly when it is one of the rows and passes every criterion. */
  lemma {:induction false} KeepMembers(rows: seq<Row>, cs: seq<Criterion>, x: Row)
    ensures x in Keep(rows, cs) <==> x in rows && Satisfies(x, cs)
  {
    if rows != [] {
      KeepMembers(rows[1..], cs, x);
      assert rows == [rows[0]] + rows[1..];
    }
  }

  /** Every copy of a passing row is kept and every copy of a failing one dropped. */
  lemma {:induction false} KeepCount(rows: seq<Row>, cs: seq<Criterion>, x: Row)
    ensures multiset(Keep(rows, cs))[x] == if Satisfies(x, cs) then multiset(rows)[x] else 0
  {
    if rows != [] {
      KeepCount(rows[1..], cs, x);
      assert rows == [rows[0]] + rows[1..];
      assert multiset(rows) == multiset([rows[0]]) + multiset(rows[1..]);
      var head := if Satisfies(rows[0], cs) then [rows[0]] else [];
      assert multiset(Keep(rows, cs)) == multiset(head) + multiset(Keep(rows[1..], cs));
    }
  }

  /** With no criterion nothing is removed. */
  lemma {:induction false} KeepAll(rows: seq<Row>)
    ensures Keep(rows, []) == rows
  {
    if rows != [] {
      KeepAll(rows[1..]);
      assert rows == [rows[0]] + rows[1..];
    }
  }

  lemma SatisfiesConcat(r: Row, a: seq<Criterion>, b: seq<Criterion>)
    ensures Satisfies(r, a + b) <==> Satisfies(r, a) && Satisfies(r, b)
  {
    if Satisfies(r, a + b) {
      forall k | 0 <= k < |a| ensures Matches(r, a[k]) {
        assert (a + b)[k] == a[k];
      }
      forall k | 0 <= k < |b| ensures Matches(r, b[k]) {
        assert (a + b)[|a| + k] == b[k];
      }
    }
  }

  lemma SatisfiesOne(r: Row, c: Criterion)
    ensures Satisfies(r, [c]) <==> Matches(r, c)
  {
    assert [c][0] == c;
  }

  /** Narrowing an already narrowed frame by one more criterion is narrowing by their conjunction. */
  lemma {:induction false} KeepNarrow(rows: seq<Row>, cs: seq<Criterion>, c: Criterion)
    ensures Keep(Keep(rows, cs), [c]) == Keep(rows, cs + [c])
  {
    if rows != [] {
      var r := rows[0];
      KeepNarrow(rows[1..], cs, c);
      SatisfiesConcat(r, cs, [c]);
      SatisfiesOne(r, c);
      if Satisfies(r, cs) {
        var k := Keep(rows, cs);
        assert k == [r] + Keep(rows[1..], cs);
        assert k[0] == r && k[1..] == Keep(rows[1..], cs);
        assert Keep(k, [c]) == (if Matches(r, c) then [r] else []) + Keep(Keep(rows[1..], cs), [c]);
      } else {
        assert Keep(rows, cs) == Keep(rows[1..], cs);
      }
    }
  }

  /** One boolean-mask selection `filtered_df[mask]`: the rows passing `c`, in order. */
  method Select(rows: seq<Row>, c: Criterion) returns (kept: seq<Row>)
    ensures kept == Keep(rows, [c])
  {
    kept := [];
    var i := 0;
    while i < |rows|
      invariant 0 <= i <= |rows|
      invariant kept == Keep(rows[..i], [c])
    {
      KeepAppend(rows[..i], [rows[i]], [c]);
      assert rows[..i + 1] == rows[..i] + [rows[i]];
      SatisfiesOne(rows[i], c);
      assert Keep([rows[i]], [c]) == (if Matches(rows[i], c) then [rows[i]] else []) + Keep([], [c]);
      if Matches(rows[i], c) {
        kept := kept + [rows[i]];
      }
      i := i + 1;
    }
    assert rows[..i] == rows;
  }

  // ---------------------------------------------------------------------------
  // Query arguments
  // ---------------------------------------------------------------------------

  /** The six optional arguments as the handler reads them. */
  datatype Params = Params(
    batter: Option<string>,
    pitcher: Option<string>,
    minExitSpeed: Option<real>,
    maxExitSpeed: Option<real>,
    minLaunchAngle: Option<real>,
    maxLaunchAngle: Option<real>)

  /** The argument names the handler reads; the numeric ones are snake_case. */
  const BoundKeys: seq<string> := ["min_exit_speed", "max_exit_speed", "min_launch_angle", "max_launch_angle"]

  /**
   * `request.args.get(key, type=float)`: the first value under `key`,
   * converted by `toFloat` (Python's `float`); a value it rejects reads as absent.
   */
  function FloatArg(args: Entries, key: string, toFloat: string -> Option<real>): (r: Option<real>)
    ensures r.Some? ==> key in Keys(args) && r == toFloat(Lookup(args, key).value)
    ensures key in Keys(args) ==> r == toFloat(Lookup(args, key).value)
  {
    match Lookup(args, key)
    case None => None
    case Some(s) => toFloat(s)
  }

  function ReadParams(args: Entries, toFloat: string -> Option<real>): (p: Params)
    ensures p.batter.Some? <==> "batter" in Keys(args)
    ensures p.pitcher.Some? <==> "pitcher" in Keys(args)
    ensures p.batter == Lookup(args, "batter") && p.pitcher == Lookup(args, "pitcher")
    ensures p.minExitSpeed.Some? ==> "min_exit_speed" in Keys(args)
    ensures p.maxExitSpeed.Some? ==> "max_exit_speed" in Keys(args)
    ensures p.minLaunchAngle.Some? ==> "min_launch_angle" in Keys(args)
    ensures p.maxLaunchAngle.Some? ==> "max_launch_angle" in Keys(args)
    ensures "min_exit_speed" in Keys(args) ==> p.minExitSpeed == toFloat(Lookup(args, "min_exit_speed").value)
    ensures "max_exit_speed" in Keys(args) ==> p.maxExitSpeed == toFloat(Lookup(args, "max_exit_speed").value)
    ensures "min_launch_angle" in Keys(args) ==> p.minLaunchAngle == toFloat(Lookup(args, "min_launch_angle").value)
    ensures "max_launch_angle" in Keys(args) ==> p.maxLaunchAngle == toFloat(Lookup(args, "max_launch_angle").value)
  {
    Params(
      Lookup(args, "batter"),
      Lookup(args, "pitcher"),
      FloatArg(args, BoundKeys[0], toFloat),
      FloatArg(args, BoundKeys[1], toFloat),
      FloatArg(args, BoundKeys[2], toFloat),
      FloatArg(args, BoundKeys[3], toFloat))
  }

  /** A name argument filters only when it is truthy, i.e. present and non-empty. */
  predicate Supplied(name: Option<string>) {
    name.Some? && name.value != ""
  }

  /** The criteria the handler applies, in the order it applies them. */
  function Criteria(p: Params): (cs: seq<Criterion>)
    ensures |cs| <= 6
    ensures cs == [] <==> !Supplied(p.batter) && !Supplied(p.pitcher) && p.minExitSpeed.None?
                          && p.maxExitSpeed.None? && p.minLaunchAngle.None? && p.maxLaunchAngle.None?
  {
    (if Supplied(p.batter) then [BatterContains(p.batter.value)] else [])
    + (if Supplied(p.pitcher) then [PitcherContains(p.pitcher.value)] else [])
    + (if p.minExitSpeed.Some? then [MinExitSpeed(p.minExitSpeed.value)] else [])
    + (if p.maxExitSpeed.Some? then [MaxExitSpeed(p.maxExitSpeed.value)] else [])
    + (if p.minLaunchAngle.Some? then [MinLaunchAngle(p.minLaunchAngle.value)] else [])
    + (if p.maxLaunchAngle.Some? then [MaxLaunchAngle(p.maxLaunchAngle.value)] else [])
  }

  /** Reference reading of the handler: every supplied argument constrains the row, an absent one does not. */
  ghost predicate Admits(p: Params, r: Row) {
    && (Supplied(p.batter) ==> r.batter.Some? && ContainsIgnoringCase(r.batter.value, p.batter.value))
    && (Supplied(p.pitcher) ==> r.pitcher.Some? && ContainsIgnoringCase(r.pitcher.value, p.pitcher.value))
    && (p.minExitSpeed.Some? ==> r.exitSpeed.Some? && r.exitSpeed.value >= p.minExitSpeed.value)
    && (p.maxExitSpeed.Some? ==> r.exitSpeed.Some? && r.exitSpeed.value <= p.maxExitSpeed.value)
    && (p.minLaunchAngle.Some? ==> r.launchAngle.Some? && r.launchAngle.value >= p.minLaunchAngle.value)
    && (p.maxLaunchAngle.Some? ==> r.launchAngle.Some? && r.launchAngle.value <= p.maxLaunchAngle.value)
  }

  /** The applied criteria hold of a row exactly when the reference reading admits it. */
  lemma CriteriaMeanAdmits(p: Params, r: Row)
    ensures Satisfies(r, Criteria(p)) <==> Admits(p, r)
  {
    var o1 := if Supplied(p.batter) then [BatterContains(p.batter.value)] else [];
    var o2 := if Supplied(p.pitcher) then [PitcherContains(p.pitcher.value)] else [];
    var o3 := if p.minExitSpeed.Some? then [MinExitSpeed(p.minExitSpeed.value)] else [];
    var o4 := if p.maxExitSpeed.Some? then [MaxExitSpeed(p.maxExitSpeed.value)] else [];
    var o5 := if p.minLaunchAngle.Some? then [MinLaunchAngle(p.minLaunchAngle.value)] else [];
    var o6 := if p.maxLaunchAngle.Some? then [MaxLaunchAngle(p.maxLaunchAngle.value)] else [];
    assert Criteria(p) == o1 + o2 + o3 + o4 + o5 + o6;
    SatisfiesConcat(r, o1 + o2 + o3 + o4 + o5, o6);
    SatisfiesConcat(r, o1 + o2 + o3 + o4, o5);
    SatisfiesConcat(r, o1 + o2 + o3, o4);
    SatisfiesConcat(r, o1 + o2, o3);
    SatisfiesConcat(r, o1, o2);
    if Supplied(p.batter) { SatisfiesOne(r, BatterContains(p.batter.value)); }
    if Supplied(p.pitcher) { SatisfiesOne(r, PitcherContains(p.pitcher.value)); }
    if p.minExitSpeed.Some? { SatisfiesOne(r, MinExitSpeed(p.minExitSpeed.value)); }
    if p.maxExitSpeed.Some? { SatisfiesOne(r, MaxExitSpeed(p.maxExitSpeed.value)); }
    if p.minLaunchAngle.Some? { SatisfiesOne(r, MinLaunchAngle(p.minLaunchAngle.value)); }
    if p.maxLaunchAngle.Some? { SatisfiesOne(r, MaxLaunchAngle(p.maxLaunchAngle.value)); }
  }

  /** The rows `get_data` keeps for the query `args`. */
  function Selected(df: seq<Row>, args: Entries, toFloat: string -> Option<real>): (rows: seq<Row>)
    ensures |rows| <= |df|
    ensures forall i :: 0 <= i < |rows| ==> Satisfies(rows[i], Criteria(ReadParams(args, toFloat)))
  {
    Keep(df, Criteria(ReadParams(args, toFloat)))
  }

  /** The result of `get_data` keeps the dataset's order and drops rows only. */
  lemma SelectedIsSubsequence(df: seq<Row>, args: Entries, toFloat: string -> Option<real>)
    ensures IsSubsequence(Selected(df, args, toFloat), df)
  {
    KeepIsSubsequence(df, Criteria(ReadParams(args, toFloat)));
  }

  /**
   * Soundness and completeness: a row is in the result exactly when it is in
   * the dataset and satisfies every supplied argument.
   */
  lemma SelectedExactly(df: seq<Row>, args: Entries, toFloat: string -> Option<real>, x: Row)
    ensures x in Selected(df, args, toFloat) <==> x in df && Admits(ReadParams(args, toFloat), x)
  {
    var p := ReadParams(args, toFloat);
    KeepMembers(df, Criteria(p), x);
    CriteriaMeanAdmits(p, x);
  }

  /** Duplicates survive: each admitted row is returned as many times as the dataset holds it. */
  lemma SelectedCount(df: seq<Row>, args: Entries, toFloat: string -> Option<real>, x: Row)
    ensures multiset(Selected(df, args, toFloat))[x] ==
            if Admits(ReadParams(args, toFloat), x) then multiset(df)[x] else 0
  {
    var p := ReadParams(args, toFloat);
    KeepCount(df, Criteria(p), x);
    CriteriaMeanAdmits(p, x);
  }

  /** Without query arguments the whole dataset is returned. */
  lemma NoArgumentsSelectAll(df: seq<Row>, toFloat: string -> Option<real>)
    ensures Selected(df, [], toFloat) == df
  {
    assert Criteria(ReadParams([], toFloat)) == [];
    KeepAll(df);
  }

  // ---------------------------------------------------------------------------
  // Column projection and the handler
  // ---------------------------------------------------------------------------

  /** `fillna('')`: a missing cell becomes the empty string. */
  function Fill(c: Option<Value>): Value {
    if c.Some? then c.value else Text("")
  }

  /** One row of `filtered_df[columns].fillna('')` as the record `to_dict` yields. */
  function Project(row: Row): (r: Record)
    ensures forall c: Col :: Column(r, c) == Fill(Cell(row, c))
  {
    Record(
      Fill(TextCell(row.batter)), Fill(TextCell(row.pitcher)), Fill(TextCell(row.gameDate)),
      Fill(NumberCell(row.launchAngle)), Fill(NumberCell(row.exitSpeed)),
      Fill(NumberCell(row.exitDirection)), Fill(NumberCell(row.hitDistance)),
      Fill(NumberCell(row.hangTime)), Fill(NumberCell(row.hitSpinRate)),
      Fill(TextCell(row.playOutcome)), Fill(TextCell(row.videoLink)))
  }

  function ProjectAll(rows: seq<Row>): (records: seq<Record>)
    ensures |records| == |rows|
    ensures forall i, c: Col :: 0 <= i < |rows| ==> Column(records[i], c) == Fill(Cell(rows[i], c))
  {
    seq(|rows|, i requires 0 <= i < |rows| => Project(rows[i]))
  }

  const NotLoaded := "Data not loaded"

  /**
   * `str.contains` compiles a name argument as a regular expression; a
   * pattern that does not compile raises, and `get_data` answers 500 with the
   * exception's text. `regexError` gives that text for a pattern that does
   * not compile and `None` for one that does. The batter mask is computed first.
   */
  function PatternError(p: Params, regexError: string -> Option<string>): (e: Option<string>)
    ensures e.Some? <==> (Supplied(p.batter) && regexError(p.batter.value).Some?)
                         || (Supplied(p.pitcher) && regexError(p.pitcher.value).Some?)
    ensures Supplied(p.batter) && regexError(p.batter.value).Some? ==> e == regexError(p.batter.value)
  {
    if Supplied(p.batter) && regexError(p.batter.value).Some? then regexError(p.batter.value)
    else if Supplied(p.pitcher) && regexError(p.pitcher.value).Some? then regexError(p.pitcher.value)
    else None
  }

  /** What `/api/data` answers for the query `args` over the dataset `df`. */
  function DataResponse(df: seq<Row>, args: Entries, toFloat: string -> Option<real>,
                        regexError: string -> Option<string>): (r: Response<seq<Record>>)
    ensures r.Error? <==> |df| == 0 || PatternError(ReadParams(args, toFloat), regexError).Some?
    ensures r.Error? ==> r.Status() == 500
    ensures r.Ok? ==> r.body == ProjectAll(Selected(df, args, toFloat)) && |r.body| <= |df|
  {
    if |df| == 0 then Error(500, NotLoaded)
    else match PatternError(ReadParams(args, toFloat), regexError)
      case Some(msg) => Error(500, msg)
      case None => Ok(ProjectAll(Selected(df, args, toFloat)))
  }

  /** `get_data`: reassigns the frame through up to six filters, then projects it. */
  method GetData(df: seq<Row>, args: Entries, toFloat: string -> Option<real>,
                 regexError: string -> Option<string>) returns (resp: Response<seq<Record>>)
    ensures resp == DataResponse(df, args, toFloat, regexError)
  {
    if |df| == 0 {
      return Error(500, NotLoaded);
    }
    var batter := Lookup(args, "batter");
    var pitcher := Lookup(args, "pitcher");
    var minExitSpeed := FloatArg(args, "min_exit_speed", toFloat);
    var maxExitSpeed := FloatArg(args, "max_exit_speed", toFloat);
    var minLaunchAngle := FloatArg(args, "min_launch_angle", toFloat);
    var maxLaunchAngle := FloatArg(args, "max_launch_angle", toFloat);
    var p := Params(batter, pitcher, minExitSpeed, maxExitSpeed, minLaunchAngle, maxLaunchAngle);
    assert p == ReadParams(args, toFloat);

    // The name masks raise before any row is returned when their pattern does not compile.
    if Supplied(batter) && regexError(batter.value).Some? {
      return Error(500, regexError(batter.value).value);
    }
    if Supplied(pitcher) && regexError(pitcher.value).Some? {
      return Error(500, regexError(pitcher.value).value);
    }
    var filtered := Filter(df, p);
    resp := Ok(ProjectAll(filtered));
  }

  method Filter(df: seq<Row>, p: Params) returns (filtered: seq<Row>)
    ensures filtered == Keep(df, Criteria(p))
  {
    filtered := df;
    KeepAll(df);
    ghost var applied: seq<Criterion> := [];
    if Supplied(p.batter) {
      filtered := Narrow(df, applied, filtered, BatterContains(p.batter.value));
    } else {
      assert applied + [] == applied;
    }
    applied := applied + (if Supplied(p.batter) then [BatterContains(p.batter.value)] else []);
    assert applied == (if Supplied(p.batter) then [BatterContains(p.batter.value)] else []);
    if Supplied(p.pitcher) {
      filtered := Narrow(df, applied, filtered, PitcherContains(p.pitcher.value));
    } else {
      assert applied + [] == applied;
    }
    applied := applied + (if Supplied(p.pitcher) then [PitcherContains(p.pitcher.value)] else []);
    if p.minExitSpeed.Some? {
      filtered := Narrow(df, applied, filtered, MinExitSpeed(p.minExitSpeed.value));
    } else {
      assert applied + [] == applied;
    }
    applied := applied + (if p.minExitSpeed.Some? then [MinExitSpeed(p.minExitSpeed.value)] else []);
    if p.maxExitSpeed.Some? {
      filtered := Narrow(df, applied, filtered, MaxExitSpeed(p.maxExitSpeed.value));
    } else {
      assert applied + [] == applied;
    }
    applied := applied + (if p.maxExitSpeed.Some? then [MaxExitSpeed(p.maxExitSpeed.value)] else []);
    if p.minLaunchAngle.Some? {
      filtered := Narrow(df, applied, filtered, MinLaunchAngle(p.minLaunchAngle.value));
    } else {
      assert applied + [] == applied;
    }
    applied := applied + (if p.minLaunchAngle.Some? then [MinLaunchAngle(p.minLaunchAngle.value)] else []);
    if p.maxLaunchAngle.Some? {
      filtered := Narrow(df, applied, filtered, MaxLaunchAngle(p.maxLaunchAngle.value));
    } else {
      assert applied + [] == applied;
    }
    applied := applied + (if p.maxLaunchAngle.Some? then [MaxLaunchAngle(p.maxLaunchAngle.value)] else []);
    assert applied == Criteria(p);
  }

  /** One reassignment `filtered_df = filtered_df[mask]` of a frame already narrowed by `applied`. */
  method Narrow(df: seq<Row>, ghost applied: seq<Criterion>, filtered: seq<Row>, c: Criterion) returns (narrowed: seq<Row>)
    requires filtered == Keep(df, applied)
    ensures narrowed == Keep(df, applied + [c])
  {
    narrowed := Select(filtered, c);
    KeepNarrow(df, applied, c);
  }

  // ---------------------------------------------------------------------------
  // get_summary and health_check
  // ---------------------------------------------------------------------------

  datatype NameColumn = BatterColumn | PitcherColumn

  function Name(r: Row, col: NameColumn): Option<string> {
    match col
    case BatterColumn => r.batter
    case PitcherColumn => r.pitcher
  }

  /** The distinct non-missing names in a column (what `nunique()` counts). */
  function DistinctNames(df: seq<Row>, col: NameColumn): (names: set<string>)
    ensures |names| <= |df|
  {
    if df == [] then {}
    else
      var rest := DistinctNames(df[1..], col);
      var here: set<string> := if Name(df[0], col).Some? then {Name(df[0], col).value} else {};
      assert |here + rest| <= |here| + |rest|;
      here + rest
  }

  /** Every name a row carries is counted. */
  lemma {:induction false} NameIsCounted(df: seq<Row>, col: NameColumn, i: int)
    requires 0 <= i < |df| && Name(df[i], col).Some?
    ensures Name(df[i], col).value in DistinctNames(df, col)
  {
    if i > 0 {
      NameIsCounted(df[1..], col, i - 1);
      assert df[1..][i - 1] == df[i];
    }
  }

  /** Every counted name is carried by some row. */
  lemma {:induction false} CountedNameOccurs(df: seq<Row>, col: NameColumn, x: string) returns (i: int)
    requires x in DistinctNames(df, col)
    ensures 0 <= i < |df| && Name(df[i], col) == Some(x)
  {
    if Name(df[0], col) == Some(x) {
      i := 0;
    } else {
      var j := CountedNameOccurs(df[1..], col, x);
      assert df[1..][j] == df[j + 1];
      i := j + 1;
    }
  }

  /** A name is counted exactly when some row carries it in that column. */
  lemma DistinctNamesExactly(df: seq<Row>, col: NameColumn, x: string)
    ensures x in DistinctNames(df, col) <==> exists i :: 0 <= i < |df| && Name(df[i], col) == Some(x)
  {
    if x in DistinctNames(df, col) {
      var i := CountedNameOccurs(df, col, x);
    }
    if exists i :: 0 <= i < |df| && Name(df[i], col) == Some(x) {
      var i :| 0 <= i < |df| && Name(df[i], col) == Some(x);
      NameIsCounted(df, col, i);
    }
  }

  datatype Measure = ExitSpeedColumn | LaunchAngleColumn

  function Reading(r: Row, m: Measure): Option<real> {
    match m
    case ExitSpeedColumn => r.exitSpeed
    case LaunchAngleColumn => r.launchAngle
  }

  function Total(df: seq<Row>, m: Measure): real {
    if df == [] then 0.0
    else (if Reading(df[0], m).Some? then Reading(df[0], m).value else 0.0) + Total(df[1..], m)
  }

  function Present(df: seq<Row>, m: Measure): nat {
    if df == [] then 0
    else (if Reading(df[0], m).Some? then 1 else 0) + Present(df[1..], m)
  }

  /** `mean()` skips missing cells; with none present the mean is NaN, here `None`. */
  function Mean(df: seq<Row>, m: Measure): (r: Option<real>)
    ensures r.None? <==> Present(df, m) == 0
    ensures r.Some? ==> r.value * Present(df, m) as real == Total(df, m)
  {
    if Present(df, m) == 0 then None else Some(Total(df, m) / Present(df, m) as real)
  }

  /** The mean is NaN exactly when no row has a reading in the column. */
  lemma {:induction false} MeanMissingExactly(df: seq<Row>, m: Measure)
    ensures Mean(df, m).None? <==> forall i :: 0 <= i < |df| ==> Reading(df[i], m).None?
  {
    if df != [] {
      MeanMissingExactly(df[1..], m);
      assert forall i :: 0 <= i < |df[1..]| ==> df[1..][i] == df[i + 1];
      if Reading(df[0], m).None? {
        forall i | 1 <= i < |df| ensures Reading(df[i], m) == Reading(df[1..][i - 1], m) {
        }
      }
    }
  }

  lemma Distribute(c: real, n: real)
    ensures c * (n + 1.0) == c * n + c
  {
  }

  lemma PositiveProduct(d: real, n: real)
    requires d > 0.0 && n > 0.0
    ensures d * n > 0.0
  {
  }

  /** What the readings would sum to if each present one were `c`. */
  function Uniform(df: seq<Row>, m: Measure, c: real): real {
    if df == [] then 0.0
    else (if Reading(df[0], m).Some? then c else 0.0) + Uniform(df[1..], m, c)
  }

  lemma {:induction false} UniformIsProduct(df: seq<Row>, m: Measure, c: real)
    ensures Uniform(df, m, c) == c * Present(df, m) as real
  {
    if df != [] {
      UniformIsProduct(df[1..], m, c);
      if Reading(df[0], m).Some? {
        Distribute(c, Present(df[1..], m) as real);
      }
    }
  }

  lemma {:induction false} TotalAtLeast(df: seq<Row>, m: Measure, lo: real)
    requires forall i :: 0 <= i < |df| && Reading(df[i], m).Some? ==> lo <= Reading(df[i], m).value
    ensures Uniform(df, m, lo) <= Total(df, m)
  {
    if df != [] {
      assert forall i :: 0 <= i < |df[1..]| ==> df[1..][i] == df[i + 1];
      TotalAtLeast(df[1..], m, lo);
    }
  }

  lemma {:induction false} TotalAtMost(df: seq<Row>, m: Measure, hi: real)
    requires forall i :: 0 <= i < |df| && Reading(df[i], m).Some? ==> Reading(df[i], m).value <= hi
    ensures Total(df, m) <= Uniform(df, m, hi)
  {
    if df != [] {
      assert forall i :: 0 <= i < |df[1..]| ==> df[1..][i] == df[i + 1];
      TotalAtMost(df[1..], m, hi);
    }
  }

  lemma QuotientAtLeast(t: real, n: real, lo: real)
    requires n > 0.0 && lo * n <= t
    ensures lo <= t / n
  {
    var q := t / n;
    assert q * n == t;
    if q < lo {
      PositiveProduct(lo - q, n);
    }
  }

  lemma QuotientAtMost(t: real, n: real, hi: real)
    requires n > 0.0 && t <= hi * n
    ensures t / n <= hi
  {
    var q := t / n;
    assert q * n == t;
    if q > hi {
      PositiveProduct(q - hi, n);
    }
  }

  /** The average is at least any lower bound of the readings. */
  lemma MeanAtLeast(df: seq<Row>, m: Measure, lo: real)
    requires forall i :: 0 <= i < |df| && Reading(df[i], m).Some? ==> lo <= Reading(df[i], m).value
    requires Mean(df, m).Some?
    ensures lo <= Mean(df, m).value
  {
    TotalAtLeast(df, m, lo);
    UniformIsProduct(df, m, lo);
    QuotientAtLeast(Total(df, m), Present(df, m) as real, lo);
  }

  /** The average is at most any upper bound of the readings. */
  lemma MeanAtMost(df: seq<Row>, m: Measure, hi: real)
    requires forall i :: 0 <= i < |df| && Reading(df[i], m).Some? ==> Reading(df[i], m).value <= hi
    requires Mean(df, m).Some?
    ensures Mean(df, m).value <= hi
  {
    TotalAtMost(df, m, hi);
    UniformIsProduct(df, m, hi);
    QuotientAtMost(Total(df, m), Present(df, m) as real, hi);
  }

  /** What `/api/summary` answers over the dataset `df`. */
  function SummaryResponse(df: seq<Row>): (r: Response<Summary>)
    ensures r.Error? <==> |df| == 0
    ensures r.Error? ==> r.Status() == 500
    ensures r.Ok? ==> r.body.totalBattedBalls == |df|
    ensures r.Ok? ==> 0 <= r.body.uniqueBatters <= r.body.totalBattedBalls
    ensures r.Ok? ==> 0 <= r.body.uniquePitchers <= r.body.totalBattedBalls
    ensures r.Ok? ==> r.body.uniqueBatters == |DistinctNames(df, BatterColumn)|
                      && r.body.uniquePitchers == |DistinctNames(df, PitcherColumn)|
  {
    if |df| == 0 then Error(500, NotLoaded)
    else Ok(Summary(
      Mean(df, ExitSpeedColumn),
      Mean(df, LaunchAngleColumn),
      |df|,
      |DistinctNames(df, BatterColumn)|,
      |DistinctNames(df, PitcherColumn)|))
  }

  /** The average exit speed reported, in exact arithmetic, lies between the slowest and the fastest recorded ball. */
  lemma SummaryExitSpeedBounded(df: seq<Row>, lo: real, hi: real)
    requires df != []
    requires forall i :: 0 <= i < |df| && df[i].exitSpeed.Some? ==> lo <= df[i].exitSpeed.value <= hi
    ensures SummaryResponse(df).Ok?
    ensures SummaryResponse(df).body.avgExitSpeed.Some? ==> lo <= SummaryResponse(df).body.avgExitSpeed.value <= hi
  {
    if Mean(df, ExitSpeedColumn).Some? {
      assert forall i :: 0 <= i < |df| ==> Reading(df[i], ExitSpeedColumn) == df[i].exitSpeed;
      MeanAtLeast(df, ExitSpeedColumn, lo);
      MeanAtMost(df, ExitSpeedColumn, hi);
    }
  }

  datatype Health = Health(status: string, dataLoaded: bool)

  /** `health_check`: always 200 and "healthy"; `data_loaded` says whether the dataset has rows. */
  function HealthCheck(df: seq<Row>): (r: (int, Health))
    ensures r.0 == 200 && r.1.status == "healthy"
    ensures r.1.dataLoaded <==> df != []
  {
    (200, Health("healthy", |df| != 0))
  }
}
