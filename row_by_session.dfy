/**
 * `RowBySessionResults`: finding a subject's row in the CANTAB table. A row
 * is picked by a unique case-insensitive match on `Subject ID`; only when no
 * row matches by name is a unique exact match on `Date of birth` used.
 * Lowering the `Subject ID` column fails on a table without it (KeyError)
 * and on any cell that is not text, an empty cell included (TypeError).
 */
module RowBySession {
  import opened Wrappers
  import opened Text
  import opened Cantab

  const SUBJECT_ID_COLUMN: string := "Subject ID"
  const DOB_COLUMN: string := "Date of birth"

  /** The two ways a row is looked for. */
  datatype Query = ByName(nameId: string) | ByDob(dob: string)

  /** `df['Subject ID'].map(str.lower) == name_id.lower()`, or `df['Date of birth'] == dob`. */
  predicate Matches(row: Series, q: Query)
  {
    match q
    case ByName(nameId) =>
      SUBJECT_ID_COLUMN in row && row[SUBJECT_ID_COLUMN].Text? && Lower(row[SUBJECT_ID_COLUMN].s) == Lower(nameId)
    case ByDob(dob) => DOB_COLUMN in row && row[DOB_COLUMN] == Text(dob)
  }

  /**
   * Whether no row has the column, so that `df[column]` is a KeyError. The
   * rows carry no column list of their own, so an empty table has every column.
   */
  predicate NoColumn(rows: seq<Series>, column: string)
  {
    rows != [] && forall k :: 0 <= k < |rows| ==> column !in rows[k]
  }

  /** Whether every row holds text in the column, so that `map(str.lower)` succeeds on it. */
  predicate TextColumn(rows: seq<Series>, column: string)
  {
    forall k :: 0 <= k < |rows| ==> column in rows[k] && rows[k][column].Text?
  }

  /** `df.loc[mask]`: the matching rows, in table order. */
  function Select(rows: seq<Series>, q: Query): (r: seq<Series>)
    ensures |r| <= |rows|
    ensures forall k :: 0 <= k < |r| ==> r[k] in rows && Matches(r[k], q)
    ensures forall i :: 0 <= i < |rows| && Matches(rows[i], q) ==> rows[i] in r
  {
    if rows == [] then []
    else
      var rest := Select(rows[1..], q);
      assert forall i :: 1 <= i < |rows| ==> rows[i] == rows[1..][i - 1];
      if Matches(rows[0], q) then [rows[0]] + rest else rest
  }

  /** A row that alone matches is selected alone. */
  lemma {:induction false} SelectSingle(rows: seq<Series>, q: Query, i: nat)
    requires i < |rows| && Matches(rows[i], q)
    requires forall j :: 0 <= j < |rows| && j != i ==> !Matches(rows[j], q)
    ensures Select(rows, q) == [rows[i]]
  {
    if i == 0 {
      SelectNone(rows[1..], q);
    } else {
      SelectSingle(rows[1..], q, i - 1);
    }
  }

  /** No matching row selects nothing. */
  lemma {:induction false} SelectNone(rows: seq<Series>, q: Query)
    requires forall j :: 0 <= j < |rows| ==> !Matches(rows[j], q)
    ensures Select(rows, q) == []
  {
    if rows != [] {
      SelectNone(rows[1..], q);
    }
  }

  /** Two matching rows select at least two. */
  lemma {:induction false} SelectSeveral(rows: seq<Series>, q: Query, i: nat, j: nat)
    requires i < j < |rows| && Matches(rows[i], q) && Matches(rows[j], q)
    ensures |Select(rows, q)| >= 2
  {
    if i == 0 {
      assert rows[j] == rows[1..][j - 1];
      assert rows[j] in Select(rows[1..], q);
    } else {
      SelectSeveral(rows[1..], q, i - 1, j - 1);
    }
  }

  datatype RowBySessionResults = RowBySessionResults(rows: seq<Series>)
  {
    /**
     * The exception of `df['Subject ID'].map(str.lower)`: KeyError without
     * the column, TypeError when some cell is not text; none otherwise.
     */
    function NameColumnError(): (e: Option<Exception>)
      ensures e.None? <==> TextColumn(rows, SUBJECT_ID_COLUMN)
      ensures e.Some? ==> e.value == if NoColumn(rows, SUBJECT_ID_COLUMN) then KeyError else TypeError
    {
      if NoColumn(rows, SUBJECT_ID_COLUMN) then
        assert !TextColumn(rows, SUBJECT_ID_COLUMN) by { assert SUBJECT_ID_COLUMN !in rows[0]; }
        Some(KeyError)
      else if !TextColumn(rows, SUBJECT_ID_COLUMN) then Some(TypeError)
      else None
    }

    /** `get_subject_by_name_id`: the rows matching the name, unless the column cannot be lowered. */
    function SubjectByNameId(nameId: string): (r: Result<seq<Series>>)
      ensures r.Ok? <==> TextColumn(rows, SUBJECT_ID_COLUMN)
      ensures r.Err? ==> r.exception == NameColumnError().value
      ensures r.Ok? ==> r.value == Select(rows, ByName(nameId))
    {
      match NameColumnError()
      case Some(e) => Err(e)
      case None => Ok(Select(rows, ByName(nameId)))
    }

    /** `get_subject_by_dob`: the rows holding exactly that date text; no such column is a KeyError. */
    function SubjectByDob(dob: string): (r: Result<seq<Series>>)
      ensures r.Ok? <==> !NoColumn(rows, DOB_COLUMN)
      ensures r.Err? ==> r.exception == KeyError
      ensures r.Ok? ==> r.value == Select(rows, ByDob(dob))
    {
      if NoColumn(rows, DOB_COLUMN) then Err(KeyError) else Ok(Select(rows, ByDob(dob)))
    }

    /**
     * `get_subject_series`: the one row matching by name; with no name match,
     * the one row matching by date of birth; otherwise nothing. The name
     * query's exception, and with no name match the date query's, is raised.
     */
    function SubjectSeries(nameId: string, dob: string): (r: Result<Option<Series>>)
      ensures SubjectByNameId(nameId).Err? ==> r == Err(SubjectByNameId(nameId).exception)
      ensures SubjectByNameId(nameId) == Ok([]) && SubjectByDob(dob).Err? ==> r == Err(KeyError)
      ensures r.Err? ==> SubjectByNameId(nameId).Err? || (SubjectByNameId(nameId) == Ok([]) && SubjectByDob(dob).Err?)
      ensures r.Ok? && r.value.Some? ==> r.value.value in rows
      ensures r.Ok? && r.value.Some? ==> Matches(r.value.value, ByName(nameId)) || SubjectByNameId(nameId) == Ok([])
    {
      match SubjectByNameId(nameId)
      case Err(e) => Err(e)
      case Ok(byName) =>
        if |byName| == 0 then
          match SubjectByDob(dob)
          case Err(e) => Err(e)
          case Ok(byDob) =>
            if |byDob| == 0 then Ok(None)
            else if |byDob| > 1 then Ok(None)
            else Ok(Some(byDob[0]))
        else if |byName| > 1 then Ok(None)
        else Ok(Some(byName[0]))
    }

    /** `get_subject_results`: the lookup, found or not, wrapped as results; its exception is raised. */
    function SubjectResults(nameId: string, dob: string): (r: Result<CantabResults>)
      ensures r.Ok? <==> SubjectSeries(nameId, dob).Ok?
      ensures r.Ok? ==> r.value.series == SubjectSeries(nameId, dob).value
      ensures r.Err? ==> r.exception == SubjectSeries(nameId, dob).exception
    {
      match SubjectSeries(nameId, dob)
      case Err(e) => Err(e)
      case Ok(series) => Ok(CantabResults(series))
    }
  }

  /** A unique name match is the answer, whatever its date of birth. */
  lemma NameMatchWins(t: RowBySessionResults, nameId: string, dob: string, i: nat)
    requires TextColumn(t.rows, SUBJECT_ID_COLUMN)
    requires i < |t.rows| && Matches(t.rows[i], ByName(nameId))
    requires forall j :: 0 <= j < |t.rows| && j != i ==> !Matches(t.rows[j], ByName(nameId))
    ensures t.SubjectSeries(nameId, dob) == Ok(Some(t.rows[i]))
  {
    SelectSingle(t.rows, ByName(nameId), i);
  }

  /** Two name matches give nothing; the date of birth is not consulted. */
  lemma AmbiguousNameGivesNothing(t: RowBySessionResults, nameId: string, dob: string, i: nat, j: nat)
    requires TextColumn(t.rows, SUBJECT_ID_COLUMN)
    requires i < j < |t.rows| && Matches(t.rows[i], ByName(nameId)) && Matches(t.rows[j], ByName(nameId))
    ensures t.SubjectSeries(nameId, dob) == Ok(None)
  {
    SelectSeveral(t.rows, ByName(nameId), i, j);
  }

  /** With no name match, a unique date-of-birth match is the answer. */
  lemma DobFallback(t: RowBySessionResults, nameId: string, dob: string, i: nat)
    requires TextColumn(t.rows, SUBJECT_ID_COLUMN)
    requires forall j :: 0 <= j < |t.rows| ==> !Matches(t.rows[j], ByName(nameId))
    requires i < |t.rows| && Matches(t.rows[i], ByDob(dob))
    requires forall j :: 0 <= j < |t.rows| && j != i ==> !Matches(t.rows[j], ByDob(dob))
    ensures t.SubjectSeries(nameId, dob) == Ok(Some(t.rows[i]))
  {
    SelectNone(t.rows, ByName(nameId));
    SelectSingle(t.rows, ByDob(dob), i);
  }

  /** With no name match, no date-of-birth match or several of them give nothing. */
  lemma DobFallbackFails(t: RowBySessionResults, nameId: string, dob: string)
    requires TextColumn(t.rows, SUBJECT_ID_COLUMN) && !NoColumn(t.rows, DOB_COLUMN)
    requires forall j :: 0 <= j < |t.rows| ==> !Matches(t.rows[j], ByName(nameId))
    requires (forall j :: 0 <= j < |t.rows| ==> !Matches(t.rows[j], ByDob(dob)))
      || (exists i, j :: 0 <= i < j < |t.rows| && Matches(t.rows[i], ByDob(dob)) && Matches(t.rows[j], ByDob(dob)))
    ensures t.SubjectSeries(nameId, dob) == Ok(None)
  {
    SelectNone(t.rows, ByName(nameId));
    if forall j :: 0 <= j < |t.rows| ==> !Matches(t.rows[j], ByDob(dob)) {
      SelectNone(t.rows, ByDob(dob));
    } else {
      var i, j :| 0 <= i < j < |t.rows| && Matches(t.rows[i], ByDob(dob)) && Matches(t.rows[j], ByDob(dob));
      SelectSeveral(t.rows, ByDob(dob), i, j);
    }
  }

  /** With no name match, a table without a `Date of birth` column raises KeyError. */
  lemma MissingDobColumnRaises(t: RowBySessionResults, nameId: string, dob: string)
    requires TextColumn(t.rows, SUBJECT_ID_COLUMN) && NoColumn(t.rows, DOB_COLUMN)
    requires forall j :: 0 <= j < |t.rows| ==> !Matches(t.rows[j], ByName(nameId))
    ensures t.SubjectSeries(nameId, dob) == Err(KeyError)
  {
    SelectNone(t.rows, ByName(nameId));
  }

  /** A cell that is not text anywhere in `Subject ID` makes every lookup raise, even when another row matches. */
  lemma NonTextNameRaises(t: RowBySessionResults, nameId: string, dob: string, k: nat)
    requires k < |t.rows| && SUBJECT_ID_COLUMN in t.rows[k] && !t.rows[k][SUBJECT_ID_COLUMN].Text?
    ensures t.SubjectSeries(nameId, dob) == Err(TypeError)
  {
    assert !NoColumn(t.rows, SUBJECT_ID_COLUMN);
  }

  /** The name match ignores case on both sides. */
  lemma NameMatchIgnoresCase(row: Series, nameId: string)
    ensures Matches(row, ByName(nameId)) == Matches(row, ByName(Lower(nameId)))
  {
    LowerIdempotent(nameId);
  }
}
