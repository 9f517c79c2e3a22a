/**
 * `SheetParser`: the clean-up applied to every spreadsheet the research
 * package reads. Column and index names lose spaces and apostrophes and are
 * lower-cased; index values (subject ids, which Excel may have stored as
 * numbers) are zero-padded back to the nine characters of an id.
 */
module SheetParser {
  import opened Text

  const LEN_SUBJECT_ID: nat := 9

  /** `fix_column_name`: spaces become '_', apostrophes are dropped, then lower case. */
  function FixColumnName(name: string): (r: string)
    ensures ' ' !in r && '\'' !in r
  {
    var r := Lower(Replace(Replace(name, ' ', "_"), '\'', ""));
    LowerKeeps(Replace(Replace(name, ' ', "_"), '\'', ""));
    r
  }

  /** Lower-casing brings in neither a space nor an apostrophe. */
  lemma LowerKeeps(s: string)
    ensures ' ' in Lower(s) ==> ' ' in s
    ensures '\'' in Lower(s) ==> '\'' in s
  {
    if ' ' in Lower(s) {
      var i :| 0 <= i < |s| && Lower(s)[i] == ' ';
      assert s[i] == ' ';
    }
    if '\'' in Lower(s) {
      var i :| 0 <= i < |s| && Lower(s)[i] == '\'';
      assert s[i] == '\'';
    }
  }

  /** A fixed name is already fixed. */
  lemma FixColumnNameIdempotent(name: string)
    ensures FixColumnName(FixColumnName(name)) == FixColumnName(name)
  {
    var f := FixColumnName(name);
    ReplaceAbsent(f, ' ', "_");
    ReplaceAbsent(f, '\'', "");
    var inner := Replace(Replace(name, ' ', "_"), '\'', "");
    LowerIdempotent(inner);
  }

  /** `create_fixed_column_names_dict`: every column name mapped to its fixed form. */
  function FixedColumnNamesDict(columnNames: seq<string>): (d: map<string, string>)
    ensures forall name :: name in d <==> name in columnNames
    ensures forall name :: name in d ==> d[name] == FixColumnName(name)
  {
    map name | name in columnNames :: FixColumnName(name)
  }

  /** `fix_index_names`: the index names fixed one by one, in order. */
  function FixIndexNames(indexNames: seq<string>): (r: seq<string>)
    ensures |r| == |indexNames|
    ensures forall k :: 0 <= k < |r| ==> r[k] == FixColumnName(indexNames[k])
  {
    seq(|indexNames|, k requires 0 <= k < |indexNames| => FixColumnName(indexNames[k]))
  }

  /** An index value as the sheet holds it: a number, or text without a leading sign. */
  datatype IndexValue = IntValue(n: nat) | StrValue(s: string)

  /** `str(value)`. */
  function IndexText(v: IndexValue): string
  {
    match v
    case IntValue(n) => NatToString(n)
    case StrValue(s) => s
  }

  predicate Unsigned(v: IndexValue)
  {
    v.IntValue? || v.s == [] || (v.s[0] != '-' && v.s[0] != '+')
  }

  /**
   * `fix_index`: `str(value).zfill(9)`. The text is kept as the tail, and only
   * zeros are put in front, up to nine characters.
   */
  function FixIndex(v: IndexValue): (r: string)
    requires Unsigned(v)
    ensures var s := IndexText(v);
      && |r| == (if |s| < LEN_SUBJECT_ID then LEN_SUBJECT_ID else |s|)
      && r[|r| - |s|..] == s
      && (forall k :: 0 <= k < |r| - |s| ==> r[k] == '0')
  {
    var s := IndexText(v);
    assert s == [] || (s[0] != '-' && s[0] != '+') by {
      if v.IntValue? && s != [] { assert IsDigit(s[0]); }
    }
    ZFillShape(s, LEN_SUBJECT_ID);
    ZFill(s, LEN_SUBJECT_ID)
  }

  /** Text of nine or more characters passes unchanged, so fixing twice is fixing once. */
  lemma FixIndexIdempotent(v: IndexValue)
    requires Unsigned(v)
    ensures var r := FixIndex(v); Unsigned(StrValue(r)) && FixIndex(StrValue(r)) == r
  {
    var r := FixIndex(v);
    assert |r| >= LEN_SUBJECT_ID;
    assert r[0..] == r;
  }

  function Pow10(k: nat): nat
  {
    if k == 0 then 1 else 10 * Pow10(k - 1)
  }

  /** A number below 10^k takes at most k digits. */
  lemma {:induction false} NatToStringShort(n: nat, k: nat)
    requires k >= 1 && n < Pow10(k)
    ensures |NatToString(n)| <= k
  {
    if n >= 10 {
      assert Pow10(1) == 10;
      assert k != 1;
      assert n / 10 < Pow10(k - 1);
      NatToStringShort(n / 10, k - 1);
    }
  }

  /**
   * A numeric id as Excel keeps it (leading zeros lost) comes back as nine
   * digits: exactly the shape of a valid subject id.
   */
  lemma FixIndexRestoresNumericId(n: nat)
    requires n < 1_000_000_000
    ensures AllDigits(FixIndex(IntValue(n))) && |FixIndex(IntValue(n))| == LEN_SUBJECT_ID
  {
    assert Pow10(LEN_SUBJECT_ID) == 1_000_000_000;
    NatToStringShort(n, LEN_SUBJECT_ID);
    var s := NatToString(n);
    PaddedDigits(s, LEN_SUBJECT_ID);
  }

  /** Zero-padding a digit string keeps it a digit string. */
  lemma PaddedDigits(s: string, width: nat)
    requires AllDigits(s)
    ensures AllDigits(ZFill(s, width))
  {
    if |s| < width {
      var z := Repeat('0', width - |s|);
      forall k | 0 <= k < |z + s| ensures IsDigit((z + s)[k]) {
        if k >= |z| { assert (z + s)[k] == s[k - |z|]; }
      }
    }
  }
}
