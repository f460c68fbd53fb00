/** The header lookup over the first row of an uploaded worksheet. */
module Excel {

  import opened Common
  import opened PyStr

  /** The value of a worksheet cell: empty, text or a whole number. */
  datatype CellValue = Empty | Text(text: string) | Number(n: int)

  /** `str(cell.value)`: an empty cell prints as "None". */
  function CellText(v: CellValue): string
  {
    match v
    case Empty => "None"
    case Text(t) => t
    case Number(n) => IntToString(n)
  }

  /** The test applied to each cell: its stripped text and the header name agree
      after lower-casing. Only the cell text is stripped. */
  predicate Matches(v: CellValue, headerName: string)
  {
    Lower(Strip(CellText(v))) == Lower(headerName)
  }

  /** The cell test for one header name. */
  function HeaderTest(headerName: string): CellValue -> bool
  {
    v => Matches(v, headerName)
  }

  /** The 1-based position of the last among the first `k` elements of `s` that
      satisfy `p`, if any. */
  function LastWhere<T>(s: seq<T>, p: T -> bool, k: nat): (r: Option<int>)
    requires k <= |s|
    decreases k
  {
    if k == 0 then None
    else if p(s[k - 1]) then Some(k)
    else LastWhere(s, p, k - 1)
  }

  /** What `LastWhere` finds: `None` exactly when no element satisfies `p`; otherwise
      one that does with none after it that does. */
  lemma {:induction false} LastWhereSpec<T>(s: seq<T>, p: T -> bool, k: nat)
    requires k <= |s|
    ensures LastWhere(s, p, k).None? <==> forall j :: 0 <= j < k ==> !p(s[j])
    ensures LastWhere(s, p, k).Some? ==>
      var c := LastWhere(s, p, k).value;
      1 <= c <= k && p(s[c - 1]) && forall j :: c <= j < k ==> !p(s[j])
    decreases k
  {
    if k > 0 && !p(s[k - 1]) {
      LastWhereSpec(s, p, k - 1);
    }
  }

  /** `get_header_column_index(worksheet, header_name)` over the cells of the header
      row, cell `k` standing in column `k + 1`: the column of the LAST matching cell,
      or `None` when no cell matches, since the loop never stops early. */
  method GetHeaderColumnIndex(row: seq<CellValue>, headerName: string) returns (index: Option<int>)
    ensures index == LastWhere(row, HeaderTest(headerName), |row|)
  {
    index := None;
    for k := 0 to |row|
      invariant index == LastWhere(row, HeaderTest(headerName), k)
    {
      if Matches(row[k], headerName) {
        index := Some(k + 1);
      }
    }
  }

  /** Lower-casing keeps a character's whitespace status. */
  lemma LowerKeepsSpace(c: char)
    ensures IsSpace(LowerChar(c)) == IsSpace(c)
  {
  }

  /** A header name with whitespace at either end matches no cell, since the stripped
      cell text has none there. */
  lemma PaddedHeaderNeverMatches(v: CellValue, headerName: string)
    requires |headerName| > 0
    requires IsSpace(headerName[0]) || IsSpace(headerName[|headerName| - 1])
    ensures !Matches(v, headerName)
  {
    var t := Strip(CellText(v));
    var a, b := Lower(t), Lower(headerName);
    LowerKeepsSpace(headerName[0]);
    LowerKeepsSpace(headerName[|headerName| - 1]);
    if |t| > 0 {
      LowerKeepsSpace(t[0]);
      LowerKeepsSpace(t[|t| - 1]);
      assert !IsSpace(a[0]) && !IsSpace(a[|a| - 1]);
    }
    assert IsSpace(b[0]) || IsSpace(b[|b| - 1]);
  }

  /** An empty cell matches the header name "none" in any letter case. */
  lemma EmptyCellMatchesNone(headerName: string)
    requires Lower(headerName) == "none"
    ensures Matches(Empty, headerName)
  {
    StripIdentity("None");
  }

  lemma EmptyCellExample()
    ensures Matches(Empty, "NONE") && !Matches(Empty, "Sales Name")
  {
    EmptyCellMatchesNone("NONE");
    assert Lower("Sales Name")[0] == 's';
  }
}
