/** The dashboard's row projection (`transformData`) and its date parsing (`parseAirtableDate`). */
module Rows {
  import opened Json
  import opened Columns

  /** A parsed date: the DD/MM/YYYY branch gives the arguments of `new Date(year, month, day)`
      (month counted from 0, not yet normalised); any other text goes to the JavaScript Date
      parser, which is not modelled. */
  datatype ParsedDate = Calendar(year: int, monthIndex: int, day: int) | Unparsed(text: string)

  /** A row of the dashboard: the record id, one cell per catalog column, and `_parsedDate`
      (None when the key is not set). */
  datatype Row = Row(id: string, cells: map<string, Value>, parsedDate: Option<ParsedDate>)

  /** What the fetch loop accumulates: a record, or `undefined` (the records of a page whose
      body had none). */
  datatype Entry = Rec(record: Record) | Undefined

  // ---------------------------------------------------------------------------
  // parseAirtableDate

  /** `\d` without the unicode flag: an ASCII digit. */
  predicate IsDigit(c: char)
  {
    '0' <= c <= '9'
  }

  function DigitValue(c: char): (d: nat)
    requires IsDigit(c)
    ensures d < 10
  {
    c as int - '0' as int
  }

  /** `/(\d{2})\/(\d{2})\/(\d{4})/` matches at position i. */
  predicate DmyAt(s: string, i: nat)
  {
    && i + 10 <= |s|
    && IsDigit(s[i]) && IsDigit(s[i + 1]) && s[i + 2] == '/'
    && IsDigit(s[i + 3]) && IsDigit(s[i + 4]) && s[i + 5] == '/'
    && IsDigit(s[i + 6]) && IsDigit(s[i + 7]) && IsDigit(s[i + 8]) && IsDigit(s[i + 9])
  }

  /** `parseInt` of the two digits at i. */
  function TwoDigits(s: string, i: nat): (n: nat)
    requires i + 2 <= |s| && IsDigit(s[i]) && IsDigit(s[i + 1])
    ensures n < 100
  {
    10 * DigitValue(s[i]) + DigitValue(s[i + 1])
  }

  /** `parseInt` of the four digits at i. */
  function FourDigits(s: string, i: nat): (n: nat)
    requires i + 4 <= |s| && IsDigit(s[i]) && IsDigit(s[i + 1]) && IsDigit(s[i + 2]) && IsDigit(s[i + 3])
    ensures n < 10000
  {
    100 * TwoDigits(s, i) + TwoDigits(s, i + 2)
  }

  /** The leftmost match at or after i, as the unanchored regular expression finds it. */
  function FirstDmy(s: string, i: nat): (k: Option<nat>)
    ensures k.Some? ==> i <= k.value && DmyAt(s, k.value)
    ensures k.Some? ==> forall j: nat :: i <= j < k.value ==> !DmyAt(s, j)
    ensures k.None? ==> forall j: nat :: i <= j ==> !DmyAt(s, j)
    decreases |s| - i
  {
    if i + 10 > |s| then None
    else if DmyAt(s, i) then Some(i)
    else FirstDmy(s, i + 1)
  }

  /** `parseAirtableDate` on a string: null for the empty string; the groups of the leftmost
      DD/MM/YYYY match when there is one; otherwise the unmodelled JavaScript parse. */
  function ParseAirtableDate(s: string): (r: Option<ParsedDate>)
    ensures r.None? <==> s == ""
    ensures forall k: nat :: s != "" && DmyAt(s, k) && (forall j: nat :: j < k ==> !DmyAt(s, j)) ==>
      r == Some(Calendar(FourDigits(s, k + 6), TwoDigits(s, k + 3) - 1, TwoDigits(s, k)))
    ensures s != "" && (forall k: nat :: !DmyAt(s, k)) ==> r == Some(Unparsed(s))
  {
    if s == "" then None
    else
      match FirstDmy(s, 0)
      case Some(k) => Some(Calendar(FourDigits(s, k + 6), TwoDigits(s, k + 3) - 1, TwoDigits(s, k)))
      case None => Some(Unparsed(s))
  }

  function DigitChar(d: nat): (c: char)
    requires d < 10
    ensures IsDigit(c) && DigitValue(c) == d
  {
    ('0' as int + d) as char
  }

  /** The DD/MM/YYYY text of a date, zero-padded. */
  function FormatDmy(day: nat, month: nat, year: nat): (s: string)
    requires day < 100 && month < 100 && year < 10000
    ensures |s| == 10 && DmyAt(s, 0)
  {
    [DigitChar(day / 10), DigitChar(day % 10), '/',
     DigitChar(month / 10), DigitChar(month % 10), '/',
     DigitChar(year / 1000), DigitChar(year / 100 % 10), DigitChar(year / 10 % 10), DigitChar(year % 10)]
  }

  lemma PaddedTwoDigits(s: string, i: nat, n: nat)
    requires n < 100 && i + 2 <= |s| && s[i] == DigitChar(n / 10) && s[i + 1] == DigitChar(n % 10)
    ensures TwoDigits(s, i) == n
  {
  }

  /** The four digits of a year, read as two pairs. */
  lemma YearDigits(year: nat)
    requires year < 10000
    ensures year / 1000 == (year / 100) / 10 && year / 100 % 10 == (year / 100) % 10
    ensures year / 10 % 10 == (year % 100) / 10 && year % 10 == (year % 100) % 10
    ensures 100 * (year / 100) + year % 100 == year
  {
  }

  /** Parsing a formatted date gives back its day, its month less one and its year. */
  lemma ParseFormattedDate(day: nat, month: nat, year: nat)
    requires day < 100 && month < 100 && year < 10000
    ensures ParseAirtableDate(FormatDmy(day, month, year)) == Some(Calendar(year, month - 1, day))
  {
    var s := FormatDmy(day, month, year);
    YearDigits(year);
    PaddedTwoDigits(s, 0, day);
    PaddedTwoDigits(s, 3, month);
    PaddedTwoDigits(s, 6, year / 100);
    PaddedTwoDigits(s, 8, year % 100);
    assert FourDigits(s, 6) == year;
    assert FirstDmy(s, 0) == Some(0);
  }

  // ---------------------------------------------------------------------------
  // transformData

  /** `row['Date']` is truthy and a number: `dateStr.match` throws a TypeError there. */
  predicate NumericDate(r: Record)
  {
    var d := FieldOrNull(r, "Date");
    d.Num? && Truthy(d)
  }

  /** One record becomes one row. */
  function TransformRecord(r: Record): (row: Row)
    requires !NumericDate(r)
    ensures row.id == r.id
    ensures row.cells.Keys == set c | c in ColumnsOrder
    ensures forall c :: c in ColumnsOrder ==> row.cells[c] == FieldOrNull(r, c)
    ensures row.parsedDate.Some? <==> Truthy(FieldOrNull(r, "Date"))
    ensures Truthy(FieldOrNull(r, "Date")) ==>
      FieldOrNull(r, "Date").Str? && row.parsedDate == ParseAirtableDate(FieldOrNull(r, "Date").s)
  {
    var date := FieldOrNull(r, "Date");
    Row(r.id,
        map c | c in ColumnsOrder :: FieldOrNull(r, c),
        if date.Str? then ParseAirtableDate(date.s) else None)
  }

  /** An entry `transformData` can map without throwing. */
  predicate Convertible(e: Entry)
  {
    e.Rec? && !NumericDate(e.record)
  }

  /** `transformData`: None when the JavaScript would throw (an undefined entry, a numeric
      date); otherwise one row per record, in order. */
  function TransformData(entries: seq<Entry>): (rows: Option<seq<Row>>)
    ensures rows.Some? <==> forall i :: 0 <= i < |entries| ==> Convertible(entries[i])
    ensures rows.Some? ==> |rows.value| == |entries|
    ensures rows.Some? ==> forall i :: 0 <= i < |entries| ==> rows.value[i] == TransformRecord(entries[i].record)
  {
    if forall i :: 0 <= i < |entries| ==> Convertible(entries[i]) then
      Some(seq(|entries|, i requires 0 <= i < |entries| => TransformRecord(entries[i].record)))
    else None
  }

  /** The fields a row still holds: its non-null cells. */
  function RecordOfRow(row: Row): Record
  {
    Record(row.id, map c | c in row.cells && row.cells[c] != Null :: row.cells[c])
  }

  /** A record restricted to the catalog's columns, without its null fields. */
  function Displayed(r: Record): Record
  {
    Record(r.id, map c | c in r.fields && c in ColumnsOrder && r.fields[c] != Null :: r.fields[c])
  }

  /** Keeping the non-null cells of a projection onto `cols` keeps exactly the record's
      non-null fields among `cols`. */
  lemma NonNullProjection(r: Record, cols: seq<string>, m: map<string, Value>)
    requires m == map c | c in cols :: FieldOrNull(r, c)
    ensures (map c | c in m && m[c] != Null :: m[c])
         == map c | c in r.fields && c in cols && r.fields[c] != Null :: r.fields[c]
  {
    var a := map c | c in m && m[c] != Null :: m[c];
    var b := map c | c in r.fields && c in cols && r.fields[c] != Null :: r.fields[c];
    assert a.Keys == b.Keys;
  }

  /** The projection loses exactly the columns outside the catalog and the difference between
      a null and a missing field: reading a row back gives the record's displayed part. */
  lemma TransformRoundTrip(r: Record)
    requires !NumericDate(r)
    ensures RecordOfRow(TransformRecord(r)) == Displayed(r)
  {
    NonNullProjection(r, ColumnsOrder, TransformRecord(r).cells);
  }
}
