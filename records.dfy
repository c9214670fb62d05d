/** The metadata record of hansainvest.py: its eight columns, the quoted line
    written to the CSV log (hansainvest.py:200-201) and the row that
    `data[1:-1].split('","')` appends to the in-memory table (hansainvest.py:207). */
module Records {
  import opened Utils
  import opened Strings

  /** One row of the record table; every column is text, as in the CSV. */
  datatype Record = Record(
    isin: string,
    documentType: string,
    effectiveDate: string,
    downloadDate: string,
    downloadUrl: string,
    filePath: string,
    md5Hash: string,
    fileSize: string)

  /** The column names of the CSV header (hansainvest.py:76-77). */
  const Header: seq<string> :=
    ["ISIN", "DocumentType", "EffectiveDate", "DownloadDate", "DownloadUrl", "FilePath", "MD5Hash", "FileSize"]

  /** The text between two quoted fields of a record line. */
  const Sep: string := "\",\""

  /** The fields of a record, in header column order. */
  function Fields(r: Record): (fs: seq<string>)
    ensures |fs| == |Header|
    ensures fs[0] == r.isin && fs[4] == r.downloadUrl && fs[5] == r.filePath
  {
    [r.isin, r.documentType, r.effectiveDate, r.downloadDate, r.downloadUrl, r.filePath, r.md5Hash, r.fileSize]
  }

  /** The quoted, comma-separated line for `fields`. */
  function FormatRow(fields: seq<string>): string
  {
    "\"" + Join(fields, Sep) + "\""
  }

  /** Python's s[1:-1]. */
  function StripQuotes(line: string): (inner: string)
    ensures |line| >= 2 ==> line == [line[0]] + inner + [line[|line| - 1]]
  {
    if |line| >= 2 then line[1..|line| - 1] else ""
  }

  /** The row `df.loc[len(df)] = data[1:-1].split('","')` appends; a split
      into any other number of fields than the table has columns raises in
      pandas, which ends the process. */
  function ParseRow(line: string): Outcome<Record>
  {
    var fs := Split(StripQuotes(line), Sep);
    if |fs| == |Header| then Ok(Record(fs[0], fs[1], fs[2], fs[3], fs[4], fs[5], fs[6], fs[7]))
    else Exit("cannot set a row with mismatched columns")
  }

  /** A field holds no double quote. */
  predicate QuoteFree(f: string)
  {
    '"' !in f
  }

  predicate RecordQuoteFree(r: Record)
  {
    forall k :: 0 <= k < |Fields(r)| ==> QuoteFree(Fields(r)[k])
  }

  /** Whether a field splits cleanly, in the field's own terms: it holds no
      `","` and does not end with `",`. */
  lemma SplitsCleanlyWhen(f: string)
    requires forall j :: !OccursAt(f, Sep, j)
    requires !(|f| >= 2 && f[|f| - 2..] == "\",")
    ensures SplitsCleanly(f, Sep)
  {
    var s := f + Sep;
    forall j | 0 <= j < |f|
      ensures !OccursAt(s, Sep, j)
    {
      if j + 3 <= |f| {
        assert s[j..j + 3] == f[j..j + 3];
        assert !OccursAt(f, Sep, j);
      } else if j == |f| - 2 {
        assert s[j..j + 3] == f[|f| - 2..] + [Sep[0]];
        assert s[j..j + 3][..2] == f[|f| - 2..] && Sep[..2] == "\",";
      } else {
        assert j == |f| - 1 && s[j..j + 3][1] == s[j + 1] == Sep[0] != Sep[1];
      }
    }
    FindIs(s, Sep, |f|);
  }

  /** Holding no `","` is not enough: a field ending with `",` loses its
      tail to the next field. */
  lemma NoSeparatorIsNotEnough()
    ensures forall j :: !OccursAt("a\",", Sep, j)
    ensures Split(Join(["a\",", "b"], Sep), Sep) != ["a\",", "b"]
  {
    var s := Join(["a\",", "b"], Sep);
    assert s == "a\",\",\"b";
    assert OccursAt(s, Sep, 1);
    assert s[2] == ',' != Sep[2];
    FindIs(s, Sep, 1);
    assert Split(s, Sep)[0] == "a";
  }

  /** A field with no double quote splits cleanly and holds no separator. */
  lemma QuoteFreeSplits(f: string)
    requires QuoteFree(f)
    ensures SplitsCleanly(f, Sep)
    ensures Find(f, Sep) == None
  {
    var s := f + Sep;
    forall j | 0 <= j < |f|
      ensures !OccursAt(s, Sep, j)
    {
      assert s[j] == f[j];
    }
    FindIs(s, Sep, |f|);
    forall j
      ensures !OccursAt(f, Sep, j)
    {
      if 0 <= j && j + |Sep| <= |f| {
        assert f[j..j + |Sep|][0] == f[j];
      }
    }
  }

  /** The record line round trip: stripping the quotes of the formatted
      line and splitting on `","` gives the fields back, in header column
      order, when no field holds a double quote. */
  lemma {:induction false} RowRoundTrip(r: Record)
    requires RecordQuoteFree(r)
    ensures ParseRow(FormatRow(Fields(r))) == Ok(r)
  {
    var fs := Fields(r);
    forall k | 0 <= k < |fs|
      ensures SplitsCleanly(fs[k], Sep) && Find(fs[k], Sep) == None
    {
      QuoteFreeSplits(fs[k]);
    }
    SplitJoin(fs, Sep);
    assert StripQuotes(FormatRow(fs)) == Join(fs, Sep);
  }

  /** The header line names the columns in the order the fields are written. */
  lemma HeaderRoundTrip()
    ensures Split(StripQuotes(FormatRow(Header)), Sep) == Header
  {
    forall k | 0 <= k < |Header|
      ensures SplitsCleanly(Header[k], Sep) && Find(Header[k], Sep) == None
    {
      QuoteFreeSplits(Header[k]);
    }
    SplitJoin(Header, Sep);
  }

  /** str(n) for a file size. */
  function NatToString(n: nat): (s: string)
    ensures |s| > 0
    ensures forall k :: 0 <= k < |s| ==> '0' <= s[k] <= '9'
  {
    if n < 10 then ["0123456789"[n]]
    else NatToString(n / 10) + ["0123456789"[n % 10]]
  }

  /** The number a string of decimal digits denotes, most significant first. */
  function DigitsValue(s: string): nat
  {
    if |s| == 0 then 0
    else
      var d := s[|s| - 1] as int - '0' as int;
      DigitsValue(s[..|s| - 1]) * 10 + (if 0 <= d then d else 0)
  }

  /** str(n) denotes n: the FileSize column holds the size itself. */
  lemma {:induction false} NatToStringValue(n: nat)
    ensures DigitsValue(NatToString(n)) == n
  {
    var s := NatToString(n);
    if n >= 10 {
      assert s[..|s| - 1] == NatToString(n / 10);
      NatToStringValue(n / 10);
    }
  }

  /** Decimal digits never include a double quote. */
  lemma NatToStringQuoteFree(n: nat)
    ensures QuoteFree(NatToString(n))
  {
  }
}
