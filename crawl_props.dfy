/** What the crawl of module Crawl guarantees: the record table keeps one
    record per (ISIN, DownloadUrl) and one file and digest per url, a new
    record holds what was read and reused or saved, and a crawl repeated over
    an unchanged site adds nothing. */
module CrawlProps {
  import opened Utils
  import opened Strings
  import opened Records
  import opened Crawl

  /** No two records share an ISIN and a DownloadUrl. */
  ghost predicate Unique(df: seq<Record>)
  {
    forall i, j :: 0 <= i < j < |df| ==> !(df[i].isin == df[j].isin && df[i].downloadUrl == df[j].downloadUrl)
  }

  /** Every record has a FilePath, and records with the same DownloadUrl have
      the same FilePath and MD5Hash. */
  ghost predicate Coherent(df: seq<Record>)
  {
    && (forall i :: 0 <= i < |df| ==> df[i].filePath != "")
    && (forall i, j :: 0 <= i < |df| && 0 <= j < |df| && df[i].downloadUrl == df[j].downloadUrl ==>
          df[i].filePath == df[j].filePath && df[i].md5Hash == df[j].md5Hash)
  }

  /** No field of the table holds a double quote, so every line re-reads as
      the record it was written from. */
  ghost predicate CleanTable(df: seq<Record>)
  {
    forall i :: 0 <= i < |df| ==> RecordQuoteFree(df[i])
  }

  ghost predicate Consistent(df: seq<Record>)
  {
    Unique(df) && Coherent(df)
  }

  ghost predicate TableInv(df: seq<Record>)
  {
    Consistent(df) && CleanTable(df)
  }

  /** Text the crawl writes into records holds no double quote. */
  ghost predicate CleanEnv(env: Env)
  {
    QuoteFree(env.filePathPrefix) && QuoteFree(env.today) && forall b :: QuoteFree(env.md5(b))
  }

  ghost predicate CleanCell(cell: Cell)
  {
    QuoteFree(cell.url) && QuoteFree(cell.date)
  }

  ghost predicate CleanRow(row: Row)
  {
    && (row.isin.Some? ==> QuoteFree(row.isin.value))
    && forall n :: 0 <= n < |row.cells| && row.cells[n].Some? ==> CleanCell(row.cells[n].value)
  }

  ghost predicate CleanRows(rows: seq<Row>)
  {
    forall k :: 0 <= k < |rows| ==> CleanRow(rows[k])
  }

  ghost predicate CleanPages(pages: seq<Page>)
  {
    forall p :: 0 <= p < |pages| && pages[p].rows.Some? ==> CleanRows(pages[p].rows.value)
  }

  lemma FreshPathQuoteFree(prefix: string, isin: string, url: string)
    requires QuoteFree(prefix) && QuoteFree(isin) && QuoteFree(url)
    ensures QuoteFree(FreshPath(prefix, isin, url)) && FreshPath(prefix, isin, url) != ""
  {
  }

  /** A fetched file is saved in the folder of its ISIN under the file
      folder, which is what create_parents is asked to make
      (hansainvest.py:186-188), when the url's last segment is a plain name. */
  lemma FreshPathFolder(prefix: string, isin: string, url: string)
    requires LastSegment(url) != "" && '\\' !in LastSegment(url)
    ensures ParentDir(FreshPath(prefix, isin, url)) == prefix + "\\" + isin
  {
    ParentDirOf(prefix + "\\" + isin, LastSegment(url));
  }

  /** The file a new document gets (hansainvest.py:170-193): the FilePath
      and MD5Hash of the first record with the same url when some record
      with it has a FilePath, with nothing downloaded or written; otherwise
      the path prefix\ISIN\file name of the url and the digest of the
      downloaded bytes, that file saved with their size. */
  lemma ObtainFile(env: Env, s: State, isin: string, url: string)
    requires CleanEnv(env) && QuoteFree(isin) && QuoteFree(url) && CleanTable(s.df)
    requires Obtain(env, s, isin, url).1.Ok?
    ensures var (t, found) := Obtain(env, s, isin, url);
      && QuoteFree(found.value.0) && QuoteFree(found.value.1)
      && (HasPathFor(s.df, url) ==>
            && UrlIndex(s.df, url).Some?
            && found.value == (s.df[UrlIndex(s.df, url).value].filePath, s.df[UrlIndex(s.df, url).value].md5Hash)
            && t == s)
      && (!HasPathFor(s.df, url) ==>
            && url in env.server
            && found.value == (FreshPath(env.filePathPrefix, isin, url), env.md5(env.server[url]))
            && found.value.0 in t.files
            && t.files == s.files[found.value.0 := |env.server[url]|])
  {
    if HasPathFor(s.df, url) {
      var i := UrlIndex(s.df, url).value;
      assert Obtain(env, s, isin, url) == (s, Ok((s.df[i].filePath, s.df[i].md5Hash)));
      assert RecordQuoteFree(s.df[i]);
      assert QuoteFree(Fields(s.df[i])[5]) && QuoteFree(Fields(s.df[i])[6]);
    } else {
      ObtainFetched(env, s, isin, url);
      FreshPathQuoteFree(env.filePathPrefix, isin, url);
      assert QuoteFree(env.md5(env.server[url]));
    }
  }

  /** A url no record has a FilePath for is downloaded, and the file is saved
      under its fresh path with the size of the download. */
  lemma ObtainFetched(env: Env, s: State, isin: string, url: string)
    requires !HasPathFor(s.df, url) && Obtain(env, s, isin, url).1.Ok?
    ensures url in env.server
    ensures var filePath := FreshPath(env.filePathPrefix, isin, url);
      && Obtain(env, s, isin, url).1 == Ok((filePath, env.md5(env.server[url])))
      && Obtain(env, s, isin, url).0.files == s.files[filePath := |env.server[url]|]
  {
    var filePath := FreshPath(env.filePathPrefix, isin, url);
    var made := MakeParents(s.dirs, s.files, filePath);
    assert url in env.server && made.Ok? && CanWrite(made.value, filePath);
    var content := env.server[url];
    assert Obtain(env, s, isin, url)
        == (s.(dirs := made.value, files := s.files[filePath := |content|]), Ok((filePath, env.md5(content))));
  }

  /** The document type names hold no double quote. */
  lemma DocTypesQuoteFree(n: nat)
    requires n < |DocTypes|
    ensures QuoteFree(DocTypes[n])
  {
    assert DocTypes[0] == "Verkaufsprospekt" && DocTypes[1] == "Jahresbericht" && DocTypes[2] == "Halbjahresbericht";
  }

  /** The line written for quote-free text re-reads as the record whose
      fields were written (hansainvest.py:200-207). */
  lemma RecordLineParses(env: Env, isin: string, n: nat, cell: Cell, filePath: string, md5Hash: string, size: nat)
    requires n < |DocTypes|
    requires CleanEnv(env) && QuoteFree(isin) && CleanCell(cell) && QuoteFree(filePath) && QuoteFree(md5Hash)
    ensures var r := Record(isin, DocTypes[n], cell.date, env.today, cell.url, filePath, md5Hash, NatToString(size));
      && RecordQuoteFree(r)
      && RecordLine(env, isin, n, cell, filePath, md5Hash, size) == FormatRow(Fields(r))
      && ParseRow(FormatRow(Fields(r))) == Ok(r)
  {
    var r := Record(isin, DocTypes[n], cell.date, env.today, cell.url, filePath, md5Hash, NatToString(size));
    NatToStringQuoteFree(size);
    DocTypesQuoteFree(n);
    RowRoundTrip(r);
  }

  /** The record appended for quote-free text is the one whose fields were
      written, and the log gains exactly its line (hansainvest.py:195-208). */
  lemma AppendRecord(env: Env, s: State, isin: string, n: nat, cell: Cell, filePath: string, md5Hash: string)
    requires n < |DocTypes|
    requires CleanEnv(env) && QuoteFree(isin) && CleanCell(cell) && QuoteFree(filePath) && QuoteFree(md5Hash)
    requires filePath in s.files
    ensures var (t, signal) := Append(env, s, isin, n, cell, filePath, md5Hash);
      var r := Record(isin, DocTypes[n], cell.date, env.today, cell.url, filePath, md5Hash, NatToString(s.files[filePath]));
      && signal == Proceed && RecordQuoteFree(r)
      && t == s.(df := s.df + [r], csv := s.csv + [FormatRow(Fields(r)) + "\n"])
  {
    var size := s.files[filePath];
    var line := RecordLine(env, isin, n, cell, filePath, md5Hash, size);
    RecordLineParses(env, isin, n, cell, filePath, md5Hash, size);
    var r := Record(isin, DocTypes[n], cell.date, env.today, cell.url, filePath, md5Hash, NatToString(size));
    assert ParseRow(line) == Ok(r);
  }

  /** The record a new document adds (hansainvest.py:161-208): the ISIN,
      document type, effective date, run date and url read for it, the file
      of ObtainFile, FileSize the size of that file on disk; the log gains
      exactly the record's line. */
  lemma ExamineRecord(env: Env, s: State, isin: string, n: nat, cell: Cell)
    requires n < |DocTypes|
    requires CleanEnv(env) && QuoteFree(isin) && CleanCell(cell) && CleanTable(s.df)
    requires !HasKey(s.df, isin, cell.url) && Examine(env, s, isin, n, cell).1.Proceed?
    ensures var t := Examine(env, s, isin, n, cell).0;
      && |t.df| == |s.df| + 1 && t.df[..|s.df|] == s.df
      && var r := t.df[|s.df|];
      && r.isin == isin && r.documentType == DocTypes[n] && r.effectiveDate == cell.date
      && r.downloadDate == env.today && r.downloadUrl == cell.url
      && r.filePath in t.files && r.fileSize == NatToString(t.files[r.filePath])
      && t.csv == s.csv + [FormatRow(Fields(r)) + "\n"]
      && RecordQuoteFree(r)
      && (HasPathFor(s.df, cell.url) ==>
            && UrlIndex(s.df, cell.url).Some?
            && r.filePath == s.df[UrlIndex(s.df, cell.url).value].filePath
            && r.md5Hash == s.df[UrlIndex(s.df, cell.url).value].md5Hash
            && t.dirs == s.dirs && t.files == s.files)
      && (!HasPathFor(s.df, cell.url) ==>
            && cell.url in env.server
            && r.filePath == FreshPath(env.filePathPrefix, isin, cell.url)
            && r.md5Hash == env.md5(env.server[cell.url])
            && t.files == s.files[r.filePath := |env.server[cell.url]|])
  {
    var s1 := s.(counter := s.counter + 1);
    var (s2, obtained) := Obtain(env, s1, isin, cell.url);
    assert Examine(env, s, isin, n, cell) == Append(env, s2, isin, n, cell, obtained.value.0, obtained.value.1);
    ObtainFile(env, s1, isin, cell.url);
    AppendRecord(env, s2, isin, n, cell, obtained.value.0, obtained.value.1);
  }

  /** Appending a quote-free record keeps the table free of double quotes. */
  lemma AppendKeepsClean(df: seq<Record>, r: Record)
    requires CleanTable(df) && RecordQuoteFree(r)
    ensures CleanTable(df + [r])
  {
    assert forall i :: 0 <= i < |df| ==> (df + [r])[i] == df[i];
  }

  /** Appending a record with a FilePath, a new (ISIN, DownloadUrl) and the
      FilePath and MD5Hash every record with its url already has keeps the
      table consistent. */
  lemma AppendKeepsConsistent(df: seq<Record>, r: Record)
    requires Consistent(df) && r.filePath != "" && !HasKey(df, r.isin, r.downloadUrl)
    requires forall i :: 0 <= i < |df| && df[i].downloadUrl == r.downloadUrl ==>
               df[i].filePath == r.filePath && df[i].md5Hash == r.md5Hash
    ensures Consistent(df + [r])
  {
    AppendKeepsUnique(df, r);
    assert forall i :: 0 <= i < |df| ==> (df + [r])[i] == df[i];
  }

  /** One category keeps the table free of double quotes. */
  lemma ExamineKeepsClean(env: Env, s: State, isin: string, n: nat, cell: Cell)
    requires n < |DocTypes|
    requires CleanEnv(env) && QuoteFree(isin) && CleanCell(cell) && CleanTable(s.df)
    ensures CleanTable(Examine(env, s, isin, n, cell).0.df)
  {
    var (t, signal) := Examine(env, s, isin, n, cell);
    if HasKey(s.df, isin, cell.url) || !signal.Proceed? {
      assert t.df == s.df;
    } else {
      ExamineRecord(env, s, isin, n, cell);
      var r := t.df[|s.df|];
      assert t.df == s.df + [r];
      AppendKeepsClean(s.df, r);
    }
  }

  /** One category keeps the table consistent: the exact-match check keeps
      (ISIN, DownloadUrl) unique, and the reuse rule keeps one FilePath and
      MD5Hash per url. */
  lemma ExamineKeepsTable(env: Env, s: State, isin: string, n: nat, cell: Cell)
    requires n < |DocTypes|
    requires CleanEnv(env) && QuoteFree(isin) && CleanCell(cell) && TableInv(s.df)
    ensures Consistent(Examine(env, s, isin, n, cell).0.df)
  {
    var (t, signal) := Examine(env, s, isin, n, cell);
    if HasKey(s.df, isin, cell.url) || !signal.Proceed? {
      assert t.df == s.df;
    } else {
      ExamineAddsConsistent(env, s, isin, n, cell);
    }
  }

  /** ExamineKeepsTable for a category that adds a record. */
  lemma ExamineAddsConsistent(env: Env, s: State, isin: string, n: nat, cell: Cell)
    requires n < |DocTypes|
    requires CleanEnv(env) && QuoteFree(isin) && CleanCell(cell) && TableInv(s.df)
    requires !HasKey(s.df, isin, cell.url) && Examine(env, s, isin, n, cell).1.Proceed?
    ensures Consistent(Examine(env, s, isin, n, cell).0.df)
  {
    var t := Examine(env, s, isin, n, cell).0;
    ExamineRecord(env, s, isin, n, cell);
    var r := t.df[|s.df|];
    assert t.df == s.df + [r];
    if HasPathFor(s.df, cell.url) {
      var first := UrlIndex(s.df, cell.url).value;
      assert r.filePath == s.df[first].filePath && r.md5Hash == s.df[first].md5Hash;
      forall i | 0 <= i < |s.df| && s.df[i].downloadUrl == r.downloadUrl
        ensures s.df[i].filePath == r.filePath && s.df[i].md5Hash == r.md5Hash
      {
        assert s.df[first].downloadUrl == s.df[i].downloadUrl;
      }
    } else {
      FreshPathQuoteFree(env.filePathPrefix, isin, cell.url);
      forall i | 0 <= i < |s.df|
        ensures s.df[i].downloadUrl != r.downloadUrl
      {
        assert s.df[i].filePath != "";
      }
    }
    AppendKeepsConsistent(s.df, r);
  }

  lemma {:induction false} CategoriesKeepClean(env: Env, s: State, isin: string, row: Row, n: nat)
    requires n <= |DocTypes|
    requires CleanEnv(env) && QuoteFree(isin) && CleanRow(row) && CleanTable(s.df)
    ensures CleanTable(Categories(env, s, isin, row, n).0.df)
    decreases |DocTypes| - n, 1
  {
    if n < |DocTypes| && s.counter < env.maxEntries {
      match CellAt(row, n)
      case None =>
        CategoriesKeepClean(env, s, isin, row, n + 1);
      case Some(cell) =>
        var (s1, signal) := Examine(env, s, isin, n, cell);
        if signal.Proceed? {
          CategoriesKeepCleanOn(env, s, isin, row, n, cell);
        } else {
          assert Categories(env, s, isin, row, n).0 == s1;
          assert row.cells[n] == Some(cell);
          ExamineKeepsClean(env, s, isin, n, cell);
        }
    } else {
      assert Categories(env, s, isin, row, n).0 == s;
    }
  }

  /** CategoriesKeepClean for a present column that goes on. */
  lemma {:induction false} CategoriesKeepCleanOn(env: Env, s: State, isin: string, row: Row, n: nat, cell: Cell)
    requires n < |DocTypes| && s.counter < env.maxEntries && CellAt(row, n) == Some(cell)
    requires Examine(env, s, isin, n, cell).1.Proceed?
    requires CleanEnv(env) && QuoteFree(isin) && CleanRow(row) && CleanTable(s.df)
    ensures CleanTable(Categories(env, s, isin, row, n).0.df)
    decreases |DocTypes| - n, 0
  {
    var s1 := Examine(env, s, isin, n, cell).0;
    assert row.cells[n] == Some(cell);
    ExamineKeepsClean(env, s, isin, n, cell);
    CategoriesNext(env, s, isin, row, n, cell);
    CategoriesKeepClean(env, s1, isin, row, n + 1);
  }

  lemma {:induction false} CategoriesKeepTable(env: Env, s: State, isin: string, row: Row, n: nat)
    requires n <= |DocTypes|
    requires CleanEnv(env) && QuoteFree(isin) && CleanRow(row) && TableInv(s.df)
    ensures Consistent(Categories(env, s, isin, row, n).0.df)
    decreases |DocTypes| - n, 1
  {
    if n < |DocTypes| && s.counter < env.maxEntries {
      match CellAt(row, n)
      case None =>
        CategoriesKeepTable(env, s, isin, row, n + 1);
      case Some(cell) =>
        var (s1, signal) := Examine(env, s, isin, n, cell);
        if signal.Proceed? {
          CategoriesKeepTableOn(env, s, isin, row, n, cell);
        } else {
          assert Categories(env, s, isin, row, n).0 == s1;
          assert row.cells[n] == Some(cell);
          ExamineKeepsTable(env, s, isin, n, cell);
        }
    } else {
      assert Categories(env, s, isin, row, n).0 == s;
    }
  }

  /** CategoriesKeepTable for a present column that goes on. */
  lemma {:induction false} CategoriesKeepTableOn(env: Env, s: State, isin: string, row: Row, n: nat, cell: Cell)
    requires n < |DocTypes| && s.counter < env.maxEntries && CellAt(row, n) == Some(cell)
    requires Examine(env, s, isin, n, cell).1.Proceed?
    requires CleanEnv(env) && QuoteFree(isin) && CleanRow(row) && TableInv(s.df)
    ensures Consistent(Categories(env, s, isin, row, n).0.df)
    decreases |DocTypes| - n, 0
  {
    var s1 := Examine(env, s, isin, n, cell).0;
    assert row.cells[n] == Some(cell);
    ExamineKeepsClean(env, s, isin, n, cell);
    ExamineKeepsTable(env, s, isin, n, cell);
    CategoriesNext(env, s, isin, row, n, cell);
    CategoriesKeepTable(env, s1, isin, row, n + 1);
  }

  lemma {:induction false} RowsKeepClean(env: Env, s: State, rows: seq<Row>, k: nat)
    requires k <= |rows|
    requires CleanEnv(env) && CleanRows(rows) && CleanTable(s.df)
    ensures CleanTable(Rows(env, s, rows, k).0.df)
    decreases |rows| - k
  {
    if k < |rows| {
      var row := rows[k];
      if row.isin.Some? {
        CategoriesKeepClean(env, s, row.isin.value, row, 0);
      }
      RowsKeepClean(env, RowParsing(env, s, row).0, rows, k + 1);
    }
  }

  lemma {:induction false} RowsKeepTable(env: Env, s: State, rows: seq<Row>, k: nat)
    requires k <= |rows|
    requires CleanEnv(env) && CleanRows(rows) && TableInv(s.df)
    ensures Consistent(Rows(env, s, rows, k).0.df)
    decreases |rows| - k
  {
    if k < |rows| {
      var row := rows[k];
      if row.isin.Some? {
        CategoriesKeepClean(env, s, row.isin.value, row, 0);
        CategoriesKeepTable(env, s, row.isin.value, row, 0);
      }
      RowsKeepTable(env, RowParsing(env, s, row).0, rows, k + 1);
    }
  }

  lemma {:induction false} ProcessKeepsClean(env: Env, s: State, pages: seq<Page>, p: nat)
    requires p <= |pages|
    requires CleanEnv(env) && CleanPages(pages) && CleanTable(s.df)
    ensures CleanTable(Process(env, s, pages, p).0.df)
    decreases |pages| - p, 1
  {
    if s.counter < env.maxEntries && p < |pages| && pages[p].ready && pages[p].rows.Some? {
      var rows := pages[p].rows.value;
      var (s1, signal) := Rows(env, s, rows, 0);
      if signal.Proceed? && NextPage(pages[p].nextClass) == Ok(true) {
        ProcessKeepsCleanOn(env, s, pages, p);
      } else {
        assert Process(env, s, pages, p).0 == s1;
        RowsKeepClean(env, s, rows, 0);
      }
    } else {
      assert Process(env, s, pages, p).0 == s;
    }
  }

  /** ProcessKeepsClean for a page that hands over to the next one. */
  lemma {:induction false} ProcessKeepsCleanOn(env: Env, s: State, pages: seq<Page>, p: nat)
    requires p < |pages| && s.counter < env.maxEntries && pages[p].ready && pages[p].rows.Some?
    requires Rows(env, s, pages[p].rows.value, 0).1.Proceed? && NextPage(pages[p].nextClass) == Ok(true)
    requires CleanEnv(env) && CleanPages(pages) && CleanTable(s.df)
    ensures CleanTable(Process(env, s, pages, p).0.df)
    decreases |pages| - p, 0
  {
    var s1 := Rows(env, s, pages[p].rows.value, 0).0;
    RowsKeepClean(env, s, pages[p].rows.value, 0);
    ProcessNext(env, s, pages, p);
    ProcessKeepsClean(env, s1, pages, p + 1);
  }

  lemma {:induction false} ProcessKeepsTable(env: Env, s: State, pages: seq<Page>, p: nat)
    requires p <= |pages|
    requires CleanEnv(env) && CleanPages(pages) && TableInv(s.df)
    ensures Consistent(Process(env, s, pages, p).0.df)
    decreases |pages| - p, 1
  {
    if s.counter < env.maxEntries && p < |pages| && pages[p].ready && pages[p].rows.Some? {
      var rows := pages[p].rows.value;
      var (s1, signal) := Rows(env, s, rows, 0);
      if signal.Proceed? && NextPage(pages[p].nextClass) == Ok(true) {
        ProcessKeepsTableOn(env, s, pages, p);
      } else {
        assert Process(env, s, pages, p).0 == s1;
        RowsKeepTable(env, s, rows, 0);
      }
    } else {
      assert Process(env, s, pages, p).0 == s;
    }
  }

  /** ProcessKeepsTable for a page that hands over to the next one. */
  lemma {:induction false} ProcessKeepsTableOn(env: Env, s: State, pages: seq<Page>, p: nat)
    requires p < |pages| && s.counter < env.maxEntries && pages[p].ready && pages[p].rows.Some?
    requires Rows(env, s, pages[p].rows.value, 0).1.Proceed? && NextPage(pages[p].nextClass) == Ok(true)
    requires CleanEnv(env) && CleanPages(pages) && TableInv(s.df)
    ensures Consistent(Process(env, s, pages, p).0.df)
    decreases |pages| - p, 0
  {
    var s1 := Rows(env, s, pages[p].rows.value, 0).0;
    RowsKeepClean(env, s, pages[p].rows.value, 0);
    RowsKeepTable(env, s, pages[p].rows.value, 0);
    ProcessNext(env, s, pages, p);
    ProcessKeepsTable(env, s1, pages, p + 1);
  }

  /** A crawl that starts from a table with no duplicate (ISIN, DownloadUrl),
      one FilePath and MD5Hash per url and no double quote ends with such a
      table, however it ends. */
  lemma CrawlKeepsTable(env: Env, df: seq<Record>, dirs: set<string>, files: map<string, nat>, pages: seq<Page>)
    requires CleanEnv(env) && CleanPages(pages) && TableInv(df)
    ensures TableInv(Crawl.Crawl(env, df, dirs, files, pages).0.df)
  {
    ProcessKeepsClean(env, State(0, 0, df, [], dirs, files), pages, 0);
    ProcessKeepsTable(env, State(0, 0, df, [], dirs, files), pages, 0);
  }

  /** Appending a record whose (ISIN, DownloadUrl) is new keeps that pair
      unique. */
  lemma AppendKeepsUnique(df: seq<Record>, r: Record)
    requires Unique(df) && !HasKey(df, r.isin, r.downloadUrl)
    ensures Unique(df + [r])
  {
    var d := df + [r];
    assert forall i :: 0 <= i < |df| ==> d[i] == df[i];
    forall i, j | 0 <= i < j < |d|
      ensures !(d[i].isin == d[j].isin && d[i].downloadUrl == d[j].downloadUrl)
    {
      if j == |df| {
        assert d[i] == df[i];
      }
    }
  }

  /** One category keeps (ISIN, DownloadUrl) unique: the exact-match check
      sees every record appended before it, whatever their FilePaths. */
  lemma ExamineKeepsUnique(env: Env, s: State, isin: string, n: nat, cell: Cell)
    requires n < |DocTypes|
    requires CleanEnv(env) && QuoteFree(isin) && CleanCell(cell) && Unique(s.df) && CleanTable(s.df)
    ensures Unique(Examine(env, s, isin, n, cell).0.df)
  {
    var (t, signal) := Examine(env, s, isin, n, cell);
    if HasKey(s.df, isin, cell.url) || !signal.Proceed? {
      assert t.df == s.df;
    } else {
      ExamineRecord(env, s, isin, n, cell);
      var r := t.df[|s.df|];
      assert t.df == s.df + [r];
      AppendKeepsUnique(s.df, r);
    }
  }

  lemma {:induction false} CategoriesKeepUnique(env: Env, s: State, isin: string, row: Row, n: nat)
    requires n <= |DocTypes|
    requires CleanEnv(env) && QuoteFree(isin) && CleanRow(row) && Unique(s.df) && CleanTable(s.df)
    ensures Unique(Categories(env, s, isin, row, n).0.df)
    decreases |DocTypes| - n, 1
  {
    if n < |DocTypes| && s.counter < env.maxEntries {
      match CellAt(row, n)
      case None =>
        CategoriesKeepUnique(env, s, isin, row, n + 1);
      case Some(cell) =>
        var (s1, signal) := Examine(env, s, isin, n, cell);
        if signal.Proceed? {
          CategoriesKeepUniqueOn(env, s, isin, row, n, cell);
        } else {
          assert Categories(env, s, isin, row, n).0 == s1;
          assert row.cells[n] == Some(cell);
          ExamineKeepsUnique(env, s, isin, n, cell);
        }
    } else {
      assert Categories(env, s, isin, row, n).0 == s;
    }
  }

  /** CategoriesKeepUnique for a present column that goes on. */
  lemma {:induction false} CategoriesKeepUniqueOn(env: Env, s: State, isin: string, row: Row, n: nat, cell: Cell)
    requires n < |DocTypes| && s.counter < env.maxEntries && CellAt(row, n) == Some(cell)
    requires Examine(env, s, isin, n, cell).1.Proceed?
    requires CleanEnv(env) && QuoteFree(isin) && CleanRow(row) && Unique(s.df) && CleanTable(s.df)
    ensures Unique(Categories(env, s, isin, row, n).0.df)
    decreases |DocTypes| - n, 0
  {
    var s1 := Examine(env, s, isin, n, cell).0;
    assert row.cells[n] == Some(cell);
    ExamineKeepsClean(env, s, isin, n, cell);
    ExamineKeepsUnique(env, s, isin, n, cell);
    CategoriesNext(env, s, isin, row, n, cell);
    CategoriesKeepUnique(env, s1, isin, row, n + 1);
  }

  lemma {:induction false} RowsKeepUnique(env: Env, s: State, rows: seq<Row>, k: nat)
    requires k <= |rows|
    requires CleanEnv(env) && CleanRows(rows) && Unique(s.df) && CleanTable(s.df)
    ensures Unique(Rows(env, s, rows, k).0.df)
    decreases |rows| - k
  {
    if k < |rows| {
      var row := rows[k];
      if row.isin.Some? {
        CategoriesKeepClean(env, s, row.isin.value, row, 0);
        CategoriesKeepUnique(env, s, row.isin.value, row, 0);
      }
      RowsKeepUnique(env, RowParsing(env, s, row).0, rows, k + 1);
    }
  }

  lemma {:induction false} ProcessKeepsUnique(env: Env, s: State, pages: seq<Page>, p: nat)
    requires p <= |pages|
    requires CleanEnv(env) && CleanPages(pages) && Unique(s.df) && CleanTable(s.df)
    ensures Unique(Process(env, s, pages, p).0.df)
    decreases |pages| - p, 1
  {
    if s.counter < env.maxEntries && p < |pages| && pages[p].ready && pages[p].rows.Some? {
      var rows := pages[p].rows.value;
      var (s1, signal) := Rows(env, s, rows, 0);
      if signal.Proceed? && NextPage(pages[p].nextClass) == Ok(true) {
        ProcessKeepsUniqueOn(env, s, pages, p);
      } else {
        assert Process(env, s, pages, p).0 == s1;
        RowsKeepUnique(env, s, rows, 0);
      }
    } else {
      assert Process(env, s, pages, p).0 == s;
    }
  }

  /** ProcessKeepsUnique for a page that hands over to the next one. */
  lemma {:induction false} ProcessKeepsUniqueOn(env: Env, s: State, pages: seq<Page>, p: nat)
    requires p < |pages| && s.counter < env.maxEntries && pages[p].ready && pages[p].rows.Some?
    requires Rows(env, s, pages[p].rows.value, 0).1.Proceed? && NextPage(pages[p].nextClass) == Ok(true)
    requires CleanEnv(env) && CleanPages(pages) && Unique(s.df) && CleanTable(s.df)
    ensures Unique(Process(env, s, pages, p).0.df)
    decreases |pages| - p, 0
  {
    var s1 := Rows(env, s, pages[p].rows.value, 0).0;
    RowsKeepClean(env, s, pages[p].rows.value, 0);
    RowsKeepUnique(env, s, pages[p].rows.value, 0);
    ProcessNext(env, s, pages, p);
    ProcessKeepsUnique(env, s1, pages, p + 1);
  }

  /** A crawl that starts from a table with no duplicate (ISIN, DownloadUrl)
      and no double quote ends with no duplicate, however it ends; nothing is
      assumed about FilePaths. */
  lemma CrawlKeepsUnique(env: Env, df: seq<Record>, dirs: set<string>, files: map<string, nat>, pages: seq<Page>)
    requires CleanEnv(env) && CleanPages(pages) && Unique(df) && CleanTable(df)
    ensures Unique(Crawl.Crawl(env, df, dirs, files, pages).0.df)
  {
    ProcessKeepsUnique(env, State(0, 0, df, [], dirs, files), pages, 0);
  }

  /** A field that starts with `,"` followed by text free of quotes splits
      cleanly: its only quote cannot start a `","`. */
  lemma CommaQuoteSplits(g: string)
    requires QuoteFree(g) && |g| >= 2
    ensures SplitsCleanly(",\"" + g, Sep)
  {
    var f := ",\"" + g;
    forall j
      ensures !OccursAt(f, Sep, j)
    {
      if 0 <= j && j + |Sep| <= |f| {
        if j == 1 {
          assert f[j..j + |Sep|][2] == g[1] != '"';
        } else {
          assert f[j..j + |Sep|][0] == f[j] != '"';
        }
      }
    }
    assert f[|f| - 2..][0] == g[|g| - 2] != '"';
    SplitsCleanlyWhen(f);
  }

  /** A line written with a first field ending in `",` re-reads with that
      tail moved to the front of the second field (hansainvest.py:200-207). */
  lemma QuotedLineReadsBack(a: string, b: string, c: string, d: string, e: string, f: string, g: string, h: string)
    requires QuoteFree(a) && QuoteFree(b) && QuoteFree(c) && QuoteFree(d)
    requires QuoteFree(e) && QuoteFree(f) && QuoteFree(g) && QuoteFree(h) && |b| >= 2
    ensures ParseRow(FormatRow([a + "\",", b, c, d, e, f, g, h])) == Ok(Record(a, ",\"" + b, c, d, e, f, g, h))
  {
    var written := [a + "\",", b, c, d, e, f, g, h];
    var read := [a, ",\"" + b, c, d, e, f, g, h];
    var rest := Join(written[2..], Sep);
    assert written[2..] == read[2..];
    assert Join(written, Sep) == (a + "\",") + Sep + (b + Sep + rest);
    assert Join(read, Sep) == a + Sep + ((",\"" + b) + Sep + rest);
    assert Join(written, Sep) == Join(read, Sep);
    forall k | 0 <= k < |read| - 1
      ensures SplitsCleanly(read[k], Sep)
    {
      if k == 1 {
        CommaQuoteSplits(b);
      } else {
        QuoteFreeSplits(read[k]);
      }
    }
    QuoteFreeSplits(h);
    SplitJoin(read, Sep);
    assert StripQuotes(FormatRow(written)) == Join(read, Sep);
  }

  /** The quote-free premise of CrawlKeepsUnique is one the program needs.
      Let the table hold (A, U), with a file on disk for U. A row with ISIN
      `A",` and url U passes the exact-match check (hansainvest.py:164),
      reuses that file, and its written line re-reads with ISIN A
      (hansainvest.py:200-207), so the table holds (A, U) twice. */
  lemma QuotedIsinDuplicates(env: Env, s: State, isin: string, n: nat, cell: Cell)
    requires n < |DocTypes|
    requires CleanEnv(env) && QuoteFree(isin) && CleanCell(cell) && CleanTable(s.df)
    requires HasKey(s.df, isin, cell.url) && HasPathFor(s.df, cell.url)
    requires s.df[UrlIndex(s.df, cell.url).value].filePath in s.files
    ensures !HasKey(s.df, isin + "\",", cell.url)
    ensures Examine(env, s, isin + "\",", n, cell).1.Proceed?
    ensures var t := Examine(env, s, isin + "\",", n, cell).0;
      && |t.df| == |s.df| + 1 && t.df[..|s.df|] == s.df
      && t.df[|s.df|].isin == isin && t.df[|s.df|].downloadUrl == cell.url
    ensures !Unique(Examine(env, s, isin + "\",", n, cell).0.df)
  {
    var quoted := isin + "\",";
    assert quoted[|isin|] == '"';
    forall i | 0 <= i < |s.df|
      ensures s.df[i].isin != quoted
    {
      assert RecordQuoteFree(s.df[i]) && Fields(s.df[i])[0] == s.df[i].isin;
    }
    var first := s.df[UrlIndex(s.df, cell.url).value];
    assert RecordQuoteFree(first) && Fields(first)[5] == first.filePath && Fields(first)[6] == first.md5Hash;
    var size := s.files[first.filePath];
    DocTypesQuoteFree(n);
    NatToStringQuoteFree(size);
    assert |DocTypes[n]| >= 2 by {
      assert DocTypes[0] == "Verkaufsprospekt" && DocTypes[1] == "Jahresbericht" && DocTypes[2] == "Halbjahresbericht";
    }
    QuotedLineReadsBack(isin, DocTypes[n], cell.date, env.today, cell.url, first.filePath, first.md5Hash, NatToString(size));
    var r := Record(isin, ",\"" + DocTypes[n], cell.date, env.today, cell.url, first.filePath, first.md5Hash, NatToString(size));
    assert ParseRow(RecordLine(env, quoted, n, cell, first.filePath, first.md5Hash, size)) == Ok(r);
    var t := Examine(env, s, quoted, n, cell).0;
    assert t.df == s.df + [r];
    var i :| 0 <= i < |s.df| && s.df[i].isin == isin && s.df[i].downloadUrl == cell.url;
    assert t.df[i] == s.df[i] && t.df[|s.df|] == r;
  }

  /** The counters and the table after a crawl (hansainvest.py:149-167,
      207-208, 104): at most the budget is examined, never more skipped than
      examined, the table and the log only grow, and unless the process
      exited, the records added are exactly what the summary reports as
      downloaded. */
  lemma CrawlAccounts(env: Env, df: seq<Record>, dirs: set<string>, files: map<string, nat>, pages: seq<Page>)
    ensures var (t, ending) := Crawl.Crawl(env, df, dirs, files, pages);
      && 0 <= t.skipped <= t.counter <= Cap(env.maxEntries)
      && df <= t.df && |t.csv| == |t.df| - |df|
      && (!ending.Aborted? ==> |t.df| - |df| == Downloaded(t))
      && (ending.BudgetReached? ==> t.counter >= env.maxEntries)
  {
  }

  /** The budget is checked before every column, present or not
      (hansainvest.py:147-159): once it is used up the row stops with nothing
      changed; below it an absent column changes nothing and the next column
      is read. */
  lemma BudgetFirst(env: Env, s: State, isin: string, row: Row, n: nat)
    requires n < |DocTypes|
    ensures s.counter >= env.maxEntries ==> Categories(env, s, isin, row, n) == (s, BudgetHit)
    ensures s.counter < env.maxEntries && CellAt(row, n).None? ==>
              Categories(env, s, isin, row, n) == Categories(env, s, isin, row, n + 1)
  {
  }

  /** A row that uses up the budget ends the page there (hansainvest.py:251-253)
      and the crawl with it (hansainvest.py:241, 252-253). */
  lemma BudgetStopsPage(env: Env, s: State, rows: seq<Row>, k: nat)
    requires k < |rows| && RowParsing(env, s, rows[k]).1.BudgetHit?
    ensures Rows(env, s, rows, k) == RowParsing(env, s, rows[k])
  {
  }

  /** A page whose rows all go on and whose next button has the disabled
      class is the last one the crawl visits (hansainvest.py:223-225,
      252-257). */
  lemma ProcessStopsAtLastPage(env: Env, s: State, pages: seq<Page>, p: nat)
    requires p < |pages| && s.counter < env.maxEntries && pages[p].ready && pages[p].rows.Some?
    requires Rows(env, s, pages[p].rows.value, 0).1.Proceed?
    requires pages[p].nextClass == Some(DisabledNext)
    ensures Process(env, s, pages, p) == (Rows(env, s, pages[p].rows.value, 0).0, LastPage)
  {
  }

  /** A row that uses up the budget ends the whole crawl, mid-page, with the
      state that row left (hansainvest.py:241, 252-253). */
  lemma ProcessStopsOnBudget(env: Env, s: State, pages: seq<Page>, p: nat)
    requires p < |pages| && s.counter < env.maxEntries && pages[p].ready && pages[p].rows.Some?
    requires Rows(env, s, pages[p].rows.value, 0).1.BudgetHit?
    ensures Process(env, s, pages, p) == (Rows(env, s, pages[p].rows.value, 0).0, BudgetReached)
  {
  }

  /** Every (ISIN, DownloadUrl) of `d` has a record in `e`. */
  ghost predicate Covers(d: seq<Record>, e: seq<Record>)
  {
    forall i :: 0 <= i < |d| ==> HasKey(e, d[i].isin, d[i].downloadUrl)
  }

  lemma CoversPrefix(d: seq<Record>, d2: seq<Record>, e: seq<Record>)
    requires d <= d2 && Covers(d2, e)
    ensures Covers(d, e)
  {
    forall i | 0 <= i < |d|
      ensures HasKey(e, d[i].isin, d[i].downloadUrl)
    {
      assert d[i] == d2[i];
    }
  }

  /** The state a second pass over the same input reaches from `b` when the
      first pass went from `a` to `a2` at the same counter: every examined
      category is skipped, and nothing else changes. */
  function Replayed(a: State, a2: State, b: State): State
  {
    b.(counter := a2.counter, skipped := b.skipped + (a2.counter - a.counter))
  }

  /** Replaying two stretches one after the other is replaying both at once. */
  lemma ReplayedThen(a: State, a1: State, a2: State, b: State)
    ensures Replayed(a1, a2, Replayed(a, a1, b)) == Replayed(a, a2, b)
  {
    var b1 := Replayed(a, a1, b);
    assert b1.skipped + (a2.counter - a1.counter) == b.skipped + (a2.counter - a.counter);
  }

  /** After a category goes on, the table has a record with its ISIN and url. */
  lemma ExamineHasKey(env: Env, s: State, isin: string, n: nat, cell: Cell)
    requires n < |DocTypes|
    requires CleanEnv(env) && QuoteFree(isin) && CleanCell(cell) && CleanTable(s.df)
    requires Examine(env, s, isin, n, cell).1.Proceed?
    ensures HasKey(Examine(env, s, isin, n, cell).0.df, isin, cell.url)
  {
    var t := Examine(env, s, isin, n, cell).0;
    if HasKey(s.df, isin, cell.url) {
      var i :| 0 <= i < |s.df| && s.df[i].isin == isin && s.df[i].downloadUrl == cell.url;
      assert t.df[i] == s.df[i];
    } else {
      ExamineRecord(env, s, isin, n, cell);
      assert t.df[|s.df|].isin == isin && t.df[|s.df|].downloadUrl == cell.url;
    }
  }

  /** A category whose ISIN and url are in the table is only counted and skipped. */
  lemma ExamineSkips(env: Env, s: State, isin: string, n: nat, cell: Cell)
    requires n < |DocTypes| && HasKey(s.df, isin, cell.url)
    ensures Examine(env, s, isin, n, cell) == (s.(counter := s.counter + 1, skipped := s.skipped + 1), Proceed)
  {
  }

  lemma ExamineReplay(env: Env, a: State, b: State, isin: string, n: nat, cell: Cell)
    requires n < |DocTypes|
    requires CleanEnv(env) && QuoteFree(isin) && CleanCell(cell) && CleanTable(a.df)
    requires a.counter == b.counter
    requires Examine(env, a, isin, n, cell).1.Proceed?
    requires Covers(Examine(env, a, isin, n, cell).0.df, b.df)
    ensures Examine(env, b, isin, n, cell) == (Replayed(a, Examine(env, a, isin, n, cell).0, b), Proceed)
  {
    var a2 := Examine(env, a, isin, n, cell).0;
    ExamineHasKey(env, a, isin, n, cell);
    var i :| 0 <= i < |a2.df| && a2.df[i].isin == isin && a2.df[i].downloadUrl == cell.url;
    assert HasKey(b.df, a2.df[i].isin, a2.df[i].downloadUrl);
    ExamineSkips(env, b, isin, n, cell);
    assert a2.counter == b.counter + 1;
    assert Replayed(a, a2, b) == b.(counter := b.counter + 1, skipped := b.skipped + 1);
  }

  /** A present category that exits ends the row there. */
  lemma CategoriesStops(env: Env, s: State, isin: string, row: Row, n: nat, cell: Cell)
    requires n < |DocTypes| && s.counter < env.maxEntries && CellAt(row, n) == Some(cell)
    ensures Examine(env, s, isin, n, cell).1.Abort? ==>
              Categories(env, s, isin, row, n) == Examine(env, s, isin, n, cell)
  {
  }

  /** A present category that goes on hands the row over to the next column. */
  lemma CategoriesNext(env: Env, s: State, isin: string, row: Row, n: nat, cell: Cell)
    requires n < |DocTypes| && s.counter < env.maxEntries && CellAt(row, n) == Some(cell)
    requires Examine(env, s, isin, n, cell).1.Proceed?
    ensures Categories(env, s, isin, row, n) == Categories(env, Examine(env, s, isin, n, cell).0, isin, row, n + 1)
  {
  }

  /** The replay of a present category: when the category and the rest of
      the row replay, so does the row from this column. */
  lemma CategoriesReplayNext(env: Env, a: State, b: State, isin: string, row: Row, n: nat, cell: Cell)
    requires n < |DocTypes| && a.counter < env.maxEntries && CellAt(row, n) == Some(cell)
    requires a.counter == b.counter
    requires Examine(env, a, isin, n, cell).1.Proceed?
    requires var a1 := Examine(env, a, isin, n, cell).0;
      && Examine(env, b, isin, n, cell) == (Replayed(a, a1, b), Proceed)
      && Categories(env, Replayed(a, a1, b), isin, row, n + 1)
         == (Replayed(a1, Categories(env, a1, isin, row, n + 1).0, Replayed(a, a1, b)), Categories(env, a1, isin, row, n + 1).1)
    ensures Categories(env, b, isin, row, n)
         == (Replayed(a, Categories(env, a, isin, row, n).0, b), Categories(env, a, isin, row, n).1)
  {
    var a1 := Examine(env, a, isin, n, cell).0;
    var b1 := Replayed(a, a1, b);
    var rest := Categories(env, a1, isin, row, n + 1);
    CategoriesNext(env, a, isin, row, n, cell);
    CategoriesNext(env, b, isin, row, n, cell);
    assert Categories(env, b, isin, row, n) == Categories(env, b1, isin, row, n + 1);
    ReplayedThen(a, a1, rest.0, b);
  }

  lemma {:induction false} CategoriesReplay(env: Env, a: State, b: State, isin: string, row: Row, n: nat)
    requires n <= |DocTypes|
    requires CleanEnv(env) && QuoteFree(isin) && CleanRow(row) && CleanTable(a.df)
    requires a.counter == b.counter
    requires !Categories(env, a, isin, row, n).1.Abort?
    requires Covers(Categories(env, a, isin, row, n).0.df, b.df)
    ensures Categories(env, b, isin, row, n)
         == (Replayed(a, Categories(env, a, isin, row, n).0, b), Categories(env, a, isin, row, n).1)
    decreases |DocTypes| - n, 2
  {
    if n == |DocTypes| || a.counter >= env.maxEntries {
      assert Replayed(a, a, b) == b;
    } else {
      match CellAt(row, n)
      case None =>
        CategoriesReplay(env, a, b, isin, row, n + 1);
      case Some(cell) =>
        CategoriesStops(env, a, isin, row, n, cell);
        CategoriesReplayOn(env, a, b, isin, row, n, cell);
    }
  }

  /** CategoriesReplay for a present column. */
  lemma {:induction false} CategoriesReplayOn(env: Env, a: State, b: State, isin: string, row: Row, n: nat, cell: Cell)
    requires n < |DocTypes| && a.counter < env.maxEntries && CellAt(row, n) == Some(cell)
    requires CleanEnv(env) && QuoteFree(isin) && CleanRow(row) && CleanTable(a.df)
    requires a.counter == b.counter
    requires Examine(env, a, isin, n, cell).1.Proceed?
    requires !Categories(env, a, isin, row, n).1.Abort?
    requires Covers(Categories(env, a, isin, row, n).0.df, b.df)
    ensures Categories(env, b, isin, row, n)
         == (Replayed(a, Categories(env, a, isin, row, n).0, b), Categories(env, a, isin, row, n).1)
    decreases |DocTypes| - n, 1
  {
    CategoriesReplayHead(env, a, b, isin, row, n, cell);
    CategoriesReplayTail(env, a, b, isin, row, n, cell);
    CategoriesReplayNext(env, a, b, isin, row, n, cell);
  }

  /** The present column replays: the record it leads to is in `b`. */
  lemma CategoriesReplayHead(env: Env, a: State, b: State, isin: string, row: Row, n: nat, cell: Cell)
    requires n < |DocTypes| && a.counter < env.maxEntries && CellAt(row, n) == Some(cell)
    requires CleanEnv(env) && QuoteFree(isin) && CleanRow(row) && CleanTable(a.df)
    requires a.counter == b.counter
    requires Examine(env, a, isin, n, cell).1.Proceed?
    requires Covers(Categories(env, a, isin, row, n).0.df, b.df)
    ensures Examine(env, b, isin, n, cell) == (Replayed(a, Examine(env, a, isin, n, cell).0, b), Proceed)
  {
    var a1 := Examine(env, a, isin, n, cell).0;
    CategoriesNext(env, a, isin, row, n, cell);
    var rest := Categories(env, a1, isin, row, n + 1);
    assert Categories(env, a, isin, row, n) == rest;
    assert CleanCell(cell) by {
      assert row.cells[n] == Some(cell);
    }
    CoversPrefix(a1.df, rest.0.df, b.df);
    ExamineReplay(env, a, b, isin, n, cell);
  }

  /** The rest of the row replays. */
  lemma {:induction false} CategoriesReplayTail(env: Env, a: State, b: State, isin: string, row: Row, n: nat, cell: Cell)
    requires n < |DocTypes| && a.counter < env.maxEntries && CellAt(row, n) == Some(cell)
    requires CleanEnv(env) && QuoteFree(isin) && CleanRow(row) && CleanTable(a.df)
    requires a.counter == b.counter
    requires Examine(env, a, isin, n, cell).1.Proceed?
    requires !Categories(env, a, isin, row, n).1.Abort?
    requires Covers(Categories(env, a, isin, row, n).0.df, b.df)
    ensures var a1 := Examine(env, a, isin, n, cell).0;
      Categories(env, Replayed(a, a1, b), isin, row, n + 1)
      == (Replayed(a1, Categories(env, a1, isin, row, n + 1).0, Replayed(a, a1, b)), Categories(env, a1, isin, row, n + 1).1)
    decreases |DocTypes| - n, 0
  {
    var a1 := Examine(env, a, isin, n, cell).0;
    var b1 := Replayed(a, a1, b);
    CategoriesNext(env, a, isin, row, n, cell);
    var rest := Categories(env, a1, isin, row, n + 1);
    assert Categories(env, a, isin, row, n) == rest;
    assert CleanCell(cell) by {
      assert row.cells[n] == Some(cell);
    }
    ExamineKeepsClean(env, a, isin, n, cell);
    assert b1.df == b.df && b1.counter == a1.counter;
    CategoriesReplay(env, a1, b1, isin, row, n + 1);
  }

  lemma {:induction false} RowsReplay(env: Env, a: State, b: State, rows: seq<Row>, k: nat)
    requires k <= |rows|
    requires CleanEnv(env) && CleanRows(rows) && CleanTable(a.df)
    requires a.counter == b.counter
    requires !Rows(env, a, rows, k).1.Abort?
    requires Covers(Rows(env, a, rows, k).0.df, b.df)
    ensures Rows(env, b, rows, k) == (Replayed(a, Rows(env, a, rows, k).0, b), Rows(env, a, rows, k).1)
    decreases |rows| - k
  {
    if k < |rows| {
      var row := rows[k];
      var (a1, signal) := RowParsing(env, a, row);
      assert row.isin.Some? && a1 == Categories(env, a, row.isin.value, row, 0).0;
      var b1 := Replayed(a, a1, b);
      if signal.Proceed? {
        var rest := Rows(env, a1, rows, k + 1);
        assert Rows(env, a, rows, k) == rest;
        CoversPrefix(a1.df, rest.0.df, b.df);
        CategoriesReplay(env, a, b, row.isin.value, row, 0);
        assert Rows(env, b, rows, k) == Rows(env, b1, rows, k + 1);
        CategoriesKeepClean(env, a, row.isin.value, row, 0);
        RowsReplay(env, a1, b1, rows, k + 1);
        ReplayedThen(a, a1, rest.0, b);
      } else {
        assert Rows(env, a, rows, k) == (a1, signal);
        CategoriesReplay(env, a, b, row.isin.value, row, 0);
      }
    } else {
      assert Replayed(a, a, b) == b;
    }
  }

  /** A page whose rows all go on and whose "next" button can be clicked
      hands the crawl over to the next page. */
  lemma ProcessNext(env: Env, s: State, pages: seq<Page>, p: nat)
    requires p < |pages| && s.counter < env.maxEntries && pages[p].ready && pages[p].rows.Some?
    requires Rows(env, s, pages[p].rows.value, 0).1.Proceed? && NextPage(pages[p].nextClass) == Ok(true)
    ensures Process(env, s, pages, p) == Process(env, Rows(env, s, pages[p].rows.value, 0).0, pages, p + 1)
  {
  }

  /** The replay of a page that hands over to the next one: when the rows
      and the rest of the crawl replay, so does the crawl from this page. */
  lemma ProcessReplayNext(env: Env, a: State, b: State, pages: seq<Page>, p: nat)
    requires p < |pages| && a.counter < env.maxEntries && pages[p].ready && pages[p].rows.Some?
    requires CleanEnv(env) && CleanRows(pages[p].rows.value) && CleanTable(a.df) && a.counter == b.counter
    requires Rows(env, a, pages[p].rows.value, 0).1.Proceed? && NextPage(pages[p].nextClass) == Ok(true)
    requires var a1 := Rows(env, a, pages[p].rows.value, 0).0;
      && Covers(a1.df, b.df)
      && Process(env, Replayed(a, a1, b), pages, p + 1)
         == (Replayed(a1, Process(env, a1, pages, p + 1).0, Replayed(a, a1, b)), Process(env, a1, pages, p + 1).1)
    ensures Process(env, b, pages, p) == (Replayed(a, Process(env, a, pages, p).0, b), Process(env, a, pages, p).1)
  {
    var a1 := Rows(env, a, pages[p].rows.value, 0).0;
    var b1 := Replayed(a, a1, b);
    var rest := Process(env, a1, pages, p + 1);
    RowsReplay(env, a, b, pages[p].rows.value, 0);
    ProcessNext(env, a, pages, p);
    ProcessNext(env, b, pages, p);
    assert Process(env, b, pages, p) == Process(env, b1, pages, p + 1);
    ReplayedThen(a, a1, rest.0, b);
  }

  lemma {:induction false} ProcessReplay(env: Env, a: State, b: State, pages: seq<Page>, p: nat)
    requires p <= |pages|
    requires CleanEnv(env) && CleanPages(pages) && CleanTable(a.df)
    requires a.counter == b.counter
    requires !Process(env, a, pages, p).1.Aborted?
    requires Covers(Process(env, a, pages, p).0.df, b.df)
    ensures Process(env, b, pages, p) == (Replayed(a, Process(env, a, pages, p).0, b), Process(env, a, pages, p).1)
    decreases |pages| - p, 1
  {
    if a.counter < env.maxEntries {
      assert p < |pages| && pages[p].ready && pages[p].rows.Some?;
      var rows := pages[p].rows.value;
      var (a1, signal) := Rows(env, a, rows, 0);
      if signal.Proceed? && NextPage(pages[p].nextClass) == Ok(true) {
        ProcessReplayOn(env, a, b, pages, p);
      } else {
        assert Process(env, a, pages, p).0 == a1;
        RowsReplay(env, a, b, rows, 0);
      }
    } else {
      assert Replayed(a, a, b) == b;
    }
  }

  /** ProcessReplay for a page that hands over to the next one. */
  lemma {:induction false} ProcessReplayOn(env: Env, a: State, b: State, pages: seq<Page>, p: nat)
    requires p < |pages| && a.counter < env.maxEntries && pages[p].ready && pages[p].rows.Some?
    requires Rows(env, a, pages[p].rows.value, 0).1.Proceed? && NextPage(pages[p].nextClass) == Ok(true)
    requires CleanEnv(env) && CleanPages(pages) && CleanTable(a.df)
    requires a.counter == b.counter
    requires !Process(env, a, pages, p).1.Aborted?
    requires Covers(Process(env, a, pages, p).0.df, b.df)
    ensures Process(env, b, pages, p) == (Replayed(a, Process(env, a, pages, p).0, b), Process(env, a, pages, p).1)
    decreases |pages| - p, 0
  {
    var rows := pages[p].rows.value;
    var a1 := Rows(env, a, rows, 0).0;
    var rest := Process(env, a1, pages, p + 1);
    ProcessNext(env, a, pages, p);
    RowsKeepClean(env, a, rows, 0);
    ProcessReplay(env, a1, Replayed(a, a1, b), pages, p + 1);
    CoversPrefix(a1.df, rest.0.df, b.df);
    ProcessReplayNext(env, a, b, pages, p);
  }

  /** Running the crawl again over the same site, with the table, folders
      and files the first run left, ends the same way after examining the
      same categories, skips every one of them, and adds no record, no line
      and no file. */
  lemma CrawlIdempotent(env: Env, df: seq<Record>, dirs: set<string>, files: map<string, nat>, pages: seq<Page>)
    requires CleanEnv(env) && CleanPages(pages) && CleanTable(df)
    requires !Crawl.Crawl(env, df, dirs, files, pages).1.Aborted?
    ensures var (t, ending) := Crawl.Crawl(env, df, dirs, files, pages);
      Crawl.Crawl(env, t.df, t.dirs, t.files, pages) == (State(t.counter, t.counter, t.df, [], t.dirs, t.files), ending)
  {
    var a := State(0, 0, df, [], dirs, files);
    var t := Process(env, a, pages, 0).0;
    var b := State(0, 0, t.df, [], t.dirs, t.files);
    assert Crawl.Crawl(env, df, dirs, files, pages) == Process(env, a, pages, 0);
    assert Crawl.Crawl(env, t.df, t.dirs, t.files, pages) == Process(env, b, pages, 0);
    assert Covers(t.df, b.df) by {
      forall i | 0 <= i < |t.df|
        ensures HasKey(t.df, t.df[i].isin, t.df[i].downloadUrl)
      {
      }
    }
    ProcessReplay(env, a, b, pages, 0);
    assert Replayed(a, t, b) == State(t.counter, t.counter, t.df, [], t.dirs, t.files);
  }
}
