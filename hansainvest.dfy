/** The HansaInvest scraper object (hansainvest.py:21-257): entry_counter,
    entry_skipped, the record table and the CSV log are fields it updates in
    place; each method ends in the state the matching function of module
    Crawl computes from the state it started in. */
module HansaInvest {
  import opened Utils
  import opened Records
  import opened Crawl

  class Scraper {
    /** The budget, the file folder, the download server, the digest and
        the date of the run. */
    const env: Env
    /** The disk the downloaded files are saved to. */
    const fs: FileSystem
    var entryCounter: int
    var entrySkipped: int
    /** The record table, read from the CSV file when the scraper is made. */
    var df: seq<Record>
    /** The lines this scraper appended to the CSV file. */
    var csvLog: seq<string>

    /** The scraper's fields and the disk, as the crawl functions see them. */
    function Snapshot(): State
      reads this, fs
    {
      State(entryCounter, entrySkipped, df, csvLog, fs.dirs, fs.files)
    }

    /** __init__: both counters at zero and the table as read from the CSV. */
    constructor (env: Env, fs: FileSystem, table: seq<Record>)
      ensures this.env == env && this.fs == fs
      ensures entryCounter == 0 && entrySkipped == 0 && df == table && csvLog == []
    {
      this.env := env;
      this.fs := fs;
      entryCounter := 0;
      entrySkipped := 0;
      df := table;
      csvLog := [];
    }

    /** The file for a url not yet recorded under this ISIN: reuse the first
        record's with the same url when one has a FilePath
        (hansainvest.py:170-173), otherwise download, hash, create the
        parents and save (hansainvest.py:174-193). */
    method Obtain(isin: string, url: string) returns (found: Outcome<(string, string)>)
      modifies fs
      ensures (Snapshot(), found) == Crawl.Obtain(env, old(Snapshot()), isin, url)
    {
      if HasPathFor(df, url) {
        var first := df[UrlIndex(df, url).value];
        return Ok((first.filePath, first.md5Hash));
      }
      if url !in env.server {
        return Exit("PDF file cannot be downloaded from url: '" + url + "'");
      }
      var content := env.server[url];
      var md5Hash := env.md5(content);
      var filePath := FreshPath(env.filePathPrefix, isin, url);
      var created := fs.CreateParents(filePath);
      if created.Exit? {
        return Exit(created.msg);
      }
      var written := fs.Write(filePath, |content|);
      if !written {
        return Exit("PDF file cannot be saved to path: '" + filePath + "'");
      }
      found := Ok((filePath, md5Hash));
    }

    /** Read the size of the saved file, then append the parsed line to the
        table and the line to the CSV file (hansainvest.py:195-208). */
    method Append(isin: string, n: nat, cell: Cell, filePath: string, md5Hash: string) returns (signal: Signal)
      requires n < |DocTypes|
      modifies this
      ensures (Snapshot(), signal) == Crawl.Append(env, old(Snapshot()), isin, n, cell, filePath, md5Hash)
    {
      if filePath !in fs.files {
        return Abort("file size cannot be read from path: '" + filePath + "'");
      }
      var data := RecordLine(env, isin, n, cell, filePath, md5Hash, fs.files[filePath]);
      var parsed := ParseRow(data);
      if parsed.Exit? {
        return Abort(parsed.msg);
      }
      df := df + [parsed.value];
      csvLog := csvLog + [data + "\n"];
      signal := Proceed;
    }

    /** One present document column of a row (hansainvest.py:161-208). */
    method ExamineCategory(isin: string, n: nat, cell: Cell) returns (signal: Signal)
      requires n < |DocTypes|
      modifies this, fs
      ensures (Snapshot(), signal) == Examine(env, old(Snapshot()), isin, n, cell)
    {
      entryCounter := entryCounter + 1;
      if HasKey(df, isin, cell.url) {
        entrySkipped := entrySkipped + 1;
        return Proceed;
      }
      var found := Obtain(isin, cell.url);
      if found.Exit? {
        return Abort(found.msg);
      }
      signal := Append(isin, n, cell, found.value.0, found.value.1);
    }

    /** row_parsing (hansainvest.py:133-210). */
    method RowParsing(row: Row) returns (signal: Signal)
      modifies this, fs
      ensures (Snapshot(), signal) == Crawl.RowParsing(env, old(Snapshot()), row)
    {
      if row.isin.None? {
        return Abort("ISIN parameter can not be found");
      }
      var isin := row.isin.value;
      for n := 0 to |DocTypes|
        invariant Crawl.RowParsing(env, old(Snapshot()), row) == Categories(env, Snapshot(), isin, row, n)
      {
        if entryCounter >= env.maxEntries {
          return BudgetHit;
        }
        var cell := CellAt(row, n);
        if cell.None? {
          continue;
        }
        signal := ExamineCategory(isin, n, cell.value);
        if signal.Abort? {
          return;
        }
      }
      signal := Proceed;
    }

    /** process (hansainvest.py:234-257), after the disclaimer. */
    method Process(pages: seq<Page>) returns (ending: Ending)
      modifies this, fs
      ensures (Snapshot(), ending) == Crawl.Process(env, old(Snapshot()), pages, 0)
    {
      var p := 0;
      while entryCounter < env.maxEntries
        invariant p <= |pages|
        invariant Crawl.Process(env, old(Snapshot()), pages, 0) == Crawl.Process(env, Snapshot(), pages, p)
        decreases |pages| - p
      {
        if p == |pages| || !pages[p].ready {
          return Aborted("Page cannot be loaded");
        }
        if pages[p].rows.None? {
          return Aborted("Table with fonds cannot be found on the Web-page");
        }
        var rows := pages[p].rows.value;
        ghost var pageStart := Snapshot();
        for k := 0 to |rows|
          invariant Rows(env, pageStart, rows, 0) == Rows(env, Snapshot(), rows, k)
        {
          var signal := RowParsing(rows[k]);
          if signal.BudgetHit? {
            return BudgetReached;
          }
          if signal.Abort? {
            return Aborted(signal.msg);
          }
        }
        var next := NextPage(pages[p].nextClass);
        if next.Exit? {
          return Aborted(next.msg);
        }
        if !next.value {
          return LastPage;
        }
        p := p + 1;
      }
      ending := BudgetReached;
    }
  }
}
