/** The incremental crawl of hansainvest.py as functions over an abstract
    state: one document category of a row (hansainvest.py:147-208), one row
    (row_parsing), the rows of a page and the page loop of process
    (hansainvest.py:241-257). The class in module HansaInvest performs the
    same steps in place and is proved to end in the state these functions
    compute. */
module Crawl {
  import opened Utils
  import opened Strings
  import opened Records

  /** The three document columns of a fund row, in the order they are read. */
  const DocTypes: seq<string> := ["Verkaufsprospekt", "Jahresbericht", "Halbjahresbericht"]

  /** The class of the "next" button on the last page. */
  const DisabledNext: string := "paginate_button page-item next disabled"

  type Bytes = seq<bv8>

  /** A document cell whose link and effective date could both be read. */
  datatype Cell = Cell(url: string, date: string)

  /** A fund row: the ISIN, when it can be read, and one entry per document
      column, None where the link or the date cannot be read. Columns past
      the end of `cells` cannot be read either. */
  datatype Row = Row(isin: Option<string>, cells: seq<Option<Cell>>)

  /** A result page: whether it becomes ready, its rows when the table can be
      found, and the class of its "next" button when that can be reached. */
  datatype Page = Page(ready: bool, rows: Option<seq<Row>>, nextClass: Option<string>)

  /** What a crawl reads but does not change: the entry budget, the folder
      new files go to, the download server (a url missing from it fails to
      download), the MD5 digest and the date of the run. */
  datatype Env = Env(
    maxEntries: int,
    filePathPrefix: string,
    server: map<string, Bytes>,
    md5: Bytes -> string,
    today: string)

  /** What a crawl changes: entry_counter, entry_skipped, the record table df,
      the lines written to the CSV log, and the directories and files on disk
      (a file is known by its size). */
  datatype State = State(
    counter: int,
    skipped: int,
    df: seq<Record>,
    csv: seq<string>,
    dirs: set<string>,
    files: map<string, nat>)

  /** How a row ends: go on (row_parsing returns True), stop the crawl because
      the budget is used up (it returns False), or the process exits. */
  datatype Signal = Proceed | BudgetHit | Abort(msg: string)

  /** How a crawl ends: the budget is used up, the last page is done, or the
      process exits. */
  datatype Ending = BudgetReached | LastPage | Aborted(msg: string)

  function CellAt(row: Row, n: nat): Option<Cell>
  {
    if n < |row.cells| then row.cells[n] else None
  }

  /** The largest value entry_counter can reach under the budget. */
  function Cap(maxEntries: int): nat
  {
    if maxEntries < 0 then 0 else maxEntries
  }

  /** The number summary_output reports as downloaded. */
  function Downloaded(s: State): int
  {
    s.counter - s.skipped
  }

  /** A record with this ISIN and DownloadUrl is in the table. */
  predicate HasKey(df: seq<Record>, isin: string, url: string)
  {
    exists i :: 0 <= i < |df| && df[i].isin == isin && df[i].downloadUrl == url
  }

  /** Some record with this DownloadUrl has a FilePath. */
  predicate HasPathFor(df: seq<Record>, url: string)
  {
    exists i :: 0 <= i < |df| && df[i].downloadUrl == url && df[i].filePath != ""
  }

  /** The first record with this DownloadUrl. */
  function UrlIndex(df: seq<Record>, url: string): (r: Option<nat>)
    ensures r.Some? ==> r.value < |df| && df[r.value].downloadUrl == url
    ensures r.Some? ==> forall j :: 0 <= j < r.value ==> df[j].downloadUrl != url
    ensures r.None? ==> forall j :: 0 <= j < |df| ==> df[j].downloadUrl != url
  {
    if |df| == 0 then None
    else if df[0].downloadUrl == url then Some(0)
    else
      var r := UrlIndex(df[1..], url);
      if r.Some? then Some(r.value + 1) else None
  }

  /** download_url.split('/')[-1]: the text after the last slash, or the
      whole url when it has none. */
  function LastSegment(url: string): (name: string)
    ensures |name| <= |url| && url[|url| - |name|..] == name
    ensures '/' !in name
    ensures |name| < |url| ==> url[|url| - |name| - 1] == '/'
  {
    match LastIndexOf(url, '/')
    case None => url
    case Some(i) => url[i + 1..]
  }

  /** The path a newly fetched file is saved to (hansainvest.py:186-187). */
  function FreshPath(prefix: string, isin: string, url: string): string
  {
    prefix + "\\" + isin + "\\" + LastSegment(url)
  }

  /** What the table and the log may gain in one step: both grow at the end,
      by one line per record; the counters only grow, no more skips than
      examined categories, and at most one record per examined category that
      was not skipped. */
  ghost predicate Grows(s: State, t: State)
  {
    && s.df <= t.df && s.csv <= t.csv && |t.csv| - |s.csv| == |t.df| - |s.df|
    && s.counter <= t.counter && s.skipped <= t.skipped
    && t.skipped - s.skipped <= t.counter - s.counter
    && |t.df| - |s.df| <= Downloaded(t) - Downloaded(s)
  }

  /** Every examined category that was not skipped added exactly one record. */
  ghost predicate Balanced(s: State, t: State)
  {
    |t.df| - |s.df| == Downloaded(t) - Downloaded(s)
  }

  /** The file for a url that is not yet recorded under this ISIN: the
      FilePath and MD5Hash of the first record with the same url when any
      record with it has a FilePath (hansainvest.py:170-173); otherwise
      download, hash, create the parents and save (hansainvest.py:174-193). */
  function Obtain(env: Env, s: State, isin: string, url: string): (r: (State, Outcome<(string, string)>))
    ensures r.0 == s.(dirs := r.0.dirs, files := r.0.files)
    ensures HasPathFor(s.df, url) ==> r.0 == s && r.1.Ok?
    ensures r.1.Ok? && !HasPathFor(s.df, url) ==>
              url in env.server && r.1.value.0 in r.0.files
  {
    if HasPathFor(s.df, url) then
      var first := s.df[UrlIndex(s.df, url).value];
      (s, Ok((first.filePath, first.md5Hash)))
    else if url !in env.server then
      (s, Exit("PDF file cannot be downloaded from url: '" + url + "'"))
    else
      var content := env.server[url];
      var md5Hash := env.md5(content);
      var filePath := FreshPath(env.filePathPrefix, isin, url);
      match MakeParents(s.dirs, s.files, filePath)
      case Exit(msg) => (s, Exit(msg))
      case Ok(dirs) =>
        if !CanWrite(dirs, filePath) then
          (s.(dirs := dirs), Exit("PDF file cannot be saved to path: '" + filePath + "'"))
        else
          (s.(dirs := dirs, files := s.files[filePath := |content|]), Ok((filePath, md5Hash)))
  }

  /** The line written for a new record (hansainvest.py:200-201). */
  function RecordLine(env: Env, isin: string, n: nat, cell: Cell, filePath: string, md5Hash: string, size: nat): string
    requires n < |DocTypes|
  {
    FormatRow([isin, DocTypes[n], cell.date, env.today, cell.url, filePath, md5Hash, NatToString(size)])
  }

  /** Read the size of the saved file, then append the parsed line to the
      table and the line itself to the log (hansainvest.py:195-208). */
  function Append(env: Env, s: State, isin: string, n: nat, cell: Cell, filePath: string, md5Hash: string): (r: (State, Signal))
    requires n < |DocTypes|
    ensures r.1 != BudgetHit
    ensures r.1.Abort? ==> r.0 == s
    ensures r.1.Proceed? ==>
              && filePath in s.files
              && r.0 == s.(df := r.0.df, csv := r.0.csv)
              && r.0.csv == s.csv + [RecordLine(env, isin, n, cell, filePath, md5Hash, s.files[filePath]) + "\n"]
              && |r.0.df| == |s.df| + 1 && r.0.df[..|s.df|] == s.df
              && ParseRow(RecordLine(env, isin, n, cell, filePath, md5Hash, s.files[filePath])) == Ok(r.0.df[|s.df|])
  {
    if filePath !in s.files then
      (s, Abort("file size cannot be read from path: '" + filePath + "'"))
    else
      var data := RecordLine(env, isin, n, cell, filePath, md5Hash, s.files[filePath]);
      match ParseRow(data)
      case Exit(msg) => (s, Abort(msg))
      case Ok(record) => (s.(df := s.df + [record], csv := s.csv + [data + "\n"]), Proceed)
  }

  /** One present document category (hansainvest.py:161-208): count it; skip
      it when the table already has its ISIN and url; otherwise obtain the
      file and append a record. */
  function Examine(env: Env, s: State, isin: string, n: nat, cell: Cell): (r: (State, Signal))
    requires n < |DocTypes|
    ensures r.1 != BudgetHit
    ensures r.0.counter == s.counter + 1
    ensures Grows(s, r.0) && (r.1.Proceed? ==> Balanced(s, r.0))
    ensures HasKey(s.df, isin, cell.url) ==>
              r == (s.(counter := s.counter + 1, skipped := s.skipped + 1), Proceed)
    ensures !HasKey(s.df, isin, cell.url) ==> r.0.skipped == s.skipped
  {
    var s1 := s.(counter := s.counter + 1);
    if HasKey(s.df, isin, cell.url) then
      (s1.(skipped := s.skipped + 1), Proceed)
    else
      var (s2, obtained) := Obtain(env, s1, isin, cell.url);
      match obtained
      case Exit(msg) => (s2, Abort(msg))
      case Ok(found) => Append(env, s2, isin, n, cell, found.0, found.1)
  }

  /** The loop of row_parsing over the document columns from column `n` on
      (hansainvest.py:147-210): the budget is checked before every column,
      present or not; an absent column is passed over. */
  function Categories(env: Env, s: State, isin: string, row: Row, n: nat): (r: (State, Signal))
    requires n <= |DocTypes|
    ensures Grows(s, r.0) && (!r.1.Abort? ==> Balanced(s, r.0))
    ensures r.1.BudgetHit? ==> r.0.counter >= env.maxEntries
    ensures s.counter <= Cap(env.maxEntries) ==> r.0.counter <= Cap(env.maxEntries)
    decreases |DocTypes| - n
  {
    if n == |DocTypes| then (s, Proceed)
    else if s.counter >= env.maxEntries then (s, BudgetHit)
    else
      match CellAt(row, n)
      case None => Categories(env, s, isin, row, n + 1)
      case Some(cell) =>
        var (s1, signal) := Examine(env, s, isin, n, cell);
        if signal.Abort? then (s1, signal) else Categories(env, s1, isin, row, n + 1)
  }

  /** row_parsing (hansainvest.py:133-210): an unreadable ISIN exits before
      any column is looked at (hansainvest.py:141-144). */
  function RowParsing(env: Env, s: State, row: Row): (r: (State, Signal))
    ensures row.isin.None? ==> r.0 == s && r.1.Abort?
    ensures Grows(s, r.0) && (!r.1.Abort? ==> Balanced(s, r.0))
    ensures r.1.BudgetHit? ==> r.0.counter >= env.maxEntries
    ensures s.counter <= Cap(env.maxEntries) ==> r.0.counter <= Cap(env.maxEntries)
  {
    match row.isin
    case None => (s, Abort("ISIN parameter can not be found"))
    case Some(isin) => Categories(env, s, isin, row, 0)
  }

  /** The rows of one page from row `k` on (hansainvest.py:251-253): the
      first row that does not go on ends the page. */
  function Rows(env: Env, s: State, rows: seq<Row>, k: nat): (r: (State, Signal))
    requires k <= |rows|
    ensures Grows(s, r.0) && (!r.1.Abort? ==> Balanced(s, r.0))
    ensures r.1.BudgetHit? ==> r.0.counter >= env.maxEntries
    ensures s.counter <= Cap(env.maxEntries) ==> r.0.counter <= Cap(env.maxEntries)
    decreases |rows| - k
  {
    if k == |rows| then (s, Proceed)
    else
      var (s1, signal) := RowParsing(env, s, rows[k]);
      if signal.Proceed? then Rows(env, s1, rows, k + 1) else (s1, signal)
  }

  /** next_page (hansainvest.py:217-232): an unreachable button exits; the
      disabled class means there is no further page; any other class is
      clicked and the crawl goes on. */
  function NextPage(nextClass: Option<string>): (r: Outcome<bool>)
    ensures r.Exit? <==> nextClass.None?
    ensures r == Ok(false) <==> nextClass == Some(DisabledNext)
  {
    match nextClass
    case None => Exit("Button 'N\U{e4}chste' is not clickable")
    case Some(c) => Ok(c != DisabledNext)
  }

  /** The loop of process from page `p` on (hansainvest.py:241-257). A page
      past the last one the site serves cannot be loaded. */
  function Process(env: Env, s: State, pages: seq<Page>, p: nat): (r: (State, Ending))
    requires p <= |pages|
    ensures Grows(s, r.0) && (!r.1.Aborted? ==> Balanced(s, r.0))
    ensures r.1.BudgetReached? ==> r.0.counter >= env.maxEntries
    ensures r.1.LastPage? ==> exists q :: p <= q < |pages| && pages[q].nextClass == Some(DisabledNext)
    ensures s.counter <= Cap(env.maxEntries) ==> r.0.counter <= Cap(env.maxEntries)
    decreases |pages| - p
  {
    if s.counter >= env.maxEntries then (s, BudgetReached)
    else if p == |pages| || !pages[p].ready then (s, Aborted("Page cannot be loaded"))
    else
      match pages[p].rows
      case None => (s, Aborted("Table with fonds cannot be found on the Web-page"))
      case Some(rows) =>
        var (s1, signal) := Rows(env, s, rows, 0);
        match signal
        case BudgetHit => (s1, BudgetReached)
        case Abort(msg) => (s1, Aborted(msg))
        case Proceed =>
          match NextPage(pages[p].nextClass)
          case Exit(msg) => (s1, Aborted(msg))
          case Ok(more) => if more then Process(env, s1, pages, p + 1) else (s1, LastPage)
  }

  /** A whole crawl: a fresh scraper starts both counters at zero and an
      empty log, with the table read from the CSV file. */
  function Crawl(env: Env, df: seq<Record>, dirs: set<string>, files: map<string, nat>, pages: seq<Page>): (State, Ending)
  {
    Process(env, State(0, 0, df, [], dirs, files), pages, 0)
  }
}
