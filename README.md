# HansaInvest scraper: incremental crawl model

The scraper walks the paginated fund table of the HansaInvest download
centre. Each fund row names its ISIN and up to three documents:
Verkaufsprospekt, Jahresbericht and Halbjahresbericht. For every document
it finds, the scraper does four things:

- it counts the document against an entry budget;
- it skips the document when the record table already holds its ISIN and
  download url;
- otherwise it takes over the file of an earlier record with the same url,
  or downloads the file, hashes it and saves it under
  `<prefix>\<ISIN>\<file name>`;
- it appends a quoted eight-column record line to the CSV log, and the
  parsed line to the in-memory table.

A crawl ends in one of three ways: the budget is used up, the last page is
done (its "next" button is disabled), or an error exits the process. The
scheduler in `main.py` moves the start time forward by the repeating period
until it is no longer in the past, then sleeps until then.

The project has these modules:

- `Utils` (utils.dfy) models `create_parents` on a small model of the
  filesystem. It models `error_output` as an `Exit` outcome: the process
  ends, and nothing after the exit runs.
- `Strings` (strings.dfy) models `str.find`, `str.split` and `str.join`.
- `Records` (records.dfy) models the record, its CSV line and the round
  trip through `data[1:-1].split('","')`.
- `Crawl` (crawl.dfy) models `row_parsing`, the rows of a page,
  `next_page` and the page loop of `process`. These are functions over a
  `State`: both counters, the table, the log lines, the directories and the
  files.
- `HansaInvest` (hansainvest.dfy) is the scraper object. It is a class whose
  fields are updated in place. Each of its methods is proved to end in the
  state, and return the signal, that the matching `Crawl` function computes.
- `Main` (main.dfy) is the trigger loop, written as a method with a loop.
- `CrawlProps` (crawl_props.dfy) proves what the crawl promises:
  - the budget;
  - the summary arithmetic;
  - the record round trip;
  - that no (ISIN, DownloadUrl) pair is recorded twice, on its own and
    together with the fact that records sharing a url share one file;
  - that a second crawl over the same site skips everything and adds
    nothing.

Two details of the code are easy to misread:

- A url is reused only when some record with that url has a FilePath.
  Then the path and hash of the first record with that url are taken,
  whether or not that record has a FilePath itself.
- The summary's "downloaded" count (`entry_counter - entry_skipped`)
  includes documents whose file was reused rather than downloaded.

## Model

| member | source | states |
|---|---|---|
| Utils.LastIndexOf | utils.py:20 | `rfind`: absent exactly when the character does not occur; otherwise an index holding it with no occurrence after it |
| Utils.ParentDir | utils.py:18-20 | a path holding a backslash and not ending in one is cut at its last backslash; any other path is used whole; the result is always a prefix of the path |
| Utils.MakeParents | utils.py:10-27 | an empty path, or one whose parent is empty, exits; on success only the parent directory may be added and it then exists; an existing parent leaves the directories unchanged; a non-empty parent never fails |
| Utils.CreateParentsIdempotent | utils.py:22-27 | a second create_parents on the same path changes nothing |
| Utils.ParentDirOf | utils.py:19-20 | the parent of `folder\name`, for a name without a backslash, is `folder` |
| Utils.Exists | utils.py:23 | `os.path.exists`: a directory or a file is at the path; Utils.MakeParents states that an existing parent is left alone (no ensures of its own) |
| Utils.CanWrite | hansainvest.py:189-193 | `open(path, 'wb')` succeeds: the path is not a directory and its parent is one; Utils.FileSystem.Write states the write it guards (no ensures of its own) |
| Utils.FileSystem.CreateParents | utils.py:10-27 | updates the directories in place as MakeParents says, never touches files, and returns the same exit |
| Utils.FileSystem.Write | hansainvest.py:189-193 | the write succeeds exactly when the path is not a directory and its parent is one; on success only that file's entry changes, and on failure nothing changes |
| Strings.FindFrom | hansainvest.py:207 | the leftmost occurrence of the separator at or after the start, or none anywhere from the start on |
| Strings.Find | hansainvest.py:207 | the leftmost occurrence of the separator, or none at all |
| Strings.Split | hansainvest.py:207 | `str.split(sep)`: at least one piece; Strings.JoinSplit and Strings.SplitJoin give its meaning as the inverse of Join |
| Strings.Join | hansainvest.py:200-201 | `sep.join(parts)`; the lines the scraper writes are joins of their fields, and Strings.SplitJoin states when Split undoes it (no ensures of its own) |
| Strings.JoinSplit | hansainvest.py:207 | joining the pieces of any split with the same separator gives the string back |
| Strings.SplitJoin | hansainvest.py:200-207 | splitting a joined sequence gives the pieces back when every piece but the last splits cleanly and the last holds no separator |
| Records.FormatRow | hansainvest.py:200-201 | the quoted line of fields separated by `","`; Records.RowRoundTrip and Records.HeaderRoundTrip state what it writes (no ensures of its own) |
| Records.ParseRow | hansainvest.py:207 | `data[1:-1].split('","')` set as a table row, exiting with pandas' mismatched-columns error when the pieces are not eight; Records.RowRoundTrip states that it reads back a formatted quote-free record (no ensures of its own) |
| Records.StripQuotes | hansainvest.py:207 | `s[1:-1]`: the line is its first character, the result and its last character |
| Records.SplitsCleanlyWhen | hansainvest.py:207 | a field splits cleanly when it holds no `","` and does not end with `",` |
| Records.NoSeparatorIsNotEnough | hansainvest.py:200-207 | a field holding no `","` but ending in `",` breaks the round trip, shown on a concrete field |
| Records.QuoteFreeSplits | hansainvest.py:207 | a field with no double quote splits cleanly and holds no separator |
| Records.RowRoundTrip | hansainvest.py:200-207 | parsing the written line of a quote-free record gives that record back, field for field in header order |
| Records.HeaderRoundTrip | hansainvest.py:76-77 | the header line re-reads as the eight column names in order |
| Records.NatToString | hansainvest.py:196-201 | `str(size)` is non-empty and made only of decimal digits; Records.NatToStringValue states that they denote the size |
| Records.NatToStringValue | hansainvest.py:196-201 | the digits of `str(size)` read back as the size itself, so the FileSize column holds the number of bytes on disk |
| Crawl.HasKey | hansainvest.py:164 | the exact-match test on ISIN and DownloadUrl; CrawlProps.ExamineSkips and CrawlProps.ExamineHasKey state its effect (no ensures of its own) |
| Crawl.HasPathFor | hansainvest.py:170-171 | `duplicated_url["FilePath"].any()`: some record with the url has a FilePath; CrawlProps.ObtainFile states what reuse then yields (no ensures of its own) |
| Crawl.Downloaded | hansainvest.py:104 | the summary's downloaded count; CrawlProps.CrawlAccounts proves it equals the records a crawl that does not exit adds (no ensures of its own) |
| Crawl.FreshPath | hansainvest.py:186-187 | `<prefix>\<ISIN>\<file name>`; CrawlProps.FreshPathFolder and CrawlProps.FreshPathQuoteFree state its folder and that it is non-empty (no ensures of its own) |
| Crawl.RecordLine | hansainvest.py:200-201 | the eight fields in header order, quoted; CrawlProps.RecordLineParses states that it is the formatted record and reads back as it (no ensures of its own) |
| Crawl.UrlIndex | hansainvest.py:170-173 | the first record with the url, or none when no record has it |
| Crawl.LastSegment | hansainvest.py:186 | `split('/')[-1]`: a suffix of the url with no slash, preceded by a slash unless it is the whole url |
| Crawl.Obtain | hansainvest.py:170-193 | only the disk may change; a url already known with a FilePath changes nothing and succeeds; a fresh success means the url was served and the file now exists |
| Crawl.Append | hansainvest.py:195-208 | never signals the budget; an exit changes nothing; going on adds exactly one log line (the formatted record line) and one table row (that line parsed), and nothing else |
| Crawl.Examine | hansainvest.py:161-208 | counts the category once; a known (ISIN, url) only bumps skipped; otherwise skipped is unchanged and the table and log grow by at most one record each |
| Crawl.Categories | hansainvest.py:147-210 | the table and log only grow and stay in step; without an exit each counted, unskipped category adds exactly one record; the budget stop happens only at the budget; the counter never passes the budget |
| Crawl.RowParsing | hansainvest.py:133-210 | an unreadable ISIN exits at once, changing nothing; otherwise the same growth, budget and accounting guarantees for a whole row |
| Crawl.Rows | hansainvest.py:251-253 | the same guarantees over the rows of a page |
| Crawl.NextPage | hansainvest.py:212-232 | exits exactly when the button cannot be reached; there is no further page exactly when the button has the disabled class |
| Crawl.Crawl | hansainvest.py:241-257 | one run: a fresh scraper with both counters at zero and an empty log over the table read from the CSV (hansainvest.py:43); CrawlProps.CrawlAccounts, CrawlProps.CrawlKeepsUnique and CrawlProps.CrawlIdempotent state what it guarantees (no ensures of its own) |
| Crawl.Process | hansainvest.py:241-257 | the same guarantees for the page loop; a budget end means the budget was reached; a last-page end means some page from the current one on has a disabled next button; CrawlProps.ProcessStopsAtLastPage and CrawlProps.ProcessStopsOnBudget state the converse stops |
| HansaInvest.Scraper.constructor | hansainvest.py:36-43 | both counters start at zero, the log is empty and the table is the one read from the CSV |
| HansaInvest.Scraper.Obtain | hansainvest.py:170-193 | the disk and the result are exactly those Crawl.Obtain gives from the state before |
| HansaInvest.Scraper.Append | hansainvest.py:195-208 | the fields and the signal are exactly those Crawl.Append gives from the state before |
| HansaInvest.Scraper.ExamineCategory | hansainvest.py:161-208 | the fields, the disk and the signal are exactly those Crawl.Examine gives from the state before |
| HansaInvest.Scraper.RowParsing | hansainvest.py:133-210 | the in-place loop over the three columns ends in the state and signal Crawl.RowParsing gives |
| HansaInvest.Scraper.Process | hansainvest.py:234-257 | the in-place page and row loops end in the state and ending Crawl.Process gives |
| Main.NextTrigger | main.py:9-18 | the next trigger is the first `start + k * period` that is not in the past (the start itself when it is not in the past); the waiting period is the gap to it, and the scheduler sleeps exactly when that gap is positive |
| CrawlProps.FreshPathFolder | hansainvest.py:186-188 | a fetched file goes into `<prefix>\<ISIN>`, the folder create_parents is asked to make, when the url's last segment is a plain name |
| CrawlProps.ObtainFile | hansainvest.py:170-193 | a reused url yields the first matching record's FilePath and MD5Hash and changes nothing; a fetched one yields `<prefix>\<ISIN>\<name>` and the digest of the served bytes, with a file of that size saved; both are quote-free |
| CrawlProps.ObtainFetched | hansainvest.py:174-193 | a fetch that succeeds saved exactly the served bytes' size at the fresh path and returns its digest |
| CrawlProps.RecordLineParses | hansainvest.py:199-207 | the written line for quote-free input parses back to the record with those eight fields |
| CrawlProps.AppendRecord | hansainvest.py:195-208 | appending quote-free data goes on and adds exactly the record with those fields, with the file's size in digits, and its line to the log |
| CrawlProps.ExamineRecord | hansainvest.py:161-208 | a new category that goes on appends one record. It carries the category's ISIN, type, effective date, today's date and url, and a FilePath that exists with its size. A known url reuses the first record's FilePath and MD5Hash. |
| CrawlProps.AppendKeepsConsistent | hansainvest.py:164-208 | appending a new (ISIN, url) that has a FilePath and shares its url's FilePath and MD5Hash keeps both table invariants |
| CrawlProps.ExamineKeepsClean | hansainvest.py:161-208 | a category keeps every field of the table free of double quotes |
| CrawlProps.ExamineKeepsTable | hansainvest.py:161-208 | a category keeps (ISIN, DownloadUrl) unique and keeps one FilePath and MD5Hash per url |
| CrawlProps.ExamineAddsConsistent | hansainvest.py:164-208 | the same, for a category that adds a record |
| CrawlProps.CategoriesKeepClean | hansainvest.py:147-210 | a row's columns keep the table quote-free |
| CrawlProps.CategoriesKeepTable | hansainvest.py:147-210 | a row's columns keep (ISIN, DownloadUrl) unique and one file per url |
| CrawlProps.RowsKeepClean | hansainvest.py:251-253 | the rows of a page keep the table quote-free |
| CrawlProps.RowsKeepTable | hansainvest.py:251-253 | the rows of a page keep the table consistent |
| CrawlProps.ProcessKeepsClean | hansainvest.py:241-257 | the page loop keeps the table quote-free |
| CrawlProps.ProcessKeepsTable | hansainvest.py:241-257 | the page loop keeps the table consistent |
| CrawlProps.CrawlKeepsTable | hansainvest.py:161-208 | a whole crawl from a consistent, quote-free table leaves one consistent and quote-free |
| CrawlProps.AppendKeepsUnique | hansainvest.py:164-207 | appending a record whose (ISIN, DownloadUrl) is not in the table keeps that pair unique |
| CrawlProps.ExamineKeepsUnique | hansainvest.py:161-208 | a category keeps (ISIN, DownloadUrl) unique, whatever FilePaths the table holds |
| CrawlProps.CategoriesKeepUnique | hansainvest.py:147-210 | a row's columns keep (ISIN, DownloadUrl) unique |
| CrawlProps.RowsKeepUnique | hansainvest.py:251-253 | the rows of a page keep (ISIN, DownloadUrl) unique |
| CrawlProps.ProcessKeepsUnique | hansainvest.py:241-257 | the page loop keeps (ISIN, DownloadUrl) unique |
| CrawlProps.CrawlKeepsUnique | hansainvest.py:161-208 | a whole crawl from a quote-free table with no duplicate (ISIN, DownloadUrl) leaves none, with nothing assumed about FilePaths |
| CrawlProps.QuotedLineReadsBack | hansainvest.py:200-207 | a line whose first field ends in `",` re-reads with that tail moved to the front of the second field |
| CrawlProps.QuotedIsinDuplicates | hansainvest.py:164-207 | when the table holds (A, U) with a file for U, a row with ISIN `A",` and url U passes the exact-match test, goes on, and appends one record with ISIN A and url U after the unchanged table, which already holds (A, U); the table is then no longer unique |
| CrawlProps.CrawlAccounts | hansainvest.py:98-106 | after any crawl, 0 <= skipped <= counter <= budget; the table only grows, with one log line per new record; without an exit, the summary's downloaded count equals the number of new records |
| CrawlProps.BudgetFirst | hansainvest.py:147-159 | with the budget used up a row stops at once, changing nothing; an absent column below the budget is passed over without counting |
| CrawlProps.BudgetStopsPage | hansainvest.py:251-253 | a row that hits the budget ends the page with that row's state and signal |
| CrawlProps.ProcessStopsAtLastPage | hansainvest.py:223-257 | a page whose rows all go on and whose next button has the disabled class ends the crawl there, as a last-page end, with the state its rows left |
| CrawlProps.ProcessStopsOnBudget | hansainvest.py:241-253 | a row that hits the budget ends the whole crawl mid-page, as a budget end, with the state that row left |
| CrawlProps.ExamineHasKey | hansainvest.py:164-208 | after a category goes on, the table holds its (ISIN, url) |
| CrawlProps.ExamineSkips | hansainvest.py:164-167 | a known (ISIN, url) is counted and skipped with nothing else changed |
| CrawlProps.ExamineReplay | hansainvest.py:161-167 | on a table that already holds what the first pass recorded, the category is counted and skipped |
| CrawlProps.CategoriesReplay | hansainvest.py:147-210 | a second pass over a row against the recorded table skips every category the first counted and ends with the same signal |
| CrawlProps.RowsReplay | hansainvest.py:251-253 | the same, for the rows of a page |
| CrawlProps.ProcessReplay | hansainvest.py:241-257 | the same, for the page loop |
| CrawlProps.CrawlIdempotent | hansainvest.py:161-208 | a second crawl over the same site, from what the first left, counts the same categories, skips all of them, ends the same way, and adds no record, line, directory or file |

## Left out

- Browser work is not modelled: starting the web driver, accepting the
  disclaimer, waiting for the page (hansainvest.py:117-131), XPath lookups
  and clicks. A page is an input that says whether it becomes ready, what
  its rows are when the table can be found, and what class its "next"
  button has.
- Field-read warnings are not modelled separately: a link or effective date
  that cannot be read is an absent column.
- `requests.get` and `raise_for_status` are a map from url to bytes, and a
  url missing from it fails to download. The MD5 digest is a parameter
  function of the bytes.
- pandas is not modelled. The table is a sequence of eight-text records.
  `read_csv` type inference is not modelled, so a FileSize re-read as a
  number is kept as text. `.values.any()` on the ISIN and url filter is
  modelled as "a record with that ISIN and url exists".
- `csv_init` (creating or opening the CSV file and writing its header) is
  not modelled. Only the header's round trip is stated, and the log is the
  sequence of lines appended to it.
- `os.makedirs` creating intermediate directories is not modelled. Only the
  target directory is added. In the model, `os.makedirs` fails only on
  `''`; a path component that is a file, or a missing permission, is not
  modelled.
- File contents are not kept; a file on disk is known by its size.
- The clock is not modelled. The download date is one value per run; the
  current time and start time in `main.py` are inputs, and the sleep is
  reported as a flag instead of performed.
- The outer `while True` of `main.py` and its `HansaInvest().process()` call
  are not modelled: one crawl is `Crawl.Crawl`, and one scheduling step is
  `Main.NextTrigger`.
- `__del__` is left out: its summary printing, driver quit and file close.
  Only the summary's counter arithmetic is kept, as `Crawl.Downloaded`.
  Execution-time output, `info_output` and `warning_output` are logging
  only.
- The settings in `config.py` are not modelled: the budget, the folder
  prefix and the repeating period are parameters.
- Crawl.LastSegment is written as the text after the last slash, which is
  what `split('/')[-1]` yields, rather than through `Strings.Split`.
- Crawl.NextPage reports the button's name as `Nächste`, decoded.
- Records.RowRoundTrip is stated for fields free of double quotes. The
  round trip holds for every field that meets Records.SplitsCleanlyWhen;
  holding no `","` is not enough, as Records.NoSeparatorIsNotEnough shows.
- CrawlProps.CrawlKeepsTable assumes that every text the crawl writes into
  a record is free of double quotes: the folder prefix, today's date, the
  digests, ISINs, urls and dates. A quote could make a line re-read as a
  different record.
- CrawlProps.CrawlKeepsUnique, and the rest of the uniqueness lemmas from
  CrawlProps.ExamineKeepsUnique on, assume that the folder prefix, today's
  date, the digests and every ISIN, url and date read from the site are
  free of double quotes. The program needs this too: an ISIN ending in
  `",` passes the exact-match test against another ISIN but re-reads as
  it, so a pair is recorded twice, as CrawlProps.QuotedIsinDuplicates
  shows.
- Crawl.Append treats `os.path.getsize` on a path that is not a file as a
  failure that exits. When a reused FilePath names a directory, the
  program instead gets the directory's size and appends the record; that
  case is not modelled, because the model keeps no size for directories.
- CrawlProps.CrawlIdempotent assumes the same quote-free text, and a first
  crawl that did not exit. After an exit the second crawl may go further
  than the first. It also hands the second crawl the first crawl's final
  table as it is. The program re-reads the CSV file with `pd.read_csv`
  instead (hansainvest.py:43, main.py:21). That gives the same table only
  when no field is empty and no ISIN or url reads as a number. An empty
  field comes back as NaN and a numeric one as a number. The test of
  hansainvest.py:164 then fails for a row whose ISIN or url is empty or
  reads as a number. For such an ISIN, the second crawl reuses the recorded
  file and appends the record again. For such a url, it tries to download
  again.
- Main.NextTrigger requires a positive period whenever the start time is in
  the past. Otherwise the loop of main.py:11-12 never ends.
