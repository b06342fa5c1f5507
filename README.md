# Onlaw ingestion core in Dafny

This project models the document-ingestion core of the Onlaw `odagw`
repository and proves properties of it. The core has two ingestion paths.
Each writes to its own local data folder, and the two folders have the same
layout: one stripped text file per document, and the JSON-lines ledger
`data.jsonl`, with one line per ingested document (`doc_id`, `uri`,
`date_built`). The section builder writes to `data` at the repository root
(`build_section.py:56`). The Skat scraper writes to
`data_collectors/webscrapers/skat/data` (`doc_bot.py:19`, `url_bot.py:14`).
Only the scraper's folder also holds the URL file `urls.json`. Neither path
resumes from the other's ledger. The model has one `DataFolder` class and
gives each path its own instance.

- **Section builder** (`builders/build_section.py`). `get_verdict` counts the
  verdicts. It then walks `range(0, max_documents, batch_size)` and asks the
  `PrismaDocumentCollector` for each page of documents. It writes each
  document's stripped text to `<base>_<offset>`. After each page it appends
  that page's ledger records. The collector builds the GraphQL filter and
  queries the metadata. It then fetches the content files through the
  `GcloudStorageFileCollector`, `concurrent_files_collected` at a time. Within
  a slice the documents are yielded in completion order.
- **Skat scraper**. `SkatUrlSpider` collects case numbers and document
  URLs from the listing pages and writes `urls.json`. `SkatDocSpider` loads
  that file and drops every URI the ledger already records. Its `parse`
  extracts the metadata tables and the body of each page. `SkatPipeline`
  strips the body and writes it to `skat_<SKM-nummer>`, appends a ledger
  line and counts the tokens.

Both paths share `strip_html`. It parses the markup and detaches every
`table`. It then joins the remaining text nodes and collapses whitespace.
Here it is one function, `Html.StripHtml`, over an lxml-shaped tree: an
element owns its `text` and its `tail`, so removing a table also drops the
text right after it. `lxml.html.fromstring` returns an element that still
hangs in the `body` it wrapped the markup in. So detaching a table never
fails, not even when the table is the element returned, and that case leaves
no text.

Modules, one per file: `Common` (Python values, exceptions, `range`,
`str(int)`, set comprehensions), `Text` (`str.split()`, `join`,
`str.split(sep)`, `replace`), `Html`, `Ledger` (the data folder as a class),
`GcloudFileCollector`, `PrismaCollector`, `BuildSection`, `DocBot`, `UrlBot`
and `Pipelines`.

Classes whose fields the Python code updates in place are Dafny classes:
`GcloudStorageFileCollector` (its lazily created storage client),
`PrismaDocumentCollector`, `DataFolder`, `SkatDocSpider` (token counter and
URL sets) and `SkatUrlSpider` (the `url_info` dictionary). Loops in the
source are methods with loop invariants. Each is proved against a
specification function: `UidFilter`, `Streamed`, `PagesDone`, `Recorded`
and `TableMetadata`.

Within a slice, `asyncio.as_completed` may yield in any order, and the model
leaves that order open with a nondeterministic choice. The content stream is
therefore specified by the predicate `Streamed`: each slice is drained in
some order before the next starts, or the stream stops inside a slice with
an error one of its documents raised.

The model follows the code in these details, which are easy to misread:

- A failing content fetch is not reported as a failed item next to the
  others. It raises out of the `documents` generator and ends the whole
  build (`prisma_collector.py:76-78`, `build_section.py:70`).
- Every page asks for `min(batch_size, max_documents)` documents, not for
  the remainder `max_documents - offset` (`build_section.py:71`). The last
  page can ask for more than the maximum (`RequestedExceedsMaximum`).
- `get_verdict` overwrites its `limit` and `batch_size` arguments with 3
  and 1 (`build_section.py:60,67`). `BuildSection.GetVerdict` does the same.
  `BuildSection.BuildPages` keeps the general loop.
- A malformed ledger line, or one without `uri`, makes the doc spider's
  constructor raise. This is the fail-fast behaviour.

## Model

| member | source | states |
|---|---|---|
| PrismaCollector.PrismaToken | data_collectors/onlaw_api/prisma_collector.py:148-159 | fails with the KeyError message exactly when the effective secret (the argument, else `PRISMA_SECRET` from the environment, else empty) is empty; otherwise the token is that secret signed |
| PrismaCollector.PrismaDocumentCollector.Create | data_collectors/onlaw_api/prisma_collector.py:20-37 | a given token is kept; without one the token comes from `get_prisma_token` and its KeyError is the constructor's error; endpoint, file collector and slice size are stored |
| PrismaCollector.PrismaDocumentCollector.CountVerdicts | data_collectors/onlaw_api/prisma_collector.py:42-51 | asks the backend for the count of `verdict` with an empty filter, whatever filter it was given |
| PrismaCollector.FiltersString | data_collectors/onlaw_api/prisma_collector.py:124-128 | no filters give the empty string, as does an empty list; a single filter is returned unchanged |
| PrismaCollector.PrismaDocumentCollector.AddUidsToQueryFilter | data_collectors/onlaw_api/prisma_collector.py:114-122 | the string built by the loop is the uid fragment: empty for no or no uids, otherwise the opening, every uid quoted and followed by a comma, and the closing |
| PrismaCollector.PrismaDocumentCollector.CollectDocumentMetadata | data_collectors/onlaw_api/prisma_collector.py:90-112 | the result is the backend's answer to the query with the composed filter, the given limit, offset and query string |
| PrismaCollector.ParseQuotedUids | data_collectors/onlaw_api/prisma_collector.py:116-120 | the quoted uid items read back as exactly the uid list, and what follows is left untouched |
| PrismaCollector.UidPartRoundTrip | data_collectors/onlaw_api/prisma_collector.py:114-122 | a filter opening with the uid fragment is recognised and its uids are read back |
| PrismaCollector.NoUidPartRoundTrip | data_collectors/onlaw_api/prisma_collector.py:97-100 | filters that do not start with a comma are never mistaken for a uid fragment |
| PrismaCollector.FilterPartRoundTrip | data_collectors/onlaw_api/prisma_collector.py:124-128 | the joined filters split back into the list and never start with a comma |
| PrismaCollector.QueryFilterRoundTrip | data_collectors/onlaw_api/prisma_collector.py:97-128 | the composed filter is unambiguous: for uids without a double quote and non-empty filters without a comma, both lists are read back exactly |
| PrismaCollector.FirstContentFile | data_collectors/onlaw_api/prisma_collector.py:82-83 | the errors come in evaluation order: KeyError when `contentFilesOriginal` is missing; then the error of `[0]` (IndexError when empty, KeyError(0) for a dictionary, TypeError for a scalar); then TypeError when the first entry is not a dictionary, then KeyError for `name`, then for `id`; a dictionary entry with string `name` and `id` gives exactly that pair |
| PrismaCollector.WithContent | data_collectors/onlaw_api/prisma_collector.py:81-87 | on success the metadata gains `content`, every other key is unchanged, and `content` is the second component of the pair the file collector fetched for the first content file |
| PrismaCollector.WithContentOutcome | data_collectors/onlaw_api/prisma_collector.py:81-87 | `_get_content_files` succeeds exactly when the content file is found and its fetch succeeds; otherwise the first of those two errors escapes unchanged |
| PrismaCollector.PrismaDocumentCollector.GetContentFiles | data_collectors/onlaw_api/prisma_collector.py:81-87 | returns `WithContent` of the document; the storage client is created when the content file was found and otherwise untouched |
| PrismaCollector.SlicesPrefix | data_collectors/onlaw_api/prisma_collector.py:75-76 | the first m slices concatenate to the list up to where slice m starts |
| PrismaCollector.SlicesPartition | data_collectors/onlaw_api/prisma_collector.py:75-76 | the slices of `range(0, len, c)` concatenate to the whole list and each holds between 1 and c documents |
| PrismaCollector.SliceSize | data_collectors/onlaw_api/prisma_collector.py:76 | each slice is non-empty and at most c long |
| PrismaCollector.DrainStep | data_collectors/onlaw_api/prisma_collector.py:77-78 | taking one awaited document out: its result joins the yielded ones, or its error is one of the slice's results |
| PrismaCollector.PrismaDocumentCollector.DrainSlice | data_collectors/onlaw_api/prisma_collector.py:76-78 | without error the yielded documents are a permutation of the slice's documents with content; with an error the yielded ones plus that error are among the slice's results |
| PrismaCollector.PrismaDocumentCollector.FetchContents | data_collectors/onlaw_api/prisma_collector.py:75-78 | a slice size of 0 is the ValueError of `range`, a negative one yields nothing, a positive one yields a `Streamed` sequence of the slices |
| PrismaCollector.PrismaDocumentCollector.Documents | data_collectors/onlaw_api/prisma_collector.py:59-79 | a metadata error is raised before anything is yielded; `metadata_only` yields the metadata list as it is; otherwise the content stream of its slices |
| PrismaCollector.StreamedAppend | data_collectors/onlaw_api/prisma_collector.py:75-78 | a completed stream followed by a fully drained slice is a completed stream of one more slice |
| PrismaCollector.StreamedFail | data_collectors/onlaw_api/prisma_collector.py:77-78 | a completed stream followed by a slice that raised is a stream that stopped with that error |
| PrismaCollector.StreamedStops | data_collectors/onlaw_api/prisma_collector.py:75-78 | a stream that stopped with an error stays stopped whatever slices follow |
| PrismaCollector.StreamedFailAt | data_collectors/onlaw_api/prisma_collector.py:75-78 | a failure in slice j ends the stream over all the slices |
| PrismaCollector.StreamedIsPermutation | data_collectors/onlaw_api/prisma_collector.py:75-78 | a stream that ends without error yields every document, with its content, exactly once, in some order |
| PrismaCollector.StreamedErrorIsRaised | data_collectors/onlaw_api/prisma_collector.py:75-78 | a stream that stops with an error yielded only documents with content, none more often than it occurs, and the error is one a document raised |
| PrismaCollector.DocumentsArePermutation | data_collectors/onlaw_api/prisma_collector.py:59-79 | a fully drained `documents` yields as many documents as the metadata list, as a permutation of their content results, and every fetch succeeded |
| PrismaCollector.StreamedErrorInDocs | data_collectors/onlaw_api/prisma_collector.py:75-78 | the error a stream stopped with is the outcome of one of the page's documents |
| PrismaCollector.StreamedErrorExcludesCompletion | data_collectors/onlaw_api/prisma_collector.py:75-78 | if one order of fetches stops with an error, no order drains the page without error |
| PrismaCollector.CompletedStreamsAgree | data_collectors/onlaw_api/prisma_collector.py:75-78 | every document one error-free drain of a page yields is also yielded by any other error-free drain of it, whatever order the fetches complete in |
| GcloudFileCollector.ReadSettings | data_collectors/file_collector_gcloud_storage.py:12-23 | succeeds exactly when bucket, project and credentials are all set; otherwise a KeyError names the first missing variable, in lookup order |
| GcloudFileCollector.GcloudStorageFileCollector.constructor | data_collectors/file_collector_gcloud_storage.py:12-23 | stores the three settings and starts without a storage client |
| GcloudFileCollector.GcloudStorageFileCollector.Create | data_collectors/file_collector_gcloud_storage.py:12-23 | the collector exists exactly when the settings read; its fields are the environment's values and it has no storage client yet |
| GcloudFileCollector.Classify | data_collectors/file_collector_gcloud_storage.py:42-50 | the four text types decode as UTF-8 (a decoding failure raises), the two binary types keep the bytes, any other type is a TypeError naming it |
| GcloudFileCollector.ClassifyIsExact | data_collectors/file_collector_gcloud_storage.py:44-50 | the match is exact: spacing and case variants of known types are rejected |
| GcloudFileCollector.Fetch | data_collectors/file_collector_gcloud_storage.py:33-52 | succeeds exactly when the metadata and the data download, the metadata has a `contentType`, and the content classifies; otherwise the error is the first to occur, in the order metadata download, data download, KeyError for `contentType`, classification; on success the pair carries the caller's file id and the classified content |
| GcloudFileCollector.FetchIgnoresFileId | data_collectors/file_collector_gcloud_storage.py:33-52 | the file id only labels the result: two ids succeed or fail alike, with the same content or error |
| GcloudFileCollector.AfterInit | data_collectors/file_collector_gcloud_storage.py:30-31 | after a call a storage client exists, and an existing one is kept |
| GcloudFileCollector.GcloudStorageFileCollector.CollectFile | data_collectors/file_collector_gcloud_storage.py:28-52 | creates the storage client only if there is none, then returns `Fetch` for its bucket |
| Ledger.ToJson | builders/build_section.py:74-77 | a ledger line has exactly the keys `doc_id`, `uri`, `date_built` and reads back as the same record |
| Ledger.DataFolder.WriteFile | builders/build_section.py:81-82 | opening with `'w'` replaces the file's text and touches nothing else |
| Ledger.DataFolder.OpenLedger | builders/build_section.py:85 | opening with `'a'` creates an empty ledger when there is none and keeps an existing one |
| Ledger.DataFolder.AppendLine | data_collectors/webscrapers/skat/skat/pipelines.py:25-26 | the ledger gains exactly one line, the record's JSON, at its end |
| Ledger.DataFolder.WriteUrlFile | data_collectors/webscrapers/skat/skat/spiders/url_bot.py:25-26 | the URL file is replaced by the dumped dictionary; files and ledger are unchanged |
| Html.StripHtmlNormalizesKeptText | builders/build_section.py:90-106 | `strip_html` never raises; its result is whitespace-normalised, unchanged by another collapse, and its words are exactly the words of the text nodes outside every table, in document order |
| Html.RemainingTextsAreKept | builders/build_section.py:93-102 | the text nodes `//text()` finds after the tables are detached are exactly those outside every table, also when the returned element is itself a table |
| Html.RemovedTablesKeepMarked | builders/build_section.py:93-94 | after the tables are detached, the remaining text nodes are exactly those outside every table, tails of tables included among the removed |
| Html.NothingKeptInTable | builders/build_section.py:93-94 | no text inside a table survives its removal |
| Html.MarkedCoversTexts | builders/build_section.py:102 | the marking visits every text node of the tree, in document order |
| Html.TableTextDropped | builders/build_section.py:93-104 | every word of the stripped text comes from a text node outside every table |
| Text.WordsAreWords | builders/build_section.py:104 | `str.split()` yields non-empty words without whitespace |
| Text.WordsOfJoin | builders/build_section.py:102-104 | the words of the space-joined text nodes are the words of each node in turn |
| Text.CollapseKeepsWords | builders/build_section.py:104 | collapsing whitespace keeps the words |
| Text.CollapseIdempotent | builders/build_section.py:104 | collapsing twice is collapsing once |
| Text.CollapseNormalized | builders/build_section.py:104 | the collapsed text has no leading, trailing or repeated whitespace, and single spaces only |
| Text.SplitOn | data_collectors/webscrapers/skat/skat/spiders/doc_bot.py:63 | `str.split(sep)` always gives at least one piece |
| Text.JoinSplitOn | data_collectors/webscrapers/skat/skat/spiders/doc_bot.py:63 | joining the pieces with the separator restores the string |
| Text.SplitOnJoin | data_collectors/onlaw_api/prisma_collector.py:128 | splitting a join of pieces that do not hold the separator's first character gives the pieces back |
| Text.ReplaceNewlinesRemovesAll | data_collectors/webscrapers/skat/skat/spiders/doc_bot.py:74 | no newline is left after `replace('\n', '<br>')` |
| Text.ReplaceNewlinesIdentity | data_collectors/webscrapers/skat/skat/spiders/doc_bot.py:74 | a text without newlines is unchanged |
| Common.Field | data_collectors/webscrapers/skat/skat/spiders/doc_bot.py:29 | a lookup succeeds exactly on a dictionary holding the key and gives its value; a missing key is a KeyError naming it |
| Common.SetOf | data_collectors/webscrapers/skat/skat/spiders/doc_bot.py:29 | a set comprehension succeeds exactly when every element does and holds exactly those elements; otherwise it raises the error of the first failing element |
| Common.RangeStep | builders/build_section.py:68 | `range(start, stop, step)` for a positive step starts at `start`, climbs by `step`, stays below `stop`, and is empty exactly when `stop <= start` |
| Common.RangeIncreasing | builders/build_section.py:68 | the offsets of a positive-step range strictly increase |
| Common.RangeDistinct | builders/build_section.py:68 | a range never repeats a value, whatever the sign of its step |
| Common.IntToStringInjective | builders/build_section.py:73 | distinct integers print differently |
| BuildSection.MaxDocuments | builders/build_section.py:62-65 | a truthy limit wins; a missing or zero limit gives the verdict count |
| BuildSection.DocIdInjective | builders/build_section.py:73 | distinct offsets give distinct document ids |
| BuildSection.PageIdsDistinct | builders/build_section.py:68-73 | no two pages of one build share a document id, so no page overwrites another's file |
| BuildSection.NextIdIsNew | builders/build_section.py:68-73 | the id of page m differs from the ids of every earlier page |
| BuildSection.RangeElement | builders/build_section.py:68 | the j-th offset is `j * batch_size` from the start |
| BuildSection.RequestedExceedsMaximum | builders/build_section.py:68-71 | the pages together ask for at least `max_documents`, and for strictly more when the batch size does not divide a larger maximum |
| BuildSection.ThreeDocumentsInPagesOfTwo | builders/build_section.py:68-71 | three documents in pages of two give the offsets 0 and 2 and ask for four documents |
| BuildSection.HardCodedPages | builders/build_section.py:60-67 | with the hard-coded limit 3 and batch size 1 the maximum is 3, the offsets are 0, 1, 2 and each page asks for one document |
| BuildSection.ContentText | builders/build_section.py:80 | a missing `content` is a KeyError and a parser error passes through; otherwise it succeeds with `strip_html` of the parsed content |
| BuildSection.ConsumePage | builders/build_section.py:70-82 | succeeds exactly when every document has a `url` and strippable content; then there is one record per document in yield order with the page's id and the document's url, the page's file holds the last document's text, and only that file changed |
| BuildSection.AppendRecords | builders/build_section.py:85-87 | the ledger gains the page's records, in order, after the existing lines |
| BuildSection.PageFilesKept | builders/build_section.py:81-82 | after a page, every earlier page's file still holds its last document's text and the new page's file holds its own |
| BuildSection.PageFailsOn | builders/build_section.py:68-87 | a page whose query raised, whose slice size `range` rejected, whose stream raised, or which yielded a document without `url` or strippable content cannot be finished in any order of fetches |
| BuildSection.BuildPage | builders/build_section.py:69-87 | one page: on error the ledger is unchanged and no run of that page's query could have finished (the query raised, `range` rejected the slice size, a fetch raised, or a yielded document has no `url` or strippable content); otherwise the page's query was answered, its stream completed, and the ledger grew by its records |
| BuildSection.BuildPages | builders/build_section.py:61-87 | a count error or a zero batch size ends the build before any page, with no record and no file or ledger change; otherwise the pages so far were all completed at their offsets with the page limit `min(batch_size, max_documents)`, an error means the next page cannot be finished, the ledger grew by exactly their records, every page's file holds its last document's text, and only page files were written |
| BuildSection.GetVerdict | builders/build_section.py:50-87 | the same with limit 3 and batch size 1, whatever was passed: at most the three pages at offsets 0, 1, 2, each of one document, all three when no error occurred, and on an error the next page cannot be finished |
| DocBot.AlreadyScraped | data_collectors/webscrapers/skat/skat/spiders/doc_bot.py:25-33 | no ledger gives the empty set; otherwise it succeeds exactly when every line has a `uri`, and the set holds exactly those uris |
| DocBot.LedgerUris | data_collectors/webscrapers/skat/skat/spiders/doc_bot.py:29 | a ledger the writers produced reads back as the set of the uris of its records |
| DocBot.AlreadyScrapedSnoc | data_collectors/webscrapers/skat/skat/spiders/doc_bot.py:29 | appending a record adds exactly its uri to the scraped set |
| DocBot.ResumeSkipsRecorded | data_collectors/webscrapers/skat/skat/spiders/doc_bot.py:46-49 | the urls left to scrape are urls of the URL file, and none of them is the uri of a recorded document |
| DocBot.ResumeIsIdempotent | data_collectors/webscrapers/skat/skat/spiders/doc_bot.py:46-49 | once every url of the URL file is recorded, nothing is left to scrape |
| DocBot.SkatDocSpider.Create | data_collectors/webscrapers/skat/skat/spiders/doc_bot.py:17-37 | a bad ledger line raises first; then the spider exists exactly when the URL file loads; its sets are the scraped uris, the file's urls and their difference, and the token counter is 0 |
| DocBot.SkatDocSpider.LoadUrls | data_collectors/webscrapers/skat/skat/spiders/doc_bot.py:39-51 | succeeds exactly when the URL file exists and every entry has a `url`; the urls in the file are recorded and those not yet scraped are returned; otherwise the error is one a missing file or entry raises |
| DocBot.TableMetadataKeys | data_collectors/webscrapers/skat/skat/spiders/doc_bot.py:90-94 | the metadata keys are exactly the second cells of the tables with at least three cells |
| DocBot.TableMetadataLastWins | data_collectors/webscrapers/skat/skat/spiders/doc_bot.py:93-94 | a key's value is its last table's cells from the third on, space-joined |
| DocBot.SkatDocSpider.ExtractElements | data_collectors/webscrapers/skat/skat/spiders/doc_bot.py:86-99 | IndexError when there is no content piece or no `name` meta tag; otherwise the table metadata of the first piece plus `name` |
| DocBot.ItemKeepsMetadata | data_collectors/webscrapers/skat/skat/spiders/doc_bot.py:80-84 | the item is the metadata plus `body` and `url`, with `url` the response's and every other key unchanged |
| DocBot.ResumeRecoverable | data_collectors/webscrapers/skat/skat/spiders/doc_bot.py:67-80 | the body's first newline follows the resume and its period, and what comes after it is the main body |
| DocBot.SkatDocSpider.Parse | data_collectors/webscrapers/skat/skat/spiders/doc_bot.py:62-84 | IndexError when the page has no main text or no `name` meta tag; otherwise the item built from the split content, whose `name` and `url` are the page's |
| Pipelines.StrippedBody | data_collectors/webscrapers/skat/skat/pipelines.py:34-44 | fails exactly when the body does not parse, with the parser's error; otherwise the text is `strip_html` of the tree, normalised, and holds exactly the words outside tables |
| Pipelines.FileName | data_collectors/webscrapers/skat/skat/pipelines.py:12 | the file name starts with `skat_` |
| Pipelines.FileNamesDistinct | data_collectors/webscrapers/skat/skat/pipelines.py:12-14 | distinct case numbers write distinct files |
| Pipelines.ProcessItem | data_collectors/webscrapers/skat/skat/pipelines.py:9-32 | the errors come in source order (`body`, stripping, `SKM-nummer`, then `url` after the file is written); on success the file holds the stripped body, the ledger gains one line for the item, the counter grows by its word count, and the item is returned |
| Pipelines.ProcessedItemIsSkipped | data_collectors/webscrapers/skat/skat/pipelines.py:18-26 | after an item's line is appended, its url is among the uris the next doc spider treats as scraped |
| UrlBot.Entry | data_collectors/webscrapers/skat/skat/spiders/url_bot.py:70 | a URL entry is a dictionary whose `url` is the absolute url |
| UrlBot.RecordedKeepsKeys | data_collectors/webscrapers/skat/skat/spiders/url_bot.py:60-70 | parsing a page never removes a case number |
| UrlBot.RecordedStopsAtGap | data_collectors/webscrapers/skat/skat/spiders/url_bot.py:61-64 | a row without a case number ends the page: rows after it are not recorded |
| UrlBot.RecordedLastWins | data_collectors/webscrapers/skat/skat/spiders/url_bot.py:66-70 | a case number maps to the joined url of its last row before any gap |
| UrlBot.RecordedUntouched | data_collectors/webscrapers/skat/skat/spiders/url_bot.py:60-70 | case numbers not on the page keep their entries |
| UrlBot.RecordedKeepsEntries | data_collectors/webscrapers/skat/skat/spiders/url_bot.py:70 | every entry of the dictionary stays a dictionary with a `url` |
| UrlBot.UrlFileLoads | data_collectors/webscrapers/skat/skat/spiders/url_bot.py:19-26 | a URL file the url spider wrote loads in the doc spider and gives exactly its entries' urls |
| UrlBot.SkatUrlSpider.constructor | data_collectors/webscrapers/skat/skat/spiders/url_bot.py:11-12 | starts with an empty URL dictionary |
| UrlBot.SkatUrlSpider.ParseResult | data_collectors/webscrapers/skat/skat/spiders/url_bot.py:55-70 | the loop records the page's rows as `Recorded` does, stopping at the first row without a case number |
| UrlBot.SkatUrlSpider.Parse | data_collectors/webscrapers/skat/skat/spiders/url_bot.py:40-53 | records the page's rows; a next request exists exactly when the next-tab link does, and its url is that link joined to the page's |
| UrlBot.SkatUrlSpider.Closed | data_collectors/webscrapers/skat/skat/spiders/url_bot.py:19-26 | the URL file is written with the dictionary exactly when the reason is `finished` |
| UrlBot.Strptime | data_collectors/webscrapers/skat/skat/spiders/url_bot.py:76 | a parsed date exists in the calendar and its year is in 1969..2068 |
| UrlBot.GetDate | data_collectors/webscrapers/skat/skat/spiders/url_bot.py:72-80 | never raises: `None` for a missing string, otherwise the strptime result with the ValueError as `None` |
| UrlBot.FormattedDateParses | data_collectors/webscrapers/skat/skat/spiders/url_bot.py:76 | every valid date from 1969 to 2068 written as `dd-mm-yy` parses back to itself |
| UrlBot.OneDigitFieldsParse | data_collectors/webscrapers/skat/skat/spiders/url_bot.py:76 | `1-2-18` is 1 February 2018 |
| UrlBot.MissingDayRejected | data_collectors/webscrapers/skat/skat/spiders/url_bot.py:76-78 | `29-02-19` is rejected |
| UrlBot.FourDigitYearRejected | data_collectors/webscrapers/skat/skat/spiders/url_bot.py:76-78 | `23-12-2003` is rejected, because unconverted text remains |

## Left out

- Network, GraphQL transport and Cloud Storage downloads are opaque function parameters (`Backend`, `Storage`), and so is JWT signing (`Signer`). The model has no timeouts or TCP connection limits.
- Concurrency: `asyncio.as_completed` is modelled as a nondeterministic choice of the next finished fetch. The metadata and data downloads of one `collect_file` are modelled in their await order.
- Clocks: `date_built` timestamps are arbitrary strings.
- JSON serialisation: ledger and URL-file lines are modelled as decoded JSON values, so malformed JSON text is not modelled. A line that is not a dictionary, or lacks `uri`, raises.
- `lxml` parsing, and the XPath queries that find meta tags, table cells and listing rows, are opaque parameters (`Parser`, `TableCells`, `DocResponse`, `ListingPage`). Table removal and text extraction are modelled on the returned tree.
- `breakpoint()` in the doc spider's constructor, logging, `os.makedirs`/`os.mkdir` of the data folders, and paths: the data folder is one `DataFolder` object.
- `document2sentences`, `main`, `build_skat` and `build` are not part of this model. They are wiring or unused code.
- `count_laws` and `get_date_of_latest_document` are not part of this model. `build_section.py` does not use them.
- `start_requests` of both spiders and `go_to_tab_for_most_recent_year` are left out. They only issue requests.
- The metadata dictionary updated in place by `_get_content_files`, and tables detached in place, are modelled on values. Both are local to one call, so no aliasing is lost.
- The URL file is a map, so Python's dictionary insertion order is not modelled. When several entries lack `url`, which one raises is left open.
- Python set elements must be hashable; the model's values always are.
- `strptime` is modelled for ASCII digits only. Python's `\d` also accepts other Unicode decimal digits.
- FirstContentFile: a `name` or `id` that is not a string is a TypeError in the model. Python would pass any value on to the download call, and what the storage library then does is not part of this model.
- Text outside the element `lxml.html.fromstring` returns is not modelled. `//text()` searches the whole document, so it also finds whitespace around that element and the text of a `head` the parser built for a fragment (a `<title>`, say). Only the text of that `head` would change the result.
- CountVerdicts: ignores its `query_filter` argument, as the source does. The model keeps the argument only to mirror the signature.
