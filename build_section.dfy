/**
 * `get_verdict` of the section builder: counts the verdicts, walks the
 * offsets of `range(0, max_documents, batch_size)`, streams each page of
 * documents, writes every document's stripped text to a file named after
 * the page offset, and after each page appends one ledger record per
 * document to `data.jsonl`.
 */
module BuildSection {
  import opened Common
  import opened Text
  import opened Html
  import opened Ledger
  import opened GcloudFileCollector
  import opened PrismaCollector

  const VerdictType := "verdict"
  const UrlKey := "url"

  /** `limit` when it is truthy, the verdict count otherwise: a limit of 0 counts as absent. */
  function MaxDocuments(limit: Option<int>, count: int): (m: int)
    ensures limit.Some? && limit.value != 0 ==> m == limit.value
    ensures limit.None? || limit.value == 0 ==> m == count
  {
    if limit.Some? && limit.value != 0 then limit.value else count
  }

  /** The offsets of the pages; `range` rejects a zero step. */
  function PageOffsets(maxDocuments: int, batchSize: int): seq<int>
    requires batchSize != 0
  {
    Range(0, maxDocuments, batchSize)
  }

  /** The document limit of every page: the batch size capped by the maximum, never the remainder. */
  function PageLimit(maxDocuments: int, batchSize: int): int
  {
    Min(batchSize, maxDocuments)
  }

  /** The metadata query of the page at `offset`. */
  function PageQuery(query: string, queryFilters: seq<string>, offset: int, pageLimit: int): MetadataQuery
  {
    MetadataQuery(VerdictType, Some(pageLimit), Some(offset), QueryFilter(None, Some(queryFilters)), query)
  }

  /** `f'{base_save_name}_{i}'`: the document id depends on the page offset only. */
  function DocId(base: string, offset: int): string
  {
    base + "_" + IntToString(offset)
  }

  /** Different offsets give different ids. */
  lemma DocIdInjective(base: string, i: int, j: int)
    requires DocId(base, i) == DocId(base, j)
    ensures i == j
  {
    var n := |base| + 1;
    assert DocId(base, i)[n..] == IntToString(i);
    assert DocId(base, j)[n..] == IntToString(j);
    IntToStringInjective(i, j);
  }

  /** Only pages at distinct offsets exist, so no two pages share a file or a doc id. */
  lemma PageIdsDistinct(base: string, maxDocuments: int, batchSize: int, i: int, j: int)
    requires batchSize != 0
    requires 0 <= i < j < |PageOffsets(maxDocuments, batchSize)|
    ensures DocId(base, PageOffsets(maxDocuments, batchSize)[i]) != DocId(base, PageOffsets(maxDocuments, batchSize)[j])
  {
    RangeDistinct(0, maxDocuments, batchSize, i, j);
    if DocId(base, PageOffsets(maxDocuments, batchSize)[i]) == DocId(base, PageOffsets(maxDocuments, batchSize)[j]) {
      DocIdInjective(base, PageOffsets(maxDocuments, batchSize)[i], PageOffsets(maxDocuments, batchSize)[j]);
    }
  }

  lemma {:induction false} RangeElement(start: int, stop: int, step: int, j: int)
    requires step > 0
    requires 0 <= j < |Range(start, stop, step)|
    ensures Range(start, stop, step)[j] == start + j * step
    decreases j
  {
    if j > 0 {
      RangeElement(start + step, stop, step, j - 1);
      assert Range(start, stop, step)[j] == Range(start + step, stop, step)[j - 1];
      assert (j - 1) * step + step == j * step;
    }
  }

  lemma MultipleMod(k: int, b: int)
    requires b > 0
    ensures (k * b) % b == 0
  {
    var q := (k * b) / b;
    var r := (k * b) % b;
    assert k * b == q * b + r && 0 <= r < b;
    assert (k - q) * b == r;
    if k - q >= 1 {
      MulAtLeast(k - q, b);
    } else if k - q <= -1 {
      MulAtLeast(q - k, b);
    }
  }

  lemma MulAtLeast(x: int, b: int)
    requires x >= 1 && b > 0
    ensures x * b >= b
  {
    assert x * b == (x - 1) * b + b;
  }

  /**
   * The pages together ask for at least `max_documents` documents, and for
   * more whenever the batch size is smaller than the maximum and does not
   * divide it: the last page is not shortened to the remainder.
   */
  lemma RequestedExceedsMaximum(maxDocuments: int, batchSize: int)
    requires 0 < batchSize && 0 < maxDocuments
    ensures |PageOffsets(maxDocuments, batchSize)| * PageLimit(maxDocuments, batchSize) >= maxDocuments
    ensures batchSize < maxDocuments && maxDocuments % batchSize != 0 ==>
              |PageOffsets(maxDocuments, batchSize)| * PageLimit(maxDocuments, batchSize) > maxDocuments
  {
    var offs := PageOffsets(maxDocuments, batchSize);
    var k := |offs|;
    RangeStep(0, maxDocuments, batchSize);
    RangeElement(0, maxDocuments, batchSize, k - 1);
    assert (k - 1) * batchSize + batchSize == k * batchSize;
    if batchSize < maxDocuments {
      assert PageLimit(maxDocuments, batchSize) == batchSize;
      if k * batchSize == maxDocuments {
        MultipleMod(k, batchSize);
      }
    } else {
      assert PageLimit(maxDocuments, batchSize) == maxDocuments;
    }
  }

  /** With three documents and pages of two, the offsets are 0 and 2 and four documents are asked for. */
  lemma ThreeDocumentsInPagesOfTwo()
    ensures PageOffsets(3, 2) == [0, 2]
    ensures |PageOffsets(3, 2)| * PageLimit(3, 2) == 4
  {
    assert Range(4, 3, 2) == [];
    assert Range(2, 3, 2) == [2];
  }

  /** `strip_html(document['content'])`: a missing `content` or a parser error raises, stripping itself never does. */
  function ContentText(parse: Parser, d: Metadata): (r: Result<string>)
    ensures r.Ok? <==> ContentKey in d && parse(d[ContentKey]).Ok?
    ensures ContentKey !in d ==> r == Err(KeyError(ContentKey))
    ensures ContentKey in d && parse(d[ContentKey]).Err? ==> r == Err(parse(d[ContentKey]).error)
    ensures r.Ok? ==> r.value == StripHtml(parse(d[ContentKey]).value)
  {
    if ContentKey !in d then Err(KeyError(ContentKey))
    else
      var root := parse(d[ContentKey]);
      if root.Err? then Err(root.error) else Ok(StripHtml(root.value))
  }

  /** The stripped text of a document, empty when it has none. */
  function TextOf(parse: Parser, d: Metadata): string
  {
    var t := ContentText(parse, d);
    if t.Ok? then t.value else ""
  }

  /** The `url` of a document, `Null` when it has none. */
  function Url(d: Metadata): Value
  {
    if UrlKey in d then d[UrlKey] else Null
  }

  /** A page that every step of the loop body accepts: each document has a url and strippable content. */
  predicate PageOk(parse: Parser, docs: seq<Metadata>)
  {
    forall i :: 0 <= i < |docs| ==> UrlKey in docs[i] && ContentText(parse, docs[i]).Ok?
  }

  /** The document id of each page, in page order. */
  function PageNames(base: string, offsets: seq<int>): (names: seq<string>)
    ensures |names| == |offsets|
  {
    seq(|offsets|, j requires 0 <= j < |offsets| => DocId(base, offsets[j]))
  }

  function NameSet(names: seq<string>): set<string>
  {
    set n | n in names
  }

  /** The (doc id, uri) pairs of the ledger records a sequence of pages produces. */
  function PageTags(names: seq<string>, pages: seq<seq<Metadata>>): seq<(string, Value)>
    requires |pages| <= |names|
  {
    if pages == [] then []
    else
      var j := |pages| - 1;
      PageTags(names, pages[..j]) + seq(|pages[j]|, i requires 0 <= i < |pages[j]| => (names[j], Url(pages[j][i])))
  }

  function Tags(rs: seq<LedgerRecord>): seq<(string, Value)>
  {
    seq(|rs|, i requires 0 <= i < |rs| => (rs[i].docId, rs[i].uri))
  }

  /** `after` differs from `before` at most at the names in `names`. */
  ghost predicate OnlyWrote(before: map<string, string>, after: map<string, string>, names: set<string>)
  {
    && after.Keys <= before.Keys + names
    && forall n :: n in before && n !in names ==> n in after && after[n] == before[n]
  }

  /**
   * The inner `async for` of one page, over the documents the generator
   * yielded: builds one record per document (the url is read before
   * anything else) and writes the stripped text to the page's file.
   */
  method ConsumePage(folder: DataFolder, parse: Parser, docId: string, docs: seq<Metadata>)
    returns (metadatas: seq<LedgerRecord>, err: Option<Error>)
    modifies folder
    ensures folder.ledger == old(folder.ledger) && folder.urlFile == old(folder.urlFile)
    ensures OnlyWrote(old(folder.files), folder.files, {docId})
    ensures err.None? <==> PageOk(parse, docs)
    ensures err.None? ==> Tags(metadatas) == seq(|docs|, i requires 0 <= i < |docs| => (docId, Url(docs[i])))
    ensures err.None? && docs != [] ==> folder.files == old(folder.files)[docId := TextOf(parse, docs[|docs| - 1])]
    ensures err.None? && docs == [] ==> folder.files == old(folder.files)
  {
    metadatas, err := [], None;
    for i := 0 to |docs|
      invariant folder.ledger == old(folder.ledger) && folder.urlFile == old(folder.urlFile)
      invariant PageOk(parse, docs[..i])
      invariant Tags(metadatas) == seq(i, k requires 0 <= k < i => (docId, Url(docs[k])))
      invariant i == 0 ==> folder.files == old(folder.files)
      invariant i > 0 ==> folder.files == old(folder.files)[docId := TextOf(parse, docs[i - 1])]
    {
      var d := docs[i];
      PageStep(parse, docs, i);
      if UrlKey !in d {
        err := Some(KeyError(UrlKey));
        return;
      }
      var dateBuilt: string := *;
      var rec := LedgerRecord(docId, d[UrlKey], dateBuilt);
      RecordTagsSnoc(metadatas, rec, docId, docs, i);
      metadatas := metadatas + [rec];
      var e := StoreText(folder, parse, docId, d);
      if e.Some? {
        err := e;
        return;
      }
    }
    assert docs[..|docs|] == docs;
  }

  /** The write of one document's stripped text to the page's file; a stripping error leaves the folder as it was. */
  method StoreText(folder: DataFolder, parse: Parser, docId: string, d: Metadata) returns (err: Option<Error>)
    modifies folder
    ensures err.None? <==> ContentText(parse, d).Ok?
    ensures err.None? ==> folder.files == old(folder.files)[docId := TextOf(parse, d)]
    ensures err.Some? ==> folder.files == old(folder.files)
    ensures folder.ledger == old(folder.ledger) && folder.urlFile == old(folder.urlFile)
  {
    var content := ContentText(parse, d);
    if content.Err? {
      return Some(content.error);
    }
    folder.WriteFile(docId, content.value);
    return None;
  }

  /** Appending a page's records, in yield order; opening the ledger creates it. */
  method AppendRecords(folder: DataFolder, metadatas: seq<LedgerRecord>)
    modifies folder
    ensures folder.ledger == Some(LinesOf(old(folder.ledger)) + Lines(metadatas))
    ensures folder.files == old(folder.files) && folder.urlFile == old(folder.urlFile)
  {
    folder.OpenLedger();
    assert Lines(metadatas[..0]) == [];
    assert LinesOf(old(folder.ledger)) + [] == LinesOf(old(folder.ledger));
    for k := 0 to |metadatas|
      invariant folder.ledger == Some(LinesOf(old(folder.ledger)) + Lines(metadatas[..k]))
      invariant folder.files == old(folder.files) && folder.urlFile == old(folder.urlFile)
    {
      ghost var before := LinesOf(folder.ledger);
      assert before == LinesOf(old(folder.ledger)) + Lines(metadatas[..k]);
      folder.AppendLine(metadatas[k]);
      assert metadatas[..k + 1] == metadatas[..k] + [metadatas[k]];
      LinesAppend(metadatas[..k], [metadatas[k]]);
      assert Lines([metadatas[k]]) == [ToJson(metadatas[k])];
      assert before + [ToJson(metadatas[k])] == LinesOf(old(folder.ledger)) + Lines(metadatas[..k + 1]);
    }
    assert metadatas[..|metadatas|] == metadatas;
  }

  /** A page the loop finished: the generator ran to its end and every document was accepted. */
  ghost predicate PageDone(src: FileSource, c: int, parse: Parser, md: Result<seq<Metadata>>, docs: seq<Metadata>)
  {
    && md.Ok?
    && (c > 0 ==> Streamed(src, docs, Slices(md.value, c), None))
    && c != 0
    && (c < 0 ==> docs == [])
    && PageOk(parse, docs)
  }

  /** Every page so far was finished, page `j` at offset `offsets[j]`. */
  ghost predicate PagesDone(src: FileSource, c: int, parse: Parser, backend: Backend, query: string,
                            queryFilters: seq<string>, offsets: seq<int>, pageLimit: int, pages: seq<seq<Metadata>>)
    requires |pages| <= |offsets|
  {
    forall j :: 0 <= j < |pages| ==>
      PageDone(src, c, parse, backend.allOfType(PageQuery(query, queryFilters, offsets[j], pageLimit)), pages[j])
  }

  /**
   * No run of the page can be finished, whatever order its fetches complete
   * in: the query raised, `range` rejected the slice size, a fetch raised,
   * or a yielded document has no `url` or no strippable content.
   */
  ghost predicate PageFails(src: FileSource, c: int, parse: Parser, md: Result<seq<Metadata>>)
  {
    forall docs :: !PageDone(src, c, parse, md, docs)
  }

  /** A page whose generator raised, or whose consumer rejected a yielded document, cannot be finished. */
  lemma PageFailsOn(src: FileSource, c: int, parse: Parser, md: Result<seq<Metadata>>,
                    page: seq<Metadata>, genErr: Option<Error>)
    requires md.Err? ==> page == [] && genErr == Some(md.error)
    requires md.Ok? && c == 0 ==> page == [] && genErr == Some(ValueError)
    requires md.Ok? && c < 0 ==> page == [] && genErr == None
    requires md.Ok? && c > 0 ==> Streamed(src, page, Slices(md.value, c), genErr)
    requires genErr.Some? || !PageOk(parse, page)
    ensures PageFails(src, c, parse, md)
  {
    forall docs
      ensures !PageDone(src, c, parse, md, docs)
    {
      if md.Ok? && c > 0 {
        if genErr.Some? {
          StreamedErrorExcludesCompletion(src, md.value, c, page, genErr.value, docs);
        } else {
          CompletedStreamsAgree(src, md.value, c, page, docs);
        }
      }
    }
  }

  lemma PagesDoneSnoc(src: FileSource, c: int, parse: Parser, backend: Backend, query: string,
                      queryFilters: seq<string>, offsets: seq<int>, pageLimit: int,
                      pages: seq<seq<Metadata>>, docs: seq<Metadata>)
    requires |pages| < |offsets|
    requires PagesDone(src, c, parse, backend, query, queryFilters, offsets, pageLimit, pages)
    requires PageDone(src, c, parse, backend.allOfType(PageQuery(query, queryFilters, offsets[|pages|], pageLimit)), docs)
    ensures PagesDone(src, c, parse, backend, query, queryFilters, offsets, pageLimit, pages + [docs])
  {
    var ps := pages + [docs];
    forall j | 0 <= j < |ps|
      ensures PageDone(src, c, parse, backend.allOfType(PageQuery(query, queryFilters, offsets[j], pageLimit)), ps[j])
    {
      if j < |pages| {
        assert ps[j] == pages[j];
      }
    }
  }

  /** The text of the last document of each finished page is in that page's file. */
  ghost predicate PageFilesWritten(files: map<string, string>, parse: Parser, names: seq<string>,
                                   pages: seq<seq<Metadata>>)
    requires |pages| <= |names|
  {
    forall j :: 0 <= j < |pages| && pages[j] != [] ==>
      names[j] in files && files[names[j]] == TextOf(parse, pages[j][|pages[j]| - 1])
  }

  lemma LinesAppend(a: seq<LedgerRecord>, b: seq<LedgerRecord>)
    ensures Lines(a + b) == Lines(a) + Lines(b)
  {
  }

  lemma LedgerGrows(ledger0: seq<Value>, ledger1: seq<Value>, ledger2: seq<Value>,
                    records: seq<LedgerRecord>, metadatas: seq<LedgerRecord>)
    requires ledger1 == ledger0 + Lines(records)
    requires ledger2 == ledger1 + Lines(metadatas)
    ensures ledger2 == ledger0 + Lines(records + metadatas)
  {
    LinesAppend(records, metadatas);
  }

  /** Document `i` either fails the page or extends the prefix that passes. */
  lemma PageStep(parse: Parser, docs: seq<Metadata>, i: int)
    requires 0 <= i < |docs| && PageOk(parse, docs[..i])
    ensures UrlKey in docs[i] && ContentText(parse, docs[i]).Ok? ==> PageOk(parse, docs[..i + 1])
    ensures !(UrlKey in docs[i] && ContentText(parse, docs[i]).Ok?) ==> !PageOk(parse, docs)
  {
    assert docs[..i + 1] == docs[..i] + [docs[i]];
  }

  /** One more record, for document `i`, adds that document's pair to the tags. */
  lemma RecordTagsSnoc(metadatas: seq<LedgerRecord>, rec: LedgerRecord, docId: string, docs: seq<Metadata>, i: int)
    requires 0 <= i < |docs| && UrlKey in docs[i]
    requires rec.docId == docId && rec.uri == docs[i][UrlKey]
    requires Tags(metadatas) == seq(i, k requires 0 <= k < i => (docId, Url(docs[k])))
    ensures Tags(metadatas + [rec]) == seq(i + 1, k requires 0 <= k < i + 1 => (docId, Url(docs[k])))
  {
    TagsAppend(metadatas, [rec]);
    assert seq(i + 1, k requires 0 <= k < i + 1 => (docId, Url(docs[k])))
           == seq(i, k requires 0 <= k < i => (docId, Url(docs[k]))) + [(docId, Url(docs[i]))];
  }

  lemma TagsAppend(a: seq<LedgerRecord>, b: seq<LedgerRecord>)
    ensures Tags(a + b) == Tags(a) + Tags(b)
  {
  }

  lemma PageTagsSnoc(names: seq<string>, pages: seq<seq<Metadata>>, docs: seq<Metadata>)
    requires |pages| < |names|
    ensures PageTags(names, pages + [docs])
            == PageTags(names, pages) + seq(|docs|, i requires 0 <= i < |docs| => (names[|pages|], Url(docs[i])))
  {
    assert (pages + [docs])[..|pages|] == pages;
  }

  /** The id of the page after `m` finished pages differs from the ids of those pages. */
  lemma NextIdIsNew(base: string, maxDocuments: int, batchSize: int, m: int)
    requires batchSize != 0
    requires 0 <= m < |PageOffsets(maxDocuments, batchSize)|
    ensures var names := PageNames(base, PageOffsets(maxDocuments, batchSize));
      forall j :: 0 <= j < m ==> names[j] != names[m]
  {
    forall j | 0 <= j < m
      ensures DocId(base, PageOffsets(maxDocuments, batchSize)[j]) != DocId(base, PageOffsets(maxDocuments, batchSize)[m])
    {
      PageIdsDistinct(base, maxDocuments, batchSize, j, m);
    }
  }

  /** Writing the file of the next page keeps the files of the earlier pages. */
  lemma PageFilesKept(files: map<string, string>, newFiles: map<string, string>, parse: Parser,
                      names: seq<string>, pages: seq<seq<Metadata>>, docs: seq<Metadata>)
    requires |pages| < |names|
    requires forall j :: 0 <= j < |pages| ==> names[j] != names[|pages|]
    requires PageFilesWritten(files, parse, names, pages)
    requires OnlyWrote(files, newFiles, {names[|pages|]})
    requires docs != [] ==> newFiles == files[names[|pages|] := TextOf(parse, docs[|docs| - 1])]
    ensures PageFilesWritten(newFiles, parse, names, pages + [docs])
  {
    var ps := pages + [docs];
    forall j | 0 <= j < |ps| && ps[j] != []
      ensures names[j] in newFiles && newFiles[names[j]] == TextOf(parse, ps[j][|ps[j]| - 1])
    {
      if j < |pages| {
        assert ps[j] == pages[j];
      } else {
        assert ps[j] == docs;
      }
    }
  }

  /** Writing the file of a page that then fails keeps the files of the earlier pages. */
  lemma PageFilesUntouched(files: map<string, string>, newFiles: map<string, string>, parse: Parser,
                           names: seq<string>, pages: seq<seq<Metadata>>)
    requires |pages| < |names|
    requires forall j :: 0 <= j < |pages| ==> names[j] != names[|pages|]
    requires PageFilesWritten(files, parse, names, pages)
    requires OnlyWrote(files, newFiles, {names[|pages|]})
    ensures PageFilesWritten(newFiles, parse, names, pages)
  {
  }

  lemma NameSetSnoc(names: seq<string>, j: int)
    requires 0 <= j < |names|
    ensures NameSet(names[..j + 1]) == NameSet(names[..j]) + {names[j]}
    ensures NameSet(names[..j + 1]) <= NameSet(names)
  {
    assert names[..j + 1] == names[..j] + [names[j]];
  }

  /**
   * One iteration of the page loop: generate the page's documents, write
   * their files, and append their records to the ledger only when the whole
   * page went through.
   */
  method BuildPage(collector: PrismaDocumentCollector, backend: Backend, storage: Storage, utf8: Utf8Decoder,
                   parse: Parser, query: string, queryFilters: seq<string>, offset: int, pageLimit: int,
                   docId: string, folder: DataFolder)
    returns (err: Option<Error>, ghost docs: seq<Metadata>, ghost metadatas: seq<LedgerRecord>)
    modifies folder, collector.fileCollector
    ensures folder.urlFile == old(folder.urlFile)
    ensures OnlyWrote(old(folder.files), folder.files, {docId})
    ensures err.Some? ==> folder.ledger == old(folder.ledger)
    ensures err.Some? ==>
      PageFails(FileSource(collector.fileCollector.bucket, storage, utf8), collector.concurrentFilesCollected,
                parse, backend.allOfType(PageQuery(query, queryFilters, offset, pageLimit)))
    ensures err.None? ==>
      && PageDone(FileSource(collector.fileCollector.bucket, storage, utf8), collector.concurrentFilesCollected,
                  parse, backend.allOfType(PageQuery(query, queryFilters, offset, pageLimit)), docs)
      && LinesOf(folder.ledger) == LinesOf(old(folder.ledger)) + Lines(metadatas)
      && Tags(metadatas) == seq(|docs|, i requires 0 <= i < |docs| => (docId, Url(docs[i])))
      && (docs != [] ==> folder.files == old(folder.files)[docId := TextOf(parse, docs[|docs| - 1])])
      && (docs == [] ==> folder.files == old(folder.files))
  {
    var page, genErr := collector.Documents(backend, storage, utf8, query, VerdictType, Some(offset),
                                            Some(pageLimit), false, Some(queryFilters), None);
    docs := page;
    var records, pageErr := ConsumePage(folder, parse, docId, page);
    metadatas := records;
    if pageErr.Some? || genErr.Some? {
      PageFailsOn(FileSource(collector.fileCollector.bucket, storage, utf8), collector.concurrentFilesCollected,
                  parse, backend.allOfType(PageQuery(query, queryFilters, offset, pageLimit)), page, genErr);
      return if pageErr.Some? then pageErr else genErr, docs, metadatas;
    }
    AppendRecords(folder, records);
    err := None;
  }

  /**
   * The body of `get_verdict` from the count on, for a given `limit` and
   * `batch_size`. Every exception ends the build: the pages before it are
   * fully recorded, the page it hit has written some files but no ledger
   * records.
   */
  method BuildPages(collector: PrismaDocumentCollector, backend: Backend, storage: Storage, utf8: Utf8Decoder,
                    parse: Parser, query: string, queryFilters: seq<string>, base: string,
                    batchSize: int, limit: Option<int>, folder: DataFolder)
    returns (err: Option<Error>, ghost pages: seq<seq<Metadata>>, ghost records: seq<LedgerRecord>)
    modifies folder, collector.fileCollector
    ensures var count := backend.countOfType(VerdictType, "");
      && (count.Err? ==> err == Some(count.error) && pages == [] && records == [])
      && (count.Ok? && batchSize == 0 ==> err == Some(ValueError) && pages == [] && records == [])
      && (count.Err? || batchSize == 0 ==> folder.files == old(folder.files) && folder.ledger == old(folder.ledger))
    ensures LinesOf(folder.ledger) == LinesOf(old(folder.ledger)) + Lines(records)
    ensures folder.urlFile == old(folder.urlFile)
    ensures var count := backend.countOfType(VerdictType, "");
      count.Ok? && batchSize != 0 ==>
        var maxDocuments := MaxDocuments(limit, count.value);
        var offsets := PageOffsets(maxDocuments, batchSize);
        var src := FileSource(collector.fileCollector.bucket, storage, utf8);
        && |pages| <= |offsets|
        && (err.None? ==> |pages| == |offsets|)
        && (err.Some? ==>
              && |pages| < |offsets|
              && PageFails(src, collector.concurrentFilesCollected, parse,
                           backend.allOfType(PageQuery(query, queryFilters, offsets[|pages|],
                                                       PageLimit(maxDocuments, batchSize)))))
        && PagesDone(src, collector.concurrentFilesCollected, parse, backend, query, queryFilters, offsets,
                     PageLimit(maxDocuments, batchSize), pages)
        && Tags(records) == PageTags(PageNames(base, offsets), pages)
        && PageFilesWritten(folder.files, parse, PageNames(base, offsets), pages)
        && OnlyWrote(old(folder.files), folder.files, NameSet(PageNames(base, offsets)))
  {
    pages, records := [], [];
    var count := collector.CountVerdicts(backend, "");
    if count.Err? {
      return Some(count.error), pages, records;
    }
    var maxDocuments := MaxDocuments(limit, count.value);
    if batchSize == 0 {
      return Some(ValueError), pages, records;
    }
    var offsets := Range(0, maxDocuments, batchSize);
    var pageLimit := Min(batchSize, maxDocuments);
    ghost var src := FileSource(collector.fileCollector.bucket, storage, utf8);
    ghost var files0 := folder.files;
    ghost var names := PageNames(base, offsets);
    for j := 0 to |offsets|
      invariant |pages| == j
      invariant LinesOf(folder.ledger) == LinesOf(old(folder.ledger)) + Lines(records)
      invariant folder.urlFile == old(folder.urlFile)
      invariant PagesDone(src, collector.concurrentFilesCollected, parse, backend, query, queryFilters, offsets,
                          pageLimit, pages)
      invariant Tags(records) == PageTags(names, pages)
      invariant PageFilesWritten(folder.files, parse, names, pages)
      invariant OnlyWrote(files0, folder.files, NameSet(names[..j]))
    {
      var docId := DocId(base, offsets[j]);
      assert docId == names[j];
      ghost var filesBefore := folder.files;
      ghost var ledgerBefore := LinesOf(folder.ledger);
      var pageErr, docs, metadatas := BuildPage(collector, backend, storage, utf8, parse, query, queryFilters,
                                                offsets[j], pageLimit, docId, folder);
      NameSetSnoc(names, j);
      NextIdIsNew(base, maxDocuments, batchSize, j);
      if pageErr.Some? {
        PageFilesUntouched(filesBefore, folder.files, parse, names, pages);
        OnlyWroteMore(files0, filesBefore, folder.files, NameSet(names[..j]), {docId}, NameSet(names));
        return pageErr, pages, records;
      }
      PageFilesKept(filesBefore, folder.files, parse, names, pages, docs);
      OnlyWroteMore(files0, filesBefore, folder.files, NameSet(names[..j]), {docId}, NameSet(names[..j + 1]));
      PageTagsSnoc(names, pages, docs);
      PagesDoneSnoc(src, collector.concurrentFilesCollected, parse, backend, query, queryFilters, offsets,
                    pageLimit, pages, docs);
      LinesAppend(records, metadatas);
      TagsAppend(records, metadatas);
      LedgerGrows(LinesOf(old(folder.ledger)), ledgerBefore, LinesOf(folder.ledger), records, metadatas);
      pages := pages + [docs];
      records := records + metadatas;
    }
    err := None;
    assert names[..|offsets|] == names;
  }

  lemma OnlyWroteMore(a: map<string, string>, b: map<string, string>, c: map<string, string>,
                      n1: set<string>, n2: set<string>, n: set<string>)
    requires OnlyWrote(a, b, n1) && OnlyWrote(b, c, n2)
    requires n1 + n2 <= n
    ensures OnlyWrote(a, c, n)
  {
  }

  /** The values `get_verdict` overwrites its arguments with give three pages of one document. */
  lemma HardCodedPages()
    ensures forall count :: MaxDocuments(Some(3), count) == 3
    ensures PageOffsets(3, 1) == [0, 1, 2] && PageLimit(3, 1) == 1
  {
    assert Range(3, 3, 1) == [];
    assert Range(2, 3, 1) == [2];
    assert Range(1, 3, 1) == [1, 2];
  }

  /**
   * `get_verdict`: whatever `limit` and `batch_size` it is given, it sets
   * them to 3 and 1, so it builds the pages at offsets 0, 1 and 2, each
   * asking for one document, and stops at the first exception.
   */
  method GetVerdict(collector: PrismaDocumentCollector, backend: Backend, storage: Storage, utf8: Utf8Decoder,
                    parse: Parser, query: string, queryFilters: seq<string>, base: string,
                    batchSize: int, limit: Option<int>, folder: DataFolder)
    returns (err: Option<Error>, ghost pages: seq<seq<Metadata>>, ghost records: seq<LedgerRecord>)
    modifies folder, collector.fileCollector
    ensures var count := backend.countOfType(VerdictType, "");
      count.Err? ==> err == Some(count.error) && pages == [] && records == []
                     && folder.files == old(folder.files) && folder.ledger == old(folder.ledger)
    ensures LinesOf(folder.ledger) == LinesOf(old(folder.ledger)) + Lines(records)
    ensures folder.urlFile == old(folder.urlFile)
    ensures backend.countOfType(VerdictType, "").Ok? ==>
        var names := [DocId(base, 0), DocId(base, 1), DocId(base, 2)];
        var src := FileSource(collector.fileCollector.bucket, storage, utf8);
        && |pages| <= 3
        && (err.None? ==> |pages| == 3)
        && (err.Some? ==>
              && |pages| < 3
              && PageFails(src, collector.concurrentFilesCollected, parse,
                           backend.allOfType(PageQuery(query, queryFilters, |pages|, 1))))
        && PagesDone(src, collector.concurrentFilesCollected, parse, backend, query, queryFilters, [0, 1, 2], 1, pages)
        && Tags(records) == PageTags(names, pages)
        && PageFilesWritten(folder.files, parse, names, pages)
        && OnlyWrote(old(folder.files), folder.files, set n | n in names)
  {
    HardCodedPages();
    assert PageNames(base, [0, 1, 2]) == [DocId(base, 0), DocId(base, 1), DocId(base, 2)];
    err, pages, records := BuildPages(collector, backend, storage, utf8, parse, query, queryFilters, base,
                                      1, Some(3), folder);
  }
}
