/**
 * `SkatPipeline.process_item`: stores a scraped item's stripped text in the
 * data folder under `skat_<SKM-nummer>`, appends one ledger line for it and
 * adds the number of words stored to the spider's token counter.
 */
module Pipelines {
  import opened Common
  import opened Text
  import opened Html
  import opened Ledger
  import opened DocBot

  const CaseNumberKey := "SKM-nummer"
  const FilePrefix := "skat_"

  /** `strip_html(item['body'])`: parsing, then table removal and whitespace collapse; only the parser can raise. */
  function StrippedBody(parse: Parser, body: string): (r: Result<string>)
    ensures r.Ok? <==> parse(Str(body)).Ok?
    ensures r.Err? ==> r.error == parse(Str(body)).error
    ensures r.Ok? ==> r.value == StripHtml(parse(Str(body)).value)
    ensures r.Ok? ==> Normalized(r.value) && Words(r.value) == WordsOfAll(KeptTexts(parse(Str(body)).value))
  {
    var root := parse(Str(body));
    if root.Err? then Err(root.error)
    else
      StripHtmlNormalizesKeptText(root.value);
      Ok(StripHtml(root.value))
  }

  /** The file name, which is also the ledger `doc_id`, of an item. */
  function FileName(item: map<string, string>): (name: string)
    requires CaseNumberKey in item
    ensures |name| >= |FilePrefix| && name[..|FilePrefix|] == FilePrefix
  {
    FilePrefix + item[CaseNumberKey]
  }

  /** Distinct case numbers give distinct files, so no item overwrites another's text. */
  lemma FileNamesDistinct(a: map<string, string>, b: map<string, string>)
    requires CaseNumberKey in a && CaseNumberKey in b
    requires a[CaseNumberKey] != b[CaseNumberKey]
    ensures FileName(a) != FileName(b)
  {
    assert FileName(a)[|FilePrefix|..] == a[CaseNumberKey];
    assert FileName(b)[|FilePrefix|..] == b[CaseNumberKey];
  }

  /**
   * `process_item`. The text file is written before the `url` lookup, so
   * an item without a `url` leaves a file but no ledger line. On success
   * the ledger gains one line for the item and the counter grows by the
   * number of words stored, which are the words of the body's text outside
   * its tables (see `StrippedBody`).
   */
  method ProcessItem(item: map<string, string>, spider: SkatDocSpider, parse: Parser)
    returns (r: Result<map<string, string>>)
    modifies spider, spider.folder
    ensures r.Ok? ==> r.value == item
    ensures r.Ok? <==> BodyKey in item && StrippedBody(parse, item[BodyKey]).Ok?
                       && CaseNumberKey in item && ItemUrlKey in item
    ensures BodyKey !in item ==> r == Err(KeyError(BodyKey))
    ensures BodyKey in item && StrippedBody(parse, item[BodyKey]).Err? ==> r == Err(StrippedBody(parse, item[BodyKey]).error)
    ensures BodyKey in item && StrippedBody(parse, item[BodyKey]).Ok? && CaseNumberKey !in item
            ==> r == Err(KeyError(CaseNumberKey)) && spider.folder.files == old(spider.folder.files)
    ensures BodyKey in item && StrippedBody(parse, item[BodyKey]).Ok? && CaseNumberKey in item
            ==> spider.folder.files == old(spider.folder.files)[FileName(item) := StrippedBody(parse, item[BodyKey]).value]
    ensures BodyKey in item && StrippedBody(parse, item[BodyKey]).Ok? && CaseNumberKey in item && ItemUrlKey !in item
            ==> r == Err(KeyError(ItemUrlKey))
    ensures r.Err? ==> spider.folder.ledger == old(spider.folder.ledger) && spider.collectedTokens == old(spider.collectedTokens)
    ensures r.Err? && !(BodyKey in item && StrippedBody(parse, item[BodyKey]).Ok? && CaseNumberKey in item)
            ==> spider.folder.files == old(spider.folder.files)
    ensures r.Ok? ==> exists dateBuilt: string ::
      spider.folder.ledger == Some(LinesOf(old(spider.folder.ledger))
                                   + [ToJson(LedgerRecord(FileName(item), Str(item[ItemUrlKey]), dateBuilt))])
    ensures r.Ok? ==> spider.collectedTokens == old(spider.collectedTokens) + |Words(StrippedBody(parse, item[BodyKey]).value)|
    ensures spider.folder.urlFile == old(spider.folder.urlFile)
    ensures spider.urlsAlreadyScraped == old(spider.urlsAlreadyScraped)
    ensures spider.urlsInUrlFile == old(spider.urlsInUrlFile) && spider.urlsToScrape == old(spider.urlsToScrape)
  {
    if BodyKey !in item {
      return Err(KeyError(BodyKey));
    }
    var content := StrippedBody(parse, item[BodyKey]);
    if content.Err? {
      return Err(content.error);
    }
    if CaseNumberKey !in item {
      return Err(KeyError(CaseNumberKey));
    }
    var filename := FilePrefix + item[CaseNumberKey];
    spider.folder.WriteFile(filename, content.value);
    if ItemUrlKey !in item {
      return Err(KeyError(ItemUrlKey));
    }
    var dateBuilt: string := *;
    spider.folder.AppendLine(LedgerRecord(filename, Str(item[ItemUrlKey]), dateBuilt));
    var collectedTokens := |Words(content.value)|;
    spider.collectedTokens := spider.collectedTokens + collectedTokens;
    r := Ok(item);
  }

  /**
   * A processed item is not scraped again: after its line is appended, its
   * url is in the set the next spider loads as already scraped.
   */
  lemma ProcessedItemIsSkipped(ledger: Option<seq<Value>>, item: map<string, string>, dateBuilt: string)
    requires CaseNumberKey in item && ItemUrlKey in item
    requires AlreadyScraped(ledger).Ok?
    ensures var after := Some(LinesOf(ledger) + [ToJson(LedgerRecord(FileName(item), Str(item[ItemUrlKey]), dateBuilt))]);
      && AlreadyScraped(after).Ok?
      && AlreadyScraped(after).value == AlreadyScraped(ledger).value + {Str(item[ItemUrlKey])}
  {
    assert AlreadyScraped(Some(LinesOf(ledger))) == AlreadyScraped(ledger);
    AlreadyScrapedSnoc(LinesOf(ledger), LedgerRecord(FileName(item), Str(item[ItemUrlKey]), dateBuilt));
  }
}
