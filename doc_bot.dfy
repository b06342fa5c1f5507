/**
 * `SkatDocSpider`: works out which documents still need scraping (the URLs
 * of the URL file minus the URIs the ledger already records), and turns a
 * fetched document page into an item: the metadata tables, the page's
 * `name`, the assembled `body` and the `url`.
 */
module DocBot {
  import opened Common
  import opened Text
  import opened Ledger

  const ItemUrlKey := "url"
  const NameKey := "name"
  const BodyKey := "body"
  const NotesKey := "Redaktionelle noter"
  const ResumeKey := "Resumé"
  const LineDelimiter := "<hr class=\"LineDelimiter\">"
  const NotesHeading := "<h2>Redaktionelle noter</h2>"
  const MainTextOpen := "<div id=\"MPtext\">"

  /*
   * Resuming: which URLs are left to scrape.
   */

  /**
   * `{json.loads(line)['uri'] for line in ...}` over the ledger lines, the
   * empty set when no ledger exists; a line without a `uri` raises.
   */
  function AlreadyScraped(ledger: Option<seq<Value>>): (r: Result<set<Value>>)
    ensures ledger.None? ==> r == Ok({})
    ensures ledger.Some? ==> (r.Ok? <==> forall i :: 0 <= i < |ledger.value| ==> Field(ledger.value[i], UriKey).Ok?)
    ensures ledger.Some? && r.Ok? ==>
      forall u :: u in r.value <==> exists i :: 0 <= i < |ledger.value| && Field(ledger.value[i], UriKey) == Ok(u)
  {
    if ledger.None? then Ok({})
    else
      var lines := ledger.value;
      var uris := seq(|lines|, i requires 0 <= i < |lines| => Field(lines[i], UriKey));
      assert forall i :: 0 <= i < |lines| ==> uris[i] == Field(lines[i], UriKey);
      SetOf(uris)
  }

  /** Every line the writers produce has the record's `uri`. */
  lemma LineUri(records: seq<LedgerRecord>, i: int)
    requires 0 <= i < |records|
    ensures Field(Lines(records)[i], UriKey) == Ok(records[i].uri)
  {
    assert Lines(records)[i] == ToJson(records[i]);
  }

  /** The URIs of the writers' lines are exactly the records' URIs. */
  lemma LineUrisAreRecordUris(records: seq<LedgerRecord>, u: Value)
    ensures (exists i :: 0 <= i < |Lines(records)| && Field(Lines(records)[i], UriKey) == Ok(u))
            <==> u in (set r | r in records :: r.uri)
  {
    if exists i :: 0 <= i < |Lines(records)| && Field(Lines(records)[i], UriKey) == Ok(u) {
      var i :| 0 <= i < |Lines(records)| && Field(Lines(records)[i], UriKey) == Ok(u);
      LineUri(records, i);
      assert records[i] in records;
    }
    if u in (set r | r in records :: r.uri) {
      var i :| 0 <= i < |records| && records[i].uri == u;
      LineUri(records, i);
    }
  }

  /** The ledger written for a sequence of records yields exactly their URIs. */
  lemma LedgerUris(records: seq<LedgerRecord>)
    ensures AlreadyScraped(Some(Lines(records))) == Ok(set r | r in records :: r.uri)
  {
    var lines := Lines(records);
    forall i | 0 <= i < |lines|
      ensures Field(lines[i], UriKey).Ok?
    {
      LineUri(records, i);
    }
    var s := AlreadyScraped(Some(lines)).value;
    forall u
      ensures u in s <==> u in (set r | r in records :: r.uri)
    {
      LineUrisAreRecordUris(records, u);
    }
    assert s == (set r | r in records :: r.uri);
  }

  /** Appending one record's line adds exactly its URI to the already-scraped set. */
  lemma AlreadyScrapedSnoc(lines: seq<Value>, record: LedgerRecord)
    requires AlreadyScraped(Some(lines)).Ok?
    ensures AlreadyScraped(Some(lines + [ToJson(record)])) == Ok(AlreadyScraped(Some(lines)).value + {record.uri})
  {
    var ls := lines + [ToJson(record)];
    assert Field(ls[|lines|], UriKey) == Ok(record.uri);
    forall i | 0 <= i < |ls|
      ensures Field(ls[i], UriKey).Ok?
    {
      if i < |lines| {
        assert ls[i] == lines[i];
      }
    }
    var before := AlreadyScraped(Some(lines)).value;
    var after := AlreadyScraped(Some(ls)).value;
    forall u
      ensures u in after <==> u in before + {record.uri}
    {
      if u in after {
        var i :| 0 <= i < |ls| && Field(ls[i], UriKey) == Ok(u);
        if i < |lines| {
          assert ls[i] == lines[i];
        }
      }
      if u in before {
        var i :| 0 <= i < |lines| && Field(lines[i], UriKey) == Ok(u);
        assert ls[i] == lines[i];
      }
    }
    assert after == before + {record.uri};
  }

  /** An entry of the URL file that has a `url`. */
  predicate HasUrl(info: Value)
  {
    info.Obj? && ItemUrlKey in info.fields
  }

  /** The URL file loads: it exists, is a dictionary, and every entry has a `url`. */
  predicate UrlFileLoads(urlFile: Option<Value>)
  {
    urlFile.Some? && urlFile.value.Obj? && forall k :: k in urlFile.value.fields ==> HasUrl(urlFile.value.fields[k])
  }

  /** `{info['url'] for uid, info in d.items() if uid in keys}`. */
  function UrlsOfKeys(d: map<string, Value>, keys: set<string>): set<Value>
    requires forall k :: k in keys ==> k in d && HasUrl(d[k])
  {
    set k | k in keys && HasUrl(d[k]) :: d[k].fields[ItemUrlKey]
  }

  /** The URLs of a URL file that loads. */
  function UrlsInFile(urlFile: Option<Value>): set<Value>
    requires UrlFileLoads(urlFile)
  {
    UrlsOfKeys(urlFile.value.fields, urlFile.value.fields.Keys)
  }

  /** An exception `load_urls` can raise on this URL file. */
  predicate LoadError(urlFile: Option<Value>, e: Error)
  {
    || (urlFile.None? && e == FileNotFound)
    || (urlFile.Some? && !urlFile.value.Obj? && e == AttributeError)
    || (urlFile.Some? && urlFile.value.Obj?
        && exists k :: k in urlFile.value.fields && Field(urlFile.value.fields[k], ItemUrlKey) == Err(e))
  }

  /**
   * Resuming skips every recorded document: no URL a ledger record carries
   * is left to scrape, and what is left comes from the URL file.
   */
  lemma ResumeSkipsRecorded(records: seq<LedgerRecord>, urlFile: Option<Value>)
    requires UrlFileLoads(urlFile)
    ensures var left := UrlsInFile(urlFile) - AlreadyScraped(Some(Lines(records))).value;
      && left <= UrlsInFile(urlFile)
      && forall r :: r in records ==> r.uri !in left
  {
    LedgerUris(records);
  }

  /** When every URL of the URL file has a ledger record, nothing is left to scrape. */
  lemma ResumeIsIdempotent(records: seq<LedgerRecord>, urlFile: Option<Value>)
    requires UrlFileLoads(urlFile)
    requires forall u :: u in UrlsInFile(urlFile) ==> exists r :: r in records && r.uri == u
    ensures UrlsInFile(urlFile) - AlreadyScraped(Some(Lines(records))).value == {}
  {
    LedgerUris(records);
  }

  /*
   * Document pages.
   */

  /**
   * A fetched document page: the markup of each `div.MPtext` element and
   * the `content` of each `meta[name='name']` element, in document order.
   */
  datatype DocResponse = DocResponse(url: string, mainTexts: seq<string>, metaNames: seq<string>)

  /**
   * `lxml.html.fromstring` followed by `//table` and `.//tr/td//text()`,
   * opaque: the text cells of each table of a fragment, in document order.
   */
  type TableCells = string -> seq<seq<string>>

  /** The metadata the tables give: a table with three or more cells maps cell 1 to the rest joined by spaces. */
  function TableMetadata(tables: seq<seq<string>>): map<string, string>
  {
    if tables == [] then map[]
    else
      var m := TableMetadata(tables[..|tables| - 1]);
      var t := tables[|tables| - 1];
      if |t| >= 3 then m[t[1] := Join(t[2..], " ")] else m
  }

  /** A key is present exactly when some table of at least three cells names it. */
  lemma {:induction false} TableMetadataKeys(tables: seq<seq<string>>)
    ensures forall k :: k in TableMetadata(tables) <==>
      exists i :: 0 <= i < |tables| && |tables[i]| >= 3 && tables[i][1] == k
  {
    if tables != [] {
      var front := tables[..|tables| - 1];
      TableMetadataKeys(front);
      forall k | k in TableMetadata(tables)
        ensures exists i :: 0 <= i < |tables| && |tables[i]| >= 3 && tables[i][1] == k
      {
        if k !in TableMetadata(front) {
          assert |tables[|tables| - 1]| >= 3 && tables[|tables| - 1][1] == k;
        } else {
          var i :| 0 <= i < |front| && |front[i]| >= 3 && front[i][1] == k;
          assert tables[i] == front[i];
        }
      }
      forall k, i | 0 <= i < |tables| && |tables[i]| >= 3 && tables[i][1] == k
        ensures k in TableMetadata(tables)
      {
        if i < |front| {
          assert front[i] == tables[i];
        }
      }
    }
  }

  /** A table's entry survives unless a later table of at least three cells has the same key. */
  lemma {:induction false} TableMetadataLastWins(tables: seq<seq<string>>, i: int)
    requires 0 <= i < |tables| && |tables[i]| >= 3
    requires forall j :: i < j < |tables| && |tables[j]| >= 3 ==> tables[j][1] != tables[i][1]
    ensures tables[i][1] in TableMetadata(tables)
    ensures TableMetadata(tables)[tables[i][1]] == Join(tables[i][2..], " ")
  {
    var front := tables[..|tables| - 1];
    if i < |tables| - 1 {
      assert front[i] == tables[i];
      forall j | i < j < |front| && |front[j]| >= 3
        ensures front[j][1] != front[i][1]
      {
        assert front[j] == tables[j];
      }
      TableMetadataLastWins(front, i);
    }
  }

  /** The pieces of the first `div.MPtext`, split at the line delimiter. */
  function Content(response: DocResponse): seq<string>
    requires |response.mainTexts| > 0
  {
    SplitOn(response.mainTexts[0], LineDelimiter)
  }

  /** `resume`: the `Resumé` entry with its newlines turned into `<br>`, empty without one. */
  function Resume(data: map<string, string>): string
  {
    if ResumeKey in data then ReplaceNewlines(data[ResumeKey]) else ""
  }

  /** `body` before the resume is put in front: the editorial notes block, then the main text. */
  function MainBody(data: map<string, string>, content: seq<string>): string
  {
    (if NotesKey in data then NotesHeading + data[NotesKey] + LineDelimiter else "")
    + (if |content| > 1 then MainTextOpen + content[1] else "")
  }

  /** The item `parse` returns for the extracted metadata, the split content and the page url. */
  function Item(data: map<string, string>, content: seq<string>, url: string): map<string, string>
  {
    data[BodyKey := Resume(data) + ".\n" + MainBody(data, content)][ItemUrlKey := url]
  }

  /** The item keeps every metadata entry except `body` and `url`, and adds those two. */
  lemma ItemKeepsMetadata(data: map<string, string>, content: seq<string>, url: string)
    ensures Item(data, content, url).Keys == data.Keys + {BodyKey, ItemUrlKey}
    ensures Item(data, content, url)[ItemUrlKey] == url
    ensures forall k :: k in data && k != BodyKey && k != ItemUrlKey ==> Item(data, content, url)[k] == data[k]
  {
  }

  /**
   * The resume can be read back from the body: it is everything before the
   * first newline, less the final period, because the resume's own newlines
   * were replaced.
   */
  lemma ResumeRecoverable(data: map<string, string>, content: seq<string>, url: string)
    ensures var body := Item(data, content, url)[BodyKey];
      var k := IndexOf(body, '\n');
      && k == |Resume(data)| + 1
      && body[..k] == Resume(data) + "."
      && body[k + 1..] == MainBody(data, content)
  {
    var resume := Resume(data);
    if ResumeKey in data {
      ReplaceNewlinesRemovesAll(data[ResumeKey]);
    }
    var u := resume + ".";
    assert '\n' !in u by {
      forall i | 0 <= i < |u|
        ensures u[i] != '\n'
      {
        if i < |resume| {
          assert u[i] == resume[i];
        }
      }
    }
    var withBody := data[BodyKey := resume + ".\n" + MainBody(data, content)];
    assert Item(data, content, url) == withBody[ItemUrlKey := url];
    assert BodyKey != ItemUrlKey;
    var body := Item(data, content, url)[BodyKey];
    assert body == resume + ".\n" + MainBody(data, content);
    assert body == u + ['\n'] + MainBody(data, content);
    IndexOfAfter(u, '\n', MainBody(data, content));
  }

  class SkatDocSpider {
    var collectedTokens: int
    const folder: DataFolder
    var urlsAlreadyScraped: set<Value>
    var urlsInUrlFile: set<Value>
    var urlsToScrape: set<Value>

    constructor(folder0: DataFolder, scraped: set<Value>)
      ensures folder == folder0 && collectedTokens == 0 && urlsAlreadyScraped == scraped
      ensures urlsInUrlFile == {} && urlsToScrape == {}
    {
      folder := folder0;
      collectedTokens := 0;
      urlsAlreadyScraped := scraped;
      urlsInUrlFile := {};
      urlsToScrape := {};
    }

    /**
     * `load_urls`: the URLs of the URL file, recorded in `urlsInUrlFile`, and
     * the ones not already scraped. Entries are visited in an unspecified
     * order, so when several lack a `url` any of their exceptions may escape.
     */
    method LoadUrls() returns (r: Result<set<Value>>)
      modifies this
      ensures collectedTokens == old(collectedTokens) && urlsAlreadyScraped == old(urlsAlreadyScraped)
      ensures urlsToScrape == old(urlsToScrape)
      ensures r.Ok? <==> UrlFileLoads(folder.urlFile)
      ensures r.Ok? ==> urlsInUrlFile == UrlsInFile(folder.urlFile) && r.value == urlsInUrlFile - urlsAlreadyScraped
      ensures r.Err? ==> urlsInUrlFile == old(urlsInUrlFile) && LoadError(folder.urlFile, r.error)
    {
      if folder.urlFile.None? {
        return Err(FileNotFound);
      }
      var v := folder.urlFile.value;
      if !v.Obj? {
        return Err(AttributeError);
      }
      var d := v.fields;
      var urls: set<Value> := {};
      var done: set<string> := {};
      while done != d.Keys
        invariant done <= d.Keys
        invariant forall k :: k in done ==> HasUrl(d[k])
        invariant urls == UrlsOfKeys(d, done)
        decreases |d.Keys - done|
      {
        var k :| k in d.Keys - done;
        var u := Field(d[k], ItemUrlKey);
        if u.Err? {
          return Err(u.error);
        }
        urls := urls + {u.value};
        done := done + {k};
      }
      urlsInUrlFile := urls;
      r := Ok(urls - urlsAlreadyScraped);
    }

    /**
     * `SkatDocSpider()`: loads the already-scraped set from the ledger, then
     * the URL file, and keeps the URLs still to scrape.
     */
    static method Create(folder: DataFolder) returns (r: Result<SkatDocSpider>)
      ensures AlreadyScraped(folder.ledger).Err? ==> r == Err(AlreadyScraped(folder.ledger).error)
      ensures r.Ok? <==> AlreadyScraped(folder.ledger).Ok? && UrlFileLoads(folder.urlFile)
      ensures r.Err? && AlreadyScraped(folder.ledger).Ok? ==> LoadError(folder.urlFile, r.error)
      ensures r.Ok? ==>
        && fresh(r.value) && r.value.folder == folder && r.value.collectedTokens == 0
        && r.value.urlsAlreadyScraped == AlreadyScraped(folder.ledger).value
        && r.value.urlsInUrlFile == UrlsInFile(folder.urlFile)
        && r.value.urlsToScrape == UrlsInFile(folder.urlFile) - AlreadyScraped(folder.ledger).value
    {
      var scraped := AlreadyScraped(folder.ledger);
      if scraped.Err? {
        return Err(scraped.error);
      }
      var spider := new SkatDocSpider(folder, scraped.value);
      var toScrape := spider.LoadUrls();
      if toScrape.Err? {
        return Err(toScrape.error);
      }
      spider.urlsToScrape := toScrape.value;
      r := Ok(spider);
    }

    /**
     * `extract_elements`: the metadata tables of the first piece, then the
     * page's `name`, which overrides a table entry of the same key.
     */
    method ExtractElements(response: DocResponse, content: seq<string>, cells: TableCells)
      returns (r: Result<map<string, string>>)
      ensures content == [] ==> r == Err(IndexError)
      ensures content != [] && response.metaNames == [] ==> r == Err(IndexError)
      ensures r.Ok? <==> content != [] && response.metaNames != []
      ensures r.Ok? ==> r.value == TableMetadata(cells(content[0] + "</div>"))[NameKey := response.metaNames[0]]
    {
      if content == [] {
        return Err(IndexError);
      }
      var tables := cells(content[0] + "</div>");
      var meta: map<string, string> := map[];
      for i := 0 to |tables|
        invariant meta == TableMetadata(tables[..i])
      {
        var elements := tables[i];
        if |elements| >= 3 {
          meta := meta[elements[1] := Join(elements[2..], " ")];
        }
        assert tables[..i + 1][..i] == tables[..i];
      }
      assert tables[..|tables|] == tables;
      if response.metaNames == [] {
        return Err(IndexError);
      }
      meta := meta[NameKey := response.metaNames[0]];
      r := Ok(meta);
    }

    /** `parse`: the item of a document page. */
    method Parse(response: DocResponse, cells: TableCells) returns (r: Result<map<string, string>>)
      ensures r.Ok? <==> response.mainTexts != [] && response.metaNames != []
      ensures r.Err? ==> r.error == IndexError
      ensures r.Ok? ==>
        r.value == Item(TableMetadata(cells(Content(response)[0] + "</div>"))[NameKey := response.metaNames[0]],
                        Content(response), response.url)
      ensures r.Ok? ==> r.value[NameKey] == response.metaNames[0] && r.value[ItemUrlKey] == response.url
    {
      if response.mainTexts == [] {
        return Err(IndexError);
      }
      var content := SplitOn(response.mainTexts[0], LineDelimiter);
      var extracted := ExtractElements(response, content, cells);
      if extracted.Err? {
        return Err(extracted.error);
      }
      var data := extracted.value;
      var body := "";
      if NotesKey in data {
        body := NotesHeading + data[NotesKey] + LineDelimiter;
      }
      var resume := "";
      if ResumeKey in data {
        resume := resume + ReplaceNewlines(data[ResumeKey]);
      }
      if |content| > 1 {
        body := body + MainTextOpen + content[1];
      }
      assert resume == Resume(data) && body == MainBody(data, content);
      data := data[BodyKey := resume + ".\n" + body];
      data := data[ItemUrlKey := response.url];
      r := Ok(data);
    }
  }
}
