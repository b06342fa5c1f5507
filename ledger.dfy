/**
 * The local data folder both ingestion paths write to: one text file per
 * document, the JSON-lines ledger `data.jsonl` that records which URIs were
 * ingested, and the URL file `urls.json` of the URL spider.
 */
module Ledger {
  import opened Common

  /** The dictionary written as one ledger line. */
  datatype LedgerRecord = LedgerRecord(docId: string, uri: Value, dateBuilt: string)

  const DocIdKey := "doc_id"
  const UriKey := "uri"
  const DateBuiltKey := "date_built"

  /** A ledger line read back as a record, when it has the shape the writers give it. */
  function FromJson(v: Value): Option<LedgerRecord>
  {
    if v.Obj? && v.fields.Keys == {DocIdKey, UriKey, DateBuiltKey}
       && v.fields[DocIdKey].Str? && v.fields[DateBuiltKey].Str?
    then Some(LedgerRecord(v.fields[DocIdKey].s, v.fields[UriKey], v.fields[DateBuiltKey].s))
    else None
  }

  /** `json.dumps` of the record's dictionary, as a JSON value: it reads back as the same record. */
  function ToJson(r: LedgerRecord): (v: Value)
    ensures v.Obj? && v.fields.Keys == {DocIdKey, UriKey, DateBuiltKey}
    ensures FromJson(v) == Some(r)
  {
    Obj(map[DocIdKey := Str(r.docId), UriKey := r.uri, DateBuiltKey := Str(r.dateBuilt)])
  }

  /** The ledger lines a sequence of records produces, in order. */
  function Lines(rs: seq<LedgerRecord>): seq<Value>
  {
    seq(|rs|, i requires 0 <= i < |rs| => ToJson(rs[i]))
  }

  /** The lines of a ledger file, none when it does not exist yet. */
  function LinesOf(ledger: Option<seq<Value>>): seq<Value>
  {
    if ledger.Some? then ledger.value else []
  }

  class DataFolder {
    /** Document files by name. */
    var files: map<string, string>
    /** `data.jsonl`, line by line; `None` while the file does not exist. */
    var ledger: Option<seq<Value>>
    /** `urls.json`; `None` while the file does not exist. */
    var urlFile: Option<Value>

    constructor(files0: map<string, string>, ledger0: Option<seq<Value>>, urlFile0: Option<Value>)
      ensures files == files0 && ledger == ledger0 && urlFile == urlFile0
    {
      files := files0;
      ledger := ledger0;
      urlFile := urlFile0;
    }

    /** `open(f'{folder}/{name}', 'w').write(content)`: creates or replaces one file. */
    method WriteFile(name: string, content: string)
      modifies this
      ensures files == old(files)[name := content]
      ensures ledger == old(ledger) && urlFile == old(urlFile)
    {
      files := files[name := content];
    }

    /** Appending `json.dumps(record)` to `data.jsonl`; opening for append creates the file. */
    method AppendLine(r: LedgerRecord)
      modifies this
      ensures ledger == Some(LinesOf(old(ledger)) + [ToJson(r)])
      ensures files == old(files) && urlFile == old(urlFile)
    {
      ledger := Some(LinesOf(ledger) + [ToJson(r)]);
    }

    /** `open('data.jsonl', 'a')`: creates the ledger when it does not exist, keeps its lines. */
    method OpenLedger()
      modifies this
      ensures ledger == Some(LinesOf(old(ledger)))
      ensures files == old(files) && urlFile == old(urlFile)
    {
      ledger := Some(LinesOf(ledger));
    }

    /** `json.dump(value, open('urls.json', 'w'))`. */
    method WriteUrlFile(v: Value)
      modifies this
      ensures urlFile == Some(v)
      ensures files == old(files) && ledger == old(ledger)
    {
      urlFile := Some(v);
    }
  }
}
