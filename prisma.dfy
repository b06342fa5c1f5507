/**
 * `PrismaDocumentCollector`: builds the GraphQL filter for a metadata query,
 * asks the Prisma endpoint for the metadata list, and streams the documents
 * with their content attached. The content files are fetched slice by slice
 * (`concurrent_files_collected` at a time); within a slice the documents
 * come out in completion order, which the model leaves open.
 */
module PrismaCollector {
  import opened Common
  import opened Text
  import opened GcloudFileCollector

  /** One metadata record, a dictionary decoded from the GraphQL response. */
  type Metadata = map<string, Value>

  /** The arguments of `prisma_helpers.all_of_type`. */
  datatype MetadataQuery = MetadataQuery(
    gqlType: string, limit: Option<int>, offset: Option<int>, queryFilter: string, queryStr: string)

  /**
   * The Prisma endpoint, opaque: `count_of_type(gql_type, query_filter)` and
   * `all_of_type(...)`; either may fail.
   */
  datatype Backend = Backend(
    countOfType: (string, string) -> Result<int>,
    allOfType: MetadataQuery -> Result<seq<Metadata>>)

  const DefaultTcpConnections := 110
  const DefaultConcurrentFilesCollected := 300

  // ---------------------------------------------------------------------
  // Token

  const SecretKey := "PRISMA_SECRET"
  const MissingSecret :=
    "Environment variable \"PRISMA_SECRET\" not found. To set do e.g.: export PRISMA_SECRET=<your prisma secret>\n....exiting\n"

  /** HS256 signing of the empty claim set with a secret, opaque. */
  type Signer = string -> string

  /** The secret `get_prisma_token` uses: the argument, else the environment, else empty. */
  function EffectiveSecret(secret: Option<string>, env: map<string, string>): string
  {
    if secret.Some? then secret.value else if SecretKey in env then env[SecretKey] else ""
  }

  /** `get_prisma_token`: an empty secret is a KeyError, any other is signed. */
  function PrismaToken(secret: Option<string>, env: map<string, string>, sign: Signer): (r: Result<string>)
    ensures r.Err? <==> EffectiveSecret(secret, env) == ""
    ensures r.Err? ==> r.error == KeyError(MissingSecret)
    ensures r.Ok? ==> r.value == sign(EffectiveSecret(secret, env))
  {
    var s := EffectiveSecret(secret, env);
    if s == "" then Err(KeyError(MissingSecret)) else Ok(sign(s))
  }

  // ---------------------------------------------------------------------
  // Query filters

  const UidOpen := ", uid_in : [ "
  const UidClose := "], "

  function Quoted(u: string): string
  {
    "\"" + u + "\","
  }

  /** Every uid quoted and followed by a comma, in input order. */
  function QuotedUids(us: seq<string>): string
  {
    if us == [] then "" else Quoted(us[0]) + QuotedUids(us[1..])
  }

  /** The uid filter fragment: empty for no uids (absent or an empty list). */
  function UidFilter(uids: Option<seq<string>>): string
  {
    if uids.None? || uids.value == [] then "" else UidOpen + QuotedUids(uids.value) + UidClose
  }

  /** `query_filters2query_filter_string`: the filters joined by `", "`. */
  function FiltersString(filters: Option<seq<string>>): (r: string)
    ensures filters.None? ==> r == ""
    ensures filters == Some([]) ==> r == ""
    ensures filters.Some? && |filters.value| == 1 ==> r == filters.value[0]
  {
    if filters.None? then "" else Join(filters.value, ", ")
  }

  /**
   * The filter of a metadata query: the uid fragment, followed by the joined
   * filters only when there are some (an empty list is falsy).
   */
  function QueryFilter(uids: Option<seq<string>>, filters: Option<seq<string>>): (r: string)
    ensures filters.Some? && filters.value != [] ==> r == UidFilter(uids) + Join(filters.value, ", ")
    ensures filters.None? || filters.value == [] ==> r == UidFilter(uids)
  {
    UidFilter(uids) + (if filters.Some? && filters.value != [] then FiltersString(filters) else "")
  }

  lemma {:induction false} QuotedUidsSnoc(us: seq<string>, u: string)
    ensures QuotedUids(us + [u]) == QuotedUids(us) + Quoted(u)
  {
    if us == [] {
      assert us + [u] == [u];
      assert QuotedUids([u]) == Quoted(u) + QuotedUids([]);
    } else {
      assert (us + [u])[0] == us[0] && (us + [u])[1..] == us[1..] + [u];
      QuotedUidsSnoc(us[1..], u);
    }
  }

  /** Parses `"u",` items from the front of a string; gives the items and what follows them. */
  function ParseItems(m: string): Option<(seq<string>, string)>
    decreases |m|
  {
    if |m| == 0 || m[0] != '"' then Some(([], m))
    else
      var k := IndexOf(m[1..], '"');
      if k + 2 < |m| && m[k + 2] == ',' then
        match ParseItems(m[k + 3..])
        case None => None
        case Some(p) => Some(([m[1..k + 1]] + p.0, p.1))
      else None
  }

  function FilterList(t: string): seq<string>
  {
    if t == "" then [] else SplitOn(t, ", ")
  }

  /** Reads a query filter back into its uid list and its filter list. */
  function ParseQueryFilter(s: string): Option<(seq<string>, seq<string>)>
  {
    if |UidOpen| <= |s| && s[..|UidOpen|] == UidOpen then
      match ParseItems(s[|UidOpen|..])
      case None => None
      case Some(p) =>
        if |UidClose| <= |p.1| && p.1[..|UidClose|] == UidClose
        then Some((p.0, FilterList(p.1[|UidClose|..])))
        else None
    else Some(([], FilterList(s)))
  }

  function OrEmpty(xs: Option<seq<string>>): seq<string>
  {
    if xs.Some? then xs.value else []
  }

  lemma ParseOneItem(u: string, r: string, p: (seq<string>, string))
    requires '"' !in u
    requires ParseItems(r) == Some(p)
    ensures ParseItems(Quoted(u) + r) == Some(([u] + p.0, p.1))
  {
    var m := Quoted(u) + r;
    assert m[1..] == u + ['"'] + ([','] + r);
    IndexOfAfter(u, '"', [','] + r);
    assert m[|u| + 2] == ',';
    assert m[|u| + 3..] == r;
    assert m[1..|u| + 1] == u;
  }

  /** One step of the induction below: a quoted uid in front of a parsable rest. */
  lemma ParseQuotedStep(us: seq<string>, t: string)
    requires us != [] && '"' !in us[0]
    requires ParseItems(QuotedUids(us[1..]) + t) == Some((us[1..], t))
    ensures ParseItems(QuotedUids(us) + t) == Some((us, t))
  {
    var rest := QuotedUids(us[1..]) + t;
    assert QuotedUids(us) + t == Quoted(us[0]) + rest;
    ParseOneItem(us[0], rest, (us[1..], t));
    assert [us[0]] + us[1..] == us;
  }

  lemma {:induction false} ParseQuotedUids(us: seq<string>, t: string)
    requires forall i :: 0 <= i < |us| ==> '"' !in us[i]
    requires t == "" || t[0] != '"'
    ensures ParseItems(QuotedUids(us) + t) == Some((us, t))
  {
    if us != [] {
      ParseQuotedUids(us[1..], t);
      ParseQuotedStep(us, t);
    } else {
      assert QuotedUids(us) + t == t;
    }
  }

  lemma JoinStartsWithFirst(fs: seq<string>, sep: string)
    requires 0 < |fs|
    ensures |fs[0]| <= |Join(fs, sep)| && Join(fs, sep)[..|fs[0]|] == fs[0]
  {
    if |fs| > 1 {
      assert Join(fs, sep) == fs[0] + (sep + Join(fs[1..], sep));
    }
  }

  /** The joined filters read back into the list, and never start with a comma. */
  lemma FilterPartRoundTrip(fs: seq<string>)
    requires forall f :: f in fs ==> f != "" && ',' !in f
    ensures var f := if fs != [] then Join(fs, ", ") else "";
      FilterList(f) == fs && (f == "" || f[0] != ',')
  {
    if fs != [] {
      var f := Join(fs, ", ");
      JoinStartsWithFirst(fs, ", ");
      assert fs[0] in fs;
      assert f[0] == fs[0][0];
      SplitOnJoin(fs, ", ");
    }
  }

  /** A filter opening with the uid fragment is read through `ParseItems`. */
  lemma ParseUidFragment(s: string, us: seq<string>, f: string)
    requires |UidOpen| <= |s| && s[..|UidOpen|] == UidOpen
    requires ParseItems(s[|UidOpen|..]) == Some((us, UidClose + f))
    ensures ParseQueryFilter(s) == Some((us, FilterList(f)))
  {
    assert (UidClose + f)[..|UidClose|] == UidClose;
    assert (UidClose + f)[|UidClose|..] == f;
  }

  /** With uids, the fragment is recognised by its opening and the items are parsed back. */
  lemma UidPartRoundTrip(us: seq<string>, f: string)
    requires us != []
    requires forall i :: 0 <= i < |us| ==> '"' !in us[i]
    ensures ParseQueryFilter(UidOpen + QuotedUids(us) + UidClose + f) == Some((us, FilterList(f)))
  {
    var t := UidClose + f;
    var rest := QuotedUids(us) + t;
    ConcatRegroup(UidOpen, QuotedUids(us), UidClose, f);
    ConcatSplit(UidOpen, rest);
    ParseQuotedUids(us, t);
    ParseUidFragment(UidOpen + rest, us, f);
  }

  /** Without uids, filters that do not start with a comma are not mistaken for a uid fragment. */
  lemma NoUidPartRoundTrip(f: string)
    requires f == "" || f[0] != ','
    ensures ParseQueryFilter(f) == Some(([], FilterList(f)))
  {
    if |UidOpen| <= |f| {
      assert f[..|UidOpen|][0] == f[0];
    }
  }

  /**
   * The filter string is unambiguous for well-formed inputs: uids without a
   * double quote and non-empty filters without a comma are read back exactly.
   */
  lemma QueryFilterRoundTrip(uids: Option<seq<string>>, filters: Option<seq<string>>)
    requires forall u :: u in OrEmpty(uids) ==> '"' !in u
    requires forall f :: f in OrEmpty(filters) ==> f != "" && ',' !in f
    ensures ParseQueryFilter(QueryFilter(uids, filters)) == Some((OrEmpty(uids), OrEmpty(filters)))
  {
    var fs := OrEmpty(filters);
    var f := if fs != [] then Join(fs, ", ") else "";
    assert QueryFilter(uids, filters) == UidFilter(uids) + f;
    FilterPartRoundTrip(fs);
    var us := OrEmpty(uids);
    if us == [] {
      assert UidFilter(uids) + f == f;
      NoUidPartRoundTrip(f);
    } else {
      assert UidFilter(uids) + f == UidOpen + QuotedUids(us) + UidClose + f;
      assert forall i :: 0 <= i < |us| ==> '"' !in us[i] by {
        forall i | 0 <= i < |us| ensures '"' !in us[i] { assert us[i] in us; }
      }
      UidPartRoundTrip(us, f);
    }
  }

  // ---------------------------------------------------------------------
  // Slices

  function Flatten<T>(ss: seq<seq<T>>): seq<T>
  {
    if ss == [] then [] else ss[0] + Flatten(ss[1..])
  }

  lemma {:induction false} FlattenSnoc<T>(ss: seq<seq<T>>, t: seq<T>)
    ensures Flatten(ss + [t]) == Flatten(ss) + t
  {
    if ss == [] {
      assert ss + [t] == [t];
      assert Flatten([t]) == t + Flatten([]);
    } else {
      assert (ss + [t])[0] == ss[0] && (ss + [t])[1..] == ss[1..] + [t];
      FlattenSnoc(ss[1..], t);
    }
  }

  /** `s[k:k + c]` for every `k` in `range(0, len(s), c)`. */
  function Slices<T>(s: seq<T>, c: int): (r: seq<seq<T>>)
    requires c > 0
    ensures |r| == |Range(0, |s|, c)|
  {
    var offs := Range(0, |s|, c);
    RangeStep(0, |s|, c);
    seq(|offs|, j requires 0 <= j < |offs| => s[offs[j]..Min(offs[j] + c, |s|)])
  }

  /** Where the first `m` slices end. */
  function SlicesEnd<T>(s: seq<T>, c: int, m: nat): (e: nat)
    requires c > 0 && m <= |Range(0, |s|, c)|
    ensures e <= |s|
  {
    var offs := Range(0, |s|, c);
    RangeStep(0, |s|, c);
    if m < |offs| then offs[m] else |s|
  }

  lemma {:induction false} SlicesPrefix<T>(s: seq<T>, c: int, m: nat)
    requires c > 0 && m <= |Slices(s, c)|
    ensures Flatten(Slices(s, c)[..m]) == s[..SlicesEnd(s, c, m)]
  {
    var offs := Range(0, |s|, c);
    var ss := Slices(s, c);
    RangeStep(0, |s|, c);
    if m == 0 {
      assert ss[..0] == [];
    } else {
      SlicesPrefix(s, c, m - 1);
      TakeSnoc(ss, m - 1);
      FlattenSnoc(ss[..m - 1], ss[m - 1]);
      var a := offs[m - 1];
      var b := Min(a + c, |s|);
      assert ss[m - 1] == s[a..b];
      assert SlicesEnd(s, c, m - 1) == a;
      if m < |offs| {
        assert offs[m] == a + c;
      }
      assert SlicesEnd(s, c, m) == b;
      TakeSlice(s, a, b);
    }
  }

  /**
   * The slices partition the list: each is non-empty and holds at most `c`
   * documents, and in order they make up the whole list.
   */
  lemma SlicesPartition<T>(s: seq<T>, c: int)
    requires c > 0
    ensures Flatten(Slices(s, c)) == s
    ensures forall j :: 0 <= j < |Slices(s, c)| ==> 0 < |Slices(s, c)[j]| <= c
  {
    var ss := Slices(s, c);
    SlicesPrefix(s, c, |ss|);
    assert ss[..|ss|] == ss;
    forall j | 0 <= j < |ss| ensures 0 < |ss[j]| <= c {
      SliceSize(s, c, j);
    }
  }

  lemma SliceSize<T>(s: seq<T>, c: int, j: int)
    requires c > 0 && 0 <= j < |Slices(s, c)|
    ensures 0 < |Slices(s, c)[j]| <= c
  {
    var offs := Range(0, |s|, c);
    RangeStep(0, |s|, c);
    assert Slices(s, c)[j] == s[offs[j]..Min(offs[j] + c, |s|)];
  }

  // ---------------------------------------------------------------------
  // Content files

  /** Where the file collector reads from: its bucket, the storage service and the decoder. */
  datatype FileSource = FileSource(bucket: string, storage: Storage, utf8: Utf8Decoder)

  const ContentFilesKey := "contentFilesOriginal"
  const ContentKey := "content"

  /**
   * Python's `value[0]`: the first item of a list, the first character of a
   * string or the first byte; an empty one raises IndexError, a dictionary
   * (whose keys are all strings) KeyError(0), anything else TypeError.
   */
  function FirstItem(v: Value): (r: Result<Value>)
    ensures v.Arr? && |v.items| > 0 ==> r == Ok(v.items[0])
    ensures (v.Arr? && |v.items| == 0) || (v.Str? && |v.s| == 0) || (v.Bytes? && |v.data| == 0) ==> r == Err(IndexError)
    ensures v.Str? && |v.s| > 0 ==> r == Ok(Str([v.s[0]]))
    ensures v.Bytes? && |v.data| > 0 ==> r == Ok(Num(v.data[0] as int))
    ensures v.Obj? ==> r == Err(IntKeyError(0))
    ensures v.Null? || v.Bool? || v.Num? ==> r.Err? && r.error.TypeError?
  {
    match v
    case Arr(items) => if |items| == 0 then Err(IndexError) else Ok(items[0])
    case Str(s) => if |s| == 0 then Err(IndexError) else Ok(Str([s[0]]))
    case Bytes(data) => if |data| == 0 then Err(IndexError) else Ok(Num(data[0] as int))
    case Obj(_) => Err(IntKeyError(0))
    case _ => Err(TypeError("object is not subscriptable"))
  }

  /**
   * `metadata['contentFilesOriginal'][0]` and its `name` and `id`, looked
   * up in that order. Only a first entry that is a dictionary can have
   * them: subscripting a character or a byte by a string is a TypeError.
   */
  function FirstContentFile(d: Metadata): (r: Result<(string, string)>)
    ensures ContentFilesKey !in d ==> r == Err(KeyError(ContentFilesKey))
    ensures ContentFilesKey in d && FirstItem(d[ContentFilesKey]).Err? ==> r == Err(FirstItem(d[ContentFilesKey]).error)
    ensures ContentFilesKey in d && FirstItem(d[ContentFilesKey]).Ok? ==>
      var f := FirstItem(d[ContentFilesKey]).value;
      && (!f.Obj? ==> r.Err? && r.error.TypeError?)
      && (f.Obj? && "name" !in f.fields ==> r == Err(KeyError("name")))
      && (f.Obj? && "name" in f.fields && "id" !in f.fields ==> r == Err(KeyError("id")))
      && (f.Obj? && "name" in f.fields && "id" in f.fields && f.fields["name"].Str? && f.fields["id"].Str?
          ==> r == Ok((f.fields["name"].s, f.fields["id"].s)))
    ensures r.Ok? ==> ContentFilesKey in d && d[ContentFilesKey].Arr? && |d[ContentFilesKey].items| > 0
    ensures r.Ok? ==> var f := d[ContentFilesKey].items[0];
      f.Obj? && f.fields.Keys >= {"name", "id"}
      && f.fields["name"] == Str(r.value.0) && f.fields["id"] == Str(r.value.1)
  {
    if ContentFilesKey !in d then Err(KeyError(ContentFilesKey))
    else
      var first := FirstItem(d[ContentFilesKey]);
      if first.Err? then Err(first.error)
      else
        var name := Field(first.value, "name");
        var id := Field(first.value, "id");
        if name.Err? then Err(name.error)
        else if id.Err? then Err(id.error)
        else if !name.value.Str? || !id.value.Str? then Err(TypeError("file name and id are strings"))
        else Ok((name.value.s, id.value.s))
  }

  /**
   * `_get_content_files` as a value: the metadata with `'content'` set to the
   * second component of the fetched pair and every other key unchanged.
   */
  function WithContent(src: FileSource, d: Metadata): (r: Result<Metadata>)
    ensures r.Ok? ==> FirstContentFile(d).Ok?
    ensures r.Ok? ==> r.value.Keys == d.Keys + {ContentKey}
    ensures r.Ok? ==> forall k :: k in d && k != ContentKey ==> r.value[k] == d[k]
    ensures r.Ok? ==> var f := FirstContentFile(d).value;
      Fetch(src.storage, src.utf8, src.bucket, f.0, f.1) == Ok((f.1, r.value[ContentKey]))
  {
    var f := FirstContentFile(d);
    if f.Err? then Err(f.error)
    else
      var pair := Fetch(src.storage, src.utf8, src.bucket, f.value.0, f.value.1);
      if pair.Err? then Err(pair.error) else Ok(d[ContentKey := pair.value.1])
  }

  /**
   * `_get_content_files` succeeds exactly when the content file is found
   * and its fetch succeeds; otherwise the first of the two errors escapes
   * unchanged.
   */
  lemma WithContentOutcome(src: FileSource, d: Metadata)
    ensures FirstContentFile(d).Err? ==> WithContent(src, d) == Err(FirstContentFile(d).error)
    ensures FirstContentFile(d).Ok? ==> var f := FirstContentFile(d).value;
      var pair := Fetch(src.storage, src.utf8, src.bucket, f.0, f.1);
      && (WithContent(src, d).Ok? <==> pair.Ok?)
      && (pair.Err? ==> WithContent(src, d) == Err(pair.error))
  {
  }

  /** Each document's content result, in list order. */
  function Assemble(src: FileSource, docs: seq<Metadata>): (rs: seq<Result<Metadata>>)
    ensures |rs| == |docs|
  {
    seq(|docs|, i requires 0 <= i < |docs| => WithContent(src, docs[i]))
  }

  /** The yielded documents seen as successful results. */
  function Oks(out: seq<Metadata>): (rs: seq<Result<Metadata>>)
    ensures |rs| == |out|
  {
    seq(|out|, i requires 0 <= i < |out| => Ok(out[i]))
  }

  /**
   * What the stream of `documents` may look like: each slice in turn is
   * drained completely, its documents in some order, before the next one
   * starts; or the stream stops inside a slice with an error one of that
   * slice's documents raised, after yielding some of the others.
   */
  ghost predicate Streamed(src: FileSource, out: seq<Metadata>, slices: seq<seq<Metadata>>, err: Option<Error>)
    decreases |slices|
  {
    if slices == [] then out == [] && err == None
    else
      var rs := Assemble(src, slices[0]);
      var n := |slices[0]|;
      (n <= |out| && multiset(Oks(out[..n])) == multiset(rs) && Streamed(src, out[n..], slices[1..], err))
      || (err.Some? && multiset(Oks(out)) + multiset{Err(err.value)} <= multiset(rs))
  }

  lemma SameSize(src: FileSource, part: seq<Metadata>, slice: seq<Metadata>)
    requires multiset(Oks(part)) == multiset(Assemble(src, slice))
    ensures |part| == |slice|
  {
    assert |multiset(Oks(part))| == |Oks(part)|;
    assert |multiset(Assemble(src, slice))| == |Assemble(src, slice)|;
  }

  /** The first slice drained completely, then the rest of the stream. */
  lemma StreamedDrained(src: FileSource, out: seq<Metadata>, slices: seq<seq<Metadata>>, err: Option<Error>)
    requires slices != [] && |slices[0]| <= |out|
    requires multiset(Oks(out[..|slices[0]|])) == multiset(Assemble(src, slices[0]))
    requires Streamed(src, out[|slices[0]|..], slices[1..], err)
    ensures Streamed(src, out, slices, err)
  {
  }

  /** The stream stopping inside its first slice. */
  lemma StreamedStopsHere(src: FileSource, out: seq<Metadata>, slices: seq<seq<Metadata>>, e: Error)
    requires slices != []
    requires multiset(Oks(out)) + multiset{Err(e)} <= multiset(Assemble(src, slices[0]))
    ensures Streamed(src, out, slices, Some(e))
  {
  }

  /** A stream that ends without error drained its first slice completely. */
  lemma StreamedFirstDrained(src: FileSource, out: seq<Metadata>, slices: seq<seq<Metadata>>)
    requires slices != [] && Streamed(src, out, slices, None)
    ensures |slices[0]| <= |out|
    ensures multiset(Oks(out[..|slices[0]|])) == multiset(Assemble(src, slices[0]))
    ensures Streamed(src, out[|slices[0]|..], slices[1..], None)
  {
  }

  lemma {:induction false} StreamedAppend(src: FileSource, out: seq<Metadata>, slices: seq<seq<Metadata>>,
                                          part: seq<Metadata>, slice: seq<Metadata>)
    requires Streamed(src, out, slices, None)
    requires multiset(Oks(part)) == multiset(Assemble(src, slice))
    ensures Streamed(src, out + part, slices + [slice], None)
    decreases |slices|
  {
    SameSize(src, part, slice);
    if slices == [] {
      assert out + part == part && slices + [slice] == [slice];
      assert part[..|slice|] == part && part[|slice|..] == [] && [slice][1..] == [];
      StreamedDrained(src, part, [slice], None);
    } else {
      var n := |slices[0]|;
      StreamedAppend(src, out[n..], slices[1..], part, slice);
      SnocTail(slices, slice);
      ConcatAt(out, part, n);
      StreamedDrained(src, out + part, slices + [slice], None);
    }
  }

  lemma {:induction false} StreamedFail(src: FileSource, out: seq<Metadata>, slices: seq<seq<Metadata>>,
                                        part: seq<Metadata>, slice: seq<Metadata>, e: Error)
    requires Streamed(src, out, slices, None)
    requires multiset(Oks(part)) + multiset{Err(e)} <= multiset(Assemble(src, slice))
    ensures Streamed(src, out + part, slices + [slice], Some(e))
    decreases |slices|
  {
    if slices == [] {
      assert out + part == part && slices + [slice] == [slice];
      StreamedStopsHere(src, part, [slice], e);
    } else {
      var n := |slices[0]|;
      StreamedFail(src, out[n..], slices[1..], part, slice, e);
      SnocTail(slices, slice);
      ConcatAt(out, part, n);
      StreamedDrained(src, out + part, slices + [slice], Some(e));
    }
  }

  lemma {:induction false} StreamedStops(src: FileSource, out: seq<Metadata>, slices: seq<seq<Metadata>>,
                                         more: seq<seq<Metadata>>, e: Error)
    requires Streamed(src, out, slices, Some(e))
    ensures Streamed(src, out, slices + more, Some(e))
    decreases |slices|
  {
    assert slices != [];
    assert (slices + more)[0] == slices[0] && (slices + more)[1..] == slices[1..] + more;
    var n := |slices[0]|;
    if n <= |out| && multiset(Oks(out[..n])) == multiset(Assemble(src, slices[0]))
       && Streamed(src, out[n..], slices[1..], Some(e)) {
      StreamedStops(src, out[n..], slices[1..], more, e);
      StreamedDrained(src, out, slices + more, Some(e));
    } else {
      StreamedStopsHere(src, out, slices + more, e);
    }
  }

  /** A failure in slice `j` ends the stream, whatever slices follow. */
  lemma StreamedFailAt(src: FileSource, out: seq<Metadata>, slices: seq<seq<Metadata>>, j: int,
                       part: seq<Metadata>, e: Error)
    requires 0 <= j < |slices|
    requires Streamed(src, out, slices[..j], None)
    requires multiset(Oks(part)) + multiset{Err(e)} <= multiset(Assemble(src, slices[j]))
    ensures Streamed(src, out + part, slices, Some(e))
  {
    StreamedFail(src, out, slices[..j], part, slices[j], e);
    TakeSnoc(slices, j);
    StreamedStops(src, out + part, slices[..j + 1], slices[j + 1..], e);
    TakeDrop(slices, j + 1);
  }

  lemma AssembleAppend(src: FileSource, a: seq<Metadata>, b: seq<Metadata>)
    ensures Assemble(src, a + b) == Assemble(src, a) + Assemble(src, b)
  {
  }

  lemma OksAppend(a: seq<Metadata>, b: seq<Metadata>)
    ensures Oks(a + b) == Oks(a) + Oks(b)
  {
  }

  /** A stream that ends without error yields every document, with its content, exactly once. */
  lemma {:induction false} StreamedIsPermutation(src: FileSource, out: seq<Metadata>, slices: seq<seq<Metadata>>)
    requires Streamed(src, out, slices, None)
    ensures multiset(Oks(out)) == multiset(Assemble(src, Flatten(slices)))
    ensures |out| == |Flatten(slices)|
    decreases |slices|
  {
    if slices != [] {
      var n := |slices[0]|;
      StreamedFirstDrained(src, out, slices);
      StreamedIsPermutation(src, out[n..], slices[1..]);
      assert Flatten(slices) == slices[0] + Flatten(slices[1..]);
      AssembleAppend(src, slices[0], Flatten(slices[1..]));
      TakeDrop(out, n);
      OksAppend(out[..n], out[n..]);
    }
  }

  /**
   * A stream that stops with an error yields only documents that carry
   * their content, no more often than they occur, and the error is one a
   * document of the list raised.
   */
  lemma {:induction false} StreamedErrorIsRaised(src: FileSource, out: seq<Metadata>,
                                                 slices: seq<seq<Metadata>>, e: Error)
    requires Streamed(src, out, slices, Some(e))
    ensures multiset(Oks(out)) + multiset{Err(e)} <= multiset(Assemble(src, Flatten(slices)))
    decreases |slices|
  {
    var n := |slices[0]|;
    var rs := Assemble(src, slices[0]);
    AssembleAppend(src, slices[0], Flatten(slices[1..]));
    if n <= |out| && multiset(Oks(out[..n])) == multiset(rs) && Streamed(src, out[n..], slices[1..], Some(e)) {
      StreamedErrorIsRaised(src, out[n..], slices[1..], e);
      assert out == out[..n] + out[n..];
      OksAppend(out[..n], out[n..]);
    }
  }

  /** The documents of a fully drained stream, in terms of the metadata list itself. */
  lemma DocumentsArePermutation(src: FileSource, docs: seq<Metadata>, c: int, out: seq<Metadata>)
    requires c > 0
    requires Streamed(src, out, Slices(docs, c), None)
    ensures |out| == |docs|
    ensures multiset(Oks(out)) == multiset(Assemble(src, docs))
    ensures forall i :: 0 <= i < |docs| ==> WithContent(src, docs[i]).Ok?
  {
    SlicesPartition(docs, c);
    StreamedIsPermutation(src, out, Slices(docs, c));
    forall i | 0 <= i < |docs| ensures WithContent(src, docs[i]).Ok? {
      var rs := Assemble(src, docs);
      assert rs[i] in multiset(rs);
      assert rs[i] in Oks(out);
    }
  }

  /** A stream that stopped with an error stopped on a document of the list whose fetch raised it. */
  lemma StreamedErrorInDocs(src: FileSource, docs: seq<Metadata>, c: int, out: seq<Metadata>, e: Error)
    requires c > 0
    requires Streamed(src, out, Slices(docs, c), Some(e))
    ensures exists i :: 0 <= i < |docs| && WithContent(src, docs[i]) == Err(e)
  {
    SlicesPartition(docs, c);
    StreamedErrorIsRaised(src, out, Slices(docs, c), e);
    var rs := Assemble(src, docs);
    assert Err(e) in multiset(rs);
    var i :| 0 <= i < |rs| && rs[i] == Err(e);
    assert WithContent(src, docs[i]) == Err(e);
  }

  /**
   * The stream's outcome does not depend on the completion order: once one
   * run over the slices raised, no run finishes without error.
   */
  lemma StreamedErrorExcludesCompletion(src: FileSource, docs: seq<Metadata>, c: int, out: seq<Metadata>,
                                        e: Error, other: seq<Metadata>)
    requires c > 0
    requires Streamed(src, out, Slices(docs, c), Some(e))
    ensures !Streamed(src, other, Slices(docs, c), None)
  {
    StreamedErrorInDocs(src, docs, c, out, e);
    if Streamed(src, other, Slices(docs, c), None) {
      DocumentsArePermutation(src, docs, c, other);
    }
  }

  /** Two runs that both finish without error yield the same documents, perhaps in another order. */
  lemma CompletedStreamsAgree(src: FileSource, docs: seq<Metadata>, c: int, out: seq<Metadata>, other: seq<Metadata>)
    requires c > 0
    requires Streamed(src, out, Slices(docs, c), None)
    ensures Streamed(src, other, Slices(docs, c), None) ==>
      forall k :: 0 <= k < |out| ==> exists i :: 0 <= i < |other| && other[i] == out[k]
  {
    if Streamed(src, other, Slices(docs, c), None) {
      DocumentsArePermutation(src, docs, c, out);
      DocumentsArePermutation(src, docs, c, other);
      forall k | 0 <= k < |out|
        ensures exists i :: 0 <= i < |other| && other[i] == out[k]
      {
        assert Oks(out)[k] in multiset(Oks(out));
        assert Ok(out[k]) in Oks(other);
        var i :| 0 <= i < |other| && Oks(other)[i] == Ok(out[k]);
      }
    }
  }

  lemma RemoveOne(src: FileSource, rest: seq<Metadata>, p: int)
    requires 0 <= p < |rest|
    ensures multiset(Assemble(src, rest))
            == multiset{WithContent(src, rest[p])} + multiset(Assemble(src, rest[..p] + rest[p + 1..]))
  {
    var a := Assemble(src, rest);
    assert a == a[..p] + [a[p]] + a[p + 1..];
    assert Assemble(src, rest[..p] + rest[p + 1..]) == a[..p] + a[p + 1..];
  }

  /**
   * Taking the document at `p` out of the documents still awaited: its
   * result joins the yielded ones, or its error is one the slice raised.
   */
  lemma DrainStep(src: FileSource, slice: seq<Metadata>, part: seq<Metadata>, rest: seq<Metadata>, p: int)
    requires 0 <= p < |rest|
    requires multiset(Assemble(src, slice)) == multiset(Oks(part)) + multiset(Assemble(src, rest))
    ensures var r := WithContent(src, rest[p]);
      && (r.Ok? ==> multiset(Assemble(src, slice))
                    == multiset(Oks(part + [r.value])) + multiset(Assemble(src, rest[..p] + rest[p + 1..])))
      && (r.Err? ==> multiset(Oks(part)) + multiset{Err(r.error)} <= multiset(Assemble(src, slice)))
  {
    RemoveOne(src, rest, p);
    var r := WithContent(src, rest[p]);
    if r.Ok? {
      OksAppend(part, [r.value]);
      assert Oks([r.value]) == [r];
    }
  }

  /** The storage field of the file collector may be created during a call, never replaced. */
  predicate InitOrKept(before: Option<StorageClient>, after: Option<StorageClient>, credentialsFile: string)
  {
    after == before || after == AfterInit(before, credentialsFile)
  }

  class PrismaDocumentCollector {
    const endpoint: string
    const fileCollector: GcloudStorageFileCollector
    const tcpConnections: int
    const concurrentFilesCollected: int
    const token: string

    constructor(endpoint0: string, fileCollector0: GcloudStorageFileCollector, token0: string,
                tcpConnections0: int, concurrentFilesCollected0: int)
      ensures endpoint == endpoint0 && fileCollector == fileCollector0 && token == token0
      ensures tcpConnections == tcpConnections0 && concurrentFilesCollected == concurrentFilesCollected0
    {
      endpoint := endpoint0;
      fileCollector := fileCollector0;
      token := token0;
      tcpConnections := tcpConnections0;
      concurrentFilesCollected := concurrentFilesCollected0;
    }

    /** The constructor: without a token one is made from the secret, which may raise KeyError. */
    static method Create(endpoint: string, fileCollector: GcloudStorageFileCollector, token: Option<string>,
                         tcpConnections: int, concurrentFilesCollected: int,
                         env: map<string, string>, sign: Signer)
      returns (r: Result<PrismaDocumentCollector>)
      ensures token.Some? ==> r.Ok? && r.value.token == token.value
      ensures token.None? ==> (r.Ok? <==> PrismaToken(None, env, sign).Ok?)
      ensures token.None? && r.Ok? ==> r.value.token == PrismaToken(None, env, sign).value
      ensures token.None? && r.Err? ==> r.error == KeyError(MissingSecret)
      ensures r.Ok? ==> fresh(r.value) && r.value.fileCollector == fileCollector
                        && r.value.endpoint == endpoint
                        && r.value.concurrentFilesCollected == concurrentFilesCollected
    {
      var t: string;
      if token.None? {
        var pt := PrismaToken(None, env, sign);
        if pt.Err? {
          return Err(pt.error);
        }
        t := pt.value;
      } else {
        t := token.value;
      }
      var c := new PrismaDocumentCollector(endpoint, fileCollector, t, tcpConnections, concurrentFilesCollected);
      return Ok(c);
    }

    /** `count_verdicts`: its filter argument is not passed on, the count is always unfiltered. */
    method CountVerdicts(backend: Backend, queryFilter: string) returns (r: Result<int>)
      ensures r == backend.countOfType("verdict", "")
    {
      r := backend.countOfType("verdict", "");
    }

    /** `_add_uids_to_query_filter`. */
    method AddUidsToQueryFilter(uids: Option<seq<string>>) returns (queryFilter: string)
      ensures queryFilter == UidFilter(uids)
    {
      queryFilter := "";
      if uids.Some? && uids.value != [] {
        var us := uids.value;
        queryFilter := queryFilter + UidOpen;
        for i := 0 to |us|
          invariant queryFilter == UidOpen + QuotedUids(us[..i])
        {
          QuotedUidsSnoc(us[..i], us[i]);
          assert us[..i + 1] == us[..i] + [us[i]];
          queryFilter := queryFilter + Quoted(us[i]);
        }
        assert us[..|us|] == us;
        queryFilter := queryFilter + UidClose;
      }
    }

    /** `_collect_document_metadata`: composes the filter and runs the metadata query. */
    method CollectDocumentMetadata(backend: Backend, query: string, documentType: string,
                                   limit: Option<int>, offset: Option<int>,
                                   filters: Option<seq<string>>, uids: Option<seq<string>>)
      returns (r: Result<seq<Metadata>>)
      ensures r == backend.allOfType(MetadataQuery(documentType, limit, offset, QueryFilter(uids, filters), query))
    {
      var queryFilter := AddUidsToQueryFilter(uids);
      if filters.Some? && filters.value != [] {
        queryFilter := queryFilter + FiltersString(filters);
      }
      r := backend.allOfType(MetadataQuery(documentType, limit, offset, queryFilter, query));
    }

    /** `_get_content_files`. */
    method GetContentFiles(storage: Storage, utf8: Utf8Decoder, d: Metadata) returns (r: Result<Metadata>)
      modifies fileCollector
      ensures r == WithContent(FileSource(fileCollector.bucket, storage, utf8), d)
      ensures fileCollector.storageObject
              == if FirstContentFile(d).Ok? then AfterInit(old(fileCollector.storageObject), fileCollector.credentialsFile)
                 else old(fileCollector.storageObject)
    {
      var f := FirstContentFile(d);
      if f.Err? {
        return Err(f.error);
      }
      var pair := fileCollector.CollectFile(storage, utf8, f.value.0, f.value.1);
      if pair.Err? {
        return Err(pair.error);
      }
      return Ok(d[ContentKey := pair.value.1]);
    }

    /**
     * One slice of `documents`: all its fetches are started together and
     * awaited in completion order, which is any order; the first failure
     * ends the slice with that error.
     */
    method DrainSlice(storage: Storage, utf8: Utf8Decoder, slice: seq<Metadata>)
      returns (part: seq<Metadata>, err: Option<Error>)
      modifies fileCollector
      ensures var rs := Assemble(FileSource(fileCollector.bucket, storage, utf8), slice);
        && (err.None? ==> multiset(Oks(part)) == multiset(rs))
        && (err.Some? ==> multiset(Oks(part)) + multiset{Err(err.value)} <= multiset(rs))
      ensures InitOrKept(old(fileCollector.storageObject), fileCollector.storageObject, fileCollector.credentialsFile)
    {
      ghost var src := FileSource(fileCollector.bucket, storage, utf8);
      ghost var s0 := fileCollector.storageObject;
      var rest := slice;
      part, err := [], None;
      while rest != []
        invariant multiset(Assemble(src, slice)) == multiset(Oks(part)) + multiset(Assemble(src, rest))
        invariant InitOrKept(s0, fileCollector.storageObject, fileCollector.credentialsFile)
        decreases |rest|
      {
        var p :| 0 <= p < |rest|;
        var r := GetContentFiles(storage, utf8, rest[p]);
        DrainStep(src, slice, part, rest, p);
        if r.Err? {
          err := Some(r.error);
          return;
        }
        part := part + [r.value];
        rest := rest[..p] + rest[p + 1..];
      }
    }

    /**
     * The content loop of `documents`: the slices in order, each drained
     * before the next starts. The first failing fetch ends the stream.
     */
    method FetchContents(storage: Storage, utf8: Utf8Decoder, docs: seq<Metadata>)
      returns (out: seq<Metadata>, err: Option<Error>)
      modifies fileCollector
      ensures var c := concurrentFilesCollected;
        && (c == 0 ==> out == [] && err == Some(ValueError))
        && (c < 0 ==> out == [] && err == None)
        && (c > 0 ==> Streamed(FileSource(fileCollector.bucket, storage, utf8), out, Slices(docs, c), err))
      ensures InitOrKept(old(fileCollector.storageObject), fileCollector.storageObject, fileCollector.credentialsFile)
    {
      var c := concurrentFilesCollected;
      out, err := [], None;
      if c == 0 {
        err := Some(ValueError);
        return;
      }
      if c < 0 {
        return;
      }
      ghost var src := FileSource(fileCollector.bucket, storage, utf8);
      ghost var s0 := fileCollector.storageObject;
      ghost var slices := Slices(docs, c);
      var offsets := Range(0, |docs|, c);
      RangeStep(0, |docs|, c);
      for j := 0 to |offsets|
        invariant Streamed(src, out, slices[..j], None)
        invariant InitOrKept(s0, fileCollector.storageObject, fileCollector.credentialsFile)
      {
        var slice := docs[offsets[j]..Min(offsets[j] + c, |docs|)];
        assert slice == slices[j];
        assert slices[..j + 1] == slices[..j] + [slice];
        var part, e := DrainSlice(storage, utf8, slice);
        if e.Some? {
          StreamedFailAt(src, out, slices, j, part, e.value);
          out, err := out + part, e;
          return;
        }
        StreamedAppend(src, out, slices[..j], part, slice);
        out := out + part;
      }
      assert slices[..|offsets|] == slices;
    }

    /**
     * The `documents` generator, run to its end or to its first exception:
     * the yielded documents and the error, if any.
     */
    method Documents(backend: Backend, storage: Storage, utf8: Utf8Decoder, query: string,
                     documentType: string, offset: Option<int>, limit: Option<int>, metadataOnly: bool,
                     filters: Option<seq<string>>, uids: Option<seq<string>>)
      returns (out: seq<Metadata>, err: Option<Error>)
      modifies fileCollector
      ensures var md := backend.allOfType(MetadataQuery(documentType, limit, offset, QueryFilter(uids, filters), query));
        var c := concurrentFilesCollected;
        && (md.Err? ==> out == [] && err == Some(md.error))
        && (md.Ok? && metadataOnly ==> out == md.value && err == None)
        && (md.Ok? && !metadataOnly && c == 0 ==> out == [] && err == Some(ValueError))
        && (md.Ok? && !metadataOnly && c < 0 ==> out == [] && err == None)
        && (md.Ok? && !metadataOnly && c > 0 ==>
              Streamed(FileSource(fileCollector.bucket, storage, utf8), out, Slices(md.value, c), err))
      ensures InitOrKept(old(fileCollector.storageObject), fileCollector.storageObject, fileCollector.credentialsFile)
    {
      var md := CollectDocumentMetadata(backend, query, documentType, limit, offset, filters, uids);
      if md.Err? {
        return [], Some(md.error);
      }
      if metadataOnly {
        out := [];
        for i := 0 to |md.value|
          invariant out == md.value[..i]
        {
          out := out + [md.value[i]];
        }
        assert md.value[..|md.value|] == md.value;
        return out, None;
      }
      out, err := FetchContents(storage, utf8, md.value);
    }
  }
}
