/** The application's pure URI logic: the route table, the mapping of request
    URIs to asset paths, and the suffix-to-media-type table. */
module Routes {
  import opened Http

  const WEB_ROOT: string := "/web"
  const IG_PREFIX: string := "/ig-eliminating-roundtrips"
  const IG_PAGE: string := IG_PREFIX + "/"
  const IG_FILES: string := IG_PAGE + "Eliminating-Roundtrips-with-Preconnect_igvita.com_files/"
  const CLEAN: string := "/clean/"
  const CLEAN_QUERY: string := "/clean/?"
  const FAVICON: string := "/favicon.ico"
  const FAVICON_ASSET: string := "/web/clean/favicon.ico"
  const NOT_CHUNKED: string := "chunked=false"

  predicate StartsWith(s: string, p: string)
  {
    p <= s
  }

  predicate EndsWith(s: string, x: string)
  {
    |x| <= |s| && s[|s| - |x|..] == x
  }

  predicate OccursAt(s: string, t: string, i: int)
  {
    0 <= i && i + |t| <= |s| && s[i..i + |t|] == t
  }

  /** `s.contains(t)`, searching from the left. */
  function Contains(s: string, t: string): (b: bool)
    ensures b <==> exists i :: OccursAt(s, t, i)
    decreases |s|
  {
    if StartsWith(s, t) then
      assert OccursAt(s, t, 0);
      true
    else if |s| == 0 then
      false
    else
      ContainsShift(s, t);
      Contains(s[1..], t)
  }

  lemma ContainsShift(s: string, t: string)
    requires |s| > 0 && !StartsWith(s, t)
    ensures (exists i :: OccursAt(s, t, i)) <==> (exists i :: OccursAt(s[1..], t, i))
  {
    if exists i :: OccursAt(s, t, i) {
      var i :| OccursAt(s, t, i);
      assert i != 0;
      assert s[1..][i - 1..i - 1 + |t|] == s[i..i + |t|];
      assert OccursAt(s[1..], t, i - 1);
    }
    if exists i :: OccursAt(s[1..], t, i) {
      var i :| OccursAt(s[1..], t, i);
      assert s[1..][i..i + |t|] == s[i + 1..i + 1 + |t|];
      assert OccursAt(s, t, i + 1);
    }
  }

  /** The response shape, or the asset a file route serves. */
  datatype Route =
    | Root
    | IgPage
    | CleanPage(chunked: bool)
    | IgFile(path: string)
    | CleanFile(path: string)
    | Favicon
    | NotFound

  /** The route of `uri`, testing the rows in order. */
  function RouteOf(uri: string): Route
  {
    if uri == "/" then Root
    else if uri == IG_PAGE then IgPage
    else if uri == CLEAN || StartsWith(uri, CLEAN_QUERY) then CleanPage(!Contains(uri, NOT_CHUNKED))
    else if StartsWith(uri, IG_FILES) then IgFile(WEB_ROOT + uri[|IG_PREFIX|..])
    else if StartsWith(uri, CLEAN) then CleanFile(WEB_ROOT + uri)
    else if uri == FAVICON then Favicon
    else NotFound
  }

  /** The route table as data: each row is a list of patterns, any of which selects
      the row's route. */
  datatype Pattern = Exact(text: string) | Prefix(text: string)

  datatype Kind = RootKind | IgPageKind | CleanPageKind | IgFileKind | CleanFileKind | FaviconKind

  datatype Row = Row(patterns: seq<Pattern>, kind: Kind)

  const ROUTE_TABLE: seq<Row> := [
    Row([Exact("/")], RootKind),
    Row([Exact(IG_PAGE)], IgPageKind),
    Row([Exact(CLEAN), Prefix(CLEAN_QUERY)], CleanPageKind),
    Row([Prefix(IG_FILES)], IgFileKind),
    Row([Prefix(CLEAN)], CleanFileKind),
    Row([Exact(FAVICON)], FaviconKind)
  ]

  predicate Matches(p: Pattern, uri: string)
  {
    match p
    case Exact(t) => uri == t
    case Prefix(t) => StartsWith(uri, t)
  }

  predicate RowMatches(row: Row, uri: string)
  {
    exists p :: p in row.patterns && Matches(p, uri)
  }

  /** The kind of the first row that matches, if any. */
  function FirstMatch(rows: seq<Row>, uri: string): Option<Kind>
    decreases |rows|
  {
    if rows == [] then None
    else if RowMatches(rows[0], uri) then Some(rows[0].kind)
    else FirstMatch(rows[1..], uri)
  }

  /** First match wins: the result is the kind of a matching row that no earlier row
      pre-empts, and there is none only when no row matches. */
  lemma {:induction false} FirstMatchWins(rows: seq<Row>, uri: string)
    ensures FirstMatch(rows, uri).None? <==> forall i :: 0 <= i < |rows| ==> !RowMatches(rows[i], uri)
    ensures FirstMatch(rows, uri).Some? ==>
              exists i :: && 0 <= i < |rows| && RowMatches(rows[i], uri)
                          && rows[i].kind == FirstMatch(rows, uri).value
                          && forall j :: 0 <= j < i ==> !RowMatches(rows[j], uri)
    decreases |rows|
  {
    if rows != [] && !RowMatches(rows[0], uri) {
      var tail := rows[1..];
      FirstMatchWins(tail, uri);
      assert forall i :: 1 <= i < |rows| ==> rows[i] == tail[i - 1];
      if FirstMatch(tail, uri).Some? {
        var i :| && 0 <= i < |tail| && RowMatches(tail[i], uri)
                 && tail[i].kind == FirstMatch(tail, uri).value
                 && forall j :: 0 <= j < i ==> !RowMatches(tail[j], uri);
        assert rows[i + 1] == tail[i];
        forall j | 0 <= j < i + 1 ensures !RowMatches(rows[j], uri) {
          if j > 0 { assert rows[j] == tail[j - 1]; }
        }
      } else {
        forall i | 0 <= i < |rows| ensures !RowMatches(rows[i], uri) {
          if i > 0 { assert rows[i] == tail[i - 1]; }
        }
      }
    }
  }

  function KindOf(r: Route): Option<Kind>
  {
    match r
    case Root => Some(RootKind)
    case IgPage => Some(IgPageKind)
    case CleanPage(_) => Some(CleanPageKind)
    case IgFile(_) => Some(IgFileKind)
    case CleanFile(_) => Some(CleanFileKind)
    case Favicon => Some(FaviconKind)
    case NotFound => None
  }

  /** The dispatcher's if-chain selects the first row of the table that matches,
      and answers 404 exactly when no row does. */
  lemma RouteOfIsFirstMatch(uri: string)
    ensures KindOf(RouteOf(uri)) == FirstMatch(ROUTE_TABLE, uri)
    ensures RouteOf(uri) == NotFound <==> forall i :: 0 <= i < |ROUTE_TABLE| ==> !RowMatches(ROUTE_TABLE[i], uri)
  {
    TableAsChain(uri);
    FirstMatchWins(ROUTE_TABLE, uri);
  }

  /** The table, read row by row. */
  lemma TableAsChain(uri: string)
    ensures FirstMatch(ROUTE_TABLE, uri) ==
      if uri == "/" then Some(RootKind)
      else if uri == IG_PAGE then Some(IgPageKind)
      else if uri == CLEAN || StartsWith(uri, CLEAN_QUERY) then Some(CleanPageKind)
      else if StartsWith(uri, IG_FILES) then Some(IgFileKind)
      else if StartsWith(uri, CLEAN) then Some(CleanFileKind)
      else if uri == FAVICON then Some(FaviconKind)
      else None
  {
    var row0 := Row([Exact("/")], RootKind);
    var row1 := Row([Exact(IG_PAGE)], IgPageKind);
    var row2 := Row([Exact(CLEAN), Prefix(CLEAN_QUERY)], CleanPageKind);
    var row3 := Row([Prefix(IG_FILES)], IgFileKind);
    var row4 := Row([Prefix(CLEAN)], CleanFileKind);
    var row5 := Row([Exact(FAVICON)], FaviconKind);
    assert RowMatches(row0, uri) <==> uri == "/" by {
      assert Matches(Exact("/"), uri) <==> uri == "/";
    }
    assert RowMatches(row1, uri) <==> uri == IG_PAGE by {
      assert Matches(Exact(IG_PAGE), uri) <==> uri == IG_PAGE;
    }
    assert RowMatches(row2, uri) <==> uri == CLEAN || StartsWith(uri, CLEAN_QUERY) by {
      assert Matches(Exact(CLEAN), uri) <==> uri == CLEAN;
      assert Matches(Prefix(CLEAN_QUERY), uri) <==> StartsWith(uri, CLEAN_QUERY);
    }
    assert RowMatches(row3, uri) <==> StartsWith(uri, IG_FILES) by {
      assert Matches(Prefix(IG_FILES), uri) <==> StartsWith(uri, IG_FILES);
    }
    assert RowMatches(row4, uri) <==> StartsWith(uri, CLEAN) by {
      assert Matches(Prefix(CLEAN), uri) <==> StartsWith(uri, CLEAN);
    }
    assert RowMatches(row5, uri) <==> uri == FAVICON by {
      assert Matches(Exact(FAVICON), uri) <==> uri == FAVICON;
    }
    var t5 := [row5];
    var t4 := [row4] + t5;
    var t3 := [row3] + t4;
    var t2 := [row2] + t3;
    var t1 := [row1] + t2;
    assert ROUTE_TABLE == [row0] + t1;
    assert t5 == [row5] + [];
    FirstMatchCons(row0, t1, uri);
    FirstMatchCons(row1, t2, uri);
    FirstMatchCons(row2, t3, uri);
    FirstMatchCons(row3, t4, uri);
    FirstMatchCons(row4, t5, uri);
    FirstMatchCons(row5, [], uri);
  }

  lemma FirstMatchCons(row: Row, rest: seq<Row>, uri: string)
    ensures FirstMatch([row] + rest, uri) == if RowMatches(row, uri) then Some(row.kind) else FirstMatch(rest, uri)
  {
    assert ([row] + rest)[1..] == rest;
  }

  /** `/clean/` and every URI starting with `/clean/?` take the fragment route, which
      is chunked unless the URI contains `chunked=false`. */
  lemma CleanPageRoute(uri: string)
    ensures RouteOf(uri).CleanPage? <==> uri == CLEAN || StartsWith(uri, CLEAN_QUERY)
    ensures RouteOf(uri).CleanPage? ==> RouteOf(uri).chunked == !Contains(uri, NOT_CHUNKED)
  {
    if StartsWith(uri, CLEAN_QUERY) {
      assert uri[1] == 'c';
    }
  }

  /** Every other URI under `/clean/` is a static file under `/web`, at the URI's
      whole path. */
  lemma CleanFileRoute(uri: string)
    ensures RouteOf(uri).CleanFile? <==>
              StartsWith(uri, CLEAN) && uri != CLEAN && !StartsWith(uri, CLEAN_QUERY)
    ensures RouteOf(uri).CleanFile? ==> RouteOf(uri).path == WEB_ROOT + uri
  {
    if StartsWith(uri, CLEAN) {
      assert uri[1] == 'c';
      assert IG_FILES[1] == 'i';
      assert uri != "/";
      assert IG_PAGE[1] == 'i';
    }
  }

  /** A URI under the page's `_files/` directory is served from `/web` with the
      26-character page prefix replaced by `/web`. */
  lemma IgFileRoute(uri: string)
    ensures |IG_PREFIX| == 26
    ensures RouteOf(uri).IgFile? <==> StartsWith(uri, IG_FILES)
    ensures RouteOf(uri).IgFile? ==>
              && RouteOf(uri).path == WEB_ROOT + uri[|IG_PREFIX|..]
              && IG_PREFIX + RouteOf(uri).path[|WEB_ROOT|..] == uri
  {
    if StartsWith(uri, IG_FILES) {
      assert uri[1] == 'i';
      assert |uri| > |IG_PAGE|;
      assert IG_PREFIX <= IG_FILES;
      assert uri[..|IG_PREFIX|] == IG_PREFIX;
      var p := WEB_ROOT + uri[|IG_PREFIX|..];
      assert p[|WEB_ROOT|..] == uri[|IG_PREFIX|..];
      assert IG_PREFIX + uri[|IG_PREFIX|..] == uri;
    }
  }

  /** `/favicon.ico`, and nothing else, takes the favicon row. */
  lemma FaviconRoute(uri: string)
    ensures RouteOf(uri) == Favicon <==> uri == FAVICON
  {
    if uri == FAVICON {
      assert uri[1] == 'f';
      assert CLEAN[1] == 'c' && IG_FILES[1] == 'i';
      assert !StartsWith(uri, CLEAN) && !StartsWith(uri, CLEAN_QUERY) && !StartsWith(uri, IG_FILES);
    }
  }

  const DEFAULT_MEDIA_TYPE: string := "text/html"

  /** Suffix to media type, most specific first. */
  const MEDIA_TYPES: seq<(string, string)> := [
    (".js", "text/javascript"),
    (".css", "text/css"),
    (".webp", "image/webp"),
    (".png", "image/png"),
    (".ico", "image/x-icon"),
    (".woff2", "font/woff2")
  ]

  /** `guessContentType`: the media type for the path's suffix. */
  function GuessContentType(path: string): string
  {
    if EndsWith(path, ".js") then "text/javascript"
    else if EndsWith(path, ".css") then "text/css"
    else if EndsWith(path, ".webp") then "image/webp"
    else if EndsWith(path, ".png") then "image/png"
    else if EndsWith(path, ".ico") then "image/x-icon"
    else if EndsWith(path, ".woff2") then "font/woff2"
    else DEFAULT_MEDIA_TYPE
  }

  /** The media type of the first table entry whose suffix `path` ends with. */
  function LookupMediaType(table: seq<(string, string)>, path: string): string
    decreases |table|
  {
    if table == [] then DEFAULT_MEDIA_TYPE
    else if EndsWith(path, table[0].0) then table[0].1
    else LookupMediaType(table[1..], path)
  }

  /** The if-chain is the table read top to bottom. */
  lemma GuessIsTableLookup(path: string)
    ensures GuessContentType(path) == LookupMediaType(MEDIA_TYPES, path)
  {
    var t5 := [(".woff2", "font/woff2")];
    var t4 := [(".ico", "image/x-icon")] + t5;
    var t3 := [(".png", "image/png")] + t4;
    var t2 := [(".webp", "image/webp")] + t3;
    var t1 := [(".css", "text/css")] + t2;
    assert MEDIA_TYPES == [(".js", "text/javascript")] + t1;
    assert t5[1..] == [] && t4[1..] == t5 && t3[1..] == t4 && t2[1..] == t3 && t1[1..] == t2;
    assert LookupMediaType(t5, path) == if EndsWith(path, ".woff2") then "font/woff2" else DEFAULT_MEDIA_TYPE;
    assert LookupMediaType(t4, path) == if EndsWith(path, ".ico") then "image/x-icon" else LookupMediaType(t5, path);
    assert LookupMediaType(t3, path) == if EndsWith(path, ".png") then "image/png" else LookupMediaType(t4, path);
    assert LookupMediaType(t2, path) == if EndsWith(path, ".webp") then "image/webp" else LookupMediaType(t3, path);
    assert LookupMediaType(t1, path) == if EndsWith(path, ".css") then "text/css" else LookupMediaType(t2, path);
  }

  lemma EndsWithAppend(x: string, p: string, e: string)
    requires |e| <= |p|
    ensures EndsWith(x + p, e) == EndsWith(p, e)
  {
    assert (x + p)[|x + p| - |e|..] == p[|p| - |e|..];
  }

  /** The media type depends only on the path's last six characters, the length of
      the longest suffix in the table. */
  lemma {:induction false} GuessDependsOnSuffix(x: string, p: string)
    requires |p| >= 6
    ensures GuessContentType(x + p) == GuessContentType(p)
  {
    EndsWithAppend(x, p, ".js");
    EndsWithAppend(x, p, ".css");
    EndsWithAppend(x, p, ".webp");
    EndsWithAppend(x, p, ".png");
    EndsWithAppend(x, p, ".ico");
    EndsWithAppend(x, p, ".woff2");
  }
}
