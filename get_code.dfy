/** The `get_code` endpoint (server/api/mcp/get-code.get.ts): one cached
    handler that lists, fetches or searches the indexed source files. The
    `codebase` collection is an input sequence in index order. */
module GetCode {
  import opened Wrappers
  import opened Js
  import Text
  import Seqs
  import Content
  import Zod

  const Categories: seq<string> := ["routes", "api-handlers", "config", "tests", "utils"]

  /** `GetCodeSchema` after parsing: every field optional. */
  datatype CodeQuery = CodeQuery(filepath: Option<string>, category: Option<string>, searchPattern: Option<string>)

  function ParseCodeQuery(raw: RawQuery): (r: Result<CodeQuery, Failure>)
    ensures r.Ok? <==> (Get(raw, "filepath").None? || Get(raw, "filepath").value.JString?)
                       && (Get(raw, "category").None?
                           || exists c :: Get(raw, "category") == Some(JString(c)) && c in Categories)
                       && (Get(raw, "search_pattern").None? || Get(raw, "search_pattern").value.JString?)
    ensures r.Ok? ==> r.value.category.None? || r.value.category.value in Categories
    ensures r.Ok? ==> (r.value.filepath.None? <==> Get(raw, "filepath").None?)
    ensures forall s :: r.Ok? && Get(raw, "filepath") == Some(JString(s)) ==> r.value.filepath == Some(s)
    ensures forall s :: r.Ok? && Get(raw, "search_pattern") == Some(JString(s)) ==> r.value.searchPattern == Some(s)
    ensures forall s :: r.Ok? && Get(raw, "category") == Some(JString(s)) ==> r.value.category == Some(s)
  {
    match Zod.OptionalString(raw, "filepath")
    case Err(e) => Err(e)
    case Ok(filepath) =>
      match Zod.OptionalEnum(raw, "category", Categories)
      case Err(e) => Err(e)
      case Ok(category) =>
        match Zod.OptionalString(raw, "search_pattern")
        case Err(e) => Err(e)
        case Ok(pattern) => Ok(CodeQuery(filepath, category, pattern))
  }

  /** A `codebase` collection item: its front matter and parsed body. */
  datatype CodeItem = CodeItem(filepath: string, purpose: string, category: string, doc: Content.Doc)

  datatype FileSummary = FileSummary(filepath: string, purpose: string, category: string)

  datatype SearchHit = SearchHit(filepath: string, purpose: string, category: string, matchSnippet: string)

  /** The three response shapes, one per mode. */
  datatype CodeResponse =
    | FileList(category: string, files: seq<FileSummary>)
    | FileContent(filepath: string, purpose: string, category: string, content: string)
    | FileSearch(pattern: string, results: seq<SearchHit>, suggestion: Option<string>)

  const SnippetLength: nat := 300
  const NoMatchSuggestion: string := "Try broader search terms or use list mode to see all files"
  const NotFoundHeader: string := "\n\nAvailable files:\n"

  function Summary(f: CodeItem): FileSummary
  {
    FileSummary(f.filepath, f.purpose, f.category)
  }

  function Summaries(fs: seq<CodeItem>): (r: seq<FileSummary>)
    ensures |r| == |fs|
    ensures forall k :: 0 <= k < |fs| ==> r[k] == Summary(fs[k])
  {
    seq(|fs|, k requires 0 <= k < |fs| => Summary(fs[k]))
  }

  /** The list-mode filter: the item's category is the requested one. */
  function InCategory(category: string): CodeItem -> bool
  {
    (f: CodeItem) => f.category == category
  }

  /** The files list mode shows: all of them, or those of a truthy category. */
  function Listed(files: seq<CodeItem>, category: Option<string>): seq<CodeItem>
  {
    if Present(category) then Seqs.Filter(InCategory(category.value), files) else files
  }

  /** The text one search runs over: `${filepath} ${purpose} ${content}`. */
  function SearchText(f: CodeItem): string
  {
    f.filepath + " " + f.purpose + " " + Content.MarkdownContent(f.doc)
  }

  /** The search filter: a case-insensitive substring test. */
  function MatchesPattern(pattern: string): CodeItem -> bool
  {
    (f: CodeItem) => Text.Includes(Text.ToLower(SearchText(f)), Text.ToLower(pattern))
  }

  function Hit(f: CodeItem): SearchHit
  {
    SearchHit(f.filepath, f.purpose, f.category,
              Text.Prefix(Content.MarkdownContent(f.doc), SnippetLength) + "...")
  }

  function Hits(fs: seq<CodeItem>): (r: seq<SearchHit>)
    ensures |r| == |fs|
    ensures forall k :: 0 <= k < |fs| ==> r[k] == Hit(fs[k])
  {
    seq(|fs|, k requires 0 <= k < |fs| => Hit(fs[k]))
  }

  function Filepaths(fs: seq<CodeItem>): (r: seq<string>)
    ensures |r| == |fs|
    ensures forall k :: 0 <= k < |fs| ==> r[k] == fs[k].filepath
  {
    seq(|fs|, k requires 0 <= k < |fs| => fs[k].filepath)
  }

  function NotFoundMessage(filepath: string, files: seq<CodeItem>): string
  {
    "File '" + filepath + "' not found." + NotFoundHeader + Text.Join(Filepaths(files), "\n")
  }

  /** `.where('filepath', '=', fp).first()`. */
  function FindFile(files: seq<CodeItem>, filepath: string): Option<nat>
  {
    Seqs.FindFirst((f: CodeItem) => f.filepath == filepath, files)
  }

  /** The handler on a validated query. */
  function Handle(q: CodeQuery, files: seq<CodeItem>): (r: Result<CodeResponse, Failure>)
    ensures SelectMode(q.filepath, q.searchPattern).ListMode? <==> r.Ok? && r.value.FileList?
    ensures SelectMode(q.filepath, q.searchPattern).GetMode? <==>
              r.Err? || (r.Ok? && r.value.FileContent?)
    ensures SelectMode(q.filepath, q.searchPattern).SearchMode? <==> r.Ok? && r.value.FileSearch?
    ensures r.Err? <==> SelectMode(q.filepath, q.searchPattern).GetMode?
                        && forall k :: 0 <= k < |files| ==> files[k].filepath != q.filepath.value
    ensures r.Err? ==> r.error == HttpError(404, NotFoundMessage(q.filepath.value, files))
  {
    if !Present(q.filepath) && !Present(q.searchPattern) then
      Ok(FileList(if Present(q.category) then q.category.value else "all",
                  Summaries(Listed(files, q.category))))
    else if Present(q.filepath) then
      match FindFile(files, q.filepath.value)
      case None => Err(HttpError(404, NotFoundMessage(q.filepath.value, files)))
      case Some(i) =>
        var f := files[i];
        Ok(FileContent(f.filepath, f.purpose, f.category, Content.MarkdownContent(f.doc)))
    else if Present(q.searchPattern) then
      var matches := Seqs.Filter(MatchesPattern(q.searchPattern.value), files);
      if |matches| == 0 then Ok(FileSearch(q.searchPattern.value, [], Some(NoMatchSuggestion)))
      else Ok(FileSearch(q.searchPattern.value, Hits(matches), None))
    else
      assert false;
      Ok(FileList("all", []))
  }

  /** A request: validation (400 on a bad field), then the handler. */
  function Serve(raw: RawQuery, files: seq<CodeItem>): (r: Result<CodeResponse, Failure>)
    ensures ParseCodeQuery(raw).Err? ==> r == Err(ParseCodeQuery(raw).error)
    ensures ParseCodeQuery(raw).Ok? ==> r == Handle(ParseCodeQuery(raw).value, files)
    ensures r.Err? ==> r.error.Invalid? || r.error.statusCode == 404
  {
    match ParseCodeQuery(raw)
    case Err(e) => Err(e)
    case Ok(q) => Handle(q, files)
  }

  /** A category outside the enum is rejected before the handler runs. */
  lemma UnknownCategoryRejected(raw: RawQuery, files: seq<CodeItem>, c: string)
    requires Get(raw, "category") == Some(JString(c)) && c !in Categories
    ensures Serve(raw, files).Err? && Serve(raw, files).error.Invalid?
  {
  }

  /** List mode shows exactly the files of the category, in index order,
      and echoes the category or `all`. */
  lemma {:induction false} ListInIndexOrder(q: CodeQuery, files: seq<CodeItem>)
    requires SelectMode(q.filepath, q.searchPattern).ListMode?
    ensures var r := Handle(q, files).value;
            && r.category == (if Present(q.category) then q.category.value else "all")
            && (!Present(q.category) ==> r.files == Summaries(files))
            && (Present(q.category) ==>
                  var idx := Seqs.Positions(InCategory(q.category.value), files, 0);
                  && |r.files| == |idx|
                  && forall k :: 0 <= k < |idx| ==> r.files[k] == Summary(files[idx[k]]))
  {
    if Present(q.category) {
      assert files[0..] == files;
      Seqs.FilterIsPositions(InCategory(q.category.value), files, 0);
    }
  }

  /** Get mode returns the first file with that exact path and its text;
      the category plays no part. */
  lemma GetReturnsFirstMatch(q: CodeQuery, files: seq<CodeItem>, i: nat)
    requires SelectMode(q.filepath, q.searchPattern).GetMode?
    requires i < |files| && files[i].filepath == q.filepath.value
    requires forall k :: 0 <= k < i ==> files[k].filepath != q.filepath.value
    ensures Handle(q, files) == Ok(FileContent(files[i].filepath, files[i].purpose, files[i].category,
                                               Content.MarkdownContent(files[i].doc)))
  {
    var p := (f: CodeItem) => f.filepath == q.filepath.value;
    assert p(files[i]);
  }

  /** The 404 message names every indexed file; when no path holds a newline
      the lines after the header are exactly the paths, in index order. */
  lemma NotFoundListsEveryFile(filepath: string, files: seq<CodeItem>)
    ensures forall k :: 0 <= k < |files| ==> Text.Includes(NotFoundMessage(filepath, files), files[k].filepath)
    ensures files != [] && (forall k :: 0 <= k < |files| ==> '\n' !in files[k].filepath) ==>
              var head := "File '" + filepath + "' not found." + NotFoundHeader;
              Text.Split(NotFoundMessage(filepath, files)[|head|..], '\n') == Filepaths(files)
  {
    var head := "File '" + filepath + "' not found." + NotFoundHeader;
    var joined := Text.Join(Filepaths(files), "\n");
    assert NotFoundMessage(filepath, files) == head + joined;
    forall k | 0 <= k < |files|
      ensures Text.Includes(NotFoundMessage(filepath, files), files[k].filepath)
    {
      Text.JoinIncludes(Filepaths(files), "\n", k);
      Text.IncludesInside(head, joined, "", files[k].filepath);
      assert head + joined + "" == NotFoundMessage(filepath, files);
    }
    if files != [] && (forall k :: 0 <= k < |files| ==> '\n' !in files[k].filepath) {
      assert (head + joined)[|head|..] == joined;
      Text.SplitJoin(Filepaths(files), '\n');
    }
  }

  /** Search results are exactly the matching files in index order; a
      suggestion comes exactly with an empty result. */
  lemma {:induction false} SearchResults(q: CodeQuery, files: seq<CodeItem>)
    requires SelectMode(q.filepath, q.searchPattern).SearchMode?
    ensures var r := Handle(q, files).value;
            var idx := Seqs.Positions(MatchesPattern(q.searchPattern.value), files, 0);
            && r.pattern == q.searchPattern.value
            && |r.results| == |idx|
            && (forall k :: 0 <= k < |idx| ==> r.results[k] == Hit(files[idx[k]]))
            && (r.results == [] <==> r.suggestion == Some(NoMatchSuggestion))
  {
    assert files[0..] == files;
    Seqs.FilterIsPositions(MatchesPattern(q.searchPattern.value), files, 0);
  }

  /** The result is empty exactly when no file matches; it is never an error. */
  lemma SearchEmptyIffNoMatch(q: CodeQuery, files: seq<CodeItem>)
    requires SelectMode(q.filepath, q.searchPattern).SearchMode?
    ensures Handle(q, files).Ok?
    ensures Handle(q, files).value.results == [] <==>
            forall k :: 0 <= k < |files| ==> !MatchesPattern(q.searchPattern.value)(files[k])
  {
    var p := MatchesPattern(q.searchPattern.value);
    var matches := Seqs.Filter(p, files);
    assert |Handle(q, files).value.results| == |matches|;
    if exists k :: 0 <= k < |files| && p(files[k]) {
      var k :| 0 <= k < |files| && p(files[k]);
      assert files[k] in matches;
    } else {
      Seqs.FilterNone(p, files);
    }
  }

  /** A snippet is the start of the file's text, at most 300 characters, then `...`. */
  lemma SnippetShape(f: CodeItem)
    ensures var s := Hit(f).matchSnippet;
            && |s| <= SnippetLength + 3
            && s[|s| - 3..] == "..."
            && s[..|s| - 3] <= Content.MarkdownContent(f.doc)
            && (|Content.MarkdownContent(f.doc)| <= SnippetLength ==> s == Content.MarkdownContent(f.doc) + "...")
  {
  }

  /** A file whose path, purpose or text literally contains the pattern is found. */
  lemma LiteralOccurrenceFound(f: CodeItem, pattern: string)
    requires Text.Includes(f.filepath, pattern) || Text.Includes(f.purpose, pattern)
             || Text.Includes(Content.MarkdownContent(f.doc), pattern)
    ensures MatchesPattern(pattern)(f)
  {
    var content := Content.MarkdownContent(f.doc);
    if Text.Includes(f.filepath, pattern) {
      Text.IncludesInside("", f.filepath, " " + f.purpose + " " + content, pattern);
      assert "" + f.filepath + (" " + f.purpose + " " + content) == SearchText(f);
    } else if Text.Includes(f.purpose, pattern) {
      Text.IncludesInside(f.filepath + " ", f.purpose, " " + content, pattern);
      assert f.filepath + " " + f.purpose + (" " + content) == SearchText(f);
    } else {
      Text.IncludesInside(f.filepath + " " + f.purpose + " ", content, "", pattern);
      assert f.filepath + " " + f.purpose + " " + content + "" == SearchText(f);
    }
    Text.IncludesToLower(SearchText(f), pattern);
  }

  /** The search ignores the case of the pattern. */
  lemma SearchIgnoresPatternCase(f: CodeItem, pattern: string)
    ensures MatchesPattern(pattern)(f) == MatchesPattern(Text.ToLower(pattern))(f)
  {
    Text.ToLowerIdempotent(pattern);
  }

  /** The category filter only applies in list mode. */
  lemma CategoryIgnoredOutsideList(q: CodeQuery, c: Option<string>, files: seq<CodeItem>)
    requires !SelectMode(q.filepath, q.searchPattern).ListMode?
    ensures Handle(q.(category := c), files) == Handle(q, files)
  {
  }

  const MaxAge: nat := 60 * 60

  /** `getKey`, built from the raw query before validation. */
  function CacheKey(raw: RawQuery): (key: string)
    ensures "code-" <= key
  {
    "code-" + InterpolateOr(Get(raw, "filepath"), "") + "-" + InterpolateOr(Get(raw, "category"), "")
    + "-" + InterpolateOr(Get(raw, "search_pattern"), "list")
  }

  /** The corrected `getKey`: a search pattern is tagged so that no search
      can share a key with list mode. */
  function CorrectedCacheKey(raw: RawQuery): (key: string)
    ensures "code-" <= key
  {
    "code-" + InterpolateOr(Get(raw, "filepath"), "") + "-" + InterpolateOr(Get(raw, "category"), "")
    + "-" + CorrectedTail(raw)
  }

  function CorrectedTail(raw: RawQuery): string
  {
    if Truthy(Get(raw, "search_pattern")) then "search:" + Interpolate(Get(raw, "search_pattern")) else "list"
  }

  /** As written, a search for `list` shares its key with the plain list
      request, although the two responses differ: whichever is cached first
      is served for both. */
  lemma ListSearchCollide(files: seq<CodeItem>)
    requires files != []
    ensures var listing: RawQuery := map[];
            var search: RawQuery := map["search_pattern" := JString("list")];
            && CacheKey(listing) == CacheKey(search)
            && Serve(listing, files) != Serve(search, files)
  {
    var search: RawQuery := map["search_pattern" := JString("list")];
    assert Serve(search, files).value.FileSearch?;
  }

  /** Categories start with distinct letters, so a category followed by `-`
      can be read back from the front of a key. */
  lemma CategoryPrefixFree(c1: string, c2: string, t1: string, t2: string)
    requires c1 == "" || c1 in Categories
    requires c2 == "" || c2 in Categories
    requires c1 + "-" + t1 == c2 + "-" + t2
    ensures c1 == c2 && t1 == t2
  {
    var s := c1 + "-" + t1;
    assert s[|c1|] == '-';
    assert (c2 + "-" + t2)[|c2|] == '-';
    assert s[..|c1|] == c1;
    assert (c2 + "-" + t2)[..|c2|] == c2;
    assert s[|c1| + 1..] == t1;
    assert (c2 + "-" + t2)[|c2| + 1..] == t2;
  }

  function CategoryText(c: Option<string>): string
  {
    if c.Some? then c.value else ""
  }

  /** For a valid request without a file path, the corrected key is the
      category followed by the tail. */
  lemma CorrectedKeyShape(raw: RawQuery)
    requires ParseCodeQuery(raw).Ok? && !Truthy(Get(raw, "filepath"))
    ensures CorrectedCacheKey(raw)[6..] == CategoryText(ParseCodeQuery(raw).value.category) + "-" + CorrectedTail(raw)
  {
    var q := ParseCodeQuery(raw).value;
    assert InterpolateOr(Get(raw, "filepath"), "") == "";
    assert InterpolateOr(Get(raw, "category"), "") == CategoryText(q.category);
    assert CorrectedCacheKey(raw) == "code--" + (CategoryText(q.category) + "-" + CorrectedTail(raw));
  }

  /** Equal tails mean the same search, or list mode for both. */
  lemma CorrectedTailInjective(raw1: RawQuery, raw2: RawQuery)
    requires ParseCodeQuery(raw1).Ok? && ParseCodeQuery(raw2).Ok?
    requires CorrectedTail(raw1) == CorrectedTail(raw2)
    ensures var p1, p2 := ParseCodeQuery(raw1).value.searchPattern, ParseCodeQuery(raw2).value.searchPattern;
            Present(p1) == Present(p2) && (Present(p1) ==> p1.value == p2.value)
  {
    var t1, t2 := CorrectedTail(raw1), CorrectedTail(raw2);
    if Truthy(Get(raw1, "search_pattern")) && Truthy(Get(raw2, "search_pattern")) {
      assert t1[7..] == Interpolate(Get(raw1, "search_pattern"));
      assert t2[7..] == Interpolate(Get(raw2, "search_pattern"));
    }
  }

  /** Outside get mode the response depends only on the category and the search. */
  lemma HandleOutsideGet(q1: CodeQuery, q2: CodeQuery, files: seq<CodeItem>)
    requires !Present(q1.filepath) && !Present(q2.filepath) && q1.category == q2.category
    requires Present(q1.searchPattern) == Present(q2.searchPattern)
    requires Present(q1.searchPattern) ==> q1.searchPattern.value == q2.searchPattern.value
    ensures Handle(q1, files) == Handle(q2, files)
  {
  }

  /** With the corrected key, two valid requests that carry no file path and
      share a key receive the same response. */
  lemma CorrectedKeySound(raw1: RawQuery, raw2: RawQuery, files: seq<CodeItem>)
    requires ParseCodeQuery(raw1).Ok? && ParseCodeQuery(raw2).Ok?
    requires !Truthy(Get(raw1, "filepath")) && !Truthy(Get(raw2, "filepath"))
    requires CorrectedCacheKey(raw1) == CorrectedCacheKey(raw2)
    ensures Serve(raw1, files) == Serve(raw2, files)
  {
    var q1, q2 := ParseCodeQuery(raw1).value, ParseCodeQuery(raw2).value;
    CorrectedKeyShape(raw1);
    CorrectedKeyShape(raw2);
    CategoryPrefixFree(CategoryText(q1.category), CategoryText(q2.category), CorrectedTail(raw1), CorrectedTail(raw2));
    CorrectedTailInjective(raw1, raw2);
    HandleOutsideGet(q1, q2, files);
  }
}
