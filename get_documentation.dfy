/** The `get_documentation` endpoint (server/api/mcp/get-documentation.get.ts):
    one cached handler that lists, fetches or searches documentation
    sections. The `docs` collection is an input sequence in index order. */
module GetDocumentation {
  import opened Wrappers
  import opened Js
  import Text
  import Seqs
  import Content
  import Zod

  /** `GetDocSchema` after parsing: both fields optional strings. */
  datatype DocQuery = DocQuery(section: Option<string>, searchQuery: Option<string>)

  function ParseDocQuery(raw: RawQuery): (r: Result<DocQuery, Failure>)
    ensures r.Ok? <==> (Get(raw, "section").None? || Get(raw, "section").value.JString?)
                       && (Get(raw, "search_query").None? || Get(raw, "search_query").value.JString?)
    ensures r.Ok? ==> (r.value.section.None? <==> Get(raw, "section").None?)
    ensures r.Ok? ==> (r.value.searchQuery.None? <==> Get(raw, "search_query").None?)
    ensures forall s :: r.Ok? && Get(raw, "section") == Some(JString(s)) ==> r.value.section == Some(s)
    ensures forall s :: r.Ok? && Get(raw, "search_query") == Some(JString(s)) ==> r.value.searchQuery == Some(s)
  {
    match Zod.OptionalString(raw, "section")
    case Err(e) => Err(e)
    case Ok(section) =>
      match Zod.OptionalString(raw, "search_query")
      case Err(e) => Err(e)
      case Ok(query) => Ok(DocQuery(section, query))
  }

  /** A `docs` collection item. */
  datatype DocItem = DocItem(section: string, title: string, description: string, path: string, doc: Content.Doc)

  datatype SectionSummary = SectionSummary(section: string, title: string, description: string, path: string)

  datatype SectionHit = SectionHit(section: string, title: string, description: string, relevantContent: string)

  /** The three response shapes, one per mode. */
  datatype DocResponse =
    | SectionList(sections: seq<SectionSummary>)
    | SectionContent(section: string, title: string, content: string)
    | SectionSearch(query: string, results: seq<SectionHit>, suggestion: Option<string>)

  const ExcerptLength: nat := 500
  const NoMatchSuggestion: string := "Try broader search terms or use list mode to see all sections"

  function Summary(d: DocItem): SectionSummary
  {
    SectionSummary(d.section, d.title, d.description, d.path)
  }

  function Summaries(ds: seq<DocItem>): (r: seq<SectionSummary>)
    ensures |r| == |ds|
    ensures forall k :: 0 <= k < |ds| ==> r[k] == Summary(ds[k])
  {
    seq(|ds|, k requires 0 <= k < |ds| => Summary(ds[k]))
  }

  /** The text one search runs over: `${title} ${description} ${content}`. */
  function SearchText(d: DocItem): string
  {
    d.title + " " + d.description + " " + Content.MarkdownContent(d.doc)
  }

  /** The search filter: a case-insensitive substring test. */
  function MatchesQuery(query: string): DocItem -> bool
  {
    (d: DocItem) => Text.Includes(Text.ToLower(SearchText(d)), Text.ToLower(query))
  }

  function Hit(d: DocItem): SectionHit
  {
    SectionHit(d.section, d.title, d.description,
               Text.Prefix(Content.MarkdownContent(d.doc), ExcerptLength) + "...")
  }

  function Hits(ds: seq<DocItem>): (r: seq<SectionHit>)
    ensures |r| == |ds|
    ensures forall k :: 0 <= k < |ds| ==> r[k] == Hit(ds[k])
  {
    seq(|ds|, k requires 0 <= k < |ds| => Hit(ds[k]))
  }

  function Sections(ds: seq<DocItem>): (r: seq<string>)
    ensures |r| == |ds|
    ensures forall k :: 0 <= k < |ds| ==> r[k] == ds[k].section
  {
    seq(|ds|, k requires 0 <= k < |ds| => ds[k].section)
  }

  function NotFoundMessage(section: string, docs: seq<DocItem>): string
  {
    "Section '" + section + "' not found. Available: " + Text.Join(Sections(docs), ", ")
  }

  /** `.where('section', '=', s).first()`. */
  function FindSection(docs: seq<DocItem>, section: string): Option<nat>
  {
    Seqs.FindFirst((d: DocItem) => d.section == section, docs)
  }

  /** The handler on a validated query. */
  function Handle(q: DocQuery, docs: seq<DocItem>): (r: Result<DocResponse, Failure>)
    ensures SelectMode(q.section, q.searchQuery).ListMode? <==> r.Ok? && r.value.SectionList?
    ensures SelectMode(q.section, q.searchQuery).GetMode? <==>
              r.Err? || (r.Ok? && r.value.SectionContent?)
    ensures SelectMode(q.section, q.searchQuery).SearchMode? <==> r.Ok? && r.value.SectionSearch?
    ensures r.Err? <==> SelectMode(q.section, q.searchQuery).GetMode?
                        && forall k :: 0 <= k < |docs| ==> docs[k].section != q.section.value
    ensures r.Err? ==> r.error == HttpError(404, NotFoundMessage(q.section.value, docs))
    ensures r.Ok? && r.value.SectionList? ==> r.value.sections == Summaries(docs)
  {
    if !Present(q.section) && !Present(q.searchQuery) then
      Ok(SectionList(Summaries(docs)))
    else if Present(q.section) then
      match FindSection(docs, q.section.value)
      case None => Err(HttpError(404, NotFoundMessage(q.section.value, docs)))
      case Some(i) =>
        var d := docs[i];
        Ok(SectionContent(d.section, d.title, Content.MarkdownContent(d.doc)))
    else if Present(q.searchQuery) then
      var matches := Seqs.Filter(MatchesQuery(q.searchQuery.value), docs);
      if |matches| == 0 then Ok(SectionSearch(q.searchQuery.value, [], Some(NoMatchSuggestion)))
      else Ok(SectionSearch(q.searchQuery.value, Hits(matches), None))
    else
      assert false;
      Ok(SectionList([]))
  }

  /** A request: validation (400 on a bad field), then the handler. */
  function Serve(raw: RawQuery, docs: seq<DocItem>): (r: Result<DocResponse, Failure>)
    ensures ParseDocQuery(raw).Err? ==> r == Err(ParseDocQuery(raw).error)
    ensures ParseDocQuery(raw).Ok? ==> r == Handle(ParseDocQuery(raw).value, docs)
    ensures r.Err? ==> r.error.Invalid? || r.error.statusCode == 404
  {
    match ParseDocQuery(raw)
    case Err(e) => Err(e)
    case Ok(q) => Handle(q, docs)
  }

  /** An empty query lists everything; a numeric section is rejected. */
  lemma SchemaCases(docs: seq<DocItem>, n: int)
    ensures Serve(map[], docs) == Ok(SectionList(Summaries(docs)))
    ensures Serve(map["section" := JNumber(n)], docs) == Err(Invalid("section"))
  {
  }

  /** An empty string counts as absent: `section=''` falls through to the
      search, and with an empty query as well to list mode. */
  lemma EmptyStringIsAbsent(q: DocQuery, docs: seq<DocItem>)
    requires q.section == Some("")
    ensures Handle(q, docs) == Handle(q.(section := None), docs)
    ensures q.searchQuery == Some("") ==> Handle(q, docs) == Ok(SectionList(Summaries(docs)))
  {
  }

  /** A section wins over a search query. */
  lemma SectionBeatsSearch(q: DocQuery, docs: seq<DocItem>)
    requires Present(q.section)
    ensures Handle(q, docs) == Handle(q.(searchQuery := None), docs)
  {
  }

  /** Get mode returns the first section with that exact name and its text. */
  lemma GetReturnsFirstMatch(q: DocQuery, docs: seq<DocItem>, i: nat)
    requires SelectMode(q.section, q.searchQuery).GetMode?
    requires i < |docs| && docs[i].section == q.section.value
    requires forall k :: 0 <= k < i ==> docs[k].section != q.section.value
    ensures Handle(q, docs) == Ok(SectionContent(docs[i].section, docs[i].title,
                                                 Content.MarkdownContent(docs[i].doc)))
  {
    var p := (d: DocItem) => d.section == q.section.value;
    assert p(docs[i]);
  }

  /** The 404 message names every section, in index order after `Available: `. */
  lemma NotFoundListsEverySection(section: string, docs: seq<DocItem>)
    ensures forall k :: 0 <= k < |docs| ==> Text.Includes(NotFoundMessage(section, docs), docs[k].section)
    ensures var head := "Section '" + section + "' not found. Available: ";
            NotFoundMessage(section, docs)[|head|..] == Text.Join(Sections(docs), ", ")
  {
    var head := "Section '" + section + "' not found. Available: ";
    var joined := Text.Join(Sections(docs), ", ");
    assert NotFoundMessage(section, docs) == head + joined;
    forall k | 0 <= k < |docs|
      ensures Text.Includes(NotFoundMessage(section, docs), docs[k].section)
    {
      Text.JoinIncludes(Sections(docs), ", ", k);
      Text.IncludesInside(head, joined, "", docs[k].section);
      assert head + joined + "" == NotFoundMessage(section, docs);
    }
  }

  /** Search results are exactly the matching sections in index order; a
      suggestion comes exactly with an empty result. */
  lemma {:induction false} SearchResults(q: DocQuery, docs: seq<DocItem>)
    requires SelectMode(q.section, q.searchQuery).SearchMode?
    ensures var r := Handle(q, docs).value;
            var idx := Seqs.Positions(MatchesQuery(q.searchQuery.value), docs, 0);
            && r.query == q.searchQuery.value
            && |r.results| == |idx|
            && (forall k :: 0 <= k < |idx| ==> r.results[k] == Hit(docs[idx[k]]))
            && (r.results == [] <==> r.suggestion == Some(NoMatchSuggestion))
  {
    assert docs[0..] == docs;
    Seqs.FilterIsPositions(MatchesQuery(q.searchQuery.value), docs, 0);
  }

  /** The result is empty exactly when no section matches. */
  lemma SearchEmptyIffNoMatch(q: DocQuery, docs: seq<DocItem>)
    requires SelectMode(q.section, q.searchQuery).SearchMode?
    ensures Handle(q, docs).value.results == [] <==>
            forall k :: 0 <= k < |docs| ==> !MatchesQuery(q.searchQuery.value)(docs[k])
  {
    var p := MatchesQuery(q.searchQuery.value);
    var matches := Seqs.Filter(p, docs);
    assert |Handle(q, docs).value.results| == |matches|;
    if exists k :: 0 <= k < |docs| && p(docs[k]) {
      var k :| 0 <= k < |docs| && p(docs[k]);
      assert docs[k] in matches;
    } else {
      Seqs.FilterNone(p, docs);
    }
  }

  /** An excerpt is the start of the text, at most 500 characters, then `...`. */
  lemma ExcerptShape(d: DocItem)
    ensures var s := Hit(d).relevantContent;
            && |s| <= ExcerptLength + 3
            && s[|s| - 3..] == "..."
            && s[..|s| - 3] <= Content.MarkdownContent(d.doc)
  {
  }

  /** A section whose title literally contains the query is found, whatever the case. */
  lemma TitleOccurrenceFound(d: DocItem, query: string)
    requires Text.Includes(d.title, query)
    ensures MatchesQuery(query)(d) && MatchesQuery(Text.ToLower(query))(d)
  {
    var rest := " " + d.description + " " + Content.MarkdownContent(d.doc);
    Text.IncludesInside("", d.title, rest, query);
    assert "" + d.title + rest == SearchText(d);
    Text.IncludesToLower(SearchText(d), query);
    Text.ToLowerIdempotent(query);
  }

  const MaxAge: nat := 60 * 60

  /** `getKey`, built from the raw query before validation. */
  function CacheKey(raw: RawQuery): (key: string)
    ensures "docs-" <= key
  {
    "docs-" + InterpolateOr(Get(raw, "section"), "") + "-" + InterpolateOr(Get(raw, "search_query"), "list")
  }

  /** As written, a search for `list` shares its key with the plain list
      request, although a search answers with a different response. */
  lemma ListSearchCollide(docs: seq<DocItem>)
    ensures var listing: RawQuery := map[];
            var search: RawQuery := map["search_query" := JString("list")];
            && CacheKey(listing) == CacheKey(search)
            && Serve(listing, docs) != Serve(search, docs)
  {
    var search: RawQuery := map["search_query" := JString("list")];
    assert Serve(search, docs).value.SectionSearch?;
  }

  function CorrectedTail(raw: RawQuery): string
  {
    if Truthy(Get(raw, "search_query")) then "search:" + Interpolate(Get(raw, "search_query")) else "list"
  }

  /** The corrected `getKey`: a search query is tagged so that no search can
      share a key with list mode. */
  function CorrectedCacheKey(raw: RawQuery): (key: string)
    ensures "docs-" <= key
  {
    "docs-" + InterpolateOr(Get(raw, "section"), "") + "-" + CorrectedTail(raw)
  }

  /** With the corrected key, two valid requests that name no section and
      share a key receive the same response. */
  lemma CorrectedKeySound(raw1: RawQuery, raw2: RawQuery, docs: seq<DocItem>)
    requires ParseDocQuery(raw1).Ok? && ParseDocQuery(raw2).Ok?
    requires !Truthy(Get(raw1, "section")) && !Truthy(Get(raw2, "section"))
    requires CorrectedCacheKey(raw1) == CorrectedCacheKey(raw2)
    ensures Serve(raw1, docs) == Serve(raw2, docs)
  {
    var t1, t2 := CorrectedTail(raw1), CorrectedTail(raw2);
    assert CorrectedCacheKey(raw1) == "docs--" + t1;
    assert CorrectedCacheKey(raw2) == "docs--" + t2;
    assert t1 == CorrectedCacheKey(raw1)[6..];
    if Truthy(Get(raw1, "search_query")) && Truthy(Get(raw2, "search_query")) {
      assert t1[7..] == Interpolate(Get(raw1, "search_query"));
      assert t2[7..] == Interpolate(Get(raw2, "search_query"));
    }
  }
}
