/** What the two project generators (server/api/mcp/create-nuxt-project.get.ts
    and server/mcp/tools/create-nuxt-project.ts) share: a template literal
    seen as fixed segments with holes between them, and the two names they
    derive from the use case. */
module Templates {
  import Text

  /** A template literal: `segments[0]`, then each hole followed by the next segment. */
  function Fill(segments: seq<string>, holes: seq<string>): (r: string)
    requires |segments| == |holes| + 1
    ensures |r| == Text.SumLengths(segments) + Text.SumLengths(holes)
    ensures segments[0] <= r
    decreases holes
  {
    if holes == [] then segments[0]
    else segments[0] + holes[0] + Fill(segments[1..], holes[1..])
  }

  /** Whatever fills a hole appears in the result. */
  lemma {:induction false} FillIncludes(segments: seq<string>, holes: seq<string>, k: nat)
    requires |segments| == |holes| + 1
    requires k < |holes|
    ensures Text.Includes(Fill(segments, holes), holes[k])
    decreases k
  {
    var rest := Fill(segments[1..], holes[1..]);
    assert Fill(segments, holes) == segments[0] + holes[0] + rest;
    if k == 0 {
      Text.IncludesAt(Fill(segments, holes), holes[0], |segments[0]|);
    } else {
      FillIncludes(segments[1..], holes[1..], k - 1);
      Text.IncludesInside(segments[0] + holes[0], rest, "", holes[k]);
      assert segments[0] + holes[0] + rest + "" == Fill(segments, holes);
    }
  }

  /** `useCase.replace(/\s+/g, '-')`: the project, server and tool name. */
  function Slug(useCase: string): (r: string)
    ensures forall k :: 0 <= k < |r| ==> !Text.IsWhitespace(r[k])
    ensures Text.Strip(r, '-', false) == Text.Strip(useCase, '-', true)
  {
    Text.ReplaceRunsNoWhitespace(useCase, '-');
    Text.ReplaceRunsKeepsText(useCase, '-');
    Text.ReplaceWhitespaceRuns(useCase, '-')
  }

  /** `useCase.replace(/\s+/g, '_')`: the tool name the HTTP generator registers. */
  function Identifier(useCase: string): (r: string)
    ensures forall k :: 0 <= k < |r| ==> !Text.IsWhitespace(r[k])
    ensures Text.Strip(r, '_', false) == Text.Strip(useCase, '_', true)
  {
    Text.ReplaceRunsNoWhitespace(useCase, '_');
    Text.ReplaceRunsKeepsText(useCase, '_');
    Text.ReplaceWhitespaceRuns(useCase, '_')
  }

  /** Each maximal run of whitespace in the use case becomes exactly one `-`
      in the slug and one `_` in the identifier; with `PlainUseCase` this
      fixes both names. */
  lemma NamesOfRun(a: string, w: string, b: string)
    requires a == [] || !Text.IsWhitespace(a[|a| - 1])
    requires w != [] && forall k :: 0 <= k < |w| ==> Text.IsWhitespace(w[k])
    requires b == [] || !Text.IsWhitespace(b[0])
    ensures Slug(a + (w + b)) == Slug(a) + ("-" + Slug(b))
    ensures Identifier(a + (w + b)) == Identifier(a) + ("_" + Identifier(b))
  {
    Text.ReplaceRunsOneRun(a, w, b, '-');
    Text.ReplaceRunsOneRun(a, w, b, '_');
  }

  /** Two words separated by whitespace, as in `recipe API`: the slug joins
      them with one `-` and the identifier with one `_`. */
  lemma NamesOfTwoWords(x: string, w: string, y: string)
    requires forall k :: 0 <= k < |x| ==> !Text.IsWhitespace(x[k])
    requires w != [] && forall k :: 0 <= k < |w| ==> Text.IsWhitespace(w[k])
    requires forall k :: 0 <= k < |y| ==> !Text.IsWhitespace(y[k])
    ensures Slug(x + (w + y)) == x + ("-" + y)
    ensures Identifier(x + (w + y)) == x + ("_" + y)
  {
    NamesOfRun(x, w, y);
    PlainUseCase(x);
    PlainUseCase(y);
  }

  /** For a use case without dashes the identifier is the slug with its
      dashes turned into underscores. */
  lemma IdentifierFromSlug(useCase: string)
    requires '-' !in useCase
    ensures Identifier(useCase) == Text.ReplaceChar(Slug(useCase), '-', '_')
  {
    Text.ReplaceRunsSeparator(useCase, '-', '_');
  }

  /** A use case without whitespace names the project as it is. */
  lemma PlainUseCase(useCase: string)
    requires forall k :: 0 <= k < |useCase| ==> !Text.IsWhitespace(useCase[k])
    ensures Slug(useCase) == useCase && Identifier(useCase) == useCase
  {
    Text.ReplaceRunsIdentity(useCase, '-');
    Text.ReplaceRunsIdentity(useCase, '_');
  }

  /** `${i + 1}. ${s}` for each step, as `steps.map((s, i) => …)` builds them. */
  function Numbered(steps: seq<string>, from: nat): (r: seq<string>)
    ensures |r| == |steps|
    ensures forall i :: 0 <= i < |steps| ==> r[i] == Text.NatToString(from + i + 1) + ". " + steps[i]
    decreases |steps|
  {
    if steps == [] then []
    else [Text.NatToString(from + 1) + ". " + steps[0]] + Numbered(steps[1..], from + 1)
  }
}
