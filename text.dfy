/** The JavaScript string operations the handlers use: `includes`,
    `toLowerCase`, `join`, `slice(0, n)`, `replace(/\s+/g, sep)` and the
    decimal rendering of a number. Case mapping covers ASCII only. */
module Text {

  /** JavaScript's `\s` class: the WhiteSpace and LineTerminator code points. */
  predicate IsWhitespace(c: char)
  {
    || c == '\t' || c == '\n' || c == '\U{000B}' || c == '\U{000C}' || c == '\r' || c == ' '
    || c == '\U{00A0}' || c == '\U{1680}' || ('\U{2000}' <= c <= '\U{200A}')
    || c == '\U{2028}' || c == '\U{2029}' || c == '\U{202F}' || c == '\U{205F}'
    || c == '\U{3000}' || c == '\U{FEFF}'
  }

  function LowerChar(c: char): char
  {
    if 'A' <= c <= 'Z' then (c as int + 32) as char else c
  }

  function UpperChar(c: char): char
  {
    if 'a' <= c <= 'z' then (c as int - 32) as char else c
  }

  /** `s.toLowerCase()`. */
  function ToLower(s: string): string
  {
    seq(|s|, k requires 0 <= k < |s| => LowerChar(s[k]))
  }

  /** Lower-casing twice is lower-casing once. */
  lemma ToLowerIdempotent(s: string)
    ensures ToLower(ToLower(s)) == ToLower(s)
  {
  }

  /** `s.charAt(0).toUpperCase() + s.slice(1)`. */
  function Capitalize(s: string): string
  {
    if s == [] then [] else [UpperChar(s[0])] + s[1..]
  }

  /** `sub` occurs in `s` starting at index `i`. */
  ghost predicate OccursAt(s: string, sub: string, i: int)
  {
    0 <= i && i + |sub| <= |s| && s[i..i + |sub|] == sub
  }

  /** `s.includes(sub)`: scan from the left for a position where `sub` starts. */
  predicate Includes(s: string, sub: string)
    decreases |s|
  {
    sub <= s || (s != [] && Includes(s[1..], sub))
  }

  /** The scan finds `sub` exactly when it occurs somewhere in `s`. */
  lemma {:induction false} IncludesIffOccurs(s: string, sub: string)
    ensures Includes(s, sub) <==> exists i :: OccursAt(s, sub, i)
  {
    if sub <= s {
      assert OccursAt(s, sub, 0);
    } else if s != [] {
      IncludesIffOccurs(s[1..], sub);
      if exists i :: OccursAt(s, sub, i) {
        var i :| OccursAt(s, sub, i);
        assert i != 0;
        OccursDropFirst(s, sub, i);
      }
      if Includes(s[1..], sub) {
        var j :| OccursAt(s[1..], sub, j);
        OccursAddFirst(s, sub, j);
      }
    }
  }

  /** An occurrence after the first character is one in the tail. */
  lemma OccursDropFirst(s: string, sub: string, i: int)
    requires OccursAt(s, sub, i) && i > 0
    ensures OccursAt(s[1..], sub, i - 1)
  {
    assert s[1..][i - 1..i - 1 + |sub|] == s[i..i + |sub|];
  }

  /** An occurrence in the tail is one in the whole string. */
  lemma OccursAddFirst(s: string, sub: string, j: int)
    requires s != [] && OccursAt(s[1..], sub, j)
    ensures OccursAt(s, sub, j + 1)
  {
    assert s[j + 1..j + 1 + |sub|] == s[1..][j..j + |sub|];
  }

  /** A string found inside `mid` is found inside any string built around it. */
  lemma IncludesInside(pre: string, mid: string, post: string, sub: string)
    requires Includes(mid, sub)
    ensures Includes(pre + mid + post, sub)
  {
    IncludesIffOccurs(mid, sub);
    var i :| OccursAt(mid, sub, i);
    var s := pre + mid + post;
    assert s[|pre| + i..|pre| + i + |sub|] == mid[i..i + |sub|];
    assert OccursAt(s, sub, |pre| + i);
    IncludesIffOccurs(s, sub);
  }

  /** A slice equal to `sub` is found by the scan. */
  lemma IncludesAt(s: string, sub: string, i: nat)
    requires i + |sub| <= |s| && s[i..i + |sub|] == sub
    ensures Includes(s, sub)
  {
    assert OccursAt(s, sub, i);
    IncludesIffOccurs(s, sub);
  }

  /** Found inside something found is found. */
  lemma IncludesTransitive(s: string, mid: string, sub: string)
    requires Includes(s, mid) && Includes(mid, sub)
    ensures Includes(s, sub)
  {
    IncludesIffOccurs(s, mid);
    IncludesIffOccurs(mid, sub);
    var j :| OccursAt(s, mid, j);
    var i :| OccursAt(mid, sub, i);
    var w := s[j..j + |mid|];
    assert w == mid;
    forall k | 0 <= k < |sub|
      ensures s[j + i..j + i + |sub|][k] == sub[k]
    {
      assert s[j + i + k] == w[i + k];
      assert mid[i..i + |sub|][k] == mid[i + k];
    }
    assert s[j + i..j + i + |sub|] == sub;
    IncludesAt(s, sub, j + i);
  }

  /** Lower-casing keeps every occurrence: a literal match is also a
      case-insensitive match. */
  lemma IncludesToLower(s: string, sub: string)
    requires Includes(s, sub)
    ensures Includes(ToLower(s), ToLower(sub))
  {
    IncludesIffOccurs(s, sub);
    var i :| OccursAt(s, sub, i);
    assert ToLower(s)[i..i + |sub|] == ToLower(sub);
    assert OccursAt(ToLower(s), ToLower(sub), i);
    IncludesIffOccurs(ToLower(s), ToLower(sub));
  }

  /** `s.slice(0, n)`. */
  function Prefix(s: string, n: nat): (r: string)
    ensures r <= s
    ensures |r| == if |s| <= n then |s| else n
  {
    if |s| <= n then s else s[..n]
  }

  /** Where each of three concatenated strings sits in the whole. */
  lemma ConcatSlices(a: string, b: string, c: string)
    ensures |a + b + c| == |a| + |b| + |c| && a <= a + b + c
    ensures (a + b + c)[|a|..|a| + |b|] == b && (a + b + c)[|a| + |b|..] == c
  {
    var s := a + b + c;
    assert s[|a|..|a| + |b|] == b;
    assert s[|a| + |b|..] == c;
  }

  function SumLengths(parts: seq<string>): nat
  {
    if parts == [] then 0 else |parts[0]| + SumLengths(parts[1..])
  }

  /** `parts.join(sep)`. */
  function Join(parts: seq<string>, sep: string): (r: string)
    ensures |r| == SumLengths(parts) + (if parts == [] then 0 else (|parts| - 1) * |sep|)
  {
    if parts == [] then ""
    else if |parts| == 1 then parts[0]
    else parts[0] + sep + Join(parts[1..], sep)
  }

  /** Joining one more part appends one separator and the part. */
  lemma {:induction false} JoinSnoc(parts: seq<string>, sep: string, last: string)
    requires parts != []
    ensures Join(parts + [last], sep) == Join(parts, sep) + sep + last
  {
    if |parts| == 1 {
      assert parts + [last] == [parts[0], last];
    } else {
      assert (parts + [last])[1..] == parts[1..] + [last];
      JoinSnoc(parts[1..], sep, last);
    }
  }

  /** Every part can be found in the joined string. */
  lemma {:induction false} JoinIncludes(parts: seq<string>, sep: string, k: nat)
    requires k < |parts|
    ensures Includes(Join(parts, sep), parts[k])
  {
    if k == 0 {
      IncludesInside("", parts[0], Join(parts, sep)[|parts[0]|..], parts[0]);
      assert "" + parts[0] + Join(parts, sep)[|parts[0]|..] == Join(parts, sep);
    } else {
      JoinIncludes(parts[1..], sep, k - 1);
      IncludesInside(parts[0] + sep, Join(parts[1..], sep), "", parts[k]);
      assert parts[0] + sep + Join(parts[1..], sep) + "" == Join(parts, sep);
    }
  }

  /** Every part of a joined string placed between two others can be found. */
  lemma JoinInside(pre: string, parts: seq<string>, sep: string, post: string)
    ensures forall k :: 0 <= k < |parts| ==> Includes(pre + Join(parts, sep) + post, parts[k])
  {
    forall k | 0 <= k < |parts|
      ensures Includes(pre + Join(parts, sep) + post, parts[k])
    {
      JoinIncludes(parts, sep, k);
      IncludesInside(pre, Join(parts, sep), post, parts[k]);
    }
  }

  /** Two ways of cutting one string agree when neither head is a proper
      prefix of the other. */
  lemma PrefixFreeSplit(a1: string, t1: string, a2: string, t2: string)
    requires a1 + t1 == a2 + t2
    requires a1 <= a2 || a2 <= a1 ==> a1 == a2
    ensures a1 == a2 && t1 == t2
  {
    var s := a1 + t1;
    assert a1 == s[..|a1|] && a2 == s[..|a2|];
    assert t1 == s[|a1|..] && t2 == s[|a2|..];
  }

  /** A string cut at its last separator: when neither tail holds the
      separator, heads and tails agree. */
  lemma SplitAtLast(a1: string, t1: string, a2: string, t2: string, c: char)
    requires c !in t1 && c !in t2
    requires a1 + [c] + t1 == a2 + [c] + t2
    ensures a1 == a2 && t1 == t2
  {
    var s := a1 + [c] + t1;
    assert s[|a1|] == c && s[|a2|] == c;
    assert a1 == s[..|a1|] && a2 == s[..|a2|];
    assert t1 == s[|a1| + 1..] && t2 == s[|a2| + 1..];
  }

  /** The index of the first `c` in `s`. */
  function IndexOf(s: string, c: char): (i: nat)
    requires c in s
    ensures i < |s| && s[i] == c && c !in s[..i]
  {
    if s[0] == c then 0 else IndexOf(s[1..], c) + 1
  }

  /** `s.split(c)` for a one-character separator. */
  function Split(s: string, c: char): (r: seq<string>)
    ensures r != []
    ensures forall k :: 0 <= k < |r| ==> c !in r[k]
    decreases |s|
  {
    if c !in s then [s]
    else
      var i := IndexOf(s, c);
      [s[..i]] + Split(s[i + 1..], c)
  }

  /** Splitting a joined list gives the list back when no part holds the separator. */
  lemma {:induction false} SplitJoin(parts: seq<string>, c: char)
    requires parts != []
    requires forall k :: 0 <= k < |parts| ==> c !in parts[k]
    ensures Split(Join(parts, [c]), c) == parts
  {
    if |parts| > 1 {
      var s := Join(parts, [c]);
      assert s == parts[0] + [c] + Join(parts[1..], [c]);
      assert s[|parts[0]|] == c;
      assert s[..|parts[0]|] == parts[0];
      assert IndexOf(s, c) == |parts[0]|;
      assert s[|parts[0]| + 1..] == Join(parts[1..], [c]);
      SplitJoin(parts[1..], c);
    }
  }

  /** The rest of `s` after its leading run of whitespace. */
  function DropWhitespace(s: string): (r: string)
    ensures |r| <= |s| && r == s[|s| - |r|..]
    ensures r == [] || !IsWhitespace(r[0])
    ensures forall k :: 0 <= k < |s| - |r| ==> IsWhitespace(s[k])
  {
    if s != [] && IsWhitespace(s[0]) then DropWhitespace(s[1..]) else s
  }

  /** `s.replace(/\s+/g, sep)`: every maximal run of whitespace becomes one `sep`. */
  function ReplaceWhitespaceRuns(s: string, sep: char): (r: string)
    ensures |r| <= |s|
    decreases |s|
  {
    if s == [] then []
    else if IsWhitespace(s[0]) then [sep] + ReplaceWhitespaceRuns(DropWhitespace(s[1..]), sep)
    else [s[0]] + ReplaceWhitespaceRuns(s[1..], sep)
  }

  /** `s` without the separator `sep`, and without whitespace when
      `whitespaceToo` holds. */
  function Strip(s: string, sep: char, whitespaceToo: bool): string
  {
    if s == [] then []
    else (if s[0] == sep || (whitespaceToo && IsWhitespace(s[0])) then [] else [s[0]])
         + Strip(s[1..], sep, whitespaceToo)
  }

  /** With a separator that is not whitespace the result holds no whitespace. */
  lemma {:induction false} ReplaceRunsNoWhitespace(s: string, sep: char)
    requires !IsWhitespace(sep)
    ensures forall k :: 0 <= k < |ReplaceWhitespaceRuns(s, sep)| ==> !IsWhitespace(ReplaceWhitespaceRuns(s, sep)[k])
    decreases |s|
  {
    if s != [] {
      if IsWhitespace(s[0]) {
        ReplaceRunsNoWhitespace(DropWhitespace(s[1..]), sep);
      } else {
        ReplaceRunsNoWhitespace(s[1..], sep);
      }
    }
  }

  /** A string without whitespace is left as it is. */
  lemma {:induction false} ReplaceRunsIdentity(s: string, sep: char)
    requires forall k :: 0 <= k < |s| ==> !IsWhitespace(s[k])
    ensures ReplaceWhitespaceRuns(s, sep) == s
  {
    if s != [] {
      ReplaceRunsIdentity(s[1..], sep);
    }
  }

  lemma {:induction false} RemoveLeadingWhitespace(s: string, sep: char)
    requires !IsWhitespace(sep)
    ensures Strip(DropWhitespace(s), sep, true) == Strip(s, sep, true)
  {
    if s != [] && IsWhitespace(s[0]) {
      RemoveLeadingWhitespace(s[1..], sep);
    }
  }

  /** The non-whitespace characters keep their order: deleting whitespace and
      separators from the input or from the result gives the same string. */
  lemma {:induction false} ReplaceRunsKeepsText(s: string, sep: char)
    requires !IsWhitespace(sep)
    ensures Strip(ReplaceWhitespaceRuns(s, sep), sep, false) == Strip(s, sep, true)
    decreases |s|
  {
    ReplaceRunsNoWhitespace(s, sep);
    if s != [] {
      var r := ReplaceWhitespaceRuns(s, sep);
      if IsWhitespace(s[0]) {
        ReplaceRunsKeepsText(DropWhitespace(s[1..]), sep);
        RemoveLeadingWhitespace(s[1..], sep);
        assert r[1..] == ReplaceWhitespaceRuns(DropWhitespace(s[1..]), sep);
      } else {
        ReplaceRunsKeepsText(s[1..], sep);
        assert r[1..] == ReplaceWhitespaceRuns(s[1..], sep);
      }
    }
  }

  /** Behind a string that holds some non-whitespace character, dropping
      the leading run stops inside that string. */
  lemma {:induction false} DropWhitespaceConcat(x: string, y: string)
    requires x != [] && !IsWhitespace(x[|x| - 1])
    ensures DropWhitespace(x + y) == DropWhitespace(x) + y
    decreases |x|
  {
    var xy := x + y;
    assert xy[0] == x[0];
    if IsWhitespace(x[0]) {
      assert xy[1..] == x[1..] + y;
      DropWhitespaceConcat(x[1..], y);
    }
  }

  /** Dropping leading whitespace keeps a non-whitespace last character. */
  lemma DropWhitespaceKeepsLast(x: string)
    requires x != [] && !IsWhitespace(x[|x| - 1])
    ensures DropWhitespace(x) != [] && !IsWhitespace(DropWhitespace(x)[|DropWhitespace(x)| - 1])
  {
  }

  /** A whole run of whitespace is dropped, and nothing after it. */
  lemma {:induction false} DropWhitespaceRun(w: string, y: string)
    requires forall k :: 0 <= k < |w| ==> IsWhitespace(w[k])
    requires y == [] || !IsWhitespace(y[0])
    ensures DropWhitespace(w + y) == y
    decreases |w|
  {
    if w != [] {
      assert (w + y)[1..] == w[1..] + y;
      DropWhitespaceRun(w[1..], y);
    } else {
      assert w + y == y;
    }
  }

  /** Runs are replaced piecewise at a boundary that follows a
      non-whitespace character. */
  lemma {:induction false} ReplaceRunsConcat(a: string, b: string, sep: char)
    requires a == [] || !IsWhitespace(a[|a| - 1])
    ensures ReplaceWhitespaceRuns(a + b, sep) == ReplaceWhitespaceRuns(a, sep) + ReplaceWhitespaceRuns(b, sep)
    decreases |a|, 1
  {
    if a == [] {
      assert a + b == b;
    } else if IsWhitespace(a[0]) {
      ReplaceRunsConcatRun(a, b, sep);
    } else {
      ReplaceRunsConcatChar(a, b, sep);
    }
  }

  /** The step of `ReplaceRunsConcat` for a leading run of whitespace. */
  lemma {:induction false} ReplaceRunsConcatRun(a: string, b: string, sep: char)
    requires a != [] && IsWhitespace(a[0]) && !IsWhitespace(a[|a| - 1])
    ensures ReplaceWhitespaceRuns(a + b, sep) == ReplaceWhitespaceRuns(a, sep) + ReplaceWhitespaceRuns(b, sep)
    decreases |a|, 0
  {
    var d := DropWhitespace(a[1..]);
    LeadingRunThenText(a, b, sep);
    ReplaceRunsConcat(d, b, sep);
    RunsAfterWhitespace(a, sep);
    ConsAssoc(sep, ReplaceWhitespaceRuns(d, sep), ReplaceWhitespaceRuns(b, sep));
  }

  /** Putting one character in front of a concatenation. */
  lemma ConsAssoc(c: char, x: string, y: string)
    ensures [c] + (x + y) == ([c] + x) + y
  {
  }

  /** A leading run that ends inside `a` is replaced before anything of `b`
      is looked at. */
  lemma LeadingRunThenText(a: string, b: string, sep: char)
    requires a != [] && IsWhitespace(a[0]) && !IsWhitespace(a[|a| - 1])
    ensures var d := DropWhitespace(a[1..]);
            && (d == [] || !IsWhitespace(d[|d| - 1]))
            && ReplaceWhitespaceRuns(a + b, sep) == [sep] + ReplaceWhitespaceRuns(d + b, sep)
  {
    var rest := a[1..];
    var ab := a + b;
    assert ab[0] == a[0] && ab[1..] == rest + b;
    assert rest != [] && rest[|rest| - 1] == a[|a| - 1];
    DropWhitespaceConcat(rest, b);
    DropWhitespaceKeepsLast(rest);
    RunsAfterWhitespace(ab, sep);
  }

  /** The definition's step for a leading whitespace character. */
  lemma RunsAfterWhitespace(s: string, sep: char)
    requires s != [] && IsWhitespace(s[0])
    ensures ReplaceWhitespaceRuns(s, sep) == [sep] + ReplaceWhitespaceRuns(DropWhitespace(s[1..]), sep)
  {
  }

  /** The step of `ReplaceRunsConcat` for a leading non-whitespace character. */
  lemma {:induction false} ReplaceRunsConcatChar(a: string, b: string, sep: char)
    requires a != [] && !IsWhitespace(a[0]) && !IsWhitespace(a[|a| - 1])
    ensures ReplaceWhitespaceRuns(a + b, sep) == ReplaceWhitespaceRuns(a, sep) + ReplaceWhitespaceRuns(b, sep)
    decreases |a|, 0
  {
    var rest := a[1..];
    LeadingCharThenText(a, b, sep);
    ReplaceRunsConcat(rest, b, sep);
    ConsAssoc(a[0], ReplaceWhitespaceRuns(rest, sep), ReplaceWhitespaceRuns(b, sep));
  }

  /** A leading non-whitespace character is kept before anything of `b`
      is looked at. */
  lemma LeadingCharThenText(a: string, b: string, sep: char)
    requires a != [] && !IsWhitespace(a[0]) && !IsWhitespace(a[|a| - 1])
    ensures var rest := a[1..];
            && (rest == [] || !IsWhitespace(rest[|rest| - 1]))
            && ReplaceWhitespaceRuns(a, sep) == [a[0]] + ReplaceWhitespaceRuns(rest, sep)
            && ReplaceWhitespaceRuns(a + b, sep) == [a[0]] + ReplaceWhitespaceRuns(rest + b, sep)
  {
    var ab := a + b;
    assert ab[0] == a[0] && ab[1..] == a[1..] + b;
  }

  /** One maximal run of whitespace, however long, becomes exactly one `sep`. */
  lemma ReplaceRunsOneRun(a: string, w: string, b: string, sep: char)
    requires a == [] || !IsWhitespace(a[|a| - 1])
    requires w != [] && forall k :: 0 <= k < |w| ==> IsWhitespace(w[k])
    requires b == [] || !IsWhitespace(b[0])
    ensures ReplaceWhitespaceRuns(a + (w + b), sep) == ReplaceWhitespaceRuns(a, sep) + ([sep] + ReplaceWhitespaceRuns(b, sep))
  {
    ReplaceRunsConcat(a, w + b, sep);
    RunThenText(w, b, sep);
  }

  /** A run at the front becomes one `sep` before the rest. */
  lemma RunThenText(w: string, b: string, sep: char)
    requires w != [] && forall k :: 0 <= k < |w| ==> IsWhitespace(w[k])
    requires b == [] || !IsWhitespace(b[0])
    ensures ReplaceWhitespaceRuns(w + b, sep) == [sep] + ReplaceWhitespaceRuns(b, sep)
  {
    var t := w + b;
    assert t[0] == w[0] && IsWhitespace(t[0]);
    assert t[1..] == w[1..] + b;
    DropWhitespaceRun(w[1..], b);
  }

  /** `s` with every `a` turned into `b`. */
  function ReplaceChar(s: string, a: char, b: char): string
  {
    if s == [] then [] else [if s[0] == a then b else s[0]] + ReplaceChar(s[1..], a, b)
  }

  /** The same runs replaced with another separator: the two results differ
      only where the separators stand, if the input holds no first separator. */
  lemma {:induction false} ReplaceRunsSeparator(s: string, a: char, b: char)
    requires a !in s
    ensures ReplaceWhitespaceRuns(s, b) == ReplaceChar(ReplaceWhitespaceRuns(s, a), a, b)
    decreases |s|
  {
    if s != [] {
      var t := if IsWhitespace(s[0]) then DropWhitespace(s[1..]) else s[1..];
      assert a !in t by {
        assert forall k :: 0 <= k < |t| ==> t[k] == s[|s| - |t| + k];
      }
      ReplaceRunsSeparator(t, a, b);
      var r := ReplaceWhitespaceRuns(s, a);
      assert r[1..] == ReplaceWhitespaceRuns(t, a);
    }
  }

  function DigitChar(d: nat): char
    requires d < 10
  {
    "0123456789"[d]
  }

  /** The decimal rendering of a natural number. */
  function NatToString(n: nat): (r: string)
    ensures r != []
    ensures forall k :: 0 <= k < |r| ==> '0' <= r[k] <= '9'
    decreases n
  {
    if n < 10 then [DigitChar(n)] else NatToString(n / 10) + [DigitChar(n % 10)]
  }

  /** `String(i)` for an integer. */
  function IntToString(i: int): string
  {
    if i < 0 then "-" + NatToString(-i) else NatToString(i)
  }
}
