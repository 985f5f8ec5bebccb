/**
 * The Python string operations the modelled code relies on, written out:
 * `str.strip`, ASCII `str.lower`, `str.split`/`str.join`, `str.endswith`,
 * `str.rfind`, `str.replace`, pathlib's `stem`/`suffix`, the ordering of
 * `sorted` on names, and the frontmatter pattern `^---\n(.*?)\n---\n(.*)$`
 * matched with DOTALL.
 */
module Text {
  import opened Values

  // ---------------------------------------------------------------------------
  // Whitespace and strip
  // ---------------------------------------------------------------------------

  /** The characters for which Python's `str.isspace()` holds. */
  predicate IsSpace(c: char)
  {
    || c == ' '
    || ('\t' <= c <= '\r')
    || ('\U{1C}' <= c <= '\U{1F}')
    || c == '\U{85}' || c == '\U{A0}' || c == '\U{1680}'
    || ('\U{2000}' <= c <= '\U{200A}')
    || c == '\U{2028}' || c == '\U{2029}' || c == '\U{202F}' || c == '\U{205F}' || c == '\U{3000}'
  }

  function TrimStart(s: string): (r: string)
    ensures |r| <= |s| && r == s[|s| - |r|..]
    ensures forall i :: 0 <= i < |s| - |r| ==> IsSpace(s[i])
    ensures r == [] || !IsSpace(r[0])
  {
    if s != [] && IsSpace(s[0]) then TrimStart(s[1..]) else s
  }

  function TrimEnd(s: string): (r: string)
    ensures |r| <= |s| && r == s[..|r|]
    ensures forall i :: |r| <= i < |s| ==> IsSpace(s[i])
    ensures r == [] || !IsSpace(r[|r| - 1])
  {
    if s != [] && IsSpace(s[|s| - 1]) then TrimEnd(s[..|s| - 1]) else s
  }

  /** Neither end is whitespace: what `strip` leaves unchanged. */
  predicate IsStripped(s: string)
  {
    s == [] || (!IsSpace(s[0]) && !IsSpace(s[|s| - 1]))
  }

  /** Python's `str.strip()`. */
  function Strip(s: string): (r: string)
    ensures IsStripped(r)
    ensures IsStripped(s) ==> r == s
    ensures forall c :: c in r ==> c in s
  {
    var t := TrimStart(s);
    assert IsStripped(s) ==> t == s;
    var r := TrimEnd(t);
    SliceMembers(t, s, |s| - |t|);
    SliceMembers(r, t, 0);
    r
  }

  /** A stripped text followed by a newline strips back to itself. */
  lemma StripNewline(b: string)
    requires IsStripped(b)
    ensures Strip(b + "\n") == b
  {
    TrimStartNewline(b);
    TrimEndNewline(b);
  }

  lemma TrimStartNewline(b: string)
    requires IsStripped(b)
    ensures TrimStart(b + "\n") == if b == [] then [] else b + "\n"
  {
    var s := b + "\n";
    if b == [] {
      assert s[1..] == [];
    } else {
      assert s[0] == b[0];
    }
  }

  lemma TrimEndNewline(b: string)
    requires IsStripped(b)
    ensures TrimEnd(b + "\n") == b
  {
    var s := b + "\n";
    assert s[..|s| - 1] == b;
  }

  lemma SliceMembers(r: string, s: string, k: nat)
    requires k + |r| <= |s| && r == s[k..k + |r|]
    ensures forall c :: c in r ==> c in s
  {
    forall c | c in r
      ensures c in s
    {
      var i :| 0 <= i < |r| && r[i] == c;
      assert s[k + i] == c;
    }
  }

  lemma StripLeadingSpace(c: char, s: string)
    requires IsSpace(c)
    ensures Strip([c] + s) == Strip(s)
  {
    assert ([c] + s)[1..] == s;
  }

  // ---------------------------------------------------------------------------
  // Case
  // ---------------------------------------------------------------------------

  function LowerChar(c: char): char
  {
    if 'A' <= c <= 'Z' then (c as int + 32) as char else c
  }

  predicate NoUpper(s: string)
  {
    forall i :: 0 <= i < |s| ==> !('A' <= s[i] <= 'Z')
  }

  /** Python's `str.lower()` on ASCII letters. */
  function Lower(s: string): (r: string)
    ensures |r| == |s| && NoUpper(r)
    ensures forall i :: 0 <= i < |s| ==> r[i] == LowerChar(s[i])
    ensures NoUpper(s) ==> r == s
  {
    if s == [] then [] else [LowerChar(s[0])] + Lower(s[1..])
  }

  // ---------------------------------------------------------------------------
  // Split and join
  // ---------------------------------------------------------------------------

  /** Python's `glue.join(parts)`. */
  function Join(parts: seq<string>, glue: string): string
  {
    if |parts| == 0 then []
    else if |parts| == 1 then parts[0]
    else parts[0] + glue + Join(parts[1..], glue)
  }

  /** Python's `s.split(sep)` for a one-character separator. */
  function SplitOn(s: string, sep: char): (r: seq<string>)
    ensures |r| >= 1
    ensures forall i :: 0 <= i < |r| ==> sep !in r[i]
    ensures Join(r, [sep]) == s
  {
    if s == [] then [[]]
    else
      var rest := SplitOn(s[1..], sep);
      if s[0] == sep then
        assert Join([[]] + rest, [sep]) == [] + [sep] + Join(rest, [sep]);
        [[]] + rest
      else
        var r := [[s[0]] + rest[0]] + rest[1..];
        assert r[1..] == rest[1..];
        assert |rest| > 1 ==> Join(rest, [sep]) == rest[0] + [sep] + Join(rest[1..], [sep]);
        r
  }

  lemma {:induction false} SplitNoSeparator(a: string, sep: char)
    requires sep !in a
    ensures SplitOn(a, sep) == [a]
  {
    if a != [] {
      SplitNoSeparator(a[1..], sep);
    }
  }

  lemma {:induction false} SplitAtSeparator(a: string, sep: char, b: string)
    requires sep !in a
    ensures SplitOn(a + [sep] + b, sep) == [a] + SplitOn(b, sep)
  {
    if a == [] {
      assert a + [sep] + b == [sep] + b;
      assert ([sep] + b)[1..] == b;
    } else {
      assert (a + [sep] + b)[1..] == a[1..] + [sep] + b;
      SplitAtSeparator(a[1..], sep, b);
      assert [a[0]] + a[1..] == a;
    }
  }

  /** The stripped non-empty pieces, as `[t.strip() for t in pieces if t.strip()]`. */
  function Clean(pieces: seq<string>): (r: seq<string>)
    ensures forall t :: t in r ==> t != [] && IsStripped(t)
  {
    if pieces == [] then []
    else
      var t := Strip(pieces[0]);
      var rest := Clean(pieces[1..]);
      if t != [] then [t] + rest else rest
  }

  /** Stripping adds no character: one absent from every piece is absent from every cleaned piece. */
  lemma {:induction false} CleanKeepsOut(pieces: seq<string>, c: char)
    requires forall i :: 0 <= i < |pieces| ==> c !in pieces[i]
    ensures forall t :: t in Clean(pieces) ==> c !in t
  {
    if pieces != [] {
      var tail := pieces[1..];
      forall i | 0 <= i < |tail|
        ensures c !in tail[i]
      {
        assert tail[i] == pieces[i + 1];
      }
      CleanKeepsOut(tail, c);
      CleanStep(pieces);
    }
  }

  /** One step of `Clean`: the first piece, stripped, heads the result unless it is empty. */
  lemma CleanStep(pieces: seq<string>)
    requires pieces != []
    ensures var t := Strip(pieces[0]);
      Clean(pieces) == if t != [] then [t] + Clean(pieces[1..]) else Clean(pieces[1..])
  {
  }

  /** A tool name that survives being joined with ", " and split again. */
  predicate ToolName(t: string)
  {
    t != [] && IsStripped(t) && ',' !in t
  }

  /** `[t.strip() for t in s.split(',') if t.strip()]`. */
  function SplitTools(s: string): (r: seq<string>)
    ensures forall t :: t in r ==> ToolName(t)
  {
    CleanKeepsOut(SplitOn(s, ','), ',');
    Clean(SplitOn(s, ','))
  }

  /** Splitting the ", "-joined list of tool names gives the list back. */
  lemma JoinThenSplitTools(tools: seq<string>)
    requires forall i :: 0 <= i < |tools| ==> ToolName(tools[i])
    ensures SplitTools(Join(tools, ", ")) == tools
  {
    CleanJoined("", tools);
    assert "" + Join(tools, ", ") == Join(tools, ", ");
  }

  lemma {:induction false} CleanJoined(p: string, tools: seq<string>)
    requires p == "" || p == " "
    requires forall i :: 0 <= i < |tools| ==> ToolName(tools[i])
    ensures Clean(SplitOn(p + Join(tools, ", "), ',')) == tools
    decreases |tools|
  {
    if tools == [] {
      assert p + Join(tools, ", ") == p;
      SplitNoSeparator(p, ',');
      assert Clean([p]) == [];
    } else if |tools| == 1 {
      CleanJoinedOne(p, tools[0]);
    } else {
      JoinedLayout(p, tools);
      CleanJoined(" ", tools[1..]);
      SplitCleanCons(p, tools[0], Join(tools[1..], ", "), tools[1..]);
      HeadTail(tools);
    }
  }

  lemma CleanJoinedOne(p: string, t: string)
    requires p == "" || p == " "
    requires ToolName(t)
    ensures Clean(SplitOn(p + Join([t], ", "), ',')) == [t]
  {
    PrefixedToolName(p, t);
    SplitNoSeparator(p + t, ',');
    CleanCons(p + t, []);
  }

  /** One more tool name in front of a ", "-separated rest. */
  lemma SplitCleanCons(p: string, t: string, rest: string, names: seq<string>)
    requires p == "" || p == " "
    requires ToolName(t)
    requires Clean(SplitOn(" " + rest, ',')) == names
    ensures Clean(SplitOn((p + t) + [','] + (" " + rest), ',')) == [t] + names
  {
    PrefixedToolName(p, t);
    SplitAtSeparator(p + t, ',', " " + rest);
    CleanCons(p + t, SplitOn(" " + rest, ','));
  }

  /** A non-empty sequence is its head followed by its tail. */
  lemma HeadTail<T>(s: seq<T>)
    requires s != []
    ensures [s[0]] + s[1..] == s
  {
  }

  lemma JoinedLayout(p: string, tools: seq<string>)
    requires |tools| >= 2
    ensures p + Join(tools, ", ") == (p + tools[0]) + [','] + (" " + Join(tools[1..], ", "))
  {
    var rest := Join(tools[1..], ", ");
    assert Join(tools, ", ") == tools[0] + ", " + rest;
    assert ", " == [','] + " ";
    Regroup(p, tools[0], [','], " ", rest);
  }

  lemma Regroup<T>(p: seq<T>, t: seq<T>, a: seq<T>, b: seq<T>, rest: seq<T>)
    ensures p + (t + (a + b) + rest) == (p + t) + a + (b + rest)
  {
  }

  lemma PrefixedToolName(p: string, t: string)
    requires p == "" || p == " "
    requires ToolName(t)
    ensures ',' !in p + t && Strip(p + t) == t
  {
    if p == " " {
      StripLeadingSpace(' ', t);
      assert [' '] + t == p + t;
    } else {
      assert p + t == t;
    }
  }

  lemma CleanCons(a: string, rest: seq<string>)
    requires Strip(a) != []
    ensures Clean([a] + rest) == [Strip(a)] + Clean(rest)
  {
    assert ([a] + rest)[1..] == rest;
  }

  // ---------------------------------------------------------------------------
  // Affixes, search, replace, pathlib names
  // ---------------------------------------------------------------------------

  predicate StartsWith(s: string, prefix: string)
  {
    |prefix| <= |s| && s[..|prefix|] == prefix
  }

  predicate EndsWith(s: string, suffix: string)
  {
    |suffix| <= |s| && s[|s| - |suffix|..] == suffix
  }

  /** Python's `s.rfind(c)`: the last index holding `c`, or -1. */
  function RFind(s: string, c: char): (r: int)
    ensures -1 <= r < |s|
    ensures r >= 0 ==> s[r] == c
    ensures forall j :: r < j < |s| ==> s[j] != c
  {
    if s == [] then -1
    else if s[|s| - 1] == c then |s| - 1
    else RFind(s[..|s| - 1], c)
  }

  /** pathlib's `PurePath.suffix` of a final path component. */
  function Suffix(name: string): string
  {
    var i := RFind(name, '.');
    if 0 < i < |name| - 1 then name[i..] else ""
  }

  /** pathlib's `PurePath.stem` of a final path component. */
  function Stem(name: string): string
  {
    var i := RFind(name, '.');
    if 0 < i < |name| - 1 then name[..i] else name
  }

  /** The final component of a '/'-separated path (pathlib's `name`). */
  function BaseName(path: string): (r: string)
    ensures '/' !in r
    ensures EndsWith(path, r)
  {
    var i := RFind(path, '/');
    path[i + 1..]
  }

  /** A name without a separator is its own final component. */
  lemma BaseNameOfName(name: string)
    requires '/' !in name
    ensures BaseName(name) == name
  {
  }

  /** Appending the same text to both sides does not change whether one ends with the other. */
  lemma EndsWithAppended(s: string, u: string, t: string)
    ensures EndsWith(s + t, u + t) <==> EndsWith(s, u)
  {
    if EndsWith(s, u) {
      assert (s + t)[|s + t| - |u + t|..] == s[|s| - |u|..] + t;
    }
    if EndsWith(s + t, u + t) {
      var tail := (s + t)[|s + t| - |u + t|..];
      assert tail[..|u|] == s[|s| - |u|..];
      assert tail[..|u|] == (u + t)[..|u|] == u;
    }
  }

  /** Python's `s.replace(pat, rep)`: every non-overlapping occurrence, left to right. */
  function ReplaceAll(s: string, pat: string, rep: string): string
    requires pat != []
    decreases |s|
  {
    if |s| < |pat| then s
    else if s[..|pat|] == pat then rep + ReplaceAll(s[|pat|..], pat, rep)
    else [s[0]] + ReplaceAll(s[1..], pat, rep)
  }

  /** `pat` occurs in `s` starting at index `i`. */
  predicate OccursAt(s: string, pat: string, i: nat)
  {
    i + |pat| <= |s| && s[i..i + |pat|] == pat
  }

  /** Python's `pat in s`. */
  predicate Contains(s: string, pat: string)
  {
    exists i: nat :: i <= |s| && OccursAt(s, pat, i)
  }

  /**
   * Removing a pattern from a text that ends with it, and holds it nowhere
   * else, leaves the text before it, when the pattern's first character does
   * not recur inside the pattern (so no occurrence can straddle the two parts).
   */
  lemma {:induction false} ReplaceAllTrailing(a: string, pat: string)
    requires pat != [] && forall k :: 0 < k < |pat| ==> pat[k] != pat[0]
    requires !Contains(a, pat)
    ensures ReplaceAll(a + pat, pat, "") == a
    decreases |a|
  {
    var s := a + pat;
    if a == [] {
      assert s == pat;
      assert s[..|pat|] == pat;
      assert s[|pat|..] == [];
    } else {
      assert s[..|pat|] != pat by {
        if |a| >= |pat| {
          assert s[..|pat|] == a[0..|pat|];
          assert !OccursAt(a, pat, 0);
        } else {
          assert s[..|pat|][|a|] == pat[0] != pat[|a|];
        }
      }
      var rest := a[1..];
      assert s[1..] == rest + pat;
      forall i: nat | OccursAt(rest, pat, i) ensures OccursAt(a, pat, i + 1) {
        assert a[i + 1..i + 1 + |pat|] == rest[i..i + |pat|];
      }
      ReplaceAllTrailing(rest, pat);
      assert [a[0]] + rest == a;
    }
  }

  // ---------------------------------------------------------------------------
  // The frontmatter pattern
  // ---------------------------------------------------------------------------

  const Marker: string := "\n---\n"

  predicate MarkerAt(s: string, i: nat)
  {
    i + 5 <= |s| && s[i..i + 5] == Marker
  }

  /** The first index at or after `from` where the closing marker starts. */
  function FindMarker(s: string, from: nat): (r: Option<nat>)
    ensures r.Some? ==> from <= r.value && MarkerAt(s, r.value)
    ensures r.Some? ==> forall j :: from <= j < r.value ==> !MarkerAt(s, j)
    ensures r.None? ==> forall j :: from <= j ==> !MarkerAt(s, j)
    decreases |s| - from
  {
    if from + 5 > |s| then None
    else if MarkerAt(s, from) then Some(from)
    else FindMarker(s, from + 1)
  }

  /**
   * `re.match(r'^---\n(.*?)\n---\n(.*)$', content, re.DOTALL)`: the shortest
   * frontmatter group and the rest of the content, or None when it fails.
   */
  function MatchFrontmatter(content: string): (r: Option<(string, string)>)
    ensures r.Some? ==> content == "---\n" + r.value.0 + Marker + r.value.1
    ensures r.Some? ==> forall j :: 4 <= j < 4 + |r.value.0| ==> !MarkerAt(content, j)
    ensures r.None? ==> !StartsWith(content, "---\n") || forall j :: 4 <= j ==> !MarkerAt(content, j)
  {
    if StartsWith(content, "---\n") then
      match FindMarker(content, 4)
      case Some(i) =>
        assert content == content[..4] + content[4..i] + content[i..i + 5] + content[i + 5..];
        Some((content[4..i], content[i + 5..]))
      case None => None
    else None
  }

  /** No closing marker starts inside the first `n` characters of `s`. */
  predicate NoMarkerBefore(s: string, n: nat)
  {
    forall j :: 0 <= j < n ==> !MarkerAt(s, j)
  }

  /** A document laid out as `---\n<yaml>\n---\n<body>` is split back into its parts. */
  lemma MatchFrontmatterOfLayout(yaml: string, body: string)
    requires NoMarkerBefore(yaml + Marker, |yaml|)
    ensures MatchFrontmatter("---\n" + yaml + Marker + body) == Some((yaml, body))
  {
    var c := "---\n" + yaml + Marker + body;
    assert StartsWith(c, "---\n");
    forall j | 4 <= j < 4 + |yaml|
      ensures !MarkerAt(c, j)
    {
      assert !MarkerAt(yaml + Marker, j - 4);
      assert c[j..j + 5] == (yaml + Marker)[j - 4..j + 1];
    }
    assert MarkerAt(c, 4 + |yaml|) by {
      assert c[4 + |yaml|..4 + |yaml| + 5] == Marker;
    }
    var r := FindMarker(c, 4);
    assert r == Some(4 + |yaml|);
    assert c[4..4 + |yaml|] == yaml;
    assert c[4 + |yaml| + 5..] == body;
  }

  // ---------------------------------------------------------------------------
  // The order of `sorted` on names
  // ---------------------------------------------------------------------------

  /** Python's `a < b` on strings: lexicographic by code point. */
  predicate StrLt(a: string, b: string)
  {
    if a == [] then b != []
    else if b == [] then false
    else if a[0] != b[0] then a[0] < b[0]
    else StrLt(a[1..], b[1..])
  }

  lemma {:induction false} StrLtIrreflexive(a: string)
    ensures !StrLt(a, a)
  {
    if a != [] {
      StrLtIrreflexive(a[1..]);
    }
  }

  lemma {:induction false} StrLtTransitive(a: string, b: string, c: string)
    requires StrLt(a, b) && StrLt(b, c)
    ensures StrLt(a, c)
  {
    if a != [] && b != [] && c != [] && a[0] == b[0] == c[0] {
      StrLtTransitive(a[1..], b[1..], c[1..]);
    }
  }

  lemma {:induction false} StrLtTotal(a: string, b: string)
    requires a != b
    ensures StrLt(a, b) || StrLt(b, a)
  {
    if a != [] && b != [] && a[0] == b[0] {
      assert a == [a[0]] + a[1..] && b == [b[0]] + b[1..];
      StrLtTotal(a[1..], b[1..]);
    }
  }

  predicate IsLeast(m: string, names: set<string>)
  {
    m in names && forall x :: x in names ==> x == m || StrLt(m, x)
  }

  /** Every non-empty finite set of names has a least element. */
  lemma {:induction false} LeastExists(names: set<string>)
    requires names != {}
    ensures exists m :: IsLeast(m, names)
    decreases |names|
  {
    var x :| x in names;
    var others := names - {x};
    if others == {} {
      assert names == {x};
      assert IsLeast(x, names);
    } else {
      LeastExists(others);
      var m :| IsLeast(m, others);
      if StrLt(x, m) {
        forall y | y in names
          ensures y == x || StrLt(x, y)
        {
          if y != x && y != m {
            StrLtTransitive(x, m, y);
          }
        }
        assert IsLeast(x, names);
      } else {
        StrLtTotal(x, m);
        assert IsLeast(m, names);
      }
    }
  }

  predicate Sorted(names: seq<string>)
  {
    forall i, j :: 0 <= i < j < |names| ==> StrLt(names[i], names[j])
  }
}
