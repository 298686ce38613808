/**
  String operations of JavaScript that the exporter and the store rely on:
  `Array.prototype.join`, `String.prototype.split` with a one-character
  separator, `String.prototype.startsWith`, and the newline re-indentation
  `s.replace(/\n/g, '\n  ')` used for Markdown list items, with its inverse.
 */
module Strings {

  /** `parts.join(sep)`: the parts in order, `sep` between neighbours. */
  function Join(parts: seq<string>, sep: string): string
  {
    if |parts| == 0 then ""
    else if |parts| == 1 then parts[0]
    else parts[0] + sep + Join(parts[1..], sep)
  }

  /** Joining two non-empty runs of parts puts one separator between them. */
  lemma {:induction false} JoinAppend(a: seq<string>, b: seq<string>, sep: string)
    requires a != [] && b != []
    ensures Join(a + b, sep) == Join(a, sep) + sep + Join(b, sep)
  {
    if |a| == 1 {
      assert (a + b)[1..] == b;
    } else {
      assert (a + b)[1..] == a[1..] + b;
      JoinAppend(a[1..], b, sep);
    }
  }

  /** With the empty separator (`join('')`) joining is concatenation, so it
      distributes over `+` even when a side is empty. */
  lemma ConcatAppend(a: seq<string>, b: seq<string>)
    ensures Join(a + b, "") == Join(a, "") + Join(b, "")
  {
    if a == [] {
      assert a + b == b;
    } else if b == [] {
      assert a + b == a;
    } else {
      JoinAppend(a, b, "");
    }
  }

  /** `s.split(c)`: the maximal runs between occurrences of `c`; never empty. */
  function Split(s: string, c: char): (r: seq<string>)
    ensures |r| >= 1
  {
    if s == [] then [""]
    else
      var rest := Split(s[1..], c);
      if s[0] == c then [""] + rest
      else [[s[0]] + rest[0]] + rest[1..]
  }

  lemma {:induction false} SplitNoSeparator(p: string, c: char)
    requires c !in p
    ensures Split(p, c) == [p]
  {
    if p != [] {
      SplitNoSeparator(p[1..], c);
      assert [p[0]] + p[1..] == p;
    }
  }

  lemma {:induction false} SplitAfterPart(p: string, c: char, rest: string)
    requires c !in p
    ensures Split(p + [c] + rest, c) == [p] + Split(rest, c)
  {
    if p == [] {
      assert (p + [c] + rest)[1..] == rest;
    } else {
      assert (p + [c] + rest)[1..] == p[1..] + [c] + rest;
      SplitAfterPart(p[1..], c, rest);
      assert [p[0]] + p[1..] == p;
    }
  }

  /** Splitting undoes joining when no part holds the separator. */
  lemma {:induction false} SplitJoin(parts: seq<string>, c: char)
    requires parts != []
    requires forall i :: 0 <= i < |parts| ==> c !in parts[i]
    ensures Split(Join(parts, [c]), c) == parts
  {
    if |parts| == 1 {
      SplitNoSeparator(parts[0], c);
    } else {
      SplitJoin(parts[1..], c);
      SplitAfterPart(parts[0], c, Join(parts[1..], [c]));
    }
  }

  /** `s.startsWith(prefix)` */
  predicate StartsWith(s: string, prefix: string)
  {
    |prefix| <= |s| && s[..|prefix|] == prefix
  }

  /** `s.replace(/\n/g, '\n  ')`: every line feed gains a two-space indent,
      so the text grows by two characters per line feed, and a text without
      line feeds is left as it is. */
  function Indent(s: string): (r: string)
    ensures |r| == |s| + 2 * LineFeeds(s)
    ensures LineFeeds(s) == 0 ==> r == s
  {
    if s == [] then []
    else (if s[0] == '\n' then "\n  " else [s[0]]) + Indent(s[1..])
  }

  /** The number of line feeds in `s`. */
  function LineFeeds(s: string): nat
  {
    if s == [] then 0 else (if s[0] == '\n' then 1 else 0) + LineFeeds(s[1..])
  }

  /** Turns every line feed followed by two spaces back into a bare line feed. */
  function Unindent(s: string): string
  {
    if s == [] then []
    else if |s| >= 3 && s[..3] == "\n  " then "\n" + Unindent(s[3..])
    else [s[0]] + Unindent(s[1..])
  }

  /** The re-indentation loses nothing: the original text can be recovered. */
  lemma {:induction false} UnindentIndent(s: string)
    ensures Unindent(Indent(s)) == s
  {
    if s != [] {
      var rest := Indent(s[1..]);
      if s[0] == '\n' {
        assert Indent(s) == "\n  " + rest;
        assert (Indent(s))[3..] == rest;
      } else {
        assert Indent(s) == [s[0]] + rest;
        assert (Indent(s))[1..] == rest;
      }
      UnindentIndent(s[1..]);
    }
  }

  /** Every line feed in `s` is followed by two spaces. */
  predicate WellIndented(s: string)
  {
    forall i :: 0 <= i < |s| && s[i] == '\n' ==> i + 2 < |s| && s[i + 1] == ' ' && s[i + 2] == ' '
  }

  lemma {:induction false} IndentWellIndented(s: string)
    ensures WellIndented(Indent(s))
  {
    if s != [] {
      IndentWellIndented(s[1..]);
      var head := if s[0] == '\n' then "\n  " else [s[0]];
      PrefixWellIndented(head, Indent(s[1..]));
    }
  }

  /** A well-indented text stays so behind a prefix whose own line feeds are
      well indented inside it. */
  lemma PrefixWellIndented(p: string, s: string)
    requires WellIndented(p) && WellIndented(s)
    ensures WellIndented(p + s)
  {
    var t := p + s;
    forall i | 0 <= i < |t| && t[i] == '\n'
      ensures i + 2 < |t| && t[i + 1] == ' ' && t[i + 2] == ' '
    {
      if i < |p| {
        assert p[i] == '\n';
      } else {
        assert s[i - |p|] == '\n';
      }
    }
  }
}
