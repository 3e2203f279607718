/** String operations the URL inputs rely on: ECMAScript `String.prototype.trim`,
    `String.prototype.split` on a one-character separator, and the bulk-input
    pipeline `text.split("\n").map(trim).filter(nonEmpty)`. */
module Text {

  /** ECMAScript WhiteSpace and LineTerminator code points, the set `trim` strips:
      TAB, VT, FF, SPACE, NBSP, ZWNBSP, the Zs category, LF, CR, LS and PS. */
  predicate IsWhitespace(c: char) {
    var n := c as int;
    n == 0x09 || n == 0x0B || n == 0x0C || n == 0x20 || n == 0xA0 || n == 0xFEFF
    || n == 0x1680 || (0x2000 <= n <= 0x200A) || n == 0x202F || n == 0x205F || n == 0x3000
    || n == 0x0A || n == 0x0D || n == 0x2028 || n == 0x2029
  }

  /** Every character of `s` is whitespace (so `s.trim()` is the empty, falsy string). */
  predicate IsBlank(s: string) {
    forall i :: 0 <= i < |s| ==> IsWhitespace(s[i])
  }

  /** Neither end of `s` is whitespace. */
  predicate IsTrimmed(s: string) {
    s == [] || (!IsWhitespace(s[0]) && !IsWhitespace(s[|s| - 1]))
  }

  /** Number of whitespace characters at the start of `s`. */
  function LeadingBlanks(s: string): (n: nat)
    ensures n <= |s|
  {
    if s != [] && IsWhitespace(s[0]) then 1 + LeadingBlanks(s[1..]) else 0
  }

  /** Number of whitespace characters at the end of `s`. */
  function TrailingBlanks(s: string): (n: nat)
    ensures n <= |s|
  {
    if s != [] && IsWhitespace(s[|s| - 1]) then 1 + TrailingBlanks(s[..|s| - 1]) else 0
  }

  /** LeadingBlanks counts the longest blank prefix: the prefix is blank and the
      character after it is not whitespace. */
  lemma {:induction false} LeadingBlanksSpec(s: string)
    ensures IsBlank(s[..LeadingBlanks(s)])
    ensures LeadingBlanks(s) < |s| ==> !IsWhitespace(s[LeadingBlanks(s)])
  {
    if s != [] && IsWhitespace(s[0]) {
      LeadingBlanksSpec(s[1..]);
      assert s[..LeadingBlanks(s)] == [s[0]] + s[1..][..LeadingBlanks(s[1..])];
    }
  }

  /** TrailingBlanks counts the longest blank suffix. */
  lemma {:induction false} TrailingBlanksSpec(s: string)
    ensures IsBlank(s[|s| - TrailingBlanks(s)..])
    ensures TrailingBlanks(s) < |s| ==> !IsWhitespace(s[|s| - TrailingBlanks(s) - 1])
  {
    if s != [] && IsWhitespace(s[|s| - 1]) {
      var init := s[..|s| - 1];
      TrailingBlanksSpec(init);
      assert s[|s| - TrailingBlanks(s)..] == init[|init| - TrailingBlanks(init)..] + [s[|s| - 1]];
    }
  }

  /** `s` with its leading whitespace removed. */
  function TrimStart(s: string): string {
    s[LeadingBlanks(s)..]
  }

  /** `s` with its trailing whitespace removed. */
  function TrimEnd(s: string): string {
    s[..|s| - TrailingBlanks(s)]
  }

  /** `s.trim()`: both ends stripped. */
  function Trim(s: string): (r: string)
    ensures |r| <= |s|
    ensures IsTrimmed(r)
  {
    var t := TrimStart(s);
    LeadingBlanksSpec(s);
    TrailingBlanksSpec(t);
    TrimEnd(t)
  }

  lemma BlankConcat(a: string, b: string)
    requires IsBlank(a) && IsBlank(b)
    ensures IsBlank(a + b)
  {
  }

  /** `s.trim()` is empty, and so falsy, exactly when `s` is blank. */
  lemma TrimEmptyIffBlank(s: string)
    ensures Trim(s) == [] <==> IsBlank(s)
  {
    var k := LeadingBlanks(s);
    var t := TrimStart(s);
    LeadingBlanksSpec(s);
    if Trim(s) == [] {
      TrailingBlanksSpec(t);
      assert t[|t| - TrailingBlanks(t)..] == t;
      assert s == s[..k] + t;
      BlankConcat(s[..k], t);
    }
  }

  /** Trim removes a blank prefix and a blank suffix and nothing else: `s` is made of
      a blank prefix of LeadingBlanks(s) characters, `Trim(s)` and a blank remainder. */
  lemma TrimSlices(s: string)
    ensures LeadingBlanks(s) + |Trim(s)| <= |s|
    ensures Trim(s) == s[LeadingBlanks(s)..LeadingBlanks(s) + |Trim(s)|]
    ensures IsBlank(s[..LeadingBlanks(s)]) && IsBlank(s[LeadingBlanks(s) + |Trim(s)|..])
  {
    var k := LeadingBlanks(s);
    var t := TrimStart(s);
    var m := |t| - TrailingBlanks(t);
    LeadingBlanksSpec(s);
    TrailingBlanksSpec(t);
    assert Trim(s) == t[..m];
    assert t[m..] == t[|t| - TrailingBlanks(t)..];
    SliceOfSuffix(s, k, m);
  }

  lemma SliceOfSuffix(s: string, p: nat, k: nat)
    requires p + k <= |s|
    ensures s[p..][..k] == s[p..p + k] && s[p..][k..] == s[p + k..]
  {
  }

  /** A blank prefix followed by a non-whitespace character is exactly what LeadingBlanks counts. */
  lemma {:induction false} LeadingBlanksOfBlankPrefix(p: string, u: string)
    requires IsBlank(p)
    requires u == [] || !IsWhitespace(u[0])
    ensures LeadingBlanks(p + u) == |p|
  {
    if p != [] {
      assert (p + u)[1..] == p[1..] + u;
      LeadingBlanksOfBlankPrefix(p[1..], u);
    }
  }

  /** A blank suffix preceded by a non-whitespace character is exactly what TrailingBlanks counts. */
  lemma {:induction false} TrailingBlanksOfBlankSuffix(u: string, q: string)
    requires IsBlank(q)
    requires u == [] || !IsWhitespace(u[|u| - 1])
    ensures TrailingBlanks(u + q) == |q|
  {
    if q != [] {
      assert (u + q)[..|u + q| - 1] == u + q[..|q| - 1];
      TrailingBlanksOfBlankSuffix(u, q[..|q| - 1]);
    }
  }

  /** Trim is fully determined by its specification: whenever `s` is a blank
      prefix, a trimmed core and a blank suffix, `Trim(s)` is that core. */
  lemma TrimUnique(p: string, t: string, q: string)
    requires IsBlank(p) && IsTrimmed(t) && IsBlank(q)
    ensures Trim(p + t + q) == t
  {
    var s := p + t + q;
    assert s == p + (t + q);
    if t == [] {
      assert s == p + q;
      BlankConcat(p, q);
      TrimEmptyIffBlank(s);
    } else {
      LeadingBlanksOfBlankPrefix(p, t + q);
      assert TrimStart(s) == t + q;
      TrailingBlanksOfBlankSuffix(t, q);
      assert TrimEnd(t + q) == (t + q)[..|t|];
      assert (t + q)[..|t|] == t;
    }
  }

  /** `s.trim()` leaves `s` alone exactly when `s` is already trimmed. */
  lemma TrimFixpoint(s: string)
    ensures Trim(s) == s <==> IsTrimmed(s)
  {
  }

  /** Trimming twice is trimming once. */
  lemma TrimIdempotent(s: string)
    ensures Trim(Trim(s)) == Trim(s)
  {
  }

  /** `s.split(sep)` for a one-character separator: the maximal separator-free
      pieces between separators, always at least one (`"".split("\n")` is `[""]`). */
  function Split(s: string, sep: char): (r: seq<string>)
    ensures |r| >= 1
  {
    if s == [] then [[]]
    else
      var rest := Split(s[1..], sep);
      if s[0] == sep then [[]] + rest
      else [[s[0]] + rest[0]] + rest[1..]
  }

  /** No piece of a split contains the separator. */
  lemma {:induction false} SplitPiecesLackSep(s: string, sep: char)
    ensures forall i :: 0 <= i < |Split(s, sep)| ==> sep !in Split(s, sep)[i]
  {
    if s != [] {
      SplitPiecesLackSep(s[1..], sep);
    }
  }

  /** `parts.join(sep)`, the inverse of Split. */
  function Join(parts: seq<string>, sep: char): string {
    if parts == [] then []
    else if |parts| == 1 then parts[0]
    else parts[0] + [sep] + Join(parts[1..], sep)
  }

  /** Number of occurrences of `c` in `s`. */
  function Occurrences(s: string, c: char): nat {
    if s == [] then 0 else (if s[0] == c then 1 else 0) + Occurrences(s[1..], c)
  }

  /** A string without a separator splits into itself. */
  lemma {:induction false} SplitWithoutSep(a: string, sep: char)
    requires sep !in a
    ensures Split(a, sep) == [a]
  {
    if a != [] {
      SplitWithoutSep(a[1..], sep);
      assert [a[0]] + a[1..] == a;
    }
  }

  /** Splitting at a separator splits the two sides independently. */
  lemma {:induction false} SplitConcat(a: string, b: string, sep: char)
    ensures Split(a + [sep] + b, sep) == Split(a, sep) + Split(b, sep)
  {
    if a == [] {
      assert a + [sep] + b == [sep] + b;
      SplitCons(sep, b, sep);
    } else {
      var c, rest := a[0], a[1..];
      var t := rest + [sep] + b;
      assert a + [sep] + b == [c] + t;
      assert a == [c] + rest;
      SplitConcat(rest, b, sep);
      SplitCons(c, t, sep);
      SplitCons(c, rest, sep);
      ExtendFirstPiece(if c == sep then [] else [c], c == sep, Split(rest, sep), Split(b, sep));
    }
  }

  /** The defining step of Split, for a string given as its first character and the rest. */
  lemma SplitCons(c: char, t: string, sep: char)
    ensures Split([c] + t, sep) == if c == sep then [[]] + Split(t, sep)
      else [[c] + Split(t, sep)[0]] + Split(t, sep)[1..]
  {
  }

  /** Sequence algebra behind SplitConcat, kept apart from Split so that the
      solver does not unfold Split while doing it. */
  lemma ExtendFirstPiece(prefix: string, startsNew: bool, left: seq<string>, right: seq<string>)
    requires |left| >= 1
    ensures startsNew ==> [prefix] + (left + right) == ([prefix] + left) + right
    ensures !startsNew ==>
      [prefix + (left + right)[0]] + (left + right)[1..] == ([prefix + left[0]] + left[1..]) + right
  {
  }

  /** Join(Split(s)) == s: splitting loses nothing. */
  lemma {:induction false} JoinSplit(s: string, sep: char)
    ensures Join(Split(s, sep), sep) == s
  {
    if s != [] {
      JoinSplit(s[1..], sep);
      var rest := Split(s[1..], sep);
      if s[0] == sep {
        assert ([[]] + rest)[1..] == rest;
      } else {
        var r := Split(s, sep);
        assert r[0] == [s[0]] + rest[0];
        assert r[1..] == rest[1..];
        if |rest| == 1 {
          assert s == [s[0]] + rest[0];
        } else {
          assert Join(rest, sep) == rest[0] + [sep] + Join(rest[1..], sep);
          assert s == [s[0]] + s[1..];
        }
      }
    }
  }

  /** Split(Join(parts)) == parts for separator-free parts: Split is the inverse. */
  lemma {:induction false} SplitJoin(parts: seq<string>, sep: char)
    requires |parts| >= 1
    requires forall i :: 0 <= i < |parts| ==> sep !in parts[i]
    ensures Split(Join(parts, sep), sep) == parts
  {
    SplitWithoutSep(parts[0], sep);
    if |parts| > 1 {
      SplitJoin(parts[1..], sep);
      SplitConcat(parts[0], Join(parts[1..], sep), sep);
      assert [parts[0]] + parts[1..] == parts;
    }
  }

  /** One piece more than there are separators. */
  lemma {:induction false} SplitCount(s: string, sep: char)
    ensures |Split(s, sep)| == Occurrences(s, sep) + 1
  {
    if s != [] {
      SplitCount(s[1..], sep);
    }
  }

  /** `lines.map(l => l.trim())`. */
  function TrimAll(lines: seq<string>): (r: seq<string>)
    ensures |r| == |lines|
  {
    if lines == [] then [] else [Trim(lines[0])] + TrimAll(lines[1..])
  }

  /** Line `i` of the map is the trimmed line `i`. */
  lemma {:induction false} TrimAllAt(lines: seq<string>, i: nat)
    requires i < |lines|
    ensures TrimAll(lines)[i] == Trim(lines[i])
  {
    if i > 0 {
      TrimAllAt(lines[1..], i - 1);
    }
  }

  /** `xs.filter(x => x.length > 0)`. */
  function DropEmpty(xs: seq<string>): (r: seq<string>)
    ensures |r| <= |xs|
    ensures forall i :: 0 <= i < |r| ==> r[i] != []
  {
    if xs == [] then []
    else if xs[0] == [] then DropEmpty(xs[1..])
    else [xs[0]] + DropEmpty(xs[1..])
  }

  /** The filter keeps exactly the non-empty strings. */
  lemma {:induction false} DropEmptyMembers(xs: seq<string>, x: string)
    ensures x in DropEmpty(xs) <==> x in xs && x != []
  {
    if xs != [] {
      DropEmptyMembers(xs[1..], x);
      assert x in xs <==> x == xs[0] || x in xs[1..];
    }
  }

  /** The filter is order preserving: it distributes over concatenation. */
  lemma {:induction false} DropEmptyConcat(a: seq<string>, b: seq<string>)
    ensures DropEmpty(a + b) == DropEmpty(a) + DropEmpty(b)
  {
    if a == [] {
      assert a + b == b;
    } else {
      assert (a + b)[0] == a[0];
      assert (a + b)[1..] == a[1..] + b;
      DropEmptyConcat(a[1..], b);
    }
  }

  /** Number of lines that are not blank. */
  function CountNonBlank(lines: seq<string>): nat {
    if lines == [] then 0 else (if IsBlank(lines[0]) then 0 else 1) + CountNonBlank(lines[1..])
  }

  /** The bulk-input parse of BulkUrlManager: split on "\n", trim every line, drop
      the empty ones. Every URL it yields is non-empty and already trimmed. */
  function ParseBulk(text: string): (r: seq<string>)
    ensures |r| <= |Split(text, '\n')|
    ensures forall i :: 0 <= i < |r| ==> r[i] != [] && IsTrimmed(r[i])
  {
    var trimmed := TrimAll(Split(text, '\n'));
    assert forall i :: 0 <= i < |trimmed| ==> IsTrimmed(trimmed[i]) by {
      forall i | 0 <= i < |trimmed| ensures IsTrimmed(trimmed[i]) {
        TrimAllAt(Split(text, '\n'), i);
      }
    }
    DropEmptyKeepsTrimmed(trimmed);
    DropEmpty(trimmed)
  }

  lemma {:induction false} DropEmptyKeepsTrimmed(xs: seq<string>)
    requires forall i :: 0 <= i < |xs| ==> IsTrimmed(xs[i])
    ensures forall i :: 0 <= i < |DropEmpty(xs)| ==> DropEmpty(xs)[i] != [] && IsTrimmed(DropEmpty(xs)[i])
  {
    if xs != [] {
      DropEmptyKeepsTrimmed(xs[1..]);
    }
  }

  /** The URLs are exactly the non-empty trimmed lines. */
  lemma ParseBulkMembers(text: string, x: string)
    ensures x in ParseBulk(text) <==> x != [] && exists line :: line in Split(text, '\n') && Trim(line) == x
  {
    var lines := Split(text, '\n');
    DropEmptyMembers(TrimAll(lines), x);
    if x in TrimAll(lines) {
      var i :| 0 <= i < |lines| && TrimAll(lines)[i] == x;
      TrimAllAt(lines, i);
      assert lines[i] in lines;
    }
    if line :| line in lines && Trim(line) == x {
      var i :| 0 <= i < |lines| && lines[i] == line;
      TrimAllAt(lines, i);
    }
  }

  /** One URL per non-blank line. */
  lemma {:induction false} ParseBulkCount(text: string)
    ensures |ParseBulk(text)| == CountNonBlank(Split(text, '\n'))
  {
    CountTrimmed(Split(text, '\n'));
  }

  lemma {:induction false} CountTrimmed(lines: seq<string>)
    ensures |DropEmpty(TrimAll(lines))| == CountNonBlank(lines)
  {
    if lines != [] {
      CountTrimmed(lines[1..]);
      TrimEmptyIffBlank(lines[0]);
      var t := TrimAll(lines);
      assert t == [Trim(lines[0])] + TrimAll(lines[1..]);
      assert t[0] == Trim(lines[0]) && t[1..] == TrimAll(lines[1..]);
    }
  }

  /** A single line parses to its trimmed form, or to nothing when blank. */
  lemma ParseBulkLine(line: string)
    requires '\n' !in line
    ensures ParseBulk(line) == if IsBlank(line) then [] else [Trim(line)]
  {
    SplitWithoutSep(line, '\n');
    TrimEmptyIffBlank(line);
    assert [line][1..] == [];
    assert TrimAll([line]) == [Trim(line)];
    assert [Trim(line)][1..] == [];
  }

  /** Line order is kept: the URLs of `a + "\n" + b` are those of `a` followed by those of `b`. */
  lemma ParseBulkConcat(a: string, b: string)
    ensures ParseBulk(a + "\n" + b) == ParseBulk(a) + ParseBulk(b)
  {
    SplitConcat(a, b, '\n');
    TrimAllConcat(Split(a, '\n'), Split(b, '\n'));
    DropEmptyConcat(TrimAll(Split(a, '\n')), TrimAll(Split(b, '\n')));
  }

  lemma {:induction false} TrimAllConcat(a: seq<string>, b: seq<string>)
    ensures TrimAll(a + b) == TrimAll(a) + TrimAll(b)
  {
    if a == [] {
      assert a + b == b;
    } else {
      assert (a + b)[0] == a[0];
      assert (a + b)[1..] == a[1..] + b;
      TrimAllConcat(a[1..], b);
    }
  }

  /** The bulk parse of a text given as its lines: the trimmed lines, blank ones dropped. */
  lemma ParseBulkOfLines(lines: seq<string>)
    requires |lines| >= 1
    requires forall i :: 0 <= i < |lines| ==> '\n' !in lines[i]
    ensures ParseBulk(Join(lines, '\n')) == DropEmpty(TrimAll(lines))
  {
    SplitJoin(lines, '\n');
  }

  /** A URL line, an empty line, a URL padded with blanks, and a final newline
      (as in "https://a.com/job1\n\n  https://b.com/job2  \n") yield the two
      URLs, trimmed, in order. */
  lemma ParseBulkExample(a: string, b: string, pad: string)
    requires a != [] && IsTrimmed(a) && '\n' !in a
    requires b != [] && IsTrimmed(b) && '\n' !in b
    requires IsBlank(pad) && '\n' !in pad
    ensures ParseBulk(Join([a, [], pad + b + pad, []], '\n')) == [a, b]
  {
    var lines := [a, [], pad + b + pad, []];
    assert '\n' !in pad + b + pad;
    ParseBulkOfLines(lines);
    ExampleLines(a, b, pad);
  }

  lemma ExampleLines(a: string, b: string, pad: string)
    requires a != [] && IsTrimmed(a)
    requires b != [] && IsTrimmed(b)
    requires IsBlank(pad)
    ensures DropEmpty(TrimAll([a, [], pad + b + pad, []])) == [a, b]
  {
    TrimFourLines(a, pad + b + pad);
    TrimFixpoint(a);
    TrimUnique(pad, b, pad);
    DropTwoEmptyLines(a, b);
  }

  lemma TrimFourLines(x: string, y: string)
    ensures TrimAll([x, [], y, []]) == [Trim(x), [], Trim(y), []]
  {
    var lines := [x, [], y, []];
    TrimAllAt(lines, 0);
    TrimAllAt(lines, 1);
    TrimAllAt(lines, 2);
    TrimAllAt(lines, 3);
  }

  lemma DropTwoEmptyLines(x: string, y: string)
    requires x != [] && y != []
    ensures DropEmpty([x, [], y, []]) == [x, y]
  {
    var s := [x, [], y, []];
    assert s[1..] == [[], y, []] && s[1..][1..] == [y, []] && s[1..][1..][1..] == [[]];
    var e: seq<string> := [[]];
    assert e[1..] == [];
    assert DropEmpty(e) == [];
    assert DropEmpty([y, []]) == [y];
    assert DropEmpty([[], y, []]) == [y];
  }

  /** An extra newline at the end of the text adds no URL. */
  lemma ParseBulkTrailingNewline(x: string)
    ensures ParseBulk(x + "\n") == ParseBulk(x)
  {
    ParseBulkConcat(x, []);
    ParseBulkLine([]);
    assert x + "\n" + [] == x + "\n";
  }

  /** An extra newline at the start of the text adds no URL. */
  lemma ParseBulkLeadingNewline(x: string)
    ensures ParseBulk("\n" + x) == ParseBulk(x)
  {
  }

  /** A line made of one URL between blank padding parses to that URL. */
  lemma ParseBulkUrl(url: string, p: string, q: string)
    requires url != [] && IsTrimmed(url) && '\n' !in url
    requires IsBlank(p) && IsBlank(q) && '\n' !in p && '\n' !in q
    ensures ParseBulk(p + url + q) == [url]
  {
    var line := p + url + q;
    assert !IsBlank(line) by { assert line[|p|] == url[0]; }
    ParseBulkLine(line);
    TrimUnique(p, url, q);
  }
}
