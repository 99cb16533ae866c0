/** String handling of the configuration form: JavaScript's `trim`,
    `split(',')`, `join` and the comma-list parser built from them. */
module Text {

  /** The code points JavaScript's `String.prototype.trim` removes:
      WhiteSpace (including the Zs category) and LineTerminator. */
  predicate IsWhitespace(c: char) {
    || c == '\t' || c == '\n' || c == '\U{000B}' || c == '\U{000C}' || c == '\r'
    || c == ' ' || c == '\U{00A0}' || c == '\U{1680}'
    || ('\U{2000}' <= c <= '\U{200A}')
    || c == '\U{2028}' || c == '\U{2029}' || c == '\U{202F}' || c == '\U{205F}'
    || c == '\U{3000}' || c == '\U{FEFF}'
  }

  /** No whitespace at either end. */
  predicate IsTrimmed(s: string) {
    s == [] || (!IsWhitespace(s[0]) && !IsWhitespace(s[|s| - 1]))
  }

  /** Number of whitespace characters at the start of `s`. */
  function LeadingSpace(s: string): (n: nat)
    ensures n <= |s|
    ensures forall k :: 0 <= k < n ==> IsWhitespace(s[k])
    ensures n < |s| ==> !IsWhitespace(s[n])
  {
    if s == [] || !IsWhitespace(s[0]) then 0 else 1 + LeadingSpace(s[1..])
  }

  /** Number of whitespace characters at the end of `s`. */
  function TrailingSpace(s: string): (n: nat)
    ensures n <= |s|
    ensures forall k :: |s| - n <= k < |s| ==> IsWhitespace(s[k])
    ensures n < |s| ==> !IsWhitespace(s[|s| - 1 - n])
  {
    if s == [] || !IsWhitespace(s[|s| - 1]) then 0 else 1 + TrailingSpace(s[..|s| - 1])
  }

  /** `s.trim()`: the longest middle part of `s` that neither starts nor ends
      with whitespace; what is cut off on both sides is whitespace only. */
  function Trim(s: string): (r: string)
    ensures IsTrimmed(r)
    ensures LeadingSpace(s) + |r| <= |s|
    ensures r == s[LeadingSpace(s)..LeadingSpace(s) + |r|]
    ensures forall k :: LeadingSpace(s) + |r| <= k < |s| ==> IsWhitespace(s[k])
  {
    var a := LeadingSpace(s);
    var t := s[a..];
    t[..|t| - TrailingSpace(t)]
  }

  /** `s.split(sep)` for a one-character separator: the pieces between the
      separators, in order; an empty string gives one empty piece. */
  function Split(s: string, sep: char): (r: seq<string>)
    ensures |r| >= 1
    ensures forall i :: 0 <= i < |r| ==> sep !in r[i]
    ensures Join(r, [sep]) == s
  {
    if s == [] then [""]
    else
      var rest := Split(s[1..], sep);
      if s[0] == sep then
        JoinCons("", rest, [sep]);
        [""] + rest
      else
        var r := [[s[0]] + rest[0]] + rest[1..];
        assert r[1..] == rest[1..];
        assert rest == [rest[0]] + rest[1..];
        JoinCons(rest[0], rest[1..], [sep]);
        JoinCons([s[0]] + rest[0], rest[1..], [sep]);
        r
  }

  /** `xs.join(sep)`. */
  function Join(xs: seq<string>, sep: string): string
  {
    if xs == [] then ""
    else if |xs| == 1 then xs[0]
    else xs[0] + sep + Join(xs[1..], sep)
  }

  /** Joining a non-empty list: its head, then the separator and the rest. */
  lemma JoinCons(x: string, xs: seq<string>, sep: string)
    ensures Join([x] + xs, sep) == if xs == [] then x else x + sep + Join(xs, sep)
  {
    assert ([x] + xs)[1..] == xs;
  }

  /** `xs.map(item => item.trim())`. */
  function TrimAll(xs: seq<string>): (r: seq<string>)
    ensures |r| == |xs|
    ensures forall i :: 0 <= i < |xs| ==> r[i] == Trim(xs[i])
  {
    if xs == [] then [] else [Trim(xs[0])] + TrimAll(xs[1..])
  }

  /** `xs.filter(item => item !== '')`: the non-empty items, in order. */
  function NonEmpty(xs: seq<string>): (r: seq<string>)
    ensures forall i :: 0 <= i < |r| ==> r[i] != ""
    ensures forall x :: x in r <==> x in xs && x != ""
    ensures (forall i :: 0 <= i < |xs| ==> xs[i] != "") ==> r == xs
  {
    if xs == [] then []
    else if xs[0] == "" then NonEmpty(xs[1..])
    else [xs[0]] + NonEmpty(xs[1..])
  }

  /** True of the items the comma-list parser produces. */
  predicate IsCleanItem(x: string) {
    x != "" && IsTrimmed(x) && ',' !in x
  }

  /** `parseCommaSeparatedInput`: split at commas, trim, drop empty items. */
  function ParseCommaSeparated(input: string): (r: seq<string>)
    ensures forall i :: 0 <= i < |r| ==> IsCleanItem(r[i])
  {
    var pieces := Split(input, ',');
    var trimmed := TrimAll(pieces);
    forall x | x in trimmed
      ensures IsTrimmed(x) && ',' !in x
    {
      var i :| 0 <= i < |trimmed| && trimmed[i] == x;
      TrimIsInfix(pieces[i]);
    }
    NonEmpty(trimmed)
  }

  /** Trimming never introduces a character. */
  lemma TrimIsInfix(s: string)
    ensures forall c :: c in Trim(s) ==> c in s
  {
    var a := LeadingSpace(s);
    var r := Trim(s);
    forall c | c in r ensures c in s {
      var k :| 0 <= k < |r| && r[k] == c;
      assert s[a + k] == c;
    }
  }

  /** An already trimmed string is left as it is. */
  lemma {:induction false} TrimOfTrimmed(s: string)
    requires IsTrimmed(s)
    ensures Trim(s) == s
  {
    if s != [] {
      assert LeadingSpace(s) == 0;
      assert TrailingSpace(s) == 0;
    }
  }

  /** A leading blank makes no difference to `trim`. */
  lemma {:induction false} TrimLeadingBlank(s: string)
    ensures Trim([' '] + s) == Trim(s)
  {
    var t := [' '] + s;
    assert t[1..] == s;
    assert LeadingSpace(t) == 1 + LeadingSpace(s);
    assert t[LeadingSpace(t)..] == s[LeadingSpace(s)..];
  }

  /** A string without the separator is a single piece. */
  lemma {:induction false} SplitWithoutSeparator(s: string, sep: char)
    requires sep !in s
    ensures Split(s, sep) == [s]
  {
    if s != [] {
      assert sep !in s[1..];
      SplitWithoutSeparator(s[1..], sep);
      assert [s[0]] + s[1..] == s;
    }
  }

  /** Splitting distributes over a separator: the pieces of `a + sep + b`
      are the pieces of `a` followed by the pieces of `b`. */
  lemma {:induction false} SplitAtSeparator(a: string, b: string, sep: char)
    ensures Split(a + [sep] + b, sep) == Split(a, sep) + Split(b, sep)
  {
    var s := a + [sep] + b;
    if a == [] {
      assert s[1..] == b;
    } else {
      assert s[1..] == a[1..] + [sep] + b;
      SplitAtSeparator(a[1..], b, sep);
    }
  }

  /** Splitting undoes joining, for pieces free of the separator. */
  lemma {:induction false} SplitJoin(xs: seq<string>, sep: char)
    requires |xs| >= 1
    requires forall i :: 0 <= i < |xs| ==> sep !in xs[i]
    ensures Split(Join(xs, [sep]), sep) == xs
  {
    if |xs| == 1 {
      SplitWithoutSeparator(xs[0], sep);
    } else {
      SplitJoin(xs[1..], sep);
      SplitWithoutSeparator(xs[0], sep);
      SplitAtSeparator(xs[0], Join(xs[1..], [sep]), sep);
      assert xs == [xs[0]] + xs[1..];
    }
  }

  lemma TrimAllConcat(xs: seq<string>, ys: seq<string>)
    ensures TrimAll(xs + ys) == TrimAll(xs) + TrimAll(ys)
  {
  }

  lemma {:induction false} NonEmptyConcat(xs: seq<string>, ys: seq<string>)
    ensures NonEmpty(xs + ys) == NonEmpty(xs) + NonEmpty(ys)
  {
    if xs == [] {
      assert xs + ys == ys;
    } else {
      var zs := xs + ys;
      assert zs[0] == xs[0];
      assert zs[1..] == xs[1..] + ys;
      NonEmptyConcat(xs[1..], ys);
      if xs[0] == "" {
        assert NonEmpty(zs) == NonEmpty(zs[1..]);
      } else {
        assert NonEmpty(zs) == [xs[0]] + NonEmpty(zs[1..]);
      }
    }
  }

  /** The parser keeps input order: the items of `a,b` are those of `a`
      followed by those of `b`. */
  lemma {:induction false} ParseConcat(a: string, b: string)
    ensures ParseCommaSeparated(a + "," + b) == ParseCommaSeparated(a) + ParseCommaSeparated(b)
  {
    SplitAtSeparator(a, b, ',');
    TrimAllConcat(Split(a, ','), Split(b, ','));
    NonEmptyConcat(TrimAll(Split(a, ',')), TrimAll(Split(b, ',')));
  }

  /** A leading blank makes no difference to the parser. */
  lemma {:induction false} ParseLeadingBlank(s: string)
    ensures ParseCommaSeparated([' '] + s) == ParseCommaSeparated(s)
  {
    var p := Split(s, ',');
    var q := Split([' '] + s, ',');
    assert ([' '] + s)[1..] == s;
    assert q == [[' '] + p[0]] + p[1..];
    TrimLeadingBlank(p[0]);
    assert TrimAll(q) == TrimAll(p);
  }

  /** A single clean item parses to itself. */
  lemma ParseItem(x: string)
    requires IsCleanItem(x)
    ensures ParseCommaSeparated(x) == [x]
  {
    SplitWithoutSeparator(x, ',');
    TrimOfTrimmed(x);
  }

  /** The loaders write a list into the form with `join(', ')`; parsing the
      text back gives the same list, for items the parser could produce. */
  lemma {:induction false} ParseJoin(xs: seq<string>)
    requires forall i :: 0 <= i < |xs| ==> IsCleanItem(xs[i])
    ensures ParseCommaSeparated(Join(xs, ", ")) == xs
  {
    if xs == [] {
      assert Join(xs, ", ") == "";
      assert Split("", ',') == [""];
    } else if |xs| == 1 {
      ParseItem(xs[0]);
    } else {
      var rest := Join(xs[1..], ", ");
      var text := Join(xs, ", ");
      assert text == xs[0] + "," + ([' '] + rest);
      ParseConcat(xs[0], [' '] + rest);
      ParseLeadingBlank(rest);
      ParseJoin(xs[1..]);
      ParseItem(xs[0]);
      assert xs == [xs[0]] + xs[1..];
    }
  }
}
