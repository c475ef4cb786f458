/** The string primitives every renderer is built from, as Python defines them:
    "\n".join(parts), s.split("\n"), s.rstrip(chars), s.lstrip(chars),
    s.strip(chars) and str(n) for a natural number n. */
module Text {

  /** A string that holds no line break: it renders as exactly one line. */
  predicate OneLine(s: string)
  {
    '\n' !in s
  }

  /** Every element of `parts` is one line. */
  predicate AllOneLine(parts: seq<string>)
  {
    forall i :: 0 <= i < |parts| ==> OneLine(parts[i])
  }

  /** "\n".join(parts): the parts with one line break between neighbours. */
  function JoinLines(parts: seq<string>): string
  {
    if |parts| == 0 then ""
    else if |parts| == 1 then parts[0]
    else parts[0] + "\n" + JoinLines(parts[1..])
  }

  /** s.startswith(p). */
  predicate StartsWith(s: string, p: string)
  {
    |p| <= |s| && s[..|p|] == p
  }

  lemma StartsWithBoth(p: string, q: string, s: string)
    requires StartsWith(s, q)
    ensures StartsWith(p + s, p + q)
  {
    assert (p + s)[..|p + q|] == p + s[..|q|];
  }

  lemma StartsWithMore(s: string, more: string, q: string)
    requires StartsWith(s, q)
    ensures StartsWith(s + more, q)
  {
    assert (s + more)[..|q|] == s[..|q|];
  }

  /** The two halves of a concatenation. Proof-cost helper: callers name
      both slices instead of letting the solver search for them. */
  lemma Halves(a: string, b: string)
    ensures (a + b)[..|a|] == a && (a + b)[|a|..] == b
  {
  }

  lemma StartsWithTrans(s: string, p: string, q: string)
    requires StartsWith(s, p) && StartsWith(p, q)
    ensures StartsWith(s, q)
  {
    assert s[..|q|] == s[..|p|][..|q|];
  }

  /** s.split("\n"): the lines of `s`. There is always at least one, and
      each is free of line breaks. */
  function Split(s: string): (lines: seq<string>)
    ensures |lines| >= 1
    ensures AllOneLine(lines)
  {
    if s == [] then [""]
    else
      var rest := Split(s[1..]);
      if s[0] == '\n' then [""] + rest
      else [[s[0]] + rest[0]] + rest[1..]
  }

  /** The lines of every part, one after the other. */
  function SplitEach(parts: seq<string>): seq<string>
  {
    if parts == [] then [] else Split(parts[0]) + SplitEach(parts[1..])
  }

  /** Split unfolded once on a string that starts with the character c. */
  lemma SplitCons(c: char, t: string)
    ensures Split([c] + t) ==
      if c == '\n' then [""] + Split(t) else [[c] + Split(t)[0]] + Split(t)[1..]
  {
    assert ([c] + t)[1..] == t;
  }

  /** A line break splits a string exactly between the lines before it and
      the lines after it. */
  lemma {:induction false} SplitAround(a: string, b: string)
    ensures Split(a + "\n" + b) == Split(a) + Split(b)
  {
    if a == [] {
      SplitCons('\n', b);
      assert a + "\n" + b == ['\n'] + b;
    } else {
      var t := a[1..];
      assert a == [a[0]] + t;
      assert a + "\n" + b == [a[0]] + (t + "\n" + b);
      SplitCons(a[0], t + "\n" + b);
      SplitCons(a[0], t);
      SplitAround(t, b);
      ExtendFirstLine(a[0], Split(t), Split(b));
    }
  }

  /** Prefixing a character to the first of several lines commutes with
      appending more lines. */
  lemma ExtendFirstLine(c: char, x: seq<string>, y: seq<string>)
    requires |x| >= 1
    ensures [[c] + (x + y)[0]] + (x + y)[1..] == [[c] + x[0]] + x[1..] + y
  {
    assert (x + y)[1..] == x[1..] + y;
  }

  /** A string without line breaks is its own single line. */
  lemma {:induction false} SplitOneLine(s: string)
    requires OneLine(s)
    ensures Split(s) == [s]
  {
    if s != [] {
      SplitOneLine(s[1..]);
      assert [s[0]] + s[1..] == s;
    }
  }

  /** A trailing line break adds one empty last line. */
  lemma SplitTrailing(s: string)
    ensures Split(s + "\n") == Split(s) + [""]
  {
    SplitAround(s, "");
    assert s + "\n" + "" == s + "\n";
  }

  /** A leading line break adds one empty first line. */
  lemma SplitLeading(s: string)
    ensures Split("\n" + s) == [""] + Split(s)
  {
    SplitAround("", s);
    assert "" + "\n" + s == "\n" + s;
  }

  /** "\n" + t + "\n" is the lines "", t, "" when t is one line. */
  lemma SplitFramed(t: string)
    requires OneLine(t)
    ensures Split("\n" + t + "\n") == ["", t, ""]
  {
    SplitLeading(t + "\n");
    SplitTrailing(t);
    SplitOneLine(t);
    assert "\n" + t + "\n" == "\n" + (t + "\n");
  }

  /** The lines of joined parts are the lines of each part in turn. */
  lemma {:induction false} SplitJoin(parts: seq<string>)
    requires |parts| > 0
    ensures Split(JoinLines(parts)) == SplitEach(parts)
  {
    if |parts| == 1 {
      assert SplitEach(parts[1..]) == [];
    } else {
      SplitJoin(parts[1..]);
      SplitAround(parts[0], JoinLines(parts[1..]));
    }
  }

  lemma {:induction false} SplitEachAppend(a: seq<string>, b: seq<string>)
    ensures SplitEach(a + b) == SplitEach(a) + SplitEach(b)
  {
    if a != [] {
      SplitEachAppend(a[1..], b);
      assert (a + b)[1..] == a[1..] + b;
    } else {
      assert a + b == b;
    }
  }

  lemma {:induction false} SplitEachOneLine(parts: seq<string>)
    requires AllOneLine(parts)
    ensures SplitEach(parts) == parts
  {
    if parts != [] {
      SplitOneLine(parts[0]);
      SplitEachOneLine(parts[1..]);
    }
  }

  /** A one-line caption above one-line parts splits into itself and them. */
  lemma CaptionedOneLine(caption: string, parts: seq<string>)
    requires OneLine(caption) && AllOneLine(parts)
    ensures SplitEach([caption] + parts) == [caption] + parts
  {
    SplitEachHead(caption, parts);
    SplitOneLine(caption);
    SplitEachOneLine(parts);
  }

  /** Joining one-line parts and splitting the result gives the parts back. */
  lemma JoinThenSplit(parts: seq<string>)
    requires |parts| > 0 && AllOneLine(parts)
    ensures Split(JoinLines(parts)) == parts
  {
    SplitJoin(parts);
    SplitEachOneLine(parts);
  }

  /** Splitting a string and joining its lines gives the string back. */
  lemma {:induction false} SplitThenJoin(s: string)
    ensures JoinLines(Split(s)) == s
  {
    if s != [] {
      var rest := Split(s[1..]);
      SplitThenJoin(s[1..]);
      if s[0] == '\n' {
        assert Split(s) == [""] + rest;
        assert ([""] + rest)[1..] == rest;
      } else {
        assert rest == [rest[0]] + rest[1..];
        JoinExtendFirst([s[0]], rest[0], rest[1..]);
        assert [s[0]] + s[1..] == s;
      }
    }
  }

  /** Prefixing text to the first line prefixes it to the joined text. */
  lemma JoinExtendFirst(p: string, first: string, more: seq<string>)
    ensures JoinLines([p + first] + more) == p + JoinLines([first] + more)
  {
    if more != [] {
      assert ([p + first] + more)[1..] == more;
      assert ([first] + more)[1..] == more;
    }
  }

  /** The lines of a "\n".join(parts) + "\n" text: those of every part,
      then one empty line for the final line break. */
  lemma SplitJoinedText(parts: seq<string>)
    requires |parts| > 0
    ensures Split(JoinLines(parts) + "\n") == SplitEach(parts) + [""]
  {
    SplitTrailing(JoinLines(parts));
    SplitJoin(parts);
  }

  lemma SplitEachHead(first: string, rest: seq<string>)
    ensures SplitEach([first] + rest) == Split(first) + SplitEach(rest)
  {
    assert ([first] + rest)[1..] == rest;
  }

  lemma SplitEachPair(x: string, y: string)
    ensures SplitEach([x, y]) == Split(x) + Split(y)
  {
    assert [x, y][1..] == [y];
    assert SplitEach([y]) == Split(y) + SplitEach([]);
  }

  lemma SplitEachSingle(x: string)
    ensures SplitEach([x]) == Split(x)
  {
    assert SplitEach([x]) == Split(x) + SplitEach([]);
  }

  /** A part "\n" + caption: a blank line, then the caption. */
  lemma SplitCaption(caption: string)
    requires OneLine(caption)
    ensures SplitEach(["\n" + caption]) == ["", caption]
  {
    SplitEachSingle("\n" + caption);
    SplitLeading(caption);
    SplitOneLine(caption);
  }

  /** The lines of four parts, taken two by two. */
  lemma SplitEachFour(c0: string, c1: string, c2: string, c3: string)
    ensures SplitEach([c0, c1, c2, c3]) == (Split(c0) + Split(c1)) + (Split(c2) + Split(c3))
  {
    assert [c0, c1, c2, c3] == [c0, c1] + [c2, c3];
    SplitEachAppend([c0, c1], [c2, c3]);
    SplitEachPair(c0, c1);
    SplitEachPair(c2, c3);
  }

  /** The lines of twelve parts, taken four by four. */
  lemma SplitEachTwelve(c0: string, c1: string, c2: string, c3: string, c4: string, c5: string,
                        c6: string, c7: string, c8: string, c9: string, c10: string, c11: string)
    ensures SplitEach([c0, c1, c2, c3, c4, c5, c6, c7, c8, c9, c10, c11]) ==
      (SplitEach([c0, c1, c2, c3]) + SplitEach([c4, c5, c6, c7])) + SplitEach([c8, c9, c10, c11])
  {
    var a, b, c := [c0, c1, c2, c3], [c4, c5, c6, c7], [c8, c9, c10, c11];
    assert [c0, c1, c2, c3, c4, c5, c6, c7, c8, c9, c10, c11] == a + b + c;
    SplitEachAppend(a + b, c);
    SplitEachAppend(a, b);
  }

  /** A part that is a line followed by a blank line. */
  lemma SplitSpaced(line: string)
    requires OneLine(line)
    ensures Split(line + "\n") == [line, ""]
  {
    SplitTrailing(line);
    SplitOneLine(line);
  }

  /** "\n".join(parts) for a possibly empty list of one-line parts: its lines
      are the parts, or the single empty line when there are none. */
  lemma SplitJoinLines(parts: seq<string>)
    requires AllOneLine(parts)
    ensures Split(JoinLines(parts)) == if parts == [] then [""] else parts
  {
    if parts != [] {
      JoinThenSplit(parts);
    }
  }

  /** Joining ends with the last part: "\n".join(ps + [x]) == "\n".join(ps) + "\n" + x,
      or x alone when ps is empty. */
  lemma {:induction false} JoinLast(ps: seq<string>, x: string)
    ensures JoinLines(ps + [x]) == if ps == [] then x else JoinLines(ps) + "\n" + x
  {
    if |ps| == 1 {
      assert (ps + [x])[1..] == [x];
    } else if |ps| > 1 {
      assert (ps + [x])[1..] == ps[1..] + [x];
      JoinLast(ps[1..], x);
    }
  }

  /** [f"- {x}" for x in items]: one bullet line per item, in order. */
  function Bullets(items: seq<string>): seq<string>
  {
    seq(|items|, k requires 0 <= k < |items| => "- " + items[k])
  }

  lemma BulletsOneLine(items: seq<string>)
    requires AllOneLine(items)
    ensures AllOneLine(Bullets(items))
  {
    forall k | 0 <= k < |items|
      ensures OneLine(Bullets(items)[k])
    {
      assert Bullets(items)[k] == "- " + items[k];
    }
  }

  /** The character for the decimal digit d. */
  function Digit(d: nat): (c: char)
    requires d < 10
  {
    ((('0' as int) + d) as char)
  }

  /** str(n): the decimal numeral of n, most significant digit first. */
  function Decimal(n: nat): (s: string)
    ensures |s| >= 1
    ensures forall i :: 0 <= i < |s| ==> '0' <= s[i] <= '9'
    ensures s[0] == '0' <==> n == 0
  {
    if n < 10 then [Digit(n)] else Decimal(n / 10) + [Digit(n % 10)]
  }

  predicate AllDigits(s: string)
  {
    forall i :: 0 <= i < |s| ==> '0' <= s[i] <= '9'
  }

  /** int(s) for a string of decimal digits. */
  function DecimalValue(s: string): nat
    requires AllDigits(s)
  {
    if s == [] then 0
    else DecimalValue(s[..|s| - 1]) * 10 + (s[|s| - 1] as int - '0' as int)
  }

  /** Reading back the numeral of n gives n. */
  lemma {:induction false} DecimalRoundTrip(n: nat)
    ensures DecimalValue(Decimal(n)) == n
  {
    var s := Decimal(n);
    if n >= 10 {
      DecimalRoundTrip(n / 10);
      assert s[..|s| - 1] == Decimal(n / 10);
    }
  }

  lemma DecimalOneLine(n: nat)
    ensures OneLine(Decimal(n))
  {
    var s := Decimal(n);
    assert forall i :: 0 <= i < |s| ==> s[i] != '\n';
  }

  /** The characters Python's str.isspace() accepts: the ones str.strip()
      and str.rstrip() remove when called without an argument. */
  const Whitespace: set<char> := {
    '\t', '\n', '\U{000B}', '\U{000C}', '\r',
    '\U{001C}', '\U{001D}', '\U{001E}', '\U{001F}', ' ',
    '\U{0085}', '\U{00A0}', '\U{1680}',
    '\U{2000}', '\U{2001}', '\U{2002}', '\U{2003}', '\U{2004}', '\U{2005}',
    '\U{2006}', '\U{2007}', '\U{2008}', '\U{2009}', '\U{200A}',
    '\U{2028}', '\U{2029}', '\U{202F}', '\U{205F}', '\U{3000}'
  }

  /** s.rstrip(chars): the longest prefix of s that does not end in one of
      `chars`; everything cut off is made of `chars`. */
  function RStrip(s: string, chars: set<char>): (r: string)
    ensures |r| <= |s| && r == s[..|r|]
    ensures forall i :: |r| <= i < |s| ==> s[i] in chars
    ensures r == [] || r[|r| - 1] !in chars
  {
    if s != [] && s[|s| - 1] in chars then RStrip(s[..|s| - 1], chars) else s
  }

  /** s.lstrip(chars): the longest suffix of s that does not start with one of
      `chars`; everything cut off is made of `chars`. */
  function LStrip(s: string, chars: set<char>): (r: string)
    ensures |r| <= |s| && r == s[|s| - |r|..]
    ensures forall i :: 0 <= i < |s| - |r| ==> s[i] in chars
    ensures r == [] || r[0] !in chars
  {
    if s != [] && s[0] in chars then LStrip(s[1..], chars) else s
  }

  /** `r` sits in `s` at offset `i`, with only `chars` before and after it. */
  predicate Trimmed(s: string, i: nat, r: string, chars: set<char>)
  {
    i + |r| <= |s| && s[i..i + |r|] == r
    && (forall k :: 0 <= k < i ==> s[k] in chars)
    && (forall k :: i + |r| <= k < |s| ==> s[k] in chars)
  }

  /** s.strip(chars): rstrip, then lstrip. Its meaning is StripTrims. */
  function Strip(s: string, chars: set<char>): string
  {
    LStrip(RStrip(s, chars), chars)
  }

  /** strip leaves `s` without its leading and trailing run of `chars`;
      what is left neither starts nor ends with one of them. */
  lemma StripTrims(s: string, chars: set<char>)
    ensures var r := Strip(s, chars);
      (exists i :: Trimmed(s, i, r, chars)) &&
      (r == [] || (r[0] !in chars && r[|r| - 1] !in chars))
  {
    var right := RStrip(s, chars);
    var r := LStrip(right, chars);
    TrimmedWithin(s, right, r, chars);
    KeptEnd(right, r, chars);
    assert Trimmed(s, |right| - |r|, Strip(s, chars), chars);
  }

  /** A suffix of a text that does not end in one of `chars` does not either. */
  lemma KeptEnd(right: string, r: string, chars: set<char>)
    requires |r| <= |right| && r == right[|right| - |r|..]
    requires right == [] || right[|right| - 1] !in chars
    ensures r == [] || r[|r| - 1] !in chars
  {
    if r != [] {
      assert r[|r| - 1] == right[|right| - 1];
    }
  }

  /** `r` is `right` without a leading run of `chars`, and `right` is `s`
      without a trailing one: `r` sits in `s` with only `chars` around it. */
  lemma TrimmedWithin(s: string, right: string, r: string, chars: set<char>)
    requires |right| <= |s| && right == s[..|right|]
    requires forall k :: |right| <= k < |s| ==> s[k] in chars
    requires |r| <= |right| && r == right[|right| - |r|..]
    requires forall k :: 0 <= k < |right| - |r| ==> right[k] in chars
    ensures Trimmed(s, |right| - |r|, r, chars)
  {
    var i := |right| - |r|;
    assert s[i..i + |r|] == right[i..];
    assert forall k :: 0 <= k < i ==> s[k] == right[k];
  }

  /** rstrip never cuts into a prefix that ends in a kept character. */
  lemma {:induction false} RStripKeepsPrefix(a: string, b: string, chars: set<char>)
    requires a != [] && a[|a| - 1] !in chars
    ensures RStrip(a + b, chars) == a + RStrip(b, chars)
  {
    if b == [] {
      assert a + b == a;
    } else if b[|b| - 1] in chars {
      RStripKeepsPrefix(a, b[..|b| - 1], chars);
      assert (a + b)[..|a + b| - 1] == a + b[..|b| - 1];
    }
  }

  /** A line break at the end is cut by rstrip when it is one of `chars`. */
  lemma RStripLineBreak(s: string, chars: set<char>)
    requires '\n' in chars
    ensures RStrip(s + "\n", chars) == RStrip(s, chars)
  {
    assert (s + "\n")[..|s|] == s;
  }

  /** rstrip keeps a string that ends in a kept character. */
  lemma RStripKept(s: string, chars: set<char>)
    requires s != [] && s[|s| - 1] !in chars
    ensures RStrip(s, chars) == s
  {
  }
}
