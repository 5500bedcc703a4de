/**
 * BasicLinkRenderer: the text form of a link reference,
 * `reference[#anchor][?queryString][@interwikiAlias]`.
 *
 * Special characters are escaped with `StringUtils.replaceEach` over two constant tables of
 * single-character search strings. With single-character searches that call works in one pass
 * and never rescans what it inserted, so it is modelled exactly as a per-character map.
 */
module BasicLinkRenderer {
  import opened Wrappers

  /** LinkParser.ESCAPE_CHAR and the three separators of LinkParser. */
  const ESCAPE_CHAR: char := '\\'
  const SEPARATOR_QUERYSTRING: string := "?"
  const SEPARATOR_INTERWIKI: string := "@"
  const SEPARATOR_ANCHOR: string := "#"

  const ESCAPE_REPLACEMENTS_REFERENCE: seq<string> :=
    [[ESCAPE_CHAR] + SEPARATOR_QUERYSTRING, [ESCAPE_CHAR] + SEPARATOR_INTERWIKI, [ESCAPE_CHAR] + SEPARATOR_ANCHOR]
  const ESCAPES_REFERENCE: seq<string> :=
    [SEPARATOR_QUERYSTRING, SEPARATOR_INTERWIKI, SEPARATOR_ANCHOR]
  const ESCAPE_REPLACEMENTS_EXTRA: seq<string> :=
    [[ESCAPE_CHAR] + SEPARATOR_QUERYSTRING, [ESCAPE_CHAR] + SEPARATOR_INTERWIKI, [ESCAPE_CHAR] + SEPARATOR_ANCHOR,
     [ESCAPE_CHAR, ESCAPE_CHAR]]
  const ESCAPES_EXTRA: seq<string> :=
    [SEPARATOR_QUERYSTRING, SEPARATOR_INTERWIKI, SEPARATOR_ANCHOR, [ESCAPE_CHAR]]

  /** The characters that open a new part of a rendered reference. */
  const SEPARATORS: set<char> := {'?', '@', '#'}
  /** What the reference table escapes, and what the table for the other parts escapes. */
  const REFERENCE_SPECIALS: set<char> := SEPARATORS
  const EXTRA_SPECIALS: set<char> := SEPARATORS + {ESCAPE_CHAR}

  /** Every link type other than URI renders like a document link. */
  datatype LinkType = Document | Uri

  /** A link; each part may be null. */
  datatype Link = Link(
    linkType: LinkType,
    reference: Option<string>,
    anchor: Option<string>,
    queryString: Option<string>,
    interWikiAlias: Option<string>)

  /** The number of characters of `s` that belong to `cs`. */
  function CountIn(s: string, cs: set<char>): nat {
    if s == [] then 0 else (if s[0] in cs then 1 else 0) + CountIn(s[1..], cs)
  }

  // ---------------------------------------------------------------------------------------
  // StringUtils.replaceEach with single-character search strings
  // ---------------------------------------------------------------------------------------

  /** Search and replacement lists of equal length whose search strings are single characters. */
  predicate SingleCharTables(searches: seq<string>, replacements: seq<string>) {
    |searches| == |replacements| && forall i :: 0 <= i < |searches| ==> |searches[i]| == 1
  }

  /** The index of the first search string, from `from` on, that is the single character `c`. */
  function FirstMatch(c: char, searches: seq<string>, from: nat): (k: nat)
    requires from <= |searches|
    ensures from <= k <= |searches|
    ensures forall j :: from <= j < k ==> searches[j] != [c]
    ensures k < |searches| ==> searches[k] == [c]
    decreases |searches| - from
  {
    if from == |searches| || searches[from] == [c] then from else FirstMatch(c, searches, from + 1)
  }

  /** What one character of the text becomes: the replacement of the first search string equal to it. */
  function ReplacementFor(c: char, searches: seq<string>, replacements: seq<string>): string
    requires |searches| == |replacements|
  {
    var k := FirstMatch(c, searches, 0);
    if k < |searches| then replacements[k] else [c]
  }

  /** StringUtils.replaceEach(text, searches, replacements): every character replaced once, left to right. */
  function ReplaceEach(text: string, searches: seq<string>, replacements: seq<string>): (r: string)
    requires SingleCharTables(searches, replacements)
  {
    if text == [] then []
    else ReplacementFor(text[0], searches, replacements) + ReplaceEach(text[1..], searches, replacements)
  }

  /** The tables put the escape char before exactly the characters of `specials` and keep the rest. */
  ghost predicate EscapesExactly(searches: seq<string>, replacements: seq<string>, specials: set<char>)
    requires |searches| == |replacements|
  {
    forall c :: ReplacementFor(c, searches, replacements) == if c in specials then [ESCAPE_CHAR, c] else [c]
  }

  lemma ReferenceTable()
    ensures SingleCharTables(ESCAPES_REFERENCE, ESCAPE_REPLACEMENTS_REFERENCE)
    ensures EscapesExactly(ESCAPES_REFERENCE, ESCAPE_REPLACEMENTS_REFERENCE, REFERENCE_SPECIALS)
  {
    var s, r := ESCAPES_REFERENCE, ESCAPE_REPLACEMENTS_REFERENCE;
    assert s[0] == "?" && s[1] == "@" && s[2] == "#";
    assert r[0] == "\\?" && r[1] == "\\@" && r[2] == "\\#";
    forall c
      ensures ReplacementFor(c, s, r) == if c in REFERENCE_SPECIALS then [ESCAPE_CHAR, c] else [c]
    {
      var k := FirstMatch(c, s, 0);
      if c == '?' {
        assert k == 0;
      } else if c == '@' {
        assert s[0] != [c];
        assert k == 1;
      } else if c == '#' {
        assert s[0] != [c] && s[1] != [c];
        assert k == 2;
      } else {
        assert s[0] != [c] && s[1] != [c] && s[2] != [c];
        assert k == 3;
      }
    }
  }

  lemma ExtraTable()
    ensures SingleCharTables(ESCAPES_EXTRA, ESCAPE_REPLACEMENTS_EXTRA)
    ensures EscapesExactly(ESCAPES_EXTRA, ESCAPE_REPLACEMENTS_EXTRA, EXTRA_SPECIALS)
  {
    var s, r := ESCAPES_EXTRA, ESCAPE_REPLACEMENTS_EXTRA;
    assert s[0] == "?" && s[1] == "@" && s[2] == "#" && s[3] == "\\";
    assert r[0] == "\\?" && r[1] == "\\@" && r[2] == "\\#" && r[3] == "\\\\";
    forall c
      ensures ReplacementFor(c, s, r) == if c in EXTRA_SPECIALS then [ESCAPE_CHAR, c] else [c]
    {
      var k := FirstMatch(c, s, 0);
      if c == '?' {
        assert k == 0;
      } else if c == '@' {
        assert s[0] != [c];
        assert k == 1;
      } else if c == '#' {
        assert s[0] != [c] && s[1] != [c];
        assert k == 2;
      } else if c == ESCAPE_CHAR {
        assert s[0] != [c] && s[1] != [c] && s[2] != [c];
        assert k == 3;
      } else {
        assert s[0] != [c] && s[1] != [c] && s[2] != [c] && s[3] != [c];
        assert k == 4;
      }
    }
  }

  /** One pass: replacing a concatenation is concatenating the replacements (inserted text is never rescanned). */
  lemma {:induction false} ReplaceEachAppend(a: string, b: string, searches: seq<string>, replacements: seq<string>)
    requires SingleCharTables(searches, replacements)
    ensures ReplaceEach(a + b, searches, replacements)
         == ReplaceEach(a, searches, replacements) + ReplaceEach(b, searches, replacements)
  {
    if a == [] {
      assert a + b == b;
    } else {
      var head := ReplacementFor(a[0], searches, replacements);
      assert (a + b)[0] == a[0];
      assert (a + b)[1..] == a[1..] + b;
      assert ReplaceEach(a + b, searches, replacements) == head + ReplaceEach(a[1..] + b, searches, replacements);
      ReplaceEachAppend(a[1..], b, searches, replacements);
      assert ReplaceEach(a, searches, replacements) == head + ReplaceEach(a[1..], searches, replacements);
    }
  }

  /** Escaping adds exactly one character per special character. */
  lemma {:induction false} EscapedLength(text: string, searches: seq<string>, replacements: seq<string>, specials: set<char>)
    requires SingleCharTables(searches, replacements)
    requires EscapesExactly(searches, replacements, specials)
    ensures |ReplaceEach(text, searches, replacements)| == |text| + CountIn(text, specials)
  {
    if text != [] {
      assert ReplacementFor(text[0], searches, replacements) == if text[0] in specials then [ESCAPE_CHAR, text[0]] else [text[0]];
      EscapedLength(text[1..], searches, replacements, specials);
    }
  }

  /** Text without special characters is left as it is. */
  lemma {:induction false} EscapeIdentity(text: string, searches: seq<string>, replacements: seq<string>, specials: set<char>)
    requires SingleCharTables(searches, replacements)
    requires EscapesExactly(searches, replacements, specials)
    ensures (forall i :: 0 <= i < |text| ==> text[i] !in specials) ==> ReplaceEach(text, searches, replacements) == text
  {
    if text != [] && forall i :: 0 <= i < |text| ==> text[i] !in specials {
      assert ReplacementFor(text[0], searches, replacements) == [text[0]];
      assert forall i :: 0 <= i < |text[1..]| ==> text[1..][i] == text[i + 1];
      EscapeIdentity(text[1..], searches, replacements, specials);
    }
  }

  /** addEscapesToReferencePart */
  function AddEscapesToReferencePart(text: string): (r: string)
    ensures |r| == |text| + CountIn(text, REFERENCE_SPECIALS)
    ensures (forall i :: 0 <= i < |text| ==> text[i] !in REFERENCE_SPECIALS) ==> r == text
  {
    ReferenceTable();
    EscapedLength(text, ESCAPES_REFERENCE, ESCAPE_REPLACEMENTS_REFERENCE, REFERENCE_SPECIALS);
    EscapeIdentity(text, ESCAPES_REFERENCE, ESCAPE_REPLACEMENTS_REFERENCE, REFERENCE_SPECIALS);
    ReplaceEach(text, ESCAPES_REFERENCE, ESCAPE_REPLACEMENTS_REFERENCE)
  }

  /** addEscapesToExtraParts: for the anchor, the query string and the interwiki alias. */
  function AddEscapesToExtraParts(text: string): (r: string)
    ensures |r| == |text| + CountIn(text, EXTRA_SPECIALS)
    ensures (forall i :: 0 <= i < |text| ==> text[i] !in EXTRA_SPECIALS) ==> r == text
  {
    ExtraTable();
    EscapedLength(text, ESCAPES_EXTRA, ESCAPE_REPLACEMENTS_EXTRA, EXTRA_SPECIALS);
    EscapeIdentity(text, ESCAPES_EXTRA, ESCAPE_REPLACEMENTS_EXTRA, EXTRA_SPECIALS);
    ReplaceEach(text, ESCAPES_EXTRA, ESCAPE_REPLACEMENTS_EXTRA)
  }

  /** The escape char is not escaped in a reference: the reference escaping keeps backslashes as they are. */
  lemma ReferenceKeepsEscapeChar(text: string)
    ensures AddEscapesToReferencePart(text + [ESCAPE_CHAR]) == AddEscapesToReferencePart(text) + [ESCAPE_CHAR]
  {
    ReferenceTable();
    ReplaceEachAppend(text, [ESCAPE_CHAR], ESCAPES_REFERENCE, ESCAPE_REPLACEMENTS_REFERENCE);
    assert ReplaceEach([ESCAPE_CHAR], ESCAPES_REFERENCE, ESCAPE_REPLACEMENTS_REFERENCE)
        == ReplacementFor(ESCAPE_CHAR, ESCAPES_REFERENCE, ESCAPE_REPLACEMENTS_REFERENCE) + [];
  }

  // ---------------------------------------------------------------------------------------
  // Reading a rendered reference back
  // ---------------------------------------------------------------------------------------

  /**
   * Reads one part of a rendered reference, left to right: an escape char is dropped and the
   * character after it is kept literally; an unescaped separator ends the part. Returns the part
   * and the rest of the text, which starts at that separator.
   */
  function ReadPart(s: string): (r: (string, string))
    ensures |r.1| <= |s|
    ensures r.1 == [] || r.1[0] in SEPARATORS
    decreases |s|
  {
    if s == [] then ([], [])
    else if s[0] == ESCAPE_CHAR && |s| >= 2 then
      var r := ReadPart(s[2..]);
      ([s[1]] + r.0, r.1)
    else if s[0] in SEPARATORS then ([], s)
    else
      var r := ReadPart(s[1..]);
      ([s[0]] + r.0, r.1)
  }

  /** Reading one escaped character and then the rest. */
  lemma ReadEscapedChar(c: char, x: string, tail: string, rest: string, specials: set<char>)
    requires SEPARATORS <= specials
    requires c in specials || c != ESCAPE_CHAR
    requires ReadPart(tail) == (x, rest)
    ensures ReadPart((if c in specials then [ESCAPE_CHAR, c] else [c]) + tail) == ([c] + x, rest)
  {
    if c in specials {
      var s := [ESCAPE_CHAR, c] + tail;
      assert s[0] == ESCAPE_CHAR && s[1] == c && s[2..] == tail;
    } else {
      var s := [c] + tail;
      assert s[0] == c && s[1..] == tail;
    }
  }

  /** The first character's replacement, then the rest of the text's. */
  lemma ReplaceEachCons(x: string, rest: string, searches: seq<string>, replacements: seq<string>)
    requires SingleCharTables(searches, replacements)
    requires x != []
    ensures ReplaceEach(x, searches, replacements) + rest
         == ReplacementFor(x[0], searches, replacements) + (ReplaceEach(x[1..], searches, replacements) + rest)
  {
  }

  /** Escaped text reads back as itself, provided the escape char is escaped whenever it occurs. */
  lemma {:induction false} ReadEscaped(x: string, rest: string, searches: seq<string>, replacements: seq<string>, specials: set<char>)
    requires SingleCharTables(searches, replacements)
    requires EscapesExactly(searches, replacements, specials)
    requires SEPARATORS <= specials
    requires ESCAPE_CHAR in specials || ESCAPE_CHAR !in x
    requires rest == [] || rest[0] in SEPARATORS
    ensures ReadPart(ReplaceEach(x, searches, replacements) + rest) == (x, rest)
  {
    if x == [] {
      assert ReplaceEach(x, searches, replacements) + rest == rest;
    } else {
      assert ESCAPE_CHAR in specials || ESCAPE_CHAR !in x[1..];
      ReadEscaped(x[1..], rest, searches, replacements, specials);
      ReadEscapedStep(x, rest, searches, replacements, specials);
    }
  }

  /** The step of ReadEscaped: once the text after the first character reads back, the whole text does. */
  lemma ReadEscapedStep(x: string, rest: string, searches: seq<string>, replacements: seq<string>, specials: set<char>)
    requires SingleCharTables(searches, replacements)
    requires EscapesExactly(searches, replacements, specials)
    requires SEPARATORS <= specials
    requires x != [] && (x[0] in specials || x[0] != ESCAPE_CHAR)
    requires ReadPart(ReplaceEach(x[1..], searches, replacements) + rest) == (x[1..], rest)
    ensures ReadPart(ReplaceEach(x, searches, replacements) + rest) == (x, rest)
  {
    var c := x[0];
    var tail := ReplaceEach(x[1..], searches, replacements) + rest;
    assert ReplacementFor(c, searches, replacements) == if c in specials then [ESCAPE_CHAR, c] else [c];
    ReplaceEachCons(x, rest, searches, replacements);
    ReadEscapedChar(c, x[1..], tail, rest, specials);
    assert [c] + x[1..] == x;
  }

  /** Round trip of the anchor, query string and interwiki parts. */
  lemma ReadEscapedExtra(x: string, rest: string)
    requires rest == [] || rest[0] in SEPARATORS
    ensures ReadPart(AddEscapesToExtraParts(x) + rest) == (x, rest)
  {
    ExtraTable();
    ReadEscaped(x, rest, ESCAPES_EXTRA, ESCAPE_REPLACEMENTS_EXTRA, EXTRA_SPECIALS);
  }

  /** Round trip of a reference that holds no escape char. */
  lemma ReadEscapedReference(x: string, rest: string)
    requires ESCAPE_CHAR !in x
    requires rest == [] || rest[0] in SEPARATORS
    ensures ReadPart(AddEscapesToReferencePart(x) + rest) == (x, rest)
  {
    ReferenceTable();
    ReadEscaped(x, rest, ESCAPES_REFERENCE, ESCAPE_REPLACEMENTS_REFERENCE, REFERENCE_SPECIALS);
  }

  // ---------------------------------------------------------------------------------------
  // renderLinkReference
  // ---------------------------------------------------------------------------------------

  /** A separator followed by the escaped part, or nothing when the part is null. */
  function ExtraPart(separator: char, part: Option<string>): (r: string)
    ensures part.None? <==> r == []
    ensures r != [] ==> r[0] == separator
  {
    match part
    case None => []
    case Some(p) => [separator] + AddEscapesToExtraParts(p)
  }

  /** The anchor, query string and interwiki parts, in that order, each only when non-null. */
  function RenderTail(link: Link): (r: string)
    ensures r == [] || r[0] in SEPARATORS
    ensures r == [] <==> link.anchor.None? && link.queryString.None? && link.interWikiAlias.None?
  {
    ExtraPart('#', link.anchor) + ExtraPart('?', link.queryString) + ExtraPart('@', link.interWikiAlias)
  }

  /**
   * renderLinkReference: a URI link is its reference verbatim, with no further part; any other link
   * is its escaped reference followed by its escaped anchor, query string and interwiki parts.
   * A null reference contributes nothing.
   */
  function RenderLinkReference(link: Link): (r: string)
    ensures link.linkType == Uri ==> r == link.reference.GetOr([])
    ensures link.linkType != Uri ==> AddEscapesToReferencePart(link.reference.GetOr([])) <= r
  {
    if link.linkType == Uri then link.reference.GetOr([])
    else AddEscapesToReferencePart(link.reference.GetOr([])) + RenderTail(link)
  }

  /** Reads an optional part introduced by `separator`. */
  function ReadOptionalPart(separator: char, s: string): (r: (Option<string>, string))
    ensures |r.1| <= |s|
    ensures r.0.None? <==> (s == [] || s[0] != separator)
  {
    if s != [] && s[0] == separator then
      var p := ReadPart(s[1..]);
      (Some(p.0), p.1)
    else (None, s)
  }

  /** Reads the anchor, query string and interwiki parts, in that order. */
  function ReadTail(s: string): (r: (Option<string>, Option<string>, Option<string>))
    ensures s == [] ==> r == (None, None, None)
  {
    var a := ReadOptionalPart('#', s);
    var q := ReadOptionalPart('?', a.1);
    var i := ReadOptionalPart('@', q.1);
    (a.0, q.0, i.0)
  }

  /** Reads a rendered document link: the reference, then the optional parts. */
  function ReadLinkReference(s: string): (l: Link)
    ensures l.linkType == Document && l.reference.Some?
  {
    var p := ReadPart(s);
    var t := ReadTail(p.1);
    Link(Document, Some(p.0), t.0, t.1, t.2)
  }

  lemma ReadExtraPart(separator: char, part: Option<string>, rest: string)
    requires rest == [] || (rest[0] in SEPARATORS && rest[0] != separator)
    ensures ReadOptionalPart(separator, ExtraPart(separator, part) + rest) == (part, rest)
  {
    if part.Some? {
      assert ExtraPart(separator, part) + rest == [separator] + (AddEscapesToExtraParts(part.value) + rest);
      ReadPresentPart(separator, part.value, rest);
    } else {
      assert ExtraPart(separator, part) + rest == rest;
    }
  }

  /** A separator, an escaped part and a rest starting at another separator read back as that part and that rest. */
  lemma ReadPresentPart(separator: char, part: string, rest: string)
    requires rest == [] || rest[0] in SEPARATORS
    ensures ReadOptionalPart(separator, [separator] + (AddEscapesToExtraParts(part) + rest)) == (Some(part), rest)
  {
    var e := AddEscapesToExtraParts(part) + rest;
    var t := [separator] + e;
    assert t[0] == separator && t[1..] == e;
    ReadEscapedExtra(part, rest);
  }

  /** The optional parts read back from their rendering. */
  lemma ReadRenderedTail(link: Link)
    ensures ReadTail(RenderTail(link)) == (link.anchor, link.queryString, link.interWikiAlias)
  {
    var a, q, i := ExtraPart('#', link.anchor), ExtraPart('?', link.queryString), ExtraPart('@', link.interWikiAlias);
    assert RenderTail(link) == a + (q + i);
    ReadExtraPart('@', link.interWikiAlias, []);
    assert i + [] == i;
    assert ReadOptionalPart('@', i) == (link.interWikiAlias, []);
    ReadExtraPart('?', link.queryString, i);
    assert ReadOptionalPart('?', q + i) == (link.queryString, i);
    assert q + i == [] || (q + i)[0] == '?' || (q + i)[0] == '@';
    ReadExtraPart('#', link.anchor, q + i);
    assert ReadOptionalPart('#', a + (q + i)) == (link.anchor, q + i);
  }

  /**
   * A document link whose reference holds no escape char renders to a text that reads back as
   * the same link: the parts come in the order reference, anchor, query string, interwiki alias,
   * each separator appears exactly when its part is non-null, and escaping loses nothing.
   */
  lemma ReadRenderedLink(link: Link)
    requires link.linkType == Document && link.reference.Some?
    requires ESCAPE_CHAR !in link.reference.value
    ensures ReadLinkReference(RenderLinkReference(link)) == link
  {
    var tail := RenderTail(link);
    ReadEscapedReference(link.reference.value, tail);
    ReadRenderedTail(link);
  }

  /** A document link with no part at all renders as the empty text. */
  lemma RenderEmptyLink(link: Link)
    requires link.linkType == Document
    requires link.reference.None? && link.anchor.None? && link.queryString.None? && link.interWikiAlias.None?
    ensures RenderLinkReference(link) == []
  {
    assert AddEscapesToReferencePart([]) == [];
  }

  /** The reference escaping of a concatenation is the concatenation of the escapings. */
  lemma ReferenceAppend(a: string, b: string)
    ensures AddEscapesToReferencePart(a + b) == AddEscapesToReferencePart(a) + AddEscapesToReferencePart(b)
  {
    ReferenceTable();
    ReplaceEachAppend(a, b, ESCAPES_REFERENCE, ESCAPE_REPLACEMENTS_REFERENCE);
  }

  /** A lone separator in a reference gets the escape char in front of it. */
  lemma ReferenceSeparator(sep: char)
    requires sep in SEPARATORS
    ensures AddEscapesToReferencePart([sep]) == [ESCAPE_CHAR, sep]
  {
    var s, r := ESCAPES_REFERENCE, ESCAPE_REPLACEMENTS_REFERENCE;
    ReferenceTable();
    assert [sep][1..] == [];
    assert ReplaceEach([sep], s, r) == ReplacementFor(sep, s, r) + ReplaceEach([], s, r);
    assert ReplacementFor(sep, s, r) == [ESCAPE_CHAR, sep];
  }

  /** A separator between two stretches of text without separators is the only thing the reference escaping changes. */
  lemma EscapeSeparatorInReference(x: string, sep: char, y: string)
    requires sep in SEPARATORS
    requires forall i :: 0 <= i < |x| ==> x[i] !in REFERENCE_SPECIALS
    requires forall i :: 0 <= i < |y| ==> y[i] !in REFERENCE_SPECIALS
    ensures AddEscapesToReferencePart(x + [sep] + y) == x + [ESCAPE_CHAR, sep] + y
  {
    ReferenceAppend(x + [sep], y);
    ReferenceAppend(x, [sep]);
    ReferenceSeparator(sep);
    assert AddEscapesToReferencePart(x) == x && AddEscapesToReferencePart(y) == y;
  }

  /**
   * As written, the reference leaves the escape char unescaped, so two different links can render
   * to the same text: reference `a\` with anchor `b`, and reference `a#b` alone, both give `a\#b`,
   * which reads back as the second.
   */
  lemma RenderCollision()
    ensures var l1 := Link(Document, Some("a\\"), Some("b"), None, None);
            var l2 := Link(Document, Some("a#b"), None, None, None);
            && l1 != l2
            && RenderLinkReference(l1) == RenderLinkReference(l2) == "a\\#b"
            && ReadLinkReference(RenderLinkReference(l1)) == l2
  {
    var l1 := Link(Document, Some("a\\"), Some("b"), None, None);
    var l2 := Link(Document, Some("a#b"), None, None, None);
    assert AddEscapesToReferencePart("a\\") == "a\\";
    assert AddEscapesToExtraParts("b") == "b";
    assert RenderTail(l1) == "#b";
    assert RenderLinkReference(l1) == "a\\" + "#b" == "a\\#b";
    EscapeSeparatorInReference("a", '#', "b");
    assert "a" + ['#'] + "b" == "a#b" && "a" + [ESCAPE_CHAR, '#'] + "b" == "a\\#b";
    assert RenderTail(l2) == [];
    assert RenderLinkReference(l2) == "a\\#b" + [];
    ReadEscapedReference("a#b", []);
    assert AddEscapesToReferencePart("a#b") + [] == "a\\#b";
    assert ReadPart("a\\#b") == ("a#b", []);
    assert ReadTail([]) == (None, None, None);
    assert ReadLinkReference("a\\#b") == l2;
  }

  // ---------------------------------------------------------------------------------------
  // The rendering the comment on the reference escaping asks for
  // ---------------------------------------------------------------------------------------

  /** Both tables agree on text that holds no escape char. */
  lemma {:induction false} SameEscapingWithoutEscapeChar(text: string)
    ensures ESCAPE_CHAR !in text ==> AddEscapesToExtraParts(text) == AddEscapesToReferencePart(text)
  {
    if text != [] && ESCAPE_CHAR !in text {
      ReferenceTable();
      ExtraTable();
      var c := text[0];
      assert c != ESCAPE_CHAR;
      assert ReplacementFor(c, ESCAPES_EXTRA, ESCAPE_REPLACEMENTS_EXTRA)
          == ReplacementFor(c, ESCAPES_REFERENCE, ESCAPE_REPLACEMENTS_REFERENCE);
      assert ESCAPE_CHAR !in text[1..];
      SameEscapingWithoutEscapeChar(text[1..]);
    }
  }

  /** renderLinkReference with the escape char escaped in the reference too, using the extra-part table. */
  function RenderLinkReferenceCorrected(link: Link): (r: string)
    ensures link.linkType == Uri ==> r == link.reference.GetOr([])
    ensures link.linkType != Uri && ESCAPE_CHAR !in link.reference.GetOr([]) ==> r == RenderLinkReference(link)
  {
    SameEscapingWithoutEscapeChar(link.reference.GetOr([]));
    if link.linkType == Uri then link.reference.GetOr([])
    else AddEscapesToExtraParts(link.reference.GetOr([])) + RenderTail(link)
  }

  /** Every document link with a reference reads back from its corrected rendering. */
  lemma ReadRenderedLinkCorrected(link: Link)
    requires link.linkType == Document && link.reference.Some?
    ensures ReadLinkReference(RenderLinkReferenceCorrected(link)) == link
  {
    var tail := RenderTail(link);
    ReadEscapedExtra(link.reference.value, tail);
    ReadRenderedTail(link);
  }

  /** The corrected rendering is injective on document links with a reference. */
  lemma RenderCorrectedInjective(l1: Link, l2: Link)
    requires l1.linkType == Document && l1.reference.Some?
    requires l2.linkType == Document && l2.reference.Some?
    requires RenderLinkReferenceCorrected(l1) == RenderLinkReferenceCorrected(l2)
    ensures l1 == l2
  {
    ReadRenderedLinkCorrected(l1);
    ReadRenderedLinkCorrected(l2);
  }
}
