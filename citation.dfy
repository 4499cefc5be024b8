/** The citation micro-format shared by the retrieval tool and the query
    orchestrator. The tool renders every search hit as a block

      <metadata_source_i>\nfilename:F\npage:P\nscore:S\n</metadata_source_i>\nTEXT

    and joins the blocks with "\n---\n"; the orchestrator recovers
    (i, F, P, S) with the pattern
    `<metadata_source_(\d+)>\nfilename:([^\n]+)\npage:([^\n]+)\nscore:([\d.]+)`.
    This module holds both sides and the proof that they agree. */
module Citation {
  import opened Wrappers
  import opened Text
  import opened Seqs

  /** A search hit as the vector-index wrapper returns it: the `filename` and
      `page_number` entries of its metadata (when present, `page_number`
      already in its `str` form), its similarity score in hundredths, and the
      chunk text. */
  datatype Hit = Hit(filename: Option<string>, page: Option<string>, score: Option<nat>, text: string)

  /** The four groups of one match of the source-tag pattern. */
  datatype Tag = Tag(id: string, filename: string, page: string, score: string)

  /** An exact decimal, `digits / 10^scale`: the value `float` reads from a score. */
  datatype Decimal = Decimal(digits: nat, scale: nat)

  /** A citation as the orchestrator reports it. */
  datatype Source = Source(filename: string, page: string, score: Decimal)

  const Marker: string := "<metadata_source_"
  const Divider: string := "\n---\n"

  // ---------------------------------------------------------------- rendering

  function FilenameField(h: Hit): string {
    match h.filename
    case Some(f) => f
    case None => "Unknown"
  }

  function PageField(h: Hit): string {
    match h.page
    case Some(p) => p
    case None => "N/A"
  }

  function ScoreField(h: Hit): nat {
    match h.score
    case Some(s) => s
    case None => 0
  }

  /** `f"{score:.2f}"` for a score of `h` hundredths. */
  function FormatScore(h: nat): string {
    NatToString(h / 100) + "." + [DigitChar(h % 100 / 10), DigitChar(h % 10)]
  }

  function Header(i: nat, h: Hit): string {
    Marker + NatToString(i) + ">\nfilename:" + FilenameField(h) + "\npage:" + PageField(h)
    + "\nscore:" + FormatScore(ScoreField(h))
  }

  function Closing(i: nat): string {
    "\n</metadata_source_" + NatToString(i) + ">\n"
  }

  /** The block for the `i`-th hit (counting from 1). */
  function Block(i: nat, h: Hit): string {
    Header(i, h) + Closing(i) + h.text
  }

  function Blocks(hits: seq<Hit>, i: nat): (r: seq<string>)
    ensures |r| == |hits|
    decreases |hits|
  {
    if hits == [] then [] else [Block(i, hits[0])] + Blocks(hits[1..], i + 1)
  }

  /** The block of the `k`-th hit is numbered `i + k`. */
  lemma {:induction false} BlocksAt(hits: seq<Hit>, i: nat, k: nat)
    requires k < |hits|
    ensures Blocks(hits, i)[k] == Block(i + k, hits[k])
    decreases k
  {
    if k > 0 {
      BlocksAt(hits[1..], i + 1, k - 1);
      assert hits[1..][k - 1] == hits[k];
    }
  }

  /** The tool's rendering of a non-empty hit list. */
  function Render(hits: seq<Hit>): string {
    Join(Blocks(hits, 1), Divider)
  }

  // ------------------------------------------------------------------ parsing

  predicate IsScoreChar(c: char) {
    IsDigit(c) || c == '.'
  }

  predicate NotNewline(c: char) {
    c != '\n'
  }

  /** Every character of `s` satisfies `p`. */
  predicate AllSat(s: string, p: char -> bool) {
    forall k | 0 <= k < |s| :: p(s[k])
  }

  /** A run of `p`-characters may not continue into `rest`. */
  predicate Stops(rest: string, p: char -> bool) {
    rest == [] || !p(rest[0])
  }

  /** The length of the longest prefix of `s` all of whose characters satisfy `p`. */
  function Span(s: string, p: char -> bool): nat
    decreases |s|
  {
    if s != [] && p(s[0]) then 1 + Span(s[1..], p) else 0
  }

  lemma {:induction false} SpanSpec(s: string, p: char -> bool)
    ensures var n := Span(s, p);
      n <= |s| && AllSat(s[..n], p) && Stops(s[n..], p)
    decreases |s|
  {
    if s != [] && p(s[0]) {
      SpanSpec(s[1..], p);
      var n := Span(s, p);
      assert s[..n] == [s[0]] + s[1..][..n - 1];
      assert s[n..] == s[1..][n - 1..];
    }
  }

  /** One stage of the pattern: the literal `lit`, then a non-empty maximal run
      of characters satisfying `p`; yields the run and what follows it. */
  function Field(s: string, lit: string, p: char -> bool): Option<(string, string)> {
    if !StartsWith(s, lit) then None
    else
      var u := s[|lit|..];
      var n := Span(u, p);
      SpanSpec(u, p);
      if n == 0 then None
      else Some((u[..n], u[n..]))
  }

  /** A stage matches a prefix: the literal, then a non-empty run of
      `p`-characters that cannot be extended. */
  lemma FieldSpec(s: string, lit: string, p: char -> bool)
    ensures var r := Field(s, lit, p);
      r.Some? ==> StartsWith(s, lit) && s == lit + r.value.0 + r.value.1
                  && r.value.0 != [] && AllSat(r.value.0, p) && Stops(r.value.1, p)
  {
    if StartsWith(s, lit) {
      var u := s[|lit|..];
      SpanSpec(u, p);
      var n := Span(u, p);
      assert s == s[..|lit|] + u[..n] + u[n..];
    }
  }

  /** The text a tag was matched from. */
  function TagText(t: Tag): string {
    Marker + t.id + ">\nfilename:" + t.filename + "\npage:" + t.page + "\nscore:" + t.score
  }

  /** What the four groups of the pattern admit. */
  predicate TagShape(t: Tag) {
    t.id != [] && AllDigits(t.id)
    && t.filename != [] && AllSat(t.filename, NotNewline)
    && t.page != [] && AllSat(t.page, NotNewline)
    && t.score != [] && AllSat(t.score, IsScoreChar)
  }

  /** A match of the pattern at the start of `s`: the four groups and the text
      after the match. Each group is a maximal run of its character class;
      since every run is followed in the pattern by a character outside its
      class, backtracking can find no other match, so this is the regex match. */
  function MatchTag(s: string): Option<(Tag, string)> {
    match Field(s, Marker, IsDigit)
    case None => None
    case Some((id, s1)) =>
      match Field(s1, ">\nfilename:", NotNewline)
      case None => None
      case Some((f, s2)) =>
        match Field(s2, "\npage:", NotNewline)
        case None => None
        case Some((p, s3)) =>
          match Field(s3, "\nscore:", IsScoreChar)
          case None => None
          case Some((c, rest)) => Some((Tag(id, f, p, c), rest))
  }

  /** A match starts with the marker and consumes at least one character. */
  lemma MatchTagSpec(s: string)
    ensures MatchTag(s).Some? ==> StartsWith(s, Marker) && |MatchTag(s).value.1| < |s|
  {
    if MatchTag(s).Some? {
      MatchTagSound(s);
      assert |TagText(MatchTag(s).value.0)| > 0;
      assert StartsWith(s, Marker) by {
        assert s[..|Marker|] == (TagText(MatchTag(s).value.0) + MatchTag(s).value.1)[..|Marker|];
      }
    }
  }

  /** What a match consumes is the text of its tag, and its groups have the
      shapes the pattern admits. */
  lemma MatchTagSound(s: string)
    requires MatchTag(s).Some?
    ensures TagShape(MatchTag(s).value.0)
    ensures s == TagText(MatchTag(s).value.0) + MatchTag(s).value.1
  {
    var (id, s1) := Field(s, Marker, IsDigit).value;
    var (f, s2) := Field(s1, ">\nfilename:", NotNewline).value;
    var (p, s3) := Field(s2, "\npage:", NotNewline).value;
    var (c, rest) := Field(s3, "\nscore:", IsScoreChar).value;
    FieldSpec(s, Marker, IsDigit);
    FieldSpec(s1, ">\nfilename:", NotNewline);
    FieldSpec(s2, "\npage:", NotNewline);
    FieldSpec(s3, "\nscore:", IsScoreChar);
    assert AllDigits(id) by {
      assert forall k | 0 <= k < |id| :: IsDigit(id[k]);
    }
    TagTextOf(s, id, s1, f, s2, p, s3, c, rest);
  }

  lemma TagTextOf(s: string, id: string, s1: string, f: string, s2: string, p: string, s3: string, c: string, rest: string)
    requires s == Marker + id + s1
    requires s1 == ">\nfilename:" + f + s2
    requires s2 == "\npage:" + p + s3
    requires s3 == "\nscore:" + c + rest
    ensures s == TagText(Tag(id, f, p, c)) + rest
  {
  }

  /** `re.findall` of the source-tag pattern: matches are found left to right
      and do not overlap; the scan resumes where the last match ended. Every
      tag found has the pattern's shape. */
  function FindAll(s: string): (r: seq<Tag>)
    ensures forall k | 0 <= k < |r| :: TagShape(r[k])
    decreases |s|
  {
    if s == [] then []
    else
      match MatchTag(s)
      case Some((t, rest)) => MatchTagSpec(s); MatchTagSound(s); [t] + FindAll(rest)
      case None => FindAll(s[1..])
  }

  /** Python's `float(s)` for the strings the score group admits, kept exact:
      one optional '.', and at least one digit. */
  function ParseScore(s: string): Option<Decimal> {
    var parts := Split(s, '.');
    if |parts| == 1 && parts[0] != [] && AllDigits(parts[0]) then
      Some(Decimal(ParseDigits(parts[0]), 0))
    else if |parts| == 2 && parts[0] + parts[1] != [] && AllDigits(parts[0]) && AllDigits(parts[1]) then
      AllDigitsConcat(parts[0], parts[1]);
      Some(Decimal(ParseDigits(parts[0] + parts[1]), |parts[1]|))
    else
      None
  }

  lemma AllDigitsConcat(a: string, b: string)
    requires AllDigits(a) && AllDigits(b)
    ensures AllDigits(a + b)
  {
    assert forall k | 0 <= k < |a + b| :: (a + b)[k] == if k < |a| then a[k] else b[k - |a|];
  }

  /** The message of the `ValueError` that `float(s)` raises. */
  function FloatError(s: string): string {
    "could not convert string to float: '" + s + "'"
  }

  /** On a string the score group can capture, `float` fails exactly when there
      is more than one '.' or the string is the lone ".". */
  lemma {:induction false} ParseScoreDefined(s: string)
    requires s != [] && forall k | 0 <= k < |s| :: IsScoreChar(s[k])
    ensures ParseScore(s).None? <==> Count(s, '.') > 1 || s == "."
  {
    var parts := Split(s, '.');
    SplitJoin(s, '.');
    if |parts| == 1 {
      assert s == parts[0];
      assert AllDigits(s) by {
        forall k | 0 <= k < |s| ensures IsDigit(s[k]) {
          assert s[k] in parts[0];
        }
      }
      assert '.' !in s;
    } else if |parts| == 2 {
      var a := parts[0];
      var b := parts[1];
      assert s == a + "." + b;
      assert AllDigits(a) by {
        forall k | 0 <= k < |a| ensures IsDigit(a[k]) {
          assert a[k] == s[k];
          assert a[k] in a;
        }
      }
      assert AllDigits(b) by {
        forall k | 0 <= k < |b| ensures IsDigit(b[k]) {
          assert b[k] == s[|a| + 1 + k];
          assert b[k] in b;
        }
      }
      assert a + b == [] <==> s == ".";
    }
  }

  // ------------------------------------------------------------- round trip

  /** A hit whose block the pattern can recover: the rendered filename and page
      are non-empty single lines, and the chunk text opens no tag of its own. */
  predicate Parsable(h: Hit) {
    FilenameField(h) != [] && '\n' !in FilenameField(h)
    && PageField(h) != [] && '\n' !in PageField(h)
    && !HasInfix(h.text, Marker)
  }

  function ExpectedTag(i: nat, h: Hit): Tag {
    Tag(NatToString(i), FilenameField(h), PageField(h), FormatScore(ScoreField(h)))
  }

  lemma {:induction false} SpanRun(run: string, rest: string, p: char -> bool)
    requires AllSat(run, p) && Stops(rest, p)
    ensures Span(run + rest, p) == |run|
    decreases |run|
  {
    if run == [] {
      assert run + rest == rest;
    } else {
      assert (run + rest)[0] == run[0];
      assert (run + rest)[1..] == run[1..] + rest;
      assert AllSat(run[1..], p) by {
        forall k | 0 <= k < |run[1..]| ensures p(run[1..][k]) {
          assert run[1..][k] == run[k + 1];
        }
      }
      SpanRun(run[1..], rest, p);
    }
  }

  lemma FieldOf(lit: string, run: string, rest: string, p: char -> bool)
    requires run != [] && AllSat(run, p) && Stops(rest, p)
    ensures Field(lit + run + rest, lit, p) == Some((run, rest))
  {
    var s := lit + run + rest;
    assert s[..|lit|] == lit;
    assert s[|lit|..] == run + rest;
    SpanRun(run, rest, p);
    assert (run + rest)[..|run|] == run;
    assert (run + rest)[|run|..] == rest;
  }

  lemma NoDigitIsOpen(s: string)
    requires AllDigits(s)
    ensures '<' !in s && '\n' !in s && '.' !in s
  {
    forall k | 0 <= k < |s| ensures s[k] != '<' && s[k] != '\n' && s[k] != '.' {
      assert IsDigit(s[k]);
    }
  }

  lemma FormatScoreShape(h: nat)
    ensures FormatScore(h) != [] && AllSat(FormatScore(h), IsScoreChar)
  {
    var n := NatToString(h / 100);
    var sc := FormatScore(h);
    forall k | 0 <= k < |sc| ensures IsScoreChar(sc[k]) {
      if k < |n| {
        assert sc[k] == n[k];
      }
    }
  }

  lemma NoNewlineRun(s: string)
    requires '\n' !in s
    ensures AllSat(s, NotNewline)
  {
    forall k | 0 <= k < |s| ensures NotNewline(s[k]) {
      assert s[k] in s;
    }
  }

  lemma HeaderText(hd: string, rest: string, n: string, f: string, p: string, s: string)
    requires hd == Marker + n + ">\nfilename:" + f + "\npage:" + p + "\nscore:" + s
    ensures hd + rest == Marker + n + (">\nfilename:" + f + ("\npage:" + p + ("\nscore:" + s + rest)))
  {
  }

  /** The matcher accepts every text of the tag's form, recovering its groups. */
  lemma MatchTagComplete(n: string, f: string, p: string, sc: string, rest: string)
    requires TagShape(Tag(n, f, p, sc))
    requires Stops(rest, IsScoreChar)
    ensures MatchTag(Marker + n + (">\nfilename:" + f + ("\npage:" + p + ("\nscore:" + sc + rest))))
         == Some((Tag(n, f, p, sc), rest))
  {
    var x3 := "\nscore:" + sc + rest;
    var x2 := "\npage:" + p + x3;
    var x1 := ">\nfilename:" + f + x2;
    assert AllSat(n, IsDigit) by {
      assert forall k | 0 <= k < |n| :: IsDigit(n[k]);
    }
    FieldOf(Marker, n, x1, IsDigit);
    FieldOf(">\nfilename:", f, x2, NotNewline);
    FieldOf("\npage:", p, x3, NotNewline);
    FieldOf("\nscore:", sc, rest, IsScoreChar);
  }

  lemma MatchHeader(i: nat, h: Hit, rest: string)
    requires FilenameField(h) != [] && '\n' !in FilenameField(h)
    requires PageField(h) != [] && '\n' !in PageField(h)
    requires rest == [] || rest[0] == '\n'
    ensures MatchTag(Header(i, h) + rest) == Some((ExpectedTag(i, h), rest))
  {
    var t := ExpectedTag(i, h);
    HeaderText(Header(i, h), rest, t.id, t.filename, t.page, t.score);
    NoNewlineRun(t.filename);
    NoNewlineRun(t.page);
    FormatScoreShape(ScoreField(h));
    MatchTagComplete(t.id, t.filename, t.page, t.score, rest);
  }

  /** A text that does not start with the marker is skipped one character. */
  lemma SkipOne(s: string)
    requires s != [] && !StartsWith(s, Marker)
    ensures FindAll(s) == FindAll(s[1..])
  {
    MatchTagSpec(s);
    assert MatchTag(s).None?;
  }

  /** A text whose first character is not '<' does not start with the marker. */
  lemma NoMarkerAtOther(s: string)
    requires s != [] && s[0] != '<'
    ensures !StartsWith(s, Marker)
  {
    assert |s| < |Marker| || s[..|Marker|][0] != Marker[0];
  }

  /** The second character of the marker is 'm'. */
  lemma NoMarkerAtSlash(s: string)
    requires |s| >= 2 && s[1] == '/'
    ensures !StartsWith(s, Marker)
  {
    assert |s| < |Marker| || s[..|Marker|][1] != Marker[1];
  }

  /** A text shorter than the marker followed by a newline does not start
      with the marker, which contains no newline. */
  lemma NoMarkerBeforeNewline(t: string, r: string)
    requires |t| < |Marker| && r != [] && r[0] == '\n'
    ensures !StartsWith(t + r, Marker)
  {
    assert |t + r| < |Marker| || (t + r)[..|Marker|][|t|] != Marker[|t|];
  }

  lemma {:induction false} SkipNoOpen(g: string, r: string)
    requires '<' !in g
    ensures FindAll(g + r) == FindAll(r)
    decreases |g|
  {
    if g != [] {
      var s := g + r;
      ConsOfAppend(g, r);
      assert g[0] in g;
      NoMarkerAtOther(s);
      SkipOne(s);
      SkipNoOpen(g[1..], r);
    } else {
      assert g + r == r;
    }
  }

  lemma SkipClosingOpen(s: string)
    requires |s| >= 2 && s[0] == '<' && s[1] == '/'
    ensures FindAll(s) == FindAll(s[1..])
  {
    NoMarkerAtSlash(s);
    SkipOne(s);
  }

  /** Removing the first character keeps a text free of the marker. */
  lemma NoInfixTail(t: string)
    requires t != [] && !HasInfix(t, Marker)
    ensures !HasInfix(t[1..], Marker) && !StartsWith(t, Marker)
  {
    assert t[0..] == t;
    forall i | 0 <= i <= |t[1..]| ensures !StartsWith(t[1..][i..], Marker) {
      assert t[1..][i..] == t[i + 1..];
    }
  }

  lemma NoMarkerLong(t: string, r: string)
    requires |t| >= |Marker| && !StartsWith(t, Marker)
    ensures !StartsWith(t + r, Marker)
  {
    assert (t + r)[..|Marker|] == t[..|Marker|];
  }

  lemma {:induction false} SkipText(t: string, r: string)
    requires !HasInfix(t, Marker)
    requires r == [] || r[0] == '\n'
    ensures FindAll(t + r) == FindAll(r)
    decreases |t|
  {
    if t != [] {
      var s := t + r;
      NoInfixTail(t);
      if |t| >= |Marker| {
        NoMarkerLong(t, r);
      } else if r != [] {
        NoMarkerBeforeNewline(t, r);
      } else {
        assert s == t;
      }
      SkipOne(s);
      ConsOfAppend(t, r);
      SkipText(t[1..], r);
    } else {
      assert t + r == r;
    }
  }

  /** Scanning a block followed by a newline (the divider) or by nothing finds
      exactly the block's own tag. */
  lemma BlockScan(i: nat, h: Hit, rest: string)
    requires Parsable(h)
    requires rest == [] || rest[0] == '\n'
    ensures FindAll(Block(i, h) + rest) == [ExpectedTag(i, h)] + FindAll(rest)
  {
    var tail := "/metadata_source_" + NatToString(i) + ">\n";
    var after := "\n" + ("<" + (tail + (h.text + rest)));
    ClosingText(NatToString(i), tail);
    BlockText(Header(i, h), Closing(i), h.text, rest, tail);
    MatchHeader(i, h, after);
    ScanAfterHeader(Header(i, h), after, ExpectedTag(i, h));
    ClosingTail(NatToString(i), tail);
    SkipClosing(tail, h.text + rest);
    SkipText(h.text, rest);
  }

  lemma ClosingTail(n: string, tail: string)
    requires AllDigits(n)
    requires tail == "/metadata_source_" + n + ">\n"
    ensures tail != [] && tail[0] == '/' && '<' !in tail
  {
    NoDigitIsOpen(n);
    assert '<' !in "/metadata_source_";
    assert '<' !in ">\n";
  }

  /** The closing tag opens nothing the pattern matches. */
  lemma SkipClosing(tail: string, u: string)
    requires tail != [] && tail[0] == '/' && '<' !in tail
    ensures FindAll("\n" + ("<" + (tail + u))) == FindAll(u)
  {
    var open := "<" + (tail + u);
    SkipNoOpen("\n", open);
    SkipClosingOpen(open);
    assert open[1..] == tail + u;
    SkipNoOpen(tail, u);
  }

  lemma ClosingText(n: string, tail: string)
    requires tail == "/metadata_source_" + n + ">\n"
    ensures "\n</metadata_source_" + n + ">\n" == "\n" + ("<" + tail)
  {
  }

  lemma BlockText(hd: string, cl: string, text: string, rest: string, tail: string)
    requires cl == "\n" + ("<" + tail)
    ensures hd + cl + text + rest == hd + ("\n" + ("<" + (tail + (text + rest))))
  {
  }

  lemma ScanAfterHeader(hd: string, after: string, t: Tag)
    requires MatchTag(hd + after) == Some((t, after))
    ensures FindAll(hd + after) == [t] + FindAll(after)
  {
  }

  /** The tags expected from the blocks of `hits`, numbered from `i`. */
  function ExpectedTags(hits: seq<Hit>, i: nat): (r: seq<Tag>)
    ensures |r| == |hits|
    ensures forall k | 0 <= k < |hits| :: r[k] == ExpectedTag(i + k, hits[k])
    decreases |hits|
  {
    if hits == [] then [] else [ExpectedTag(i, hits[0])] + ExpectedTags(hits[1..], i + 1)
  }

  lemma DividerFacts()
    ensures Divider != [] && Divider[0] == '\n' && '<' !in Divider
  {
  }

  lemma JoinCons(bs: seq<string>, sep: string)
    requires |bs| >= 2
    ensures Join(bs, sep) == bs[0] + (sep + Join(bs[1..], sep))
  {
  }

  lemma {:induction false} BlocksScan(hits: seq<Hit>, i: nat)
    requires forall k | 0 <= k < |hits| :: Parsable(hits[k])
    ensures FindAll(Join(Blocks(hits, i), Divider)) == ExpectedTags(hits, i)
    decreases |hits|
  {
    if |hits| == 1 {
      BlockScan(i, hits[0], "");
      assert Block(i, hits[0]) + "" == Block(i, hits[0]);
    } else if |hits| > 1 {
      var bs := Blocks(hits, i);
      assert bs[1..] == Blocks(hits[1..], i + 1);
      var j := Join(bs[1..], Divider);
      JoinCons(bs, Divider);
      DividerFacts();
      BlockScan(i, hits[0], Divider + j);
      SkipNoOpen(Divider, j);
      BlocksScan(hits[1..], i + 1);
    }
  }

  /** Round trip of the micro-format: scanning the tool's rendering of parsable
      hits yields one tag per hit, in order, carrying the hit's 1-based index,
      filename, page and formatted score. */
  lemma RenderRoundTrip(hits: seq<Hit>)
    requires forall k | 0 <= k < |hits| :: Parsable(hits[k])
    ensures |FindAll(Render(hits))| == |hits|
    ensures forall k | 0 <= k < |hits| :: FindAll(Render(hits))[k] == ExpectedTag(k + 1, hits[k])
  {
    BlocksScan(hits, 1);
  }

  /** A text without the marker yields no tags, so testing a message for the
      marker before scanning it only skips texts the pattern cannot match. */
  lemma FindAllNeedsMarker(s: string)
    requires !HasInfix(s, Marker)
    ensures FindAll(s) == []
  {
    SkipText(s, "");
    assert s + "" == s;
  }

  /** The two-decimal rendering splits at its one '.' into the integer part
      and the two digits of hundredths. */
  lemma FormatScoreParts(h: nat)
    ensures Split(FormatScore(h), '.') == [NatToString(h / 100), [DigitChar(h % 100 / 10), DigitChar(h % 10)]]
  {
    var n := NatToString(h / 100);
    var frac := [DigitChar(h % 100 / 10), DigitChar(h % 10)];
    assert FormatScore(h) == Join([n, frac], ['.']);
    NoDigitIsOpen(n);
    NoDigitIsOpen(frac);
    JoinSplit([n, frac], '.');
  }

  /** The digits of the rendering, read without the '.', spell the score. */
  lemma ScoreDigits(h: nat)
    ensures var n := NatToString(h / 100);
      var frac := [DigitChar(h % 100 / 10), DigitChar(h % 10)];
      AllDigits(n) && AllDigits(frac) && AllDigits(n + frac) && ParseDigits(n + frac) == h
  {
    var n := NatToString(h / 100);
    var d1 := DigitChar(h % 100 / 10);
    var d0 := DigitChar(h % 10);
    ParseDigitsSnoc(n, d1);
    ParseDigitsSnoc(n + [d1], d0);
    assert n + [d1, d0] == n + [d1] + [d0];
    ParseNatToString(h / 100);
    assert DigitValue(d1) == h % 100 / 10 && DigitValue(d0) == h % 10;
    Hundredths(h);
  }

  lemma Hundredths(h: nat)
    ensures ((h / 100) * 10 + h % 100 / 10) * 10 + h % 10 == h
  {
    var q, m := h / 100, h % 100;
    var a, b := m / 10, m % 10;
    assert h == q * 100 + m;
    assert m == a * 10 + b;
    assert (q * 10 + a) * 10 == q * 100 + a * 10;
  }

  /** The two-decimal rendering of a score reads back as the same value. */
  lemma ScoreRoundTrip(h: nat)
    ensures ParseScore(FormatScore(h)) == Some(Decimal(h, 2))
  {
    FormatScoreParts(h);
    ScoreDigits(h);
  }
}
