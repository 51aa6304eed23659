/** Where the scanner departs from the GraphQL specification: escaped triple quotes inside
    block strings (section 2.9.4) and comments ended by a lone carriage return (section 2.1.4). */
module GqlLimits {
  import opened GqlScanner
  import opened GqlSyntax
  import opened GqlCounting

  predicate EscapeAt(s: string) { |s| >= 4 && s[0] == '\\' && TripleQuote(s[1..]) }

  /** Where the specification ends a block string whose opening quotes have been read. */
  function BlockEnd(s: string): Option<nat> {
    if s == [] then None
    else if TripleQuote(s) then Some(0)
    else
      var n := if EscapeAt(s) then 4 else 1;
      match BlockEnd(s[n..]) case None => None case Some(m) => Some(m + n)
  }

  /** Where the scanner ends it. */
  function FirstTriple(s: string): Option<nat> {
    if s == [] then None
    else if TripleQuote(s) then Some(0)
    else match FirstTriple(s[1..]) case None => None case Some(m) => Some(m + 1)
  }

  lemma {:induction false} ScannerBlockEnd(s: string, d: Doc)
    ensures match FirstTriple(s)
            case None => ScanAll(s, Scan(InBlockString, d)) == Scan(InBlockString, d)
            case Some(n) => n + 3 <= |s| && ScanAll(s, Scan(InBlockString, d)) == ScanAll(s[n + 3..], Outside(d))
    decreases |s|
  {
    if s != [] && !TripleQuote(s) {
      ScannerBlockEnd(s[1..], d);
    }
  }

  /** Whether some \""" lies wholly in front of position n. */
  predicate EscapeBefore(s: string, n: nat) { exists k :: 0 <= k && k + 4 <= n <= |s| && EscapeAt(s[k..]) }

  lemma {:induction false} BlockEndBounds(s: string)
    requires BlockEnd(s).Some?
    ensures var n := BlockEnd(s).value; n + 3 <= |s| && TripleQuote(s[n..])
    ensures FirstTriple(s).Some? && FirstTriple(s).value <= BlockEnd(s).value
    decreases |s|
  {
    if !TripleQuote(s) {
      var n := if EscapeAt(s) then 4 else 1;
      BlockEndBounds(s[n..]);
      assert s[n..][BlockEnd(s[n..]).value..] == s[BlockEnd(s).value..];
      if EscapeAt(s) {
        assert FirstTriple(s[1..]) == Some(0);
      }
    }
  }

  lemma EscapeBeforeShift(s: string, end: nat)
    requires s != [] && 0 < end <= |s| && !EscapeAt(s)
    ensures EscapeBefore(s, end) <==> EscapeBefore(s[1..], end - 1)
  {
    if EscapeBefore(s, end) {
      var k :| 0 <= k && k + 4 <= end <= |s| && EscapeAt(s[k..]);
      assert k != 0 by { assert s[0..] == s; }
      assert s[1..][k - 1..] == s[k..];
    }
    if EscapeBefore(s[1..], end - 1) {
      var k :| 0 <= k && k + 4 <= end - 1 <= |s[1..]| && EscapeAt(s[1..][k..]);
      assert s[1..][k..] == s[k + 1..];
    }
  }

  /** The scanner leaves a block string where the specification ends it if and only if no \""" is inside. */
  lemma {:induction false} BlockEndExactly(s: string)
    requires BlockEnd(s).Some?
    ensures FirstTriple(s) == BlockEnd(s) <==> !EscapeBefore(s, BlockEnd(s).value)
    decreases |s|
  {
    BlockEndBounds(s);
    if EscapeAt(s) && !TripleQuote(s) {
      BlockEndBounds(s[4..]);
      assert FirstTriple(s[1..]) == Some(0);
      assert s[0..] == s && EscapeAt(s[0..]);
    } else if !TripleQuote(s) {
      BlockEndExactly(s[1..]);
      EscapeBeforeShift(s, BlockEnd(s).value);
    }
  }

  /** Inside a body only quotes, braces and comments matter. */
  lemma {:induction false} PlainInBody(w: string, rest: string, d: Doc)
    requires d.place == Body && forall k | 0 <= k < |w| :: w[k] !in {'#', '"', '{', '}'}
    ensures ScanAll(w + rest, Outside(d)) == ScanAll(rest, Outside(d))
    decreases |w|
  {
    if w == [] {
      assert w + rest == rest;
    } else {
      assert (w + rest)[1..] == w[1..] + rest;
      PlainInBody(w[1..], rest, d);
    }
  }

  /** `{`, a field with an argument, then a block string with an escape, as the scanner reads them: the
      escape ends the string, `}` closes the operation and `{` opens another. */
  lemma EscapeReadAsEnd(field: string, rest: string, d1: Doc, d2: Doc)
    requires d1 == Doc(Body, 1, 0, 1) && d2 == Doc(Body, 1, 0, 2)
    requires forall k | 0 <= k < |field| :: field[k] !in {'#', '"', '{', '}'}
    ensures ScanAll(['{'] + (field + (Spell(Block("\\")) + (['}'] + (['{'] + rest)))), Outside(START))
            == ScanAll(rest, Outside(d2))
  {
    var inner := ['}'] + (['{'] + rest);
    PunctTakes('{', field + (Spell(Block("\\")) + inner), START);
    PlainInBody(field, Spell(Block("\\")) + inner, d1);
    BlockSkips("\\", inner, d1);
    ReopensBody(rest, d1, d2);
  }

  lemma ReopensBody(rest: string, d1: Doc, d2: Doc)
    requires d1 == Doc(Body, 1, 0, 1) && d2 == Doc(Body, 1, 0, 2)
    ensures ScanAll(['}'] + (['{'] + rest), Outside(d1)) == ScanAll(rest, Outside(d2))
  {
    PunctTakes('}', ['{'] + rest, d1);
    PunctTakes('{', rest, Close(d1));
  }

  lemma NeverEnds(end: string, d: Doc)
    requires end == "\"\"\")}"
    ensures ScanAll(end, Outside(d)).doc == d
  {
    var tail := end[3..];
    assert FirstTriple(tail[1..][1..]) == None;
    assert FirstTriple(tail[1..]) == None;
    ScannerBlockEnd(tail, d);
  }

  /** The document {a(s:"""\"""}{""")} has one operation; the scanner counts two. */
  lemma EscapeMiscounts(field: string, end: string)
    requires field == "a(s:" && end == "\"\"\")}"
    ensures CountOperations(['{'] + (field + (Spell(Block("\\")) + (['}'] + (['{'] + end))))) == 2
    ensures NumOperations([Anonymous([Field(None, "a", [Member("s", BlockText("\\\"\"\"}{"))], [], [])])]) == 1
  {
    var d1, d2 := Doc(Body, 1, 0, 1), Doc(Body, 1, 0, 2);
    EscapeReadAsEnd(field, end, d1, d2);
    NeverEnds(end, d2);
  }

  /** To the specification that source is one block string, escape and all. */
  lemma EscapeIsInside(raw: string, end: string, close: string)
    requires raw == "\\\"\"\"}{" && close == "\"\"\"" && end == close + ")}"
    ensures Spell(Block("\\")) + (['}'] + (['{'] + end)) == Spell(Block(raw)) + ")}"
    ensures BlockEnd(raw + end) == Some(|raw|)
  {
    var s := raw + end;
    assert s[4..] == ['}'] + (['{'] + end);
    assert s[4..][1..] == ['{'] + end && s[4..][1..][1..] == end;
    assert BlockEnd(end) == Some(0);
    assert BlockEnd(['{'] + end) == Some(1);
    assert BlockEnd(s[4..]) == Some(2);
    assert TripleQuote(s[1..]);
  }

  // ---- comments -------------------------------------------------------------

  /** Where a comment ends whose number sign has been read: at the first of the given characters, or with the source. */
  function FirstOf(s: string, ends: set<char>): (n: nat)
    ensures n <= |s| && (n < |s| ==> s[n] in ends) && forall k | 0 <= k < n :: s[k] !in ends
  {
    if s == [] || s[0] in ends then 0 else 1 + FirstOf(s[1..], ends)
  }

  /** The specification ends a comment at a line feed or a carriage return; the scanner at a line feed. */
  function CommentEnd(s: string): nat { FirstOf(s, LINE_ENDS) }

  function FirstFeed(s: string): nat { FirstOf(s, {'\n'}) }

  /** The scanner leaves a comment behind the first line feed, or never. */
  lemma ScannerCommentEnd(s: string, d: Doc)
    ensures var n := FirstFeed(s);
            ScanAll(s, Scan(InComment, d)) == if n < |s| then ScanAll(s[n + 1..], Outside(d)) else Scan(InComment, d)
  {
    var n := FirstFeed(s);
    if n < |s| {
      assert s == s[..n] + ['\n'] + s[n + 1..];
      CommentSkips(s[..n], s[n + 1..], d);
    } else {
      assert s + [] == s;
      CommentSkips(s, [], d);
    }
  }

  /** The scanner leaves a comment where the specification ends it if and only if no carriage return comes before the
      first line feed. */
  lemma CommentEndExactly(s: string)
    ensures FirstFeed(s) == CommentEnd(s) <==> forall k | 0 <= k < FirstFeed(s) :: s[k] != '\r'
  {
    var spec, scan := CommentEnd(s), FirstFeed(s);
    assert spec <= scan;
    if spec < scan {
      assert s[spec] == '\r';
    }
  }

  /** A gap leaves the scanner inside a comment if and only if some comment in it ends in a carriage return and no line
      feed comes behind that comment. */
  lemma {:induction false} HangingExactly(gap: seq<Ignored>, waiting: bool)
    requires GapOk(gap)
    ensures Hanging(gap, waiting)
            <==> (waiting && forall k | 0 <= k < |gap| :: !FeedsLine(gap[k]))
                 || exists j :: 0 <= j < |gap| && gap[j].Comment? && gap[j].end == '\r'
                                && forall k | j < k < |gap| :: !FeedsLine(gap[k])
    decreases |gap|
  {
    if gap != [] {
      var rest := gap[1..];
      HangingExactly(rest, !FeedsLine(gap[0]) && (waiting || gap[0].Comment?));
      assert forall k | 0 <= k < |rest| :: rest[k] == gap[k + 1];
      if j :| 0 <= j < |rest| && rest[j].Comment? && rest[j].end == '\r'
              && forall k | j < k < |rest| :: !FeedsLine(rest[k]) {
        assert gap[j + 1] == rest[j];
        assert forall k | j + 1 < k < |gap| :: !FeedsLine(gap[k]) by {
          assert forall k | j + 1 < k < |gap| :: gap[k] == rest[k - 1];
        }
      }
      if j :| 0 < j < |gap| && gap[j].Comment? && gap[j].end == '\r' && forall k | j < k < |gap| :: !FeedsLine(gap[k]) {
        assert rest[j - 1] == gap[j];
      }
      assert (forall k | 0 <= k < |rest| :: !FeedsLine(rest[k]))
             <==> (forall k | 0 < k < |gap| :: !FeedsLine(gap[k])) by {
        assert forall k | 0 < k < |gap| :: gap[k] == rest[k - 1];
      }
    }
  }

  /** In between the scanner reads nothing: what the specification reads of the text between a lone carriage return and
      the line feed is lost to it. By GapPasses that is harmless when the text holds no token. */
  lemma LoneReturnSwallows(text: string, line: string, rest: string, d: Doc)
    requires '\n' !in text && '\n' !in line
    ensures ScanAll(['#'] + text + ['\r'] + line + ['\n'] + rest, Outside(d)) == ScanAll(rest, Outside(d))
    ensures ScanAll(['#'] + text + ['\r'] + line, Outside(d)) == Scan(InComment, d)
  {
    var inside := text + ['\r'] + line;
    var s := ['#'] + text + ['\r'] + line;
    assert s[1..] == inside && inside + [] == inside;
    assert (s + ['\n'] + rest)[1..] == inside + ['\n'] + rest;
    CommentSkips(inside, rest, d);
    CommentSkips(inside, [], d);
  }

  /** Such a line is read in full by the specification and not at all by the scanner, so the two agree on what follows
      exactly when the tokens of the line change nothing. */
  lemma LoneReturnLoses(text: string, ps: seq<Piece>, rest: string, d: Doc)
    requires '\n' !in text && '\n' !in Write(ps, END) && Legible(ps, END)
    ensures ScanAll(['#'] + text + ['\r'] + Write(ps, END) + ['\n'] + rest, Outside(d)) == ScanAll(rest, Outside(d))
    ensures ScanAll(Write(ps, END), Outside(d)).doc == TakeAll(d, TokensOf(ps))
  {
    LoneReturnSwallows(text, Write(ps, END), rest, d);
    PiecesTake(ps, END, d);
  }

  /** The specification ends this comment at the carriage return and then reads one operation. */
  lemma LoneReturnMiscounts(body: string)
    requires body == "{a}"
    ensures CountOperations(['#'] + [] + ['\r'] + body) == 0 && CountOperations(['\r'] + body) == 1
  {
    LoneReturnSwallows([], body, [], START);
    PlainSkips(['\r'], body, START);
    assert body == ['{'] + (['a'] + ['}']);
    OneField(['a'], Doc(Body, 1, 0, 1));
  }

  lemma OneField(field: string, d1: Doc)
    requires d1 == Doc(Body, 1, 0, 1) && forall k | 0 <= k < |field| :: field[k] !in {'#', '"', '{', '}'}
    ensures CountOperations(['{'] + (field + ['}'])) == 1
  {
    PunctTakes('{', field + ['}'], START);
    PlainInBody(field, ['}'], d1);
    PunctTakes('}', [], d1);
    assert ['}'] + [] == ['}'];
  }
}
