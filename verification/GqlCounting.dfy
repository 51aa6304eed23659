/** countOperations counts the operations of every executable document, however it is written. */
module GqlCounting {
  import opened GqlScanner
  import opened GqlSyntax

  function Outside(d: Doc): Scan { Scan(Normal, d) }

  // ---- characters -----------------------------------------------------------

  const SPECIAL := {'#', '"', '(', ')', '{', '}'}

  lemma {:induction false} PlainSkips(w: string, rest: string, d: Doc)
    requires forall k | 0 <= k < |w| :: w[k] !in SPECIAL && (d.place == Idle ==> !IsIdent(w[k]))
    ensures ScanAll(w + rest, Outside(d)) == ScanAll(rest, Outside(d))
    decreases |w|
  {
    if w == [] {
      assert w + rest == rest;
    } else {
      assert (w + rest)[1..] == w[1..] + rest;
      PlainSkips(w[1..], rest, d);
    }
  }

  lemma {:induction false} CommentSkips(text: string, rest: string, d: Doc)
    requires '\n' !in text
    ensures ScanAll(text + ['\n'] + rest, Scan(InComment, d)) == ScanAll(rest, Outside(d))
    ensures ScanAll(text + rest, Scan(InComment, d)) == ScanAll(rest, Scan(InComment, d))
    decreases |text|
  {
    var s := text + ['\n'] + rest;
    if text == [] {
      assert s[1..] == rest;
      assert text + rest == rest;
    } else {
      assert s[1..] == text[1..] + ['\n'] + rest;
      assert (text + rest)[1..] == text[1..] + rest;
      CommentSkips(text[1..], rest, d);
    }
  }

  /** Whatever follows it, the text takes the scanner from one state to another. */
  ghost predicate Passes(w: string, before: Scan, after: Scan) {
    forall rest: string :: ScanAll(w + rest, before) == ScanAll(rest, after)
  }

  lemma PassesNothing(sc: Scan)
    ensures Passes([], sc, sc)
  {
    forall rest: string ensures ScanAll([] + rest, sc) == ScanAll(rest, sc) {
      assert [] + rest == rest;
    }
  }

  lemma PassesAt(w: string, rest: string, whole: string, before: Scan, after: Scan)
    requires Passes(w, before, after) && whole == w + rest
    ensures ScanAll(whole, before) == ScanAll(rest, after)
  {
  }

  lemma PassesBoth(a: string, b: string, rest: string, s0: Scan, s1: Scan, s2: Scan)
    requires Passes(a, s0, s1) && Passes(b, s1, s2)
    ensures ScanAll(a + b + rest, s0) == ScanAll(rest, s2)
  {
    assert a + b + rest == a + (b + rest);
    PassesAt(a, b + rest, a + b + rest, s0, s1);
    PassesAt(b, rest, b + rest, s1, s2);
  }

  lemma PassesAppend(a: string, b: string, s0: Scan, s1: Scan, s2: Scan)
    requires Passes(a, s0, s1) && Passes(b, s1, s2)
    ensures Passes(a + b, s0, s2)
  {
    forall rest: string ensures ScanAll(a + b + rest, s0) == ScanAll(rest, s2) {
      PassesBoth(a, b, rest, s0, s1, s2);
    }
  }

  /** Between tokens: inside a comment that the specification has ended, or not. */
  function InGap(waiting: bool, d: Doc): Scan { Scan(if waiting then InComment else Normal, d) }

  lemma IgnoredSkips(g: Ignored, waiting: bool, rest: string, d: Doc)
    requires GapOk([g])
    ensures ScanAll(SpellIgnored(g) + rest, InGap(waiting, d))
            == ScanAll(rest, InGap(!FeedsLine(g) && (waiting || g.Comment?), d))
  {
    assert [g][0] == g;
    match g
    case Blank(c) =>
      if waiting {
        assert ([c] + rest)[1..] == rest;
      } else {
        PlainSkips([c], rest, d);
      }
    case Comment(text, end) =>
      var s := SpellIgnored(g) + rest;
      assert s[1..] == text + ([end] + rest);
      CommentSkips(text, [end] + rest, d);
      assert ([end] + rest)[1..] == rest;
  }

  /** A gap leaves the document alone, and the scanner in a comment exactly when one is hanging. */
  lemma {:induction false} GapPasses(gap: seq<Ignored>, waiting: bool, d: Doc)
    requires GapOk(gap)
    ensures Passes(SpellGap(gap), InGap(waiting, d), InGap(Hanging(gap, waiting), d))
    decreases |gap|
  {
    PassesNothing(InGap(waiting, d));
    if gap != [] {
      var g, mid := gap[0], !FeedsLine(gap[0]) && (waiting || gap[0].Comment?);
      GapPasses(gap[1..], mid, d);
      forall rest: string ensures ScanAll(SpellIgnored(g) + rest, InGap(waiting, d)) == ScanAll(rest, InGap(mid, d)) {
        IgnoredSkips(g, waiting, rest, d);
      }
      PassesAppend(SpellIgnored(g), SpellGap(gap[1..]), InGap(waiting, d), InGap(mid, d),
                   InGap(Hanging(gap, waiting), d));
    }
  }

  lemma CharPasses(ch: StrChar, d: Doc)
    requires ch.Plain? ==> ch.c != '"' && ch.c != '\\'
    ensures Passes(SpellChar(ch), Scan(InString, d), Scan(InString, d))
  {
    forall rest: string ensures ScanAll(SpellChar(ch) + rest, Scan(InString, d)) == ScanAll(rest, Scan(InString, d)) {
      assert (SpellChar(ch) + rest)[|SpellChar(ch)|..] == rest;
    }
  }

  lemma {:induction false} CharsPass(chars: seq<StrChar>, d: Doc)
    requires TokenOk(Str(chars))
    ensures Passes(SpellChars(chars), Scan(InString, d), Scan(InString, d))
    decreases |chars|
  {
    PassesNothing(Scan(InString, d));
    if chars != [] {
      CharsPass(chars[1..], d);
      CharPasses(chars[0], d);
      PassesAppend(SpellChar(chars[0]), SpellChars(chars[1..]), Scan(InString, d), Scan(InString, d),
                   Scan(InString, d));
    }
  }

  lemma {:induction false} BlockEnds(raw: string, rest: string, d: Doc)
    requires NoTriple(raw)
    ensures ScanAll(raw + "\"\"\"" + rest, Scan(InBlockString, d)) == ScanAll(rest, Outside(d))
    decreases |raw|
  {
    var s := raw + "\"\"\"" + rest;
    if raw == [] {
      assert s[3..] == rest;
    } else {
      var shut := raw + "\"\"\"";
      assert !TripleQuote(shut[0..]) && shut[0..] == shut;
      assert s[0] == shut[0] && s[1] == shut[1] && s[2] == shut[2];
      assert s[1..] == raw[1..] + "\"\"\"" + rest;
      forall k | 0 <= k < |raw| - 1 ensures !TripleQuote((raw[1..] + "\"\"\"")[k..]) {
        assert (raw[1..] + "\"\"\"")[k..] == shut[k + 1..];
      }
      BlockEnds(raw[1..], rest, d);
    }
  }

  // ---- tokens ---------------------------------------------------------------

  /** What a token does to the document mode. */
  function Take(d: Doc, t: Token): Doc {
    match t
    case Punct(c) =>
      if c == '{' then Open(d) else if c == '}' then Close(d)
      else if c == '(' && InHeader(d) then d.(header := d.header + 1)
      else if c == ')' && InHeader(d) && d.header > 0 then d.(header := d.header - 1)
      else d
    case Name(text) => Word(d, text)
    case _ => d
  }

  /** Between definitions a word is taken whole. */
  lemma WordTakes(s: string, n: nat, d: Doc)
    requires d.place == Idle && s != [] && IsIdent(s[0]) && n == IdentLength(s)
    ensures ScanAll(s, Outside(d)) == ScanAll(s[n..], Outside(Word(d, s[..n])))
  {
    assert Next(s, Outside(d)) == (n, Outside(Word(d, s[..n])));
  }

  lemma NameTakes(text: string, rest: string, d: Doc)
    requires TokenOk(Name(text)) && Clear(Name(text), rest)
    ensures ScanAll(text + rest, Outside(d)) == ScanAll(rest, Outside(Word(d, text)))
  {
    if d.place == Idle {
      var s := text + rest;
      IdentLengthIs(s, |text|);
      assert s[..|text|] == text && s[|text|..] == rest;
      WordTakes(s, |text|, d);
    } else {
      PlainSkips(text, rest, d);
    }
  }

  /** Digits, signs, dots and exponents never spell a keyword. */
  lemma {:induction false} NumberSkips(text: string, rest: string, d: Doc)
    requires forall k | 0 <= k < |text| :: text[k] in NUMERIC
    requires rest == [] || !IsIdent(rest[0])
    ensures ScanAll(text + rest, Outside(d)) == ScanAll(rest, Outside(d))
    decreases |text|
  {
    var s := text + rest;
    if text == [] {
      assert s == rest;
    } else {
      var n := if d.place == Idle && IsIdent(s[0]) then IdentLength(s) else 1;
      assert rest != [] ==> s[|text|] == rest[0];
      assert s[..n][0] == text[0];
      assert Next(s, Outside(d)) == (n, Outside(d));
      assert s[n..] == text[n..] + rest;
      NumberSkips(text[n..], rest, d);
    }
  }

  lemma StringSkips(chars: seq<StrChar>, rest: string, d: Doc)
    requires TokenOk(Str(chars)) && Clear(Str(chars), rest)
    ensures ScanAll(Spell(Str(chars)) + rest, Outside(d)) == ScanAll(rest, Outside(d))
  {
    var behind := SpellChars(chars) + (['"'] + rest);
    var s := Spell(Str(chars)) + rest;
    assert s == ['"'] + behind && s[1..] == behind;
    assert !TripleQuote(s);
    CharsPass(chars, d);
    assert ScanAll(behind, Scan(InString, d)) == ScanAll(['"'] + rest, Scan(InString, d));
    assert (['"'] + rest)[1..] == rest;
  }

  lemma BlockSkips(raw: string, rest: string, d: Doc)
    requires NoTriple(raw)
    ensures ScanAll(Spell(Block(raw)) + rest, Outside(d)) == ScanAll(rest, Outside(d))
  {
    var s := Spell(Block(raw)) + rest;
    assert s[3..] == raw + "\"\"\"" + rest;
    BlockEnds(raw, rest, d);
  }

  lemma PunctTakes(c: char, rest: string, d: Doc)
    requires c in PUNCTUATORS
    ensures ScanAll([c] + rest, Outside(d)) == ScanAll(rest, Outside(Take(d, Punct(c))))
  {
    var s := [c] + rest;
    assert s[1..] == rest;
    assert s[0] == c && c != '#' && c != '"' && !IsIdent(c);
    assert Next(s, Outside(d)) == (1, Outside(Take(d, Punct(c))));
  }

  /** Scanning a token in any document mode does what Take says, and leaves the scanner right behind it. */
  lemma TokenTakes(t: Token, rest: string, d: Doc)
    requires TokenOk(t) && Clear(t, rest)
    ensures ScanAll(Spell(t) + rest, Outside(d)) == ScanAll(rest, Outside(Take(d, t)))
  {
    match t
    case Punct(c) => PunctTakes(c, rest, d);
    case Dots => PlainSkips("...", rest, d);
    case Name(text) => NameTakes(text, rest, d);
    case Number(text) => NumberSkips(text, rest, d);
    case Str(chars) => StringSkips(chars, rest, d);
    case Block(raw) => BlockSkips(raw, rest, d);
  }

  function TakeAll(d: Doc, ts: seq<Token>): Doc
    decreases |ts|
  {
    if ts == [] then d else TakeAll(Take(d, ts[0]), ts[1..])
  }

  lemma TailSkips(tail: Tail, d: Doc)
    requires Legible([], tail)
    ensures ScanAll(SpellTail(tail), Outside(d)).doc == d
  {
    var end := if tail.comment.Some? then ['#'] + tail.comment.value else [];
    GapPasses(tail.gap, false, d);
    var waiting := Hanging(tail.gap, false);
    PassesAt(SpellGap(tail.gap), end, SpellTail(tail), Outside(d), InGap(waiting, d));
    if tail.comment.Some? {
      var text := tail.comment.value;
      assert end[1..] == text && text + [] == text;
      CommentSkips(text, [], d);
      assert Next(end, InGap(waiting, d)) == (1, Scan(InComment, d));
    }
  }

  lemma {:induction false} PiecesTake(ps: seq<Piece>, tail: Tail, d: Doc)
    requires Legible(ps, tail)
    ensures ScanAll(Write(ps, tail), Outside(d)).doc == TakeAll(d, TokensOf(ps))
    decreases |ps|
  {
    if ps == [] {
      TailSkips(tail, d);
    } else {
      var rest := Write(ps[1..], tail);
      var t := ps[0].token;
      assert Write(ps, tail) == SpellGap(ps[0].gap) + (Spell(t) + rest);
      GapPasses(ps[0].gap, false, d);
      PassesAt(SpellGap(ps[0].gap), Spell(t) + rest, Write(ps, tail), Outside(d), Outside(d));
      TokenTakes(t, rest, d);
      PiecesTake(ps[1..], tail, Take(d, t));
      assert TokensOf(ps)[1..] == TokensOf(ps[1..]);
    }
  }

  // ---- syntax trees ---------------------------------------------------------

  lemma {:induction false} TakeAppend(d: Doc, a: seq<Token>, b: seq<Token>)
    ensures TakeAll(d, a + b) == TakeAll(TakeAll(d, a), b)
    decreases |a|
  {
    if a == [] {
      assert a + b == b;
    } else {
      assert (a + b)[1..] == a[1..] + b;
      TakeAppend(Take(d, a[0]), a[1..], b);
    }
  }

  /** The modes in which braces nest: inside a body, or inside the parentheses of a header. */
  predicate Nested(d: Doc) { (d.place == Body && d.body > 0) || (InHeader(d) && d.header > 0) }

  /** Any mode a definition is in after its first token. */
  predicate Begun(d: Doc) { (d.place == Body && d.body > 0) || (InHeader(d) && d.header >= 0) }

  /** The tokens leave the mode as they found it. */
  ghost predicate Neutral(ts: seq<Token>, d: Doc) { TakeAll(d, ts) == d }

  lemma NeutralAppend(a: seq<Token>, b: seq<Token>, d: Doc)
    requires Neutral(a, d) && Neutral(b, d)
    ensures Neutral(a + b, d)
  {
    TakeAppend(d, a, b);
  }

  lemma OneTake(t: Token, d: Doc)
    ensures TakeAll(d, [t]) == Take(d, t)
  {
    assert [t][1..] == [];
  }

  lemma TwoNeutral(s: Token, t: Token, d: Doc)
    requires Take(d, s) == d && Take(d, t) == d
    ensures Neutral([s, t], d)
  {
    assert [s, t][1..] == [t];
    OneTake(t, d);
  }

  /** Tokens between a pair of brackets that nests. */
  lemma Bracketed(open: char, ts: seq<Token>, close: char, d: Doc)
    requires Neutral(ts, Take(d, Punct(open))) && Take(Take(d, Punct(open)), Punct(close)) == d
    ensures Neutral([Punct(open)] + ts + [Punct(close)], d)
  {
    TakeAppend(d, [Punct(open)] + ts, [Punct(close)]);
    TakeAppend(d, [Punct(open)], ts);
    OneTake(Punct(open), d);
    OneTake(Punct(close), Take(d, Punct(open)));
  }

  lemma {:induction false} ValueNeutral(v: Value, d: Doc)
    requires Nested(d)
    ensures Neutral(ValueTokens(v), d)
    decreases v
  {
    match v
    case Variable(name) => TwoNeutral(Punct('$'), Name(name), d);
    case Numeral(text) => OneTake(Number(text), d);
    case Text(chars) => OneTake(Str(chars), d);
    case BlockText(raw) => OneTake(Block(raw), d);
    case Keyword(name) => OneTake(Name(name), d);
    case ListOf(items) =>
      ItemsNeutral(items, d);
      Bracketed('[', ItemsTokens(items), ']', d);
    case ObjectOf(fields) =>
      MembersNeutral(fields, Open(d));
      Bracketed('{', MembersTokens(fields), '}', d);
  }

  lemma {:induction false} ItemsNeutral(vs: seq<Value>, d: Doc)
    requires Nested(d)
    ensures Neutral(ItemsTokens(vs), d)
    decreases vs
  {
    if vs != [] {
      ValueNeutral(vs[0], d);
      ItemsNeutral(vs[1..], d);
      NeutralAppend(ValueTokens(vs[0]), ItemsTokens(vs[1..]), d);
    }
  }

  lemma {:induction false} MembersNeutral(ms: seq<Member>, d: Doc)
    requires Nested(d)
    ensures Neutral(MembersTokens(ms), d)
    decreases ms
  {
    if ms != [] {
      TwoNeutral(Name(ms[0].name), Punct(':'), d);
      ValueNeutral(ms[0].value, d);
      MembersNeutral(ms[1..], d);
      NeutralAppend([Name(ms[0].name), Punct(':')], ValueTokens(ms[0].value), d);
      NeutralAppend([Name(ms[0].name), Punct(':')] + ValueTokens(ms[0].value), MembersTokens(ms[1..]), d);
    }
  }

  lemma ArgsNeutral(args: seq<Member>, d: Doc)
    requires Begun(d)
    ensures Neutral(ArgsTokens(args), d)
  {
    if args != [] {
      MembersNeutral(args, Take(d, Punct('(')));
      Bracketed('(', MembersTokens(args), ')', d);
    }
  }

  lemma {:induction false} DirectivesNeutral(ds: seq<Directive>, d: Doc)
    requires Begun(d)
    ensures Neutral(DirectivesTokens(ds), d)
    decreases |ds|
  {
    if ds != [] {
      var head := [Punct('@'), Name(ds[0].name)];
      TwoNeutral(Punct('@'), Name(ds[0].name), d);
      ArgsNeutral(ds[0].args, d);
      DirectivesNeutral(ds[1..], d);
      NeutralAppend(head, ArgsTokens(ds[0].args), d);
      NeutralAppend(head + ArgsTokens(ds[0].args), DirectivesTokens(ds[1..]), d);
    }
  }

  lemma {:induction false} TypeNeutral(t: Type, d: Doc)
    requires Begun(d)
    ensures Neutral(TypeTokens(t), d)
  {
    match t
    case Named(name) => OneTake(Name(name), d);
    case ListType(of) =>
      TypeNeutral(of, d);
      Bracketed('[', TypeTokens(of), ']', d);
    case NonNull(of) =>
      TypeNeutral(of, d);
      OneTake(Punct('!'), d);
      NeutralAppend(TypeTokens(of), [Punct('!')], d);
  }

  lemma DefaultNeutral(default: Option<Value>, d: Doc)
    requires Nested(d)
    ensures Neutral(if default.Some? then [Punct('=')] + ValueTokens(default.value) else [], d)
  {
    if default.Some? {
      OneTake(Punct('='), d);
      ValueNeutral(default.value, d);
      NeutralAppend([Punct('=')], ValueTokens(default.value), d);
    }
  }

  lemma VarDefNeutral(v: VarDef, d: Doc)
    requires Nested(d)
    ensures Neutral(VarDefTokens(v), d)
  {
    var head := [Punct('$'), Name(v.name), Punct(':')];
    assert head == [Punct('$'), Name(v.name)] + [Punct(':')];
    TwoNeutral(Punct('$'), Name(v.name), d);
    OneTake(Punct(':'), d);
    NeutralAppend([Punct('$'), Name(v.name)], [Punct(':')], d);
    var default := if v.default.Some? then [Punct('=')] + ValueTokens(v.default.value) else [];
    TypeNeutral(v.typ, d);
    DefaultNeutral(v.default, d);
    DirectivesNeutral(v.directives, d);
    NeutralAppend(head, TypeTokens(v.typ), d);
    NeutralAppend(head + TypeTokens(v.typ), default, d);
    NeutralAppend(head + TypeTokens(v.typ) + default, DirectivesTokens(v.directives), d);
  }

  lemma {:induction false} VarDefsNeutral(vs: seq<VarDef>, d: Doc)
    requires Nested(d)
    ensures Neutral(VarDefsTokens(vs), d)
    decreases |vs|
  {
    if vs != [] {
      VarDefNeutral(vs[0], d);
      VarDefsNeutral(vs[1..], d);
      NeutralAppend(VarDefTokens(vs[0]), VarDefsTokens(vs[1..]), d);
    }
  }

  lemma HeaderNeutral(vars: seq<VarDef>, ds: seq<Directive>, d: Doc)
    requires InHeader(d) && d.header == 0
    ensures Neutral(HeaderTokens(vars, ds), d)
  {
    DirectivesNeutral(ds, d);
    if vars != [] {
      VarDefsNeutral(vars, Take(d, Punct('(')));
      Bracketed('(', VarDefsTokens(vars), ')', d);
      NeutralAppend([Punct('(')] + VarDefsTokens(vars) + [Punct(')')], DirectivesTokens(ds), d);
    } else {
      assert HeaderTokens(vars, ds) == DirectivesTokens(ds);
    }
  }

  lemma {:induction false} SelectionNeutral(s: Selection, d: Doc)
    requires d.place == Body && d.body > 0
    ensures Neutral(SelectionTokens(s), d)
    decreases s
  {
    DirectivesNeutral(s.directives, d);
    match s
    case FragmentSpread(name, ds) =>
      TwoNeutral(Dots, Name(name), d);
      NeutralAppend([Dots, Name(name)], DirectivesTokens(ds), d);
    case InlineFragment(on, ds, sels) =>
      var cond := if on.Some? then [Name("on"), Name(on.value)] else [];
      OneTake(Dots, d);
      if on.Some? {
        TwoNeutral(Name("on"), Name(on.value), d);
      }
      NestedSet(sels, d);
      NeutralAppend([Dots], cond, d);
      NeutralAppend([Dots] + cond, DirectivesTokens(ds), d);
      NeutralAppend([Dots] + cond + DirectivesTokens(ds), SetTokens(sels), d);
    case Field(alias, name, args, ds, sels) =>
      var head := if alias.Some? then [Name(alias.value), Punct(':')] else [];
      if alias.Some? {
        TwoNeutral(Name(alias.value), Punct(':'), d);
      }
      OneTake(Name(name), d);
      ArgsNeutral(args, d);
      NeutralAppend(head, [Name(name)], d);
      NeutralAppend(head + [Name(name)], ArgsTokens(args), d);
      var front := head + [Name(name)] + ArgsTokens(args);
      NeutralAppend(front, DirectivesTokens(ds), d);
      if sels == [] {
        NeutralAppend(front + DirectivesTokens(ds), [], d);
      } else {
        NestedSet(sels, d);
        NeutralAppend(front + DirectivesTokens(ds), SetTokens(sels), d);
      }
  }

  lemma {:induction false} NestedSet(ss: seq<Selection>, d: Doc)
    requires d.place == Body && d.body > 0
    ensures Neutral(SetTokens(ss), d)
    decreases ss, 1
  {
    SelectionsNeutral(ss, Open(d));
    Bracketed('{', SelectionsTokens(ss), '}', d);
  }

  lemma {:induction false} SelectionsNeutral(ss: seq<Selection>, d: Doc)
    requires d.place == Body && d.body > 0
    ensures Neutral(SelectionsTokens(ss), d)
    decreases ss, 0
  {
    if ss != [] {
      SelectionNeutral(ss[0], d);
      SelectionsNeutral(ss[1..], d);
      NeutralAppend(SelectionTokens(ss[0]), SelectionsTokens(ss[1..]), d);
    }
  }

  function Between(count: nat): Doc { Doc(Idle, 0, 0, count) }

  /** The selection set that ends a definition. */
  lemma OuterSet(ss: seq<Selection>, d: Doc)
    requires Open(d) == Doc(Body, 1, 0, Open(d).count)
    ensures TakeAll(d, SetTokens(ss)) == Between(Open(d).count)
  {
    SelectionsNeutral(ss, Open(d));
    TakeAppend(d, [Punct('{')] + SelectionsTokens(ss), [Punct('}')]);
    TakeAppend(d, [Punct('{')], SelectionsTokens(ss));
    OneTake(Punct('{'), d);
    OneTake(Punct('}'), Open(d));
  }

  /** A definition with a header: keyword, neutral header, selection set. */
  lemma HeadedTakes(word: string, header: seq<Token>, ss: seq<Selection>, d: Doc, count: nat)
    requires InHeader(d) && d.header == 0 && d.body == 0 && d == Word(Between(count), word) && Neutral(header, d)
    ensures TakeAll(Between(count), [Name(word)] + header + SetTokens(ss)) == Between(d.count)
  {
    TakeAppend(Between(count), [Name(word)] + header, SetTokens(ss));
    TakeAppend(Between(count), [Name(word)], header);
    OneTake(Name(word), Between(count));
    OuterSet(ss, d);
  }

  lemma KindTakes(kind: OperationKind, count: nat)
    ensures Word(Between(count), KindWord(kind)) == Doc(Operation, 0, 0, count + 1)
  {
  }

  lemma OperationHeader(name: Option<string>, vars: seq<VarDef>, ds: seq<Directive>, d: Doc)
    requires InHeader(d) && d.header == 0
    ensures Neutral(OptName(name) + HeaderTokens(vars, ds), d)
  {
    HeaderNeutral(vars, ds, d);
    if name.Some? {
      OneTake(Name(name.value), d);
    }
    NeutralAppend(OptName(name), HeaderTokens(vars, ds), d);
  }

  lemma Regroup(a: seq<Token>, b: seq<Token>, c: seq<Token>, e: seq<Token>)
    ensures a + b + c + e == a + (b + c) + e
  {
  }

  lemma OperationSpelled(kind: OperationKind, name: Option<string>, vars: seq<VarDef>, ds: seq<Directive>,
                         sels: seq<Selection>)
    ensures DefinitionTokens(OperationDef(kind, name, vars, ds, sels))
            == [Name(KindWord(kind))] + (OptName(name) + HeaderTokens(vars, ds)) + SetTokens(sels)
  {
    Regroup([Name(KindWord(kind))], OptName(name), HeaderTokens(vars, ds), SetTokens(sels));
  }

  lemma OperationTakes(kind: OperationKind, name: Option<string>, vars: seq<VarDef>, ds: seq<Directive>,
                       sels: seq<Selection>, count: nat)
    ensures TakeAll(Between(count), DefinitionTokens(OperationDef(kind, name, vars, ds, sels))) == Between(count + 1)
  {
    var d := Doc(Operation, 0, 0, count + 1);
    KindTakes(kind, count);
    OperationHeader(name, vars, ds, d);
    OperationSpelled(kind, name, vars, ds, sels);
    HeadedTakes(KindWord(kind), OptName(name) + HeaderTokens(vars, ds), sels, d, count);
  }

  lemma FragmentTakes(name: string, on: string, ds: seq<Directive>, sels: seq<Selection>, count: nat)
    ensures TakeAll(Between(count), DefinitionTokens(FragmentDef(name, on, ds, sels))) == Between(count)
  {
    var d := Doc(Fragment, 0, 0, count);
    var cond := [Name(name), Name("on"), Name(on)];
    assert cond == [Name(name), Name("on")] + [Name(on)];
    TwoNeutral(Name(name), Name("on"), d);
    OneTake(Name(on), d);
    NeutralAppend([Name(name), Name("on")], [Name(on)], d);
    DirectivesNeutral(ds, d);
    NeutralAppend(cond, DirectivesTokens(ds), d);
    HeadedTakes("fragment", cond + DirectivesTokens(ds), sels, d, count);
    assert [Name("fragment")] + cond + DirectivesTokens(ds) == [Name("fragment")] + (cond + DirectivesTokens(ds));
  }

  /** Between definitions, the tokens raise the count by n and lead back between definitions. */
  ghost predicate Adds(ts: seq<Token>, n: nat) {
    forall count: nat :: TakeAll(Between(count), ts) == Between(count + n)
  }

  lemma AddsAppend(a: seq<Token>, b: seq<Token>, m: nat, n: nat)
    requires Adds(a, m) && Adds(b, n)
    ensures Adds(a + b, m + n)
  {
    forall count: nat ensures TakeAll(Between(count), a + b) == Between(count + (m + n)) {
      TakeAppend(Between(count), a, b);
      assert TakeAll(Between(count + m), b) == Between(count + m + n);
    }
  }

  lemma DefinitionAdds(def: Definition)
    ensures Adds(DefinitionTokens(def), if def.FragmentDef? then 0 else 1)
  {
    forall count: nat
      ensures TakeAll(Between(count), DefinitionTokens(def)) == Between(count + if def.FragmentDef? then 0 else 1)
    {
      match def
      case Anonymous(sels) => OuterSet(sels, Between(count));
      case OperationDef(kind, name, vars, ds, sels) => OperationTakes(kind, name, vars, ds, sels, count);
      case FragmentDef(name, on, ds, sels) => FragmentTakes(name, on, ds, sels, count);
    }
  }

  lemma {:induction false} DocumentAdds(doc: seq<Definition>)
    ensures Adds(DocumentTokens(doc), NumOperations(doc))
    decreases |doc|
  {
    if doc != [] {
      DefinitionAdds(doc[0]);
      DocumentAdds(doc[1..]);
      AddsAppend(DefinitionTokens(doc[0]), DocumentTokens(doc[1..]), if doc[0].FragmentDef? then 0 else 1,
                 NumOperations(doc[1..]));
    }
  }

  /** The scanner counts the operation definitions of any document in any legible spelling. */
  lemma CountsOperations(doc: seq<Definition>, ps: seq<Piece>, tail: Tail)
    requires TokensOf(ps) == DocumentTokens(doc) && Legible(ps, tail)
    ensures CountOperations(Write(ps, tail)) == NumOperations(doc)
  {
    PiecesTake(ps, tail, START);
    DocumentAdds(doc);
    assert TakeAll(Between(0), DocumentTokens(doc)) == Between(0 + NumOperations(doc));
  }

  // ---- one spelling that always works ---------------------------------------

  function Spaced(ts: seq<Token>): seq<Piece> {
    if ts == [] then [] else [Piece([Blank(' ')], ts[0])] + Spaced(ts[1..])
  }

  const END := Tail([], None)

  lemma {:induction false} SpacedLegible(ts: seq<Token>)
    requires forall k | 0 <= k < |ts| :: TokenOk(ts[k])
    ensures Legible(Spaced(ts), END) && TokensOf(Spaced(ts)) == ts
    ensures Write(Spaced(ts), END) == [] || Write(Spaced(ts), END)[0] == ' '
    decreases |ts|
  {
    if ts != [] {
      SpacedLegible(ts[1..]);
      assert Spaced(ts)[1..] == Spaced(ts[1..]);
      assert GapOk([Blank(' ')]);
      assert SpellGap([Blank(' ')])[0] == ' ';
    }
  }

  /** Printing a document with a space before every token and counting gives back its operations. */
  lemma PrintThenCount(doc: seq<Definition>)
    requires forall k | 0 <= k < |DocumentTokens(doc)| :: TokenOk(DocumentTokens(doc)[k])
    ensures CountOperations(Write(Spaced(DocumentTokens(doc)), END)) == NumOperations(doc)
  {
    SpacedLegible(DocumentTokens(doc));
    CountsOperations(doc, Spaced(DocumentTokens(doc)), END);
  }
}
