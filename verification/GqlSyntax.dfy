/** Executable GraphQL documents (section 2 of the GraphQL specification, October 2021):
    syntax trees, their tokens, and every way of writing the tokens down. */
module GqlSyntax {
  import opened GqlScanner

  datatype Option<+T> = None | Some(value: T)

  // ---- syntax trees ---------------------------------------------------------

  /** A character of a quoted string: itself, or behind a backslash. */
  datatype StrChar = Plain(c: char) | Escaped(c: char)

  /** Keyword covers true, false, null and enum values. */
  datatype Value =
    | Variable(name: string) | Numeral(text: string) | Text(chars: seq<StrChar>) | BlockText(raw: string)
    | Keyword(name: string) | ListOf(items: seq<Value>) | ObjectOf(fields: seq<Member>)

  datatype Member = Member(name: string, value: Value)

  datatype Type = Named(name: string) | ListType(of: Type) | NonNull(of: Type)

  datatype Directive = Directive(name: string, args: seq<Member>)

  datatype VarDef = VarDef(name: string, typ: Type, default: Option<Value>, directives: seq<Directive>)

  datatype Selection =
    | Field(alias: Option<string>, name: string, args: seq<Member>, directives: seq<Directive>,
            selections: seq<Selection>)
    | FragmentSpread(name: string, directives: seq<Directive>)
    | InlineFragment(on: Option<string>, directives: seq<Directive>, selections: seq<Selection>)

  datatype OperationKind = Query | Mutation | Subscription

  datatype Definition =
    | Anonymous(selections: seq<Selection>)
    | OperationDef(kind: OperationKind, title: Option<string>, vars: seq<VarDef>, directives: seq<Directive>,
                   selections: seq<Selection>)
    | FragmentDef(name: string, onType: string, directives: seq<Directive>, selections: seq<Selection>)

  function NumOperations(doc: seq<Definition>): nat {
    if doc == [] then 0 else (if doc[0].FragmentDef? then 0 else 1) + NumOperations(doc[1..])
  }

  // ---- tokens ---------------------------------------------------------------

  datatype Token =
    | Punct(c: char) | Dots | Name(text: string) | Number(text: string) | Str(chars: seq<StrChar>) | Block(raw: string)

  function ValueTokens(v: Value): seq<Token> {
    match v
    case Variable(name) => [Punct('$'), Name(name)]
    case Numeral(text) => [Number(text)]
    case Text(chars) => [Str(chars)]
    case BlockText(raw) => [Block(raw)]
    case Keyword(name) => [Name(name)]
    case ListOf(items) => [Punct('[')] + ItemsTokens(items) + [Punct(']')]
    case ObjectOf(fields) => [Punct('{')] + MembersTokens(fields) + [Punct('}')]
  }

  function ItemsTokens(vs: seq<Value>): seq<Token> {
    if vs == [] then [] else ValueTokens(vs[0]) + ItemsTokens(vs[1..])
  }

  /** Object fields, and arguments alike. */
  function MembersTokens(ms: seq<Member>): seq<Token> {
    if ms == [] then [] else [Name(ms[0].name), Punct(':')] + ValueTokens(ms[0].value) + MembersTokens(ms[1..])
  }

  function ArgsTokens(args: seq<Member>): seq<Token> {
    if args == [] then [] else [Punct('(')] + MembersTokens(args) + [Punct(')')]
  }

  function DirectivesTokens(ds: seq<Directive>): seq<Token> {
    if ds == [] then [] else [Punct('@'), Name(ds[0].name)] + ArgsTokens(ds[0].args) + DirectivesTokens(ds[1..])
  }

  function TypeTokens(t: Type): seq<Token> {
    match t
    case Named(name) => [Name(name)]
    case ListType(of) => [Punct('[')] + TypeTokens(of) + [Punct(']')]
    case NonNull(of) => TypeTokens(of) + [Punct('!')]
  }

  function VarDefTokens(v: VarDef): seq<Token> {
    [Punct('$'), Name(v.name), Punct(':')] + TypeTokens(v.typ)
    + (if v.default.Some? then [Punct('=')] + ValueTokens(v.default.value) else []) + DirectivesTokens(v.directives)
  }

  function VarDefsTokens(vs: seq<VarDef>): seq<Token> {
    if vs == [] then [] else VarDefTokens(vs[0]) + VarDefsTokens(vs[1..])
  }

  function OptName(name: Option<string>): seq<Token> { if name.Some? then [Name(name.value)] else [] }

  function SelectionTokens(s: Selection): seq<Token> {
    match s
    case Field(alias, name, args, ds, sels) =>
      (if alias.Some? then [Name(alias.value), Punct(':')] else [])
      + [Name(name)] + ArgsTokens(args) + DirectivesTokens(ds)
      + (if sels == [] then [] else [Punct('{')] + SelectionsTokens(sels) + [Punct('}')])
    case FragmentSpread(name, ds) => [Dots, Name(name)] + DirectivesTokens(ds)
    case InlineFragment(on, ds, sels) =>
      [Dots] + (if on.Some? then [Name("on"), Name(on.value)] else []) + DirectivesTokens(ds)
      + ([Punct('{')] + SelectionsTokens(sels) + [Punct('}')])
  }

  function SelectionsTokens(ss: seq<Selection>): seq<Token> {
    if ss == [] then [] else SelectionTokens(ss[0]) + SelectionsTokens(ss[1..])
  }

  function SetTokens(ss: seq<Selection>): seq<Token> { [Punct('{')] + SelectionsTokens(ss) + [Punct('}')] }

  function KindWord(k: OperationKind): string {
    match k
    case Query => "query"
    case Mutation => "mutation"
    case Subscription => "subscription"
  }

  function HeaderTokens(vars: seq<VarDef>, ds: seq<Directive>): seq<Token> {
    (if vars == [] then [] else [Punct('(')] + VarDefsTokens(vars) + [Punct(')')]) + DirectivesTokens(ds)
  }

  function DefinitionTokens(d: Definition): seq<Token> {
    match d
    case Anonymous(sels) => SetTokens(sels)
    case OperationDef(kind, name, vars, ds, sels) =>
      [Name(KindWord(kind))] + OptName(name) + HeaderTokens(vars, ds) + SetTokens(sels)
    case FragmentDef(name, on, ds, sels) =>
      [Name("fragment")] + [Name(name), Name("on"), Name(on)] + DirectivesTokens(ds) + SetTokens(sels)
  }

  function DocumentTokens(doc: seq<Definition>): seq<Token> {
    if doc == [] then [] else DefinitionTokens(doc[0]) + DocumentTokens(doc[1..])
  }

  // ---- spelling -------------------------------------------------------------

  function SpellChar(ch: StrChar): string {
    match ch case Plain(c) => [c] case Escaped(c) => ['\\', c]
  }

  function SpellChars(chars: seq<StrChar>): string {
    if chars == [] then [] else SpellChar(chars[0]) + SpellChars(chars[1..])
  }

  function Spell(t: Token): string {
    match t
    case Punct(c) => [c]
    case Dots => "..."
    case Name(text) => text
    case Number(text) => text
    case Str(chars) => ['"'] + SpellChars(chars) + ['"']
    case Block(raw) => "\"\"\"" + raw + "\"\"\""
  }

  const PUNCTUATORS := {'!', '$', '&', '(', ')', ':', '=', '@', '[', ']', '{', '|', '}'}

  const NUMERIC := {'0', '1', '2', '3', '4', '5', '6', '7', '8', '9', '+', '-', '.', 'e', 'E'}

  /** The first triple quote behind the text is the one that closes it. */
  predicate NoTriple(raw: string) { forall k | 0 <= k < |raw| :: !TripleQuote((raw + "\"\"\"")[k..]) }

  /** The lexemes of section 2.1.7 to 2.9.4; block strings without the \""" escape, which a last backslash would make of
      the closing quotes. */
  predicate TokenOk(t: Token) {
    match t
    case Punct(c) => c in PUNCTUATORS
    case Dots => true
    case Name(text) => text != [] && (forall k | 0 <= k < |text| :: IsIdent(text[k])) && !('0' <= text[0] <= '9')
    case Number(text) => text != [] && (forall k | 0 <= k < |text| :: text[k] in NUMERIC)
    case Str(chars) => forall k | 0 <= k < |chars| && chars[k].Plain? :: chars[k].c !in {'"', '\\', '\n', '\r'}
    case Block(raw) => NoTriple(raw) && (raw == [] || raw[|raw| - 1] != '\\')
  }

  /** What the specification ignores between tokens: white space, line ends, commas, the bytes of a byte order mark,
      and comments, which run to a line feed or a carriage return. */
  datatype Ignored = Blank(c: char) | Comment(text: string, end: char)

  const BLANKS := {' ', '\t', '\n', '\r', ',', '\U{EF}', '\U{BB}', '\U{BF}'}

  const LINE_ENDS := {'\n', '\r'}

  predicate CommentText(text: string) { forall k | 0 <= k < |text| :: text[k] !in LINE_ENDS }

  predicate GapOk(gap: seq<Ignored>) {
    forall k | 0 <= k < |gap| ::
      match gap[k] case Blank(c) => c in BLANKS case Comment(text, end) => CommentText(text) && end in LINE_ENDS
  }

  predicate FeedsLine(g: Ignored) { g == Blank('\n') || (g.Comment? && g.end == '\n') }

  /** Whether a comment ended by a carriage return is still waiting for a line feed behind the gap; `waiting` says so in
      front of it. */
  predicate Hanging(gap: seq<Ignored>, waiting: bool) {
    if gap == [] then waiting
    else Hanging(gap[1..], !FeedsLine(gap[0]) && (waiting || gap[0].Comment?))
  }

  function SpellIgnored(g: Ignored): string {
    match g case Blank(c) => [c] case Comment(text, end) => ['#'] + text + [end]
  }

  function SpellGap(gap: seq<Ignored>): string {
    if gap == [] then [] else SpellIgnored(gap[0]) + SpellGap(gap[1..])
  }

  /** A token and what is ignored in front of it. */
  datatype Piece = Piece(gap: seq<Ignored>, token: Token)

  /** The end of the source: a gap, then perhaps a comment without a line end. */
  datatype Tail = Tail(gap: seq<Ignored>, comment: Option<string>)

  function SpellTail(tail: Tail): string {
    SpellGap(tail.gap) + if tail.comment.Some? then ['#'] + tail.comment.value else []
  }

  function Write(ps: seq<Piece>, tail: Tail): string {
    if ps == [] then SpellTail(tail) else SpellGap(ps[0].gap) + Spell(ps[0].token) + Write(ps[1..], tail)
  }

  function TokensOf(ps: seq<Piece>): (ts: seq<Token>)
    ensures |ts| == |ps|
  {
    if ps == [] then [] else [ps[0].token] + TokensOf(ps[1..])
  }

  /** The lookahead restrictions: nothing follows that would make a longer name or number, or
      turn an empty string into the start of a block string. */
  predicate Clear(t: Token, rest: string) {
    && (t.Name? || t.Number? ==> rest == [] || !IsIdent(rest[0]))
    && (t == Str([]) ==> rest == [] || rest[0] != '"')
  }

  /** A way of writing the tokens down that reads back as those tokens. A comment ended by a carriage return has a line
      feed before the next token. */
  predicate Legible(ps: seq<Piece>, tail: Tail) {
    if ps == [] then GapOk(tail.gap) && (tail.comment.Some? ==> CommentText(tail.comment.value))
    else
      && GapOk(ps[0].gap) && !Hanging(ps[0].gap, false)
      && TokenOk(ps[0].token) && Clear(ps[0].token, Write(ps[1..], tail)) && Legible(ps[1..], tail)
  }
}
