/** The GraphQL operation scanner: a lexer mode and a document mode driven by one
    position in the source. A char stands for one byte of the source text. */
module GqlScanner {
  datatype Lex = Normal | InString | InBlockString | InComment

  datatype Place = Idle | Operation | Fragment | Body

  /** body is the brace depth inside a body, header the bracket depth in a header. */
  datatype Doc = Doc(place: Place, body: int, header: int, count: nat)

  datatype Scan = Scan(lex: Lex, doc: Doc)

  const START := Doc(Idle, 0, 0, 0)

  predicate TripleQuote(s: string) { |s| >= 3 && s[0] == '"' && s[1] == '"' && s[2] == '"' }

  predicate IsIdent(c: char) { c == '_' || 'a' <= c <= 'z' || 'A' <= c <= 'Z' || '0' <= c <= '9' }

  /** The length of the longest identifier at the front. */
  function IdentLength(s: string): (n: nat)
    ensures n <= |s| && (forall k | 0 <= k < n :: IsIdent(s[k])) && (n < |s| ==> !IsIdent(s[n]))
  {
    if s == [] || !IsIdent(s[0]) then 0 else 1 + IdentLength(s[1..])
  }

  predicate InHeader(d: Doc) { d.place == Operation || d.place == Fragment }

  function Open(d: Doc): Doc {
    match d.place
    case Idle => Doc(Body, 1, d.header, d.count + 1)
    case Body => d.(body := d.body + 1)
    case _ => if d.header > 0 then d.(header := d.header + 1) else Doc(Body, 1, 0, d.count)
  }

  function Close(d: Doc): Doc {
    match d.place
    case Idle => d
    case Body => if d.body == 1 then d.(place := Idle, body := 0) else d.(body := d.body - 1)
    case _ => if d.header > 0 then d.(header := d.header - 1) else d
  }

  function Word(d: Doc, w: string): Doc {
    if d.place != Idle then d
    else if w == "query" || w == "mutation" || w == "subscription" then Doc(Operation, d.body, 0, d.count + 1)
    else if w == "fragment" then Doc(Fragment, d.body, 0, d.count)
    else d
  }

  /** One step inside a comment or string: how far it moves and the new mode. */
  function LexStep(s: string, lex: Lex): (nat, Lex)
    requires s != [] && lex != Normal
  {
    match lex
    case InComment => (1, if s[0] == '\n' then Normal else lex)
    case InString => if s[0] == '\\' then (2, lex) else (1, if s[0] == '"' then Normal else lex)
    case InBlockString => if TripleQuote(s) then (3, Normal) else (1, lex)
  }

  function DocStep(s: string, d: Doc): (nat, Scan)
    requires s != []
  {
    if s[0] == '#' then (1, Scan(InComment, d))
    else if TripleQuote(s) then (3, Scan(InBlockString, d))
    else if s[0] == '"' then (1, Scan(InString, d))
    else if s[0] == '(' && InHeader(d) then (1, Scan(Normal, d.(header := d.header + 1)))
    else if s[0] == ')' && InHeader(d) then (1, Scan(Normal, if d.header > 0 then d.(header := d.header - 1) else d))
    else if s[0] == '{' then (1, Scan(Normal, Open(d)))
    else if s[0] == '}' then (1, Scan(Normal, Close(d)))
    else if d.place == Idle && IsIdent(s[0]) then (IdentLength(s), Scan(Normal, Word(d, s[..IdentLength(s)])))
    else (1, Scan(Normal, d))
  }

  function Skip(s: string, n: nat): string { if n <= |s| then s[n..] else [] }

  function Next(s: string, sc: Scan): (r: (nat, Scan))
    requires s != []
    ensures r.0 > 0
  {
    if sc.lex == Normal then DocStep(s, sc.doc)
    else var (n, lex) := LexStep(s, sc.lex); (n, Scan(lex, sc.doc))
  }

  /** The scanner's state after the rest of the source. */
  function ScanAll(s: string, sc: Scan): Scan
    decreases |s|
  {
    if s == [] then sc else
    var (n, sc') := Next(s, sc);
    ScanAll(Skip(s, n), sc')
  }

  /** countOperations. */
  function CountOperations(s: string): nat { ScanAll(s, Scan(Normal, START)).doc.count }

  /** The depths never go wrong: inside a body at least one brace is open, outside none is. */
  predicate Sane(d: Doc) {
    d.header >= 0 && d.body >= 0 && (d.place == Body <==> d.body > 0)
  }

  class Scanner {
    const src: string
    var i: nat
    var lex: Lex
    var place: Place
    var bodyDepth: int
    var headerDepth: int
    var count: nat

    ghost function View(): Scan
      reads this
    {
      Scan(lex, Doc(place, bodyDepth, headerDepth, count))
    }

    ghost function Rest(): string
      reads this
    {
      Skip(src, i)
    }

    constructor (src: string)
      ensures this.src == src && i == 0 && View() == Scan(Normal, START)
    {
      this.src := src;
      i := 0;
      lex := Normal;
      place := Idle;
      bodyDepth := 0;
      headerDepth := 0;
      count := 0;
    }

    predicate TripleQuoteHere()
      requires i < |src|
      reads this
      ensures TripleQuoteHere() == TripleQuote(Rest())
    {
      i + 2 < |src| && src[i] == '"' && src[i + 1] == '"' && src[i + 2] == '"'
    }

    /** The source is scanned to its end; no index leaves it. */
    method CountAll() returns (n: nat)
      requires i == 0 && View() == Scan(Normal, START)
      modifies this
      ensures n == CountOperations(src) && Sane(View().doc)
    {
      ghost var goal := ScanAll(src, Scan(Normal, START));
      assert Rest() == src;
      while i < |src|
        invariant ScanAll(Rest(), View()) == goal
        invariant Sane(View().doc)
        decreases |src| - i
      {
        ghost var rest, sc, at := Rest(), View(), i;
        Advance();
        SkipSkip(src, at, i);
        ScanAllNext(rest, sc, i - at, View());
      }
      n := count;
    }

    /** The body of the loop in countOperations. */
    method Advance()
      requires i < |src| && Sane(View().doc)
      modifies this
      ensures i == old(i) + Next(old(Rest()), old(View())).0
      ensures View() == Next(old(Rest()), old(View())).1 && Sane(View().doc)
    {
      var consumed := AdvanceLexer();
      if !consumed {
        AdvanceDoc();
      }
    }

    /** advanceLexer. */
    method AdvanceLexer() returns (consumed: bool)
      requires i < |src|
      modifies this`i, this`lex
      ensures consumed == (old(lex) != Normal)
      ensures consumed ==> i == old(i) + LexStep(old(Rest()), old(lex)).0 && lex == LexStep(old(Rest()), old(lex)).1
      ensures !consumed ==> i == old(i) && lex == old(lex)
    {
      var ch := src[i];
      match lex {
        case Normal => return false;
        case InComment =>
          if ch == '\n' {
            lex := Normal;
          }
          i := i + 1;
        case InString =>
          if ch == '\\' {
            i := i + 2;
          } else {
            if ch == '"' {
              lex := Normal;
            }
            i := i + 1;
          }
        case InBlockString =>
          if TripleQuoteHere() {
            lex := Normal;
            i := i + 3;
          } else {
            i := i + 1;
          }
      }
      return true;
    }

    /** advanceDoc. */
    method AdvanceDoc()
      requires i < |src| && lex == Normal && Sane(View().doc)
      modifies this
      ensures i == old(i) + DocStep(old(Rest()), old(View().doc)).0
      ensures View() == DocStep(old(Rest()), old(View().doc)).1 && Sane(View().doc)
    {
      var ch := src[i];
      if ch == '#' {
        lex := InComment;
        i := i + 1;
      } else if TripleQuoteHere() {
        lex := InBlockString;
        i := i + 3;
      } else if ch == '"' {
        lex := InString;
        i := i + 1;
      } else if ch == '(' && (place == Operation || place == Fragment) {
        headerDepth := headerDepth + 1;
        i := i + 1;
      } else if ch == ')' && (place == Operation || place == Fragment) {
        if headerDepth > 0 {
          headerDepth := headerDepth - 1;
        }
        i := i + 1;
      } else if ch == '{' {
        OpenBrace();
      } else if ch == '}' {
        CloseBrace();
      } else if place == Idle && IsIdent(ch) {
        ConsumeIdent();
      } else {
        i := i + 1;
      }
    }

    method OpenBrace()
      requires Sane(View().doc)
      modifies this`i, this`place, this`bodyDepth, this`headerDepth, this`count
      ensures View() == Scan(lex, Open(old(View().doc))) && i == old(i) + 1 && Sane(View().doc)
    {
      match place {
        case Idle =>
          count := count + 1;
          place := Body;
          bodyDepth := 1;
        case Body => bodyDepth := bodyDepth + 1;
        case _ =>
          if headerDepth > 0 {
            headerDepth := headerDepth + 1;
          } else {
            place := Body;
            bodyDepth := 1;
            headerDepth := 0;
          }
      }
      i := i + 1;
    }

    method CloseBrace()
      requires Sane(View().doc)
      modifies this`i, this`place, this`bodyDepth, this`headerDepth
      ensures View() == Scan(lex, Close(old(View().doc))) && i == old(i) + 1 && Sane(View().doc)
    {
      match place {
        case Idle =>
        case Body =>
          bodyDepth := bodyDepth - 1;
          if bodyDepth == 0 {
            place := Idle;
          }
        case _ =>
          if headerDepth > 0 {
            headerDepth := headerDepth - 1;
          }
      }
      i := i + 1;
    }

    method ConsumeIdent()
      requires i < |src| && place == Idle && Sane(View().doc)
      modifies this`i, this`place, this`headerDepth, this`count
      ensures var n := IdentLength(old(Rest()));
              i == old(i) + n && View() == Scan(lex, Word(old(View().doc), old(Rest())[..n])) && Sane(View().doc)
    {
      var j := i;
      while j < |src| && IsIdent(src[j])
        invariant i <= j <= |src|
        invariant forall k | i <= k < j :: IsIdent(src[k])
      {
        j := j + 1;
      }
      IdentLengthIs(src[i..], j - i);
      assert src[i..j] == src[i..][..j - i];
      var w := src[i..j];
      if w == "query" || w == "mutation" || w == "subscription" {
        count := count + 1;
        place := Operation;
        headerDepth := 0;
      } else if w == "fragment" {
        place := Fragment;
        headerDepth := 0;
      }
      i := j;
    }
  }

  lemma SkipSkip(s: string, i: nat, j: nat)
    requires i <= j && i <= |s|
    ensures Skip(Skip(s, i), j - i) == Skip(s, j)
  {
  }

  lemma ScanAllNext(s: string, sc: Scan, n: nat, sc': Scan)
    requires s != [] && Next(s, sc) == (n, sc')
    ensures ScanAll(s, sc) == ScanAll(Skip(s, n), sc')
  {
  }

  lemma IdentLengthIs(s: string, n: nat)
    requires n <= |s| && (forall k | 0 <= k < n :: IsIdent(s[k])) && (n < |s| ==> !IsIdent(s[n]))
    ensures IdentLength(s) == n
  {
  }
}
