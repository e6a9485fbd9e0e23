/**
 The JSON grammar of RFC 8259, sections 2 to 7, as a printer: a text is JSON when it is the
 rendering of some value's tokens with white space in the gaps. Values keep the spelling of
 their leaves, so two equal values are equal under any reading of escapes and numbers.
 */
module JsonGrammar {
  import opened CodeUnits

  // ----- tokens (the parser's {type, value, unterminated} records) -----

  datatype Kind = Brace | Paren | Separator | Delimiter | Str | Num | Name

  datatype Token = Token(kind: Kind, value: Text, unterminated: bool)

  const OPEN_BRACE := Token(Brace, [LBRACE], false)
  const CLOSE_BRACE := Token(Brace, [RBRACE], false)
  const OPEN_PAREN := Token(Paren, [LBRACKET], false)
  const CLOSE_PAREN := Token(Paren, [RBRACKET], false)
  const COLON_TOKEN := Token(Separator, [COLON], false)
  const COMMA_TOKEN := Token(Delimiter, [COMMA], false)

  function StrToken(raw: Text): Token { Token(Str, raw, false) }

  function NumToken(text: Text): Token { Token(Num, text, false) }

  const TRUE: Text := [0x74, 0x72, 0x75, 0x65]
  const FALSE: Text := [0x66, 0x61, 0x6C, 0x73, 0x65]
  const NULL: Text := [0x6E, 0x75, 0x6C, 0x6C]

  predicate IsLiteralName(s: Text) { s == TRUE || s == FALSE || s == NULL }

  function NameToken(name: Text): Token { Token(Name, name, false) }

  /** How one token is written. */
  function Spell(t: Token): Text {
    if t.kind == Str then [QUOTE] + t.value + [QUOTE] else t.value
  }

  // ----- leaves -----

  /** Section 2: white space. */
  predicate IsWs(c: CodeUnit) { c == SPACE || c == TAB || c == LF || c == CR }

  predicate AllWs(s: Text) { forall i :: 0 <= i < |s| ==> IsWs(s[i]) }

  predicate IsSimpleEscape(c: CodeUnit) {
    // " \ / b f n r t
    c == QUOTE || c == BACKSLASH || c == SLASH || c == 0x62 || c == 0x66 || c == 0x6E || c == 0x72 || c == 0x74
  }

  /** Section 7: what may stand between the quotation marks of a string. */
  predicate IsStringBody(s: Text) {
    if s == [] then true
    else if s[0] == BACKSLASH then
      || (|s| >= 2 && IsSimpleEscape(s[1]) && IsStringBody(s[2..]))
      || (|s| >= 6 && s[1] == 0x75 && IsHexDigit(s[2]) && IsHexDigit(s[3]) && IsHexDigit(s[4]) && IsHexDigit(s[5])
          && IsStringBody(s[6..]))
    else
      s[0] >= 0x20 && s[0] != QUOTE && IsStringBody(s[1..])
  }

  /** The automaton of the number grammar of section 6: `-?(0|[1-9][0-9]*)(\.[0-9]+)?([eE][-+]?[0-9]+)?`. */
  datatype NumState = Start | Sign | Zero | Whole | Point | Fraction | Mark | MarkSign | Exponent | Dead

  function NumStep(q: NumState, c: CodeUnit): NumState {
    match q
    case Start => if c == MINUS then Sign else if c == 0x30 then Zero else if IsDigit(c) then Whole else Dead
    case Sign => if c == 0x30 then Zero else if IsDigit(c) then Whole else Dead
    case Zero => if c == DOT then Point else if IsExponentMark(c) then Mark else Dead
    case Whole => if IsDigit(c) then Whole else if c == DOT then Point else if IsExponentMark(c) then Mark else Dead
    case Point => if IsDigit(c) then Fraction else Dead
    case Fraction => if IsDigit(c) then Fraction else if IsExponentMark(c) then Mark else Dead
    case Mark => if c == PLUS || c == MINUS then MarkSign else if IsDigit(c) then Exponent else Dead
    case MarkSign => if IsDigit(c) then Exponent else Dead
    case Exponent => if IsDigit(c) then Exponent else Dead
    case Dead => Dead
  }

  function NumRun(s: Text): NumState {
    if s == [] then Start else NumStep(NumRun(s[..|s| - 1]), s[|s| - 1])
  }

  predicate IsJsonNumber(s: Text) {
    var q := NumRun(s);
    q == Zero || q == Whole || q == Fraction || q == Exponent
  }

  // ----- values -----

  datatype Json =
    | Null
    | Bool(b: bool)
    | Number(text: Text)
    | String(raw: Text)
    | Array(items: seq<Json>)
    | Object(members: seq<Member>)

  /** Members in order, duplicate names included. */
  datatype Member = Member(key: Text, value: Json)

  predicate IsContainer(v: Json) { v.Array? || v.Object? }

  /** Every leaf is spelled as the grammar demands. */
  predicate WellSpelled(v: Json) {
    match v
    case Null => true
    case Bool(_) => true
    case Number(text) => IsJsonNumber(text)
    case String(raw) => IsStringBody(raw)
    case Array(items) => forall i :: 0 <= i < |items| ==> WellSpelled(items[i])
    case Object(members) =>
      forall i :: 0 <= i < |members| ==> IsStringBody(members[i].key) && WellSpelled(members[i].value)
  }

  /** Sections 3 to 5: the tokens of a value. */
  function Tokens(v: Json): (ts: seq<Token>)
    ensures |ts| >= 1
    decreases v, 0
  {
    match v
    case Null => [NameToken(NULL)]
    case Bool(b) => [NameToken(if b then TRUE else FALSE)]
    case Number(text) => [NumToken(text)]
    case String(raw) => [StrToken(raw)]
    case Array(items) => [OPEN_PAREN] + ItemTokens(items) + [CLOSE_PAREN]
    case Object(members) => [OPEN_BRACE] + MemberTokens(members) + [CLOSE_BRACE]
  }

  function Between<T>(earlier: seq<T>): seq<Token> {
    if earlier == [] then [] else [COMMA_TOKEN]
  }

  function ItemTokens(items: seq<Json>): seq<Token>
    decreases items, 0
  {
    if items == [] then []
    else
      var earlier, last := items[..|items| - 1], items[|items| - 1];
      ItemTokens(earlier) + Between(earlier) + Tokens(last)
  }

  function MemberTokens(members: seq<Member>): seq<Token>
    decreases members, 0
  {
    if members == [] then []
    else
      var earlier, last := members[..|members| - 1], members[|members| - 1];
      MemberTokens(earlier) + Between(earlier) + [StrToken(last.key), COLON_TOKEN] + Tokens(last.value)
  }

  // ----- texts -----

  /** The tokens written one after another, with `gaps[i]` before token `i` and the last gap at the end. */
  function Render(ts: seq<Token>, gaps: seq<Text>): Text
    requires |gaps| == |ts| + 1
  {
    if ts == [] then gaps[0] else gaps[0] + Spell(ts[0]) + Render(ts[1..], gaps[1..])
  }

  predicate IsLayout(gaps: seq<Text>, ts: seq<Token>) {
    |gaps| == |ts| + 1 && forall i :: 0 <= i < |gaps| ==> AllWs(gaps[i])
  }

  /** `s` is a JSON text that denotes `v`. */
  ghost predicate Denotes(s: Text, v: Json) {
    WellSpelled(v) && exists gaps :: IsLayout(gaps, Tokens(v)) && s == Render(Tokens(v), gaps)
  }
}
