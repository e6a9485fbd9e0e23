/**
 The partial JSON parser: tokenize, strip, unstrip, generate. Each stage is a method in the
 program's own form, proved equal to a function that the theorems then speak about.
 */
module PartialJson {
  import opened Basics
  import opened CodeUnits
  import opened Options
  import opened JsonGrammar

  // ----- tokenize -----

  /** Backslashes that run up to, and do not include, position `i`, never reading before `start`. */
  function Backslashes(s: Text, start: nat, i: nat): nat
    requires i <= |s|
  {
    if i > start && s[i - 1] == BACKSLASH then 1 + Backslashes(s, start, i - 1) else 0
  }

  /** The first quotation mark at or after `i` that an even number of backslashes precedes, else `|s|`. */
  function ClosingQuote(s: Text, start: nat, i: nat): (e: nat)
    requires i <= |s|
    ensures i <= e <= |s|
    ensures e < |s| ==> s[e] == QUOTE
    decreases |s| - i
  {
    if i == |s| then i
    else if s[i] == QUOTE && Backslashes(s, start, i) % 2 == 0 then i
    else ClosingQuote(s, start, i + 1)
  }

  /** Whether the character at `i` extends a number that began at the start of `s`. */
  predicate Continues(s: Text, i: nat)
    requires i < |s|
  {
    || IsDigit(s[i]) || s[i] == DOT || IsExponentMark(s[i])
    || ((s[i] == MINUS || s[i] == PLUS) && i > 0 && IsExponentMark(s[i - 1]))
  }

  function NumberEnd(s: Text, i: nat): (e: nat)
    requires i <= |s|
    ensures i <= e <= |s|
    decreases |s| - i
  {
    if i < |s| && Continues(s, i) then NumberEnd(s, i + 1) else i
  }

  function LetterEnd(s: Text, i: nat): (e: nat)
    requires i <= |s|
    ensures i <= e <= |s|
    decreases |s| - i
  {
    if i < |s| && IsLetter(s[i]) then LetterEnd(s, i + 1) else i
  }

  predicate StartsNumber(c: CodeUnit) { IsDigit(c) || c == MINUS || c == DOT }

  /** Where the number at the head of `s` ends; a leading minus sign is always taken. */
  function NumberLength(s: Text): (n: nat)
    requires s != [] && StartsNumber(s[0])
    ensures 1 <= n <= |s|
  {
    NumberEnd(s, if s[0] == MINUS then 1 else 0)
  }

  function PunctuationToken(c: CodeUnit): Token
    requires c in {LBRACE, RBRACE, LBRACKET, RBRACKET, COLON, COMMA}
  {
    if c == LBRACE then OPEN_BRACE
    else if c == RBRACE then CLOSE_BRACE
    else if c == LBRACKET then OPEN_PAREN
    else if c == RBRACKET then CLOSE_PAREN
    else if c == COLON then COLON_TOKEN
    else COMMA_TOKEN
  }

  /** What one turn of the scanning loop reads at the head of `s`, and how far it moves. */
  function Head(s: Text): (r: (seq<Token>, nat))
    requires s != []
    ensures 1 <= r.1 <= |s|
  {
    if s[0] in {LBRACE, RBRACE, LBRACKET, RBRACKET, COLON, COMMA} then ([PunctuationToken(s[0])], 1)
    else if s[0] == QUOTE then
      var e := ClosingQuote(s, 1, 1);
      if e == |s| then ([], |s|) else ([StrToken(s[1..e])], e + 1)
    else if StartsNumber(s[0]) then
      var n := NumberLength(s);
      ([Token(Num, s[..n], n == |s|)], n)
    else if IsLetter(s[0]) then
      var n := LetterEnd(s, 1);
      if IsLiteralName(s[..n]) then ([NameToken(s[..n])], n)
      else ([], Min(n + 1, |s|))
    else ([], 1)
  }

  function Lex(s: Text): seq<Token>
    decreases |s|
  {
    if s == [] then [] else Head(s).0 + Lex(s[Head(s).1..])
  }

  // ----- what is read, case by case -----

  /** A character that a number goes on with: a digit, a point, an exponent mark, or a sign right behind one. */
  predicate GoesOn(s: Text, i: nat)
    requires 0 < i < |s|
  {
    || 0x30 <= s[i] <= 0x39 || s[i] == 0x2E || s[i] == 0x65 || s[i] == 0x45
    || ((s[i] == 0x2D || s[i] == 0x2B) && (s[i - 1] == 0x65 || s[i - 1] == 0x45))
  }

  predicate IsAsciiLetter(c: CodeUnit) { 0x41 <= c <= 0x5A || 0x61 <= c <= 0x7A }

  /** `s[..n]` is the longest run of letters at the head of `s`. */
  predicate LetterRun(s: Text, n: nat) {
    && 1 <= n <= |s| && (forall i :: 0 <= i < n ==> IsAsciiLetter(s[i])) && (n < |s| ==> !IsAsciiLetter(s[n]))
  }

  /** `s[..n]` is the longest run that a number at the head of `s` extends over. */
  predicate NumberRun(s: Text, n: nat) {
    && 1 <= n <= |s| && (forall i :: 1 <= i < n ==> GoesOn(s, i)) && (n < |s| ==> !GoesOn(s, n))
  }

  /** The kind of a punctuation mark's token. */
  function MarkKind(c: CodeUnit): Option<Kind> {
    match c
    case 0x7B => Some(Brace)
    case 0x7D => Some(Brace)
    case 0x5B => Some(Paren)
    case 0x5D => Some(Paren)
    case 0x3A => Some(Separator)
    case 0x2C => Some(Delimiter)
    case _ => None
  }

  /** A literal's name. */
  predicate IsLiteral(word: Text) {
    || word == [0x74, 0x72, 0x75, 0x65] || word == [0x66, 0x61, 0x6C, 0x73, 0x65] || word == [0x6E, 0x75, 0x6C, 0x6C]
  }

  /** A body in which every quotation mark is escaped, and no backslash stands alone at the end. */
  predicate Escaped(body: Text) {
    if body == [] then true
    else if body[0] == 0x5C then |body| >= 2 && Escaped(body[2..])
    else body[0] != 0x22 && Escaped(body[1..])
  }

  /** What the head of any text reads as: the tokens, one or none, and how far it goes. */
  predicate ReadsAs(s: Text, tokens: seq<Token>, n: nat)
    requires s != []
  {
    var c := s[0];
    if MarkKind(c).Some? then tokens == [Token(MarkKind(c).value, [c], false)] && n == 1
    else if c == 0x22 then
      if tokens == [] then n == |s| && forall e :: 1 <= e < |s| && s[e] == 0x22 ==> !Escaped(s[1..e])
      else 2 <= n <= |s| && s[n - 1] == 0x22 && Escaped(s[1..n - 1]) && tokens == [Token(Str, s[1..n - 1], false)]
    else if 0x30 <= c <= 0x39 || c == 0x2D || c == 0x2E then
      NumberRun(s, n) && tokens == [Token(Num, s[..n], n == |s|)]
    else if IsAsciiLetter(c) then
      if tokens == [] then
        exists m :: 1 <= m <= |s| && LetterRun(s, m) && !IsLiteral(s[..m]) && n == (if m < |s| then m + 1 else m)
      else LetterRun(s, n) && IsLiteral(s[..n]) && tokens == [Token(Name, s[..n], false)]
    else tokens == [] && n == 1
  }

  lemma {:induction false} NumberEndIs(s: Text, i: nat)
    requires i <= |s|
    ensures var e := NumberEnd(s, i);
      (forall k :: i <= k < e ==> Continues(s, k)) && (e < |s| ==> !Continues(s, e))
    decreases |s| - i
  {
    if i < |s| && Continues(s, i) { NumberEndIs(s, i + 1); }
  }

  lemma {:induction false} LetterEndIs(s: Text, i: nat)
    requires i <= |s|
    ensures var e := LetterEnd(s, i);
      (forall k :: i <= k < e ==> IsLetter(s[k])) && (e < |s| ==> !IsLetter(s[e]))
    decreases |s| - i
  {
    if i < |s| && IsLetter(s[i]) { LetterEndIs(s, i + 1); }
  }

  /** A quotation mark behind an escaped body closes the string. */
  lemma {:induction false} EscapedCloses(s: Text, start: nat, i: nat, n: nat)
    requires start <= i <= n < |s| && s[n] == QUOTE && Escaped(s[i..n]) && Backslashes(s, start, i) % 2 == 0
    ensures ClosingQuote(s, start, i) == n
    decreases n - i
  {
    if i < n {
      var b := s[i..n];
      assert b[0] == s[i];
      if s[i] == BACKSLASH {
        assert b[2..] == s[i + 2..n];
        assert Backslashes(s, start, i + 1) == 1 + Backslashes(s, start, i);
        assert Backslashes(s, start, i + 2) % 2 == 0;
        EscapedCloses(s, start, i + 2, n);
      } else {
        assert b[1..] == s[i + 1..n];
        EscapedCloses(s, start, i + 1, n);
      }
    }
  }

  /** What is closed is an escaped body. */
  lemma {:induction false} ClosedIsEscaped(s: Text, start: nat, i: nat)
    requires start <= i <= |s| && ClosingQuote(s, start, i) < |s| && Backslashes(s, start, i) % 2 == 0
    ensures Escaped(s[i..ClosingQuote(s, start, i)])
    decreases |s| - i
  {
    var e := ClosingQuote(s, start, i);
    var b := s[i..e];
    if i < e {
      assert b[0] == s[i];
      if s[i] == BACKSLASH {
        assert Backslashes(s, start, i + 1) == 1 + Backslashes(s, start, i);
        assert e != i + 1;
        assert ClosingQuote(s, start, i + 1) == e == ClosingQuote(s, start, i + 2);
        assert b[2..] == s[i + 2..e];
        ClosedIsEscaped(s, start, i + 2);
      } else {
        assert b[1..] == s[i + 1..e];
        ClosedIsEscaped(s, start, i + 1);
      }
    }
  }

  /** Every text is read as it says, what is no JSON included. */
  lemma HeadReads(s: Text)
    requires s != []
    ensures ReadsAs(s, Head(s).0, Head(s).1)
  {
    var c := s[0];
    if StartsNumber(c) {
      NumberEndIs(s, if c == MINUS then 1 else 0);
      var n := NumberLength(s);
      forall i | 1 <= i < n
        ensures GoesOn(s, i)
      {
        assert Continues(s, i);
      }
    } else if c == QUOTE {
      var e := ClosingQuote(s, 1, 1);
      if e < |s| {
        ClosedIsEscaped(s, 1, 1);
      } else {
        forall k | 1 <= k < |s| && s[k] == QUOTE
          ensures !Escaped(s[1..k])
        {
          if Escaped(s[1..k]) { EscapedCloses(s, 1, 1, k); }
        }
      }
    } else if IsLetter(c) {
      LetterEndIs(s, 1);
      assert LetterRun(s, LetterEnd(s, 1));
    }
  }

  /** `indexOf('"', from)`, with `|s|` for "not found". */
  method IndexOfQuote(s: Text, from: nat) returns (e: nat)
    requires from <= |s|
    ensures from <= e <= |s|
    ensures forall i :: from <= i < e ==> s[i] != QUOTE
    ensures e < |s| ==> s[e] == QUOTE
  {
    e := from;
    while e < |s| && s[e] != QUOTE
      invariant from <= e <= |s|
      invariant forall i :: from <= i < e ==> s[i] != QUOTE
    {
      e := e + 1;
    }
  }

  lemma SkipToQuote(s: Text, start: nat, i: nat, j: nat)
    requires i <= j <= |s|
    requires forall k :: i <= k < j ==> s[k] != QUOTE
    ensures ClosingQuote(s, start, i) == ClosingQuote(s, start, j)
    decreases j - i
  {
    if i < j {
      SkipToQuote(s, start, i + 1, j);
    }
  }

  /** Scan for the quotation mark that closes the string whose body begins at `start`. */
  method FindClosingQuote(s: Text, start: nat) returns (end: nat)
    requires start <= |s|
    ensures end == ClosingQuote(s, start, start)
  {
    end := start;
    while true
      invariant start <= end <= |s|
      invariant ClosingQuote(s, start, end) == ClosingQuote(s, start, start)
      decreases |s| - end
    {
      var found := IndexOfQuote(s, end);
      SkipToQuote(s, start, end, found);
      end := found;
      if end == |s| {
        break;
      }
      var backslashes, i := 0, end;
      while i > start && s[i - 1] == BACKSLASH
        invariant start <= i <= end
        invariant backslashes + Backslashes(s, start, i) == Backslashes(s, start, end)
      {
        backslashes, i := backslashes + 1, i - 1;
      }
      if backslashes % 2 == 0 {
        break;
      }
      end := end + 1;
    }
  }

  /** The number that begins at `start`, and the position after it. */
  method ScanNumber(input: Text, start: nat) returns (value: Text, current: nat)
    requires start < |input| && StartsNumber(input[start])
    ensures start < current <= |input| && value == input[start..current]
    ensures current - start == NumberLength(input[start..])
  {
    ghost var rest := input[start..];
    value, current := [], start;
    if input[start] == MINUS {
      value, current := [MINUS], current + 1;
    }
    while current < |input|
          && (|| IsDigit(input[current]) || input[current] == DOT || IsExponentMark(input[current])
              || ((input[current] == MINUS || input[current] == PLUS)
                  && value != [] && IsExponentMark(value[|value| - 1])))
      invariant start <= current <= |input|
      invariant value == input[start..current]
      invariant NumberEnd(rest, current - start) == NumberLength(rest)
    {
      assert rest[current - start] == input[current];
      value := value + [input[current]];
      current := current + 1;
    }
    assert current < |input| ==> rest[current - start] == input[current];
  }

  /** The letters that begin at `start`, and the position after them. */
  method ScanWord(input: Text, start: nat) returns (value: Text, current: nat)
    requires start < |input| && IsLetter(input[start])
    ensures start < current <= |input| && value == input[start..current]
    ensures current - start == LetterEnd(input[start..], 1)
  {
    ghost var rest := input[start..];
    value, current := [input[start]], start + 1;
    while current < |input| && IsLetter(input[current])
      invariant start < current <= |input|
      invariant value == input[start..current]
      invariant LetterEnd(rest, current - start) == LetterEnd(rest, 1)
    {
      assert rest[current - start] == input[current];
      value := value + [input[current]];
      current := current + 1;
    }
    assert current < |input| ==> rest[current - start] == input[current];
  }

  /** One turn of the scanning loop. The cursor may come to rest one past the end, after an unknown word. */
  method ReadOne(input: Text, current: nat) returns (more: seq<Token>, next: nat)
    requires current < |input|
    ensures current < next && (more, Min(next, |input|) - current) == Head(input[current..])
  {
    var c := input[current];
    ghost var rest := input[current..];
    more, next := [], current + 1;
    if c in {LBRACE, RBRACE, LBRACKET, RBRACKET, COLON, COMMA} {
      more := [PunctuationToken(c)];
    } else if c == QUOTE {
      more, next := ReadString(input, current);
    } else if StartsNumber(c) {
      var value: Text;
      value, next := ScanNumber(input, current);
      more := [Token(Num, value, next == |input|)];
      assert rest[..next - current] == value;
    } else if IsLetter(c) {
      var value: Text;
      value, next := ScanWord(input, current);
      assert rest[..next - current] == value;
      if IsLiteralName(value) {
        more := [NameToken(value)];
      } else {
        // an unknown word also takes the character after it
        next := next + 1;
      }
    }
    // backslashes, white space and anything else outside strings are passed over
  }

  method ReadString(input: Text, current: nat) returns (more: seq<Token>, next: nat)
    requires current < |input| && input[current] == QUOTE
    ensures current < next <= |input| && (more, next - current) == Head(input[current..])
  {
    var body := input[current + 1..];
    var end := FindClosingQuote(body, 0);
    ghost var rest := input[current..];
    assert rest == [QUOTE] + body;
    ClosingQuoteInBody(body, 0);
    if end == |body| {
      more, next := [], |input|;
    } else {
      more, next := [StrToken(body[..end])], current + 1 + end + 1;
      assert rest[1..1 + end] == body[..end];
    }
  }

  method Tokenize(input: Text) returns (tokens: seq<Token>)
    ensures tokens == Lex(input)
  {
    hide Head;
    var current: nat := 0;
    tokens := [];
    while current < |input|
      invariant tokens + Lex(input[Min(current, |input|)..]) == Lex(input)
      decreases |input| - current
    {
      var more, next := ReadOne(input, current);
      assert input[current..][Min(next, |input|) - current..] == input[Min(next, |input|)..];
      tokens, current := tokens + more, next;
    }
  }

  /** Looking for the end of a string gives the same place with and without the opening mark in view. */
  lemma ClosingQuoteInBody(body: Text, i: nat)
    requires i <= |body|
    ensures ClosingQuote([QUOTE] + body, 1, i + 1) == 1 + ClosingQuote(body, 0, i)
    decreases |body| - i
  {
    if i < |body| {
      BackslashesInBody(body, i);
      ClosingQuoteInBody(body, i + 1);
    }
  }

  lemma BackslashesInBody(body: Text, i: nat)
    requires i <= |body|
    ensures Backslashes([QUOTE] + body, 1, i + 1) == Backslashes(body, 0, i)
  {
    if i > 0 {
      BackslashesInBody(body, i - 1);
    }
  }

  // ----- strip -----

  datatype Bracket = Curly | Square

  predicate IsBracket(t: Token) { t.kind == Brace || t.kind == Paren }

  predicate Opens(t: Token) { IsBracket(t) && (t.value == [LBRACE] || t.value == [LBRACKET]) }

  /** The stack of open brackets, as `strip` keeps it: any closing bracket pops. */
  function OpenStep(open: seq<Bracket>, t: Token): seq<Bracket> {
    if !IsBracket(t) then open
    else if Opens(t) then open + [if t.value == [LBRACE] then Curly else Square]
    else if open == [] then open
    else open[..|open| - 1]
  }

  function OpenAfter(open: seq<Bracket>, ts: seq<Token>): seq<Bracket> {
    if ts == [] then open else OpenStep(OpenAfter(open, ts[..|ts| - 1]), ts[|ts| - 1])
  }

  /** True when the innermost open bracket is a brace, so a lone trailing string is a key. */
  predicate InObject(open: seq<Bracket>) { open != [] && open[|open| - 1] == Curly }

  predicate StartsMember(t: Token) { t.kind == Delimiter || (t.kind == Brace && t.value == [LBRACE]) }

  /** What `strip` leaves of `ts`, given whether the innermost open bracket is a brace. */
  function Trimmed(ts: seq<Token>, inObject: bool): seq<Token> {
    if ts == [] then []
    else
      var rest, last := ts[..|ts| - 1], ts[|ts| - 1];
      match last.kind
      case Separator => Trimmed(rest, inObject)
      case Num => if last.unterminated || !IsJsonNumber(last.value) then Trimmed(rest, inObject) else ts
      case Str =>
        if inObject && rest != [] && StartsMember(rest[|rest| - 1]) then Trimmed(rest, inObject) else ts
      case Delimiter => rest
      case _ => ts
  }

  function Stripped(ts: seq<Token>): seq<Token> {
    Trimmed(ts, InObject(OpenAfter([], ts)))
  }

  /** A token that cannot stand at the end: a colon, an unfinished or broken number, a key without its value. */
  predicate Falls(ts: seq<Token>, k: nat, inObject: bool)
    requires k < |ts|
  {
    match ts[k].kind
    case Separator => true
    case Num => ts[k].unterminated || !IsJsonNumber(ts[k].value)
    case Str =>
      && inObject && k > 0
      && (ts[k - 1].kind == Delimiter || (ts[k - 1].kind == Brace && ts[k - 1].value == [0x7B]))
    case _ => false
  }

  /** What is stripped: such tokens, as many as there are, and then a comma if there is one. */
  lemma {:induction false} TrimmedIs(ts: seq<Token>, inObject: bool) returns (n: nat)
    ensures n <= |ts| && Trimmed(ts, inObject) == ts[..n]
    ensures forall k :: n <= k < |ts| ==> Falls(ts, k, inObject) || (k == n && ts[k].kind == Delimiter)
    ensures || n == 0 || (n < |ts| && ts[n].kind == Delimiter)
            || (!Falls(ts, n - 1, inObject) && ts[n - 1].kind != Delimiter)
  {
    if ts == [] {
      n := 0;
    } else {
      var last := |ts| - 1;
      if Falls(ts, last, inObject) {
        n := TrimmedIs(ts[..last], inObject);
        assert ts[..last][..n] == ts[..n];
        assert forall k :: 0 <= k < last ==> (Falls(ts[..last], k, inObject) <==> Falls(ts, k, inObject));
      } else if ts[last].kind == Delimiter {
        n := last;
      } else {
        n := |ts|;
      }
    }
  }

  /** A closing bracket closes the innermost open one, of whatever sort. */
  lemma OpenAre(ts: seq<Token>, t: Token)
    ensures var open := OpenAfter([], ts);
      OpenAfter([], ts + [t]) ==
      match t.kind
      case Brace =>
        if t.value == [0x7B] then open + [Curly]
        else if t.value == [0x5B] then open + [Square]
        else if open == [] then [] else open[..|open| - 1]
      case Paren =>
        if t.value == [0x7B] then open + [Curly]
        else if t.value == [0x5B] then open + [Square]
        else if open == [] then [] else open[..|open| - 1]
      case _ => open
  {
    assert (ts + [t])[..|ts|] == ts;
  }

  method Strip(tokens: seq<Token>) returns (kept: seq<Token>)
    ensures kept == Stripped(tokens)
  {
    var open: seq<Bracket> := [];
    for i := 0 to |tokens|
      invariant open == OpenAfter([], tokens[..i])
    {
      var token := tokens[i];
      assert tokens[..i + 1][..i] == tokens[..i];
      if IsBracket(token) {
        if Opens(token) {
          open := open + [if token.value == [LBRACE] then Curly else Square];
        } else if open != [] {
          open := open[..|open| - 1];
        }
      }
    }
    assert tokens[..|tokens|] == tokens;
    kept := TrimTail(tokens, InObject(open));
  }

  /** The loop of `strip` that takes unfinished tokens off the end. */
  method TrimTail(tokens: seq<Token>, inObject: bool) returns (kept: seq<Token>)
    ensures kept == Trimmed(tokens, inObject)
  {
    var length: nat := |tokens|;
    assert tokens[..length] == tokens;
    while length > 0
      invariant length <= |tokens|
      invariant Trimmed(tokens[..length], inObject) == Trimmed(tokens, inObject)
    {
      var last := tokens[length - 1];
      ghost var ts := tokens[..length];
      assert ts[..length - 1] == tokens[..length - 1] && ts[length - 1] == last;
      if last.kind == Delimiter {
        return tokens[..length - 1];
      }
      if || last.kind == Separator
         || (last.kind == Num && (last.unterminated || !IsJsonNumber(last.value)))
         || (last.kind == Str && inObject && length >= 2 && StartsMember(tokens[length - 2])) {
        length := length - 1;
        continue;
      }
      return tokens[..length];
    }
    kept := tokens[..length];
  }

  // ----- unstrip -----

  /** `tail.splice(tail.lastIndexOf(b), 1)`: with no occurrence the index is -1, which is the last element. */
  function DropLast(tail: seq<Bracket>, b: Bracket): seq<Bracket> {
    if tail == [] then []
    else
      var i := LastIndexOf(tail, b);
      if i == -1 then tail[..|tail| - 1] else tail[..i] + tail[i + 1..]
  }

  function LastIndexOf(tail: seq<Bracket>, b: Bracket): (i: int)
    ensures -1 <= i < |tail|
    ensures i >= 0 ==> tail[i] == b
  {
    if tail == [] then -1
    else if tail[|tail| - 1] == b then |tail| - 1
    else LastIndexOf(tail[..|tail| - 1], b)
  }

  /** The closers still owed, as `unstrip` keeps them: a closing bracket drops the last of its own sort. */
  function TailStep(tail: seq<Bracket>, t: Token): seq<Bracket> {
    match t.kind
    case Brace => if t.value == [LBRACE] then tail + [Curly] else DropLast(tail, Curly)
    case Paren => if t.value == [LBRACKET] then tail + [Square] else DropLast(tail, Square)
    case _ => tail
  }

  function TailAfter(tail: seq<Bracket>, ts: seq<Token>): seq<Bracket> {
    if ts == [] then tail else TailStep(TailAfter(tail, ts[..|ts| - 1]), ts[|ts| - 1])
  }

  /** A closing bracket drops the last open one of its sort; without any it drops the last of all. */
  lemma {:induction false} DropLastIs(tail: seq<Bracket>, b: Bracket) returns (i: nat)
    requires tail != []
    ensures i < |tail| && DropLast(tail, b) == tail[..i] + tail[i + 1..]
    ensures (tail[i] == b && forall k :: i < k < |tail| ==> tail[k] != b)
            || (i == |tail| - 1 && forall k :: 0 <= k < |tail| ==> tail[k] != b)
  {
    LastIndexIs(tail, b);
    i := if LastIndexOf(tail, b) == -1 then |tail| - 1 else LastIndexOf(tail, b);
    assert tail[..|tail| - 1] + [] == tail[..|tail| - 1];
  }

  lemma {:induction false} LastIndexIs(tail: seq<Bracket>, b: Bracket)
    ensures forall k :: LastIndexOf(tail, b) < k < |tail| ==> tail[k] != b
  {
    if tail != [] && tail[|tail| - 1] != b {
      LastIndexIs(tail[..|tail| - 1], b);
      assert forall k :: 0 <= k < |tail| - 1 ==> tail[..|tail| - 1][k] == tail[k];
    }
  }

  function Closer(b: Bracket): Token { if b == Curly then CLOSE_BRACE else CLOSE_PAREN }

  /** The innermost bracket closes first. */
  function Closers(tail: seq<Bracket>): seq<Token> {
    if tail == [] then [] else [Closer(tail[|tail| - 1])] + Closers(tail[..|tail| - 1])
  }

  function Unstripped(ts: seq<Token>): seq<Token> { ts + Closers(TailAfter([], ts)) }

  method Unstrip(tokens: seq<Token>) returns (closed: seq<Token>)
    ensures closed == Unstripped(tokens)
  {
    var tail: seq<Bracket> := [];
    for i := 0 to |tokens|
      invariant tail == TailAfter([], tokens[..i])
    {
      var token := tokens[i];
      assert tokens[..i + 1][..i] == tokens[..i];
      if token.kind == Brace {
        if token.value == [LBRACE] {
          tail := tail + [Curly];
        } else {
          tail := DropLast(tail, Curly);
        }
      }
      if token.kind == Paren {
        if token.value == [LBRACKET] {
          tail := tail + [Square];
        } else {
          tail := DropLast(tail, Square);
        }
      }
    }
    assert tokens[..|tokens|] == tokens;
    closed := tokens;
    var i := |tail|;
    assert tail[..i] == tail;
    while i > 0
      invariant 0 <= i <= |tail|
      invariant closed + Closers(tail[..i]) == tokens + Closers(tail)
    {
      assert tail[..i][..i - 1] == tail[..i - 1];
      i := i - 1;
      closed := closed + [Closer(tail[i])];
    }
  }

  // ----- generate -----

  function Generated(ts: seq<Token>): Text {
    if ts == [] then [] else Spell(ts[0]) + Generated(ts[1..])
  }

  lemma GeneratedStep(tokens: seq<Token>, i: nat, output: Text)
    requires i < |tokens|
    ensures output + Generated(tokens[i..]) == output + Spell(tokens[i]) + Generated(tokens[i + 1..])
  {
    assert tokens[i..][1..] == tokens[i + 1..];
  }

  method Generate(tokens: seq<Token>) returns (output: Text)
    ensures output == Generated(tokens)
  {
    output := [];
    for i := 0 to |tokens|
      invariant output + Generated(tokens[i..]) == Generated(tokens)
    {
      GeneratedStep(tokens, i, output);
      match tokens[i].kind {
        case Str => output := output + ([QUOTE] + tokens[i].value + [QUOTE]);
        case _ => output := output + tokens[i].value;
      }
    }
  }

  // ----- the whole repair -----

  function Repaired(input: Text): Text {
    Generated(Unstripped(Stripped(Lex(input))))
  }

  /** The text `partialParse` hands to `JSON.parse`. */
  method Repair(input: Text) returns (output: Text)
    ensures output == Repaired(input)
  {
    var tokens := Tokenize(input);
    tokens := Strip(tokens);
    tokens := Unstrip(tokens);
    output := Generate(tokens);
  }
}
