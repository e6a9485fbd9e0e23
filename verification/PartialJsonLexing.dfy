/**
 Lexing a JSON text, or any prefix of one: the scanner finds the tokens of the value in order, and
 of the token that the cut leaves unfinished at most an `unterminated` number.
 */
module PartialJsonLexing {
  import opened CodeUnits
  import opened JsonGrammar
  import opened PartialJson

  predicate IsPunctuation(c: CodeUnit) { c in {LBRACE, RBRACE, LBRACKET, RBRACKET, COLON, COMMA} }

  /** Numbers and names: tokens that need something other than a word after them. */
  predicate IsWord(t: Token) { t.kind == Num || t.kind == Name }

  predicate TokenOk(t: Token) {
    !t.unterminated &&
    match t.kind
    case Str => IsStringBody(t.value)
    case Num => IsJsonNumber(t.value)
    case Name => IsLiteralName(t.value)
    case _ => |t.value| == 1 && IsPunctuation(t.value[0]) && t == PunctuationToken(t.value[0])
  }

  predicate Lexable(ts: seq<Token>) {
    && (forall i :: 0 <= i < |ts| ==> TokenOk(ts[i]))
    && (forall i :: 0 <= i < |ts| - 1 && IsWord(ts[i]) ==> !IsWord(ts[i + 1]))
  }

  /** What the cut may leave behind the finished tokens. */
  predicate IsCut(cut: seq<Token>) {
    cut == [] || (|cut| == 1 && cut[0].kind == Num && cut[0].unterminated)
  }

  // ----- strings -----

  /** Within a string body the scan passes every quotation mark up to the closing one at `n`. */
  lemma {:induction false} ScanBody(s: Text, i: nat, n: nat)
    requires i <= n < |s| && s[n] == QUOTE && IsStringBody(s[i..n])
    requires Backslashes(s, 0, i) % 2 == 0
    ensures ClosingQuote(s, 0, i) == n
    decreases n - i
  {
    if i < n {
      var b := s[i..n];
      assert b[0] == s[i];
      if s[i] == BACKSLASH {
        assert b[1] == s[i + 1];
        assert ClosingQuote(s, 0, i) == ClosingQuote(s, 0, i + 1) == ClosingQuote(s, 0, i + 2);
        if IsSimpleEscape(s[i + 1]) {
          assert b[2..] == s[i + 2..n];
          ScanBody(s, i + 2, n);
        } else {
          assert b[2] == s[i + 2] && b[3] == s[i + 3] && b[4] == s[i + 4] && b[5] == s[i + 5];
          assert b[6..] == s[i + 6..n];
          SkipToQuote(s, 0, i + 2, i + 6);
          ScanBody(s, i + 6, n);
        }
      } else {
        assert b[1..] == s[i + 1..n];
        ScanBody(s, i + 1, n);
      }
    }
  }

  lemma {:induction false} BackslashesPrefix(s: Text, m: nat, i: nat)
    requires i <= m <= |s|
    ensures Backslashes(s[..m], 0, i) == Backslashes(s, 0, i)
  {
    if i > 0 { BackslashesPrefix(s, m, i - 1); }
  }

  /** Cut before its closing mark, a string has none. */
  lemma {:induction false} ScanCut(s: Text, m: nat, i: nat)
    requires i <= m <= |s| && m <= ClosingQuote(s, 0, i)
    ensures ClosingQuote(s[..m], 0, i) == m
    decreases m - i
  {
    if i < m {
      BackslashesPrefix(s, m, i);
      ScanCut(s, m, i + 1);
    }
  }

  lemma LexString(b: Text, x: Text)
    requires IsStringBody(b)
    ensures Lex([QUOTE] + b + [QUOTE] + x) == [StrToken(b)] + Lex(x)
  {
    var body := b + [QUOTE] + x;
    var s := [QUOTE] + b + [QUOTE] + x;
    assert s == [QUOTE] + body;
    assert body[0..|b|] == b;
    ScanBody(body, 0, |b|);
    ClosingQuoteInBody(body, 0);
    assert s[1..1 + |b|] == b && s[|b| + 2..] == x;
    assert Head(s) == ([StrToken(b)], |b| + 2);
  }

  lemma LexStringCut(b: Text, j: nat)
    requires IsStringBody(b) && j < |b| + 2
    ensures Lex(([QUOTE] + b + [QUOTE])[..j]) == []
  {
    hide IsStringBody, Lex, Head;
    var whole := [QUOTE] + b + [QUOTE];
    if j == 0 {
      assert whole[..j] == [];
      LexNothing();
    } else {
      var body := b + [QUOTE];
      assert body[0..|b|] == b;
      ScanBody(body, 0, |b|);
      ScanCut(body, j - 1, 0);
      assert whole[..j] == [QUOTE] + body[..j - 1];
      LexUnclosed(body[..j - 1]);
    }
  }

  lemma LexNothing()
    ensures Lex([]) == []
  {
  }

  lemma LexUnclosed(body: Text)
    requires ClosingQuote(body, 0, 0) == |body|
    ensures Lex([QUOTE] + body) == []
  {
    var s := [QUOTE] + body;
    ClosingQuoteInBody(body, 0);
    assert Head(s) == ([], |s|);
    assert s[|s|..] == [];
  }

  // ----- numbers -----

  /** Inside a number every character continues it; only a sign needs to look back. */
  lemma {:induction false} NumberContinues(s: Text, i: nat)
    requires i < |s| && NumRun(s) != Dead && !(i == 0 && s[0] == MINUS)
    ensures Continues(s, i)
  {
    var k := i + 1;
    RunAlive(s, k);
    RunAlive(s, i);
    assert s[..k][..i] == s[..i];
    if NumRun(s[..i]) == Mark { MarkAfterExponent(s[..i]); }
  }

  lemma {:induction false} RunAlive(s: Text, k: nat)
    requires k <= |s| && NumRun(s) != Dead
    ensures NumRun(s[..k]) != Dead
  {
    if k < |s| {
      RunAlive(s[..|s| - 1], k);
      assert s[..|s| - 1][..k] == s[..k];
    } else {
      assert s[..k] == s;
    }
  }

  lemma MarkAfterExponent(s: Text)
    requires NumRun(s) == Mark
    ensures s != [] && IsExponentMark(s[|s| - 1])
  {
  }

  lemma NumberStarts(s: Text)
    requires s != [] && NumRun(s) != Dead
    ensures StartsNumber(s[0])
  {
    RunAlive(s, 1);
    assert s[..1][..0] == [];
  }

  /** The scan runs to the end of `num` and stops there if nothing that follows continues a number. */
  lemma {:induction false} NumberEndAt(num: Text, x: Text, i: nat)
    requires i <= |num| && NumRun(num) != Dead && !(i == 0 && num != [] && num[0] == MINUS)
    requires x == [] || Settles(x[0])
    ensures NumberEnd(num + x, i) == |num|
    decreases |num| - i
  {
    if i < |num| {
      NumberContinues(num, i);
      NumberEndAt(num, x, i + 1);
    }
  }

  /** A character that ends any word before it. */
  predicate Settles(c: CodeUnit) { IsWs(c) || IsPunctuation(c) || c == QUOTE }

  lemma LexNumber(num: Text, x: Text)
    requires num != [] && NumRun(num) != Dead && (x == [] || Settles(x[0]))
    ensures Lex(num + x) == [Token(Num, num, x == [])] + Lex(x)
  {
    var s := num + x;
    NumberStarts(num);
    NumberEndAt(num, x, if s[0] == MINUS then 1 else 0);
    assert s[..|num|] == num && s[|num|..] == x;
    assert !IsPunctuation(s[0]) && s[0] != QUOTE;
  }

  lemma LexNumberCut(num: Text, j: nat)
    requires IsJsonNumber(num) && j <= |num|
    ensures Lex(num[..j]) == if j == 0 then [] else [Token(Num, num[..j], true)]
  {
    if j > 0 {
      RunAlive(num, j);
      assert num[..j] + [] == num[..j];
      LexNumber(num[..j], []);
    }
  }

  // ----- names -----

  lemma {:induction false} LetterEndAt(word: Text, x: Text, i: nat)
    requires i <= |word| && forall k :: 0 <= k < |word| ==> IsLetter(word[k])
    requires x == [] || Settles(x[0])
    ensures LetterEnd(word + x, i) == |word|
    decreases |word| - i
  {
    if i < |word| {
      LetterEndAt(word, x, i + 1);
    }
  }

  lemma LexName(name: Text, x: Text)
    requires IsLiteralName(name) && (x == [] || Settles(x[0]))
    ensures Lex(name + x) == [NameToken(name)] + Lex(x)
  {
    var s := name + x;
    LetterEndAt(name, x, 1);
    assert s[..|name|] == name && s[|name|..] == x;
    assert s[0] == name[0] && IsLetter(s[0]);
    assert Head(s) == ([NameToken(name)], |name|);
  }

  lemma LexNameCut(name: Text, j: nat)
    requires IsLiteralName(name) && j < |name|
    ensures Lex(name[..j]) == []
  {
    if j > 0 {
      var s := name[..j];
      LetterEndAt(s, [], 1);
      assert s + [] == s && s[..|s|] == s;
      assert s[0] == name[0] && IsLetter(s[0]);
      assert Head(s) == ([], |s|);
      assert s[|s|..] == [];
    }
  }

  // ----- one token -----

  lemma LexPunctuation(c: CodeUnit, x: Text)
    requires IsPunctuation(c)
    ensures Lex([c] + x) == [PunctuationToken(c)] + Lex(x)
  {
    assert ([c] + x)[1..] == x;
  }

  lemma LexToken(t: Token, x: Text)
    requires TokenOk(t) && (IsWord(t) ==> x == [] || Settles(x[0]))
    ensures Lex(Spell(t) + x) == [t.(unterminated := t.kind == Num && x == [])] + Lex(x)
  {
    match t.kind
    case Str => LexString(t.value, x);
    case Num => LexNumber(t.value, x);
    case Name => LexName(t.value, x);
    case _ =>
      LexPunctuation(t.value[0], x);
      assert Spell(t) == [t.value[0]];
  }

  lemma LexTokenCut(t: Token, j: nat)
    requires TokenOk(t) && j < |Spell(t)|
    ensures IsCut(Lex(Spell(t)[..j]))
  {
    match t.kind
    case Str => LexStringCut(t.value, j);
    case Num => LexNumberCut(t.value, j);
    case Name => LexNameCut(t.value, j);
    case _ => assert Spell(t)[..j] == [];
  }

  lemma {:induction false} LexWs(ws: Text, x: Text)
    requires AllWs(ws)
    ensures Lex(ws + x) == Lex(x)
  {
    if ws == [] {
      assert ws + x == x;
    } else {
      assert (ws + x)[1..] == ws[1..] + x;
      LexWs(ws[1..], x);
    }
  }

  // ----- whole texts and their prefixes -----

  /** How many tokens have arrived for certain in the first `n` characters: a number only once something follows it. */
  function Arrived(ts: seq<Token>, gaps: seq<Text>, n: nat): (k: nat)
    requires |gaps| == |ts| + 1
    ensures k <= |ts|
  {
    if ts == [] then 0
    else
      var end := |gaps[0]| + |Spell(ts[0])|;
      if n < end || (n == end && ts[0].kind == Num) then 0
      else 1 + Arrived(ts[1..], gaps[1..], n - end)
  }

  lemma {:induction false} ArrivedGrows(ts: seq<Token>, gaps: seq<Text>, m: nat, n: nat)
    requires |gaps| == |ts| + 1 && m <= n
    ensures Arrived(ts, gaps, m) <= Arrived(ts, gaps, n)
  {
    if ts != [] {
      var end := |gaps[0]| + |Spell(ts[0])|;
      if !(m < end || (m == end && ts[0].kind == Num)) {
        ArrivedGrows(ts[1..], gaps[1..], m - end, n - end);
      }
    }
  }

  lemma SettledNext(ts: seq<Token>, gaps: seq<Text>, n: nat)
    requires Lexable(ts) && IsLayout(gaps, ts) && 0 < n <= |Render(ts, gaps)|
    requires ts == [] || !IsWord(ts[0])
    ensures Settles(Render(ts, gaps)[..n][0])
  {
    if ts != [] && gaps[0] == [] {
      assert Render(ts, gaps)[0] == Spell(ts[0])[0];
    } else {
      assert Render(ts, gaps)[0] == gaps[0][0];
    }
  }

  lemma CutSecond(a: Text, b: Text, c: Text, n: nat)
    requires n <= |a| + |b| + |c|
    ensures n <= |a| ==> (a + b + c)[..n] == a[..n]
    ensures |a| <= n <= |a| + |b| ==> (a + b + c)[..n] == a + b[..n - |a|]
    ensures |a| + |b| <= n ==> (a + b + c)[..n] == a + (b + c[..n - |a| - |b|])
  {
    assert |a| <= n <= |a| + |b| ==> (a + b + c)[..n] == a + b[..n - |a|];
    assert |a| + |b| <= n ==> (a + b + c)[..n] == a + (b + c[..n - |a| - |b|]);
  }

  lemma LexAllWs(ws: Text)
    requires AllWs(ws)
    ensures Lex(ws) == []
  {
    LexWs(ws, []);
    assert ws + [] == ws;
  }

  /** The cut falls before the end of the first token. */
  lemma LexPrefixShort(ws: Text, t: Token, rest: Text, n: nat) returns (cut: seq<Token>)
    requires AllWs(ws) && TokenOk(t) && n < |ws| + |Spell(t)|
    ensures IsCut(cut) && Lex((ws + Spell(t) + rest)[..n]) == cut
  {
    CutSecond(ws, Spell(t), rest, n);
    if n <= |ws| {
      LexAllWs(ws[..n]);
      cut := [];
    } else {
      LexWs(ws, Spell(t)[..n - |ws|]);
      LexTokenCut(t, n - |ws|);
      cut := Lex(Spell(t)[..n - |ws|]);
    }
  }

  /** The cut falls at or after the end of the first token. */
  lemma LexPrefixLong(ws: Text, t: Token, rest: Text, n: nat)
    requires AllWs(ws) && TokenOk(t) && |ws| + |Spell(t)| <= n <= |ws| + |Spell(t)| + |rest|
    requires var m := n - |ws| - |Spell(t)|; IsWord(t) && m > 0 ==> Settles(rest[..m][0])
    ensures var m := n - |ws| - |Spell(t)|;
      Lex((ws + Spell(t) + rest)[..n]) == [t.(unterminated := t.kind == Num && m == 0)] + Lex(rest[..m])
  {
    var m := n - |ws| - |Spell(t)|;
    CutSecond(ws, Spell(t), rest, n);
    LexWs(ws, Spell(t) + rest[..m]);
    LexToken(t, rest[..m]);
  }

  lemma LayoutTail(ts: seq<Token>, gaps: seq<Text>)
    requires ts != [] && Lexable(ts) && IsLayout(gaps, ts)
    ensures Lexable(ts[1..]) && IsLayout(gaps[1..], ts[1..]) && TokenOk(ts[0]) && AllWs(gaps[0])
    ensures ts[1..] == [] || !IsWord(ts[0]) || !IsWord(ts[1..][0])
  {
  }

  /** Lexing past the first token, when the cut falls at or after its end. */
  lemma LexFirst(ts: seq<Token>, gaps: seq<Text>, n: nat)
    requires ts != [] && Lexable(ts) && IsLayout(gaps, ts)
    requires |gaps[0]| + |Spell(ts[0])| <= n <= |Render(ts, gaps)|
    ensures var m := n - |gaps[0]| - |Spell(ts[0])|;
      && m <= |Render(ts[1..], gaps[1..])|
      && Lex(Render(ts, gaps)[..n])
         == [ts[0].(unterminated := ts[0].kind == Num && m == 0)] + Lex(Render(ts[1..], gaps[1..])[..m])
  {
    var m := n - |gaps[0]| - |Spell(ts[0])|;
    LayoutTail(ts, gaps);
    var rest := Render(ts[1..], gaps[1..]);
    assert Render(ts, gaps) == gaps[0] + Spell(ts[0]) + rest;
    assert |Render(ts, gaps)| == |gaps[0]| + |Spell(ts[0])| + |rest|;
    hide *;
    if m > 0 && IsWord(ts[0]) { SettledNext(ts[1..], gaps[1..], m); }
    LexPrefixLong(gaps[0], ts[0], rest, n);
  }

  lemma TakeOneMore(ts: seq<Token>, k: nat, cut: seq<Token>)
    requires ts != [] && k < |ts|
    ensures ts[..k + 1] + cut == [ts[0]] + (ts[1..][..k] + cut)
  {
  }

  /** Nothing has arrived for certain yet. */
  lemma LexNoneArrived(ts: seq<Token>, gaps: seq<Text>, n: nat) returns (cut: seq<Token>)
    requires Lexable(ts) && IsLayout(gaps, ts) && n <= |Render(ts, gaps)|
    requires ts == [] || n < |gaps[0]| + |Spell(ts[0])| || (n == |gaps[0]| + |Spell(ts[0])| && ts[0].kind == Num)
    ensures IsCut(cut) && Lex(Render(ts, gaps)[..n]) == cut
  {
    if ts == [] {
      LexAllWs(gaps[0][..n]);
      cut := [];
    } else if n < |gaps[0]| + |Spell(ts[0])| {
      LayoutTail(ts, gaps);
      cut := LexPrefixShort(gaps[0], ts[0], Render(ts[1..], gaps[1..]), n);
    } else {
      LexFirst(ts, gaps, n);
      assert Render(ts[1..], gaps[1..])[..0] == [];
      cut := [ts[0].(unterminated := true)];
    }
  }

  lemma {:induction false} LexPrefix(ts: seq<Token>, gaps: seq<Text>, n: nat) returns (cut: seq<Token>)
    requires Lexable(ts) && IsLayout(gaps, ts) && n <= |Render(ts, gaps)|
    ensures IsCut(cut) && Lex(Render(ts, gaps)[..n]) == ts[..Arrived(ts, gaps, n)] + cut
    decreases |ts|
  {
    if Arrived(ts, gaps, n) == 0 {
      cut := LexNoneArrived(ts, gaps, n);
      assert ts[..0] + cut == cut;
    } else {
      var m := n - |gaps[0]| - |Spell(ts[0])|;
      LayoutTail(ts, gaps);
      LexFirst(ts, gaps, n);
      cut := LexPrefix(ts[1..], gaps[1..], m);
      TakeOneMore(ts, Arrived(ts[1..], gaps[1..], m), cut);
    }
  }

  /** Nothing tells the scanner that a number which ends the text is finished. */
  predicate EndsInNumber(ts: seq<Token>, gaps: seq<Text>)
    requires |gaps| == |ts| + 1
  {
    ts != [] && ts[|ts| - 1].kind == Num && gaps[|ts|] == []
  }

  /** The tokens as the scanner reports them for a whole text. */
  function Reported(ts: seq<Token>, gaps: seq<Text>): seq<Token>
    requires |gaps| == |ts| + 1
  {
    if EndsInNumber(ts, gaps) then ts[|ts| - 1 := ts[|ts| - 1].(unterminated := true)] else ts
  }

  lemma ReportedTail(ts: seq<Token>, gaps: seq<Text>)
    requires ts != [] && Lexable(ts) && IsLayout(gaps, ts)
    ensures Reported(ts, gaps)
         == [ts[0].(unterminated := ts[0].kind == Num && Render(ts[1..], gaps[1..]) == [])]
            + Reported(ts[1..], gaps[1..])
  {
    LayoutTail(ts, gaps);
    var rest := Render(ts[1..], gaps[1..]);
    if rest == [] {
      RenderEmpty(ts[1..], gaps[1..]);
    } else if ts[1..] == [] {
      assert gaps[1] == rest;
    }
    assert ts == [ts[0]] + ts[1..];
  }

  lemma {:induction false} LexWhole(ts: seq<Token>, gaps: seq<Text>)
    requires Lexable(ts) && IsLayout(gaps, ts)
    ensures Lex(Render(ts, gaps)) == Reported(ts, gaps)
  {
    if ts == [] {
      LexAllWs(gaps[0]);
    } else {
      var rest := Render(ts[1..], gaps[1..]);
      assert rest[..|rest|] == rest && Render(ts, gaps)[..|Render(ts, gaps)|] == Render(ts, gaps);
      LexFirst(ts, gaps, |Render(ts, gaps)|);
      LayoutTail(ts, gaps);
      LexWhole(ts[1..], gaps[1..]);
      ReportedTail(ts, gaps);
    }
  }

  lemma SpellNonempty(t: Token)
    requires TokenOk(t)
    ensures Spell(t) != []
  {
  }

  lemma RenderEmpty(ts: seq<Token>, gaps: seq<Text>)
    requires Lexable(ts) && IsLayout(gaps, ts) && Render(ts, gaps) == []
    ensures ts == [] && gaps[0] == []
  {
    if ts != [] { SpellNonempty(ts[0]); }
  }

  // ----- the tokens of a value can be lexed -----

  lemma LexableAppend(a: seq<Token>, b: seq<Token>)
    requires Lexable(a) && Lexable(b)
    requires a != [] && b != [] && IsWord(a[|a| - 1]) ==> !IsWord(b[0])
    ensures Lexable(a + b)
  {
  }

  lemma {:induction false} TokensLexable(v: Json)
    requires WellSpelled(v)
    ensures Lexable(Tokens(v))
    decreases v, 0
  {
    match v
    case Array(items) =>
      ItemsLexable(items);
      LexableEnclosed(OPEN_PAREN, ItemTokens(items), CLOSE_PAREN);
    case Object(members) =>
      MembersLexable(members);
      LexableEnclosed(OPEN_BRACE, MemberTokens(members), CLOSE_BRACE);
    case _ =>
  }

  lemma LexableEnclosed(open: Token, ts: seq<Token>, close: Token)
    requires Lexable(ts) && open in {OPEN_PAREN, OPEN_BRACE} && close in {CLOSE_PAREN, CLOSE_BRACE}
    ensures Lexable([open] + ts + [close])
  {
    LexableAppend([open], ts);
    LexableAppend([open] + ts, [close]);
  }

  /** One more entry, after a comma unless it is the first. */
  lemma LexableEntry(before: seq<Token>, comma: seq<Token>, entry: seq<Token>)
    requires Lexable(before) && Lexable(entry) && (comma == [COMMA_TOKEN] || (comma == [] && before == []))
    ensures Lexable(before + comma + entry)
  {
    LexableAppend(before, comma);
    LexableAppend(before + comma, entry);
  }

  lemma LexableNamed(key: Text, value: seq<Token>)
    requires IsStringBody(key) && Lexable(value)
    ensures Lexable([StrToken(key), COLON_TOKEN] + value)
  {
    LexableAppend([StrToken(key), COLON_TOKEN], value);
  }

  lemma {:induction false} ItemsLexable(items: seq<Json>)
    requires WellSpelled(Array(items))
    ensures Lexable(ItemTokens(items))
    decreases items, 0
  {
    if items != [] {
      var earlier, last := items[..|items| - 1], items[|items| - 1];
      ItemsLexable(earlier);
      TokensLexable(last);
      hide WellSpelled, Tokens, Lexable;
      LexableEntry(ItemTokens(earlier), Between(earlier), Tokens(last));
    }
  }

  lemma {:induction false} MembersLexable(members: seq<Member>)
    requires WellSpelled(Object(members))
    ensures Lexable(MemberTokens(members))
    decreases members, 0
  {
    if members != [] {
      var earlier, last := members[..|members| - 1], members[|members| - 1];
      MembersLexable(earlier);
      TokensLexable(last.value);
      hide WellSpelled, Tokens, Lexable;
      var name, value := [StrToken(last.key), COLON_TOKEN], Tokens(last.value);
      LexableNamed(last.key, value);
      LexableEntry(MemberTokens(earlier), Between(earlier), name + value);
      assert MemberTokens(earlier) + Between(earlier) + (name + value)
          == MemberTokens(earlier) + Between(earlier) + name + value;
    }
  }
}
