/**
 What `partialParse` promises about a document that is still arriving: every prefix that reaches
 the opening bracket parses, to a partial view of the document that only ever grows, and the whole
 document parses to itself.
 */
module PartialViews {
  import opened CodeUnits
  import opened JsonGrammar
  import opened PartialJson
  import opened PartialJsonRepair
  import opened PartialJsonLexing

  // ----- a text denotes at most one value -----

  lemma LastToken(v: Json)
    ensures var t := Tokens(v)[|Tokens(v)| - 1]; t !in {OPEN_PAREN, OPEN_BRACE, COMMA_TOKEN, COLON_TOKEN}
  {
  }

  lemma SplitEqual<T>(a: seq<T>, x: seq<T>, b: seq<T>, y: seq<T>)
    requires a + x == b + y && |x| == |y|
    ensures a == b && x == y
  {
    assert a == (a + x)[..|a|] && x == (a + x)[|a|..];
    assert b == (b + y)[..|b|] && y == (b + y)[|b|..];
  }

  lemma Assoc3<T>(a: seq<T>, b: seq<T>, c: seq<T>, d: seq<T>)
    ensures a + (b + c + d) == a + b + c + d
  {
  }

  lemma Assoc4<T>(a: seq<T>, b: seq<T>, c: seq<T>, d: seq<T>, e: seq<T>)
    ensures a + (b + c + d + e) == a + b + c + d + e
  {
  }

  lemma LastOfSum<T>(a: seq<T>, b: seq<T>)
    requires b != []
    ensures (a + b)[|a + b| - 1] == b[|b| - 1]
  {
  }

  lemma {:induction false} TokensUnique(a: seq<Token>, v: Json, b: seq<Token>, w: Json)
    requires a + Tokens(v) == b + Tokens(w)
    ensures a == b && v == w
    decreases v, 1
  {
    LastOfSum(a, Tokens(v));
    LastOfSum(b, Tokens(w));
    SameShape(v, w);
    match v
    case Array(items) =>
      Assoc3(a, [OPEN_PAREN], ItemTokens(items), [CLOSE_PAREN]);
      Assoc3(b, [OPEN_PAREN], ItemTokens(w.items), [CLOSE_PAREN]);
      SplitEqual(a + [OPEN_PAREN] + ItemTokens(items), [CLOSE_PAREN],
                 b + [OPEN_PAREN] + ItemTokens(w.items), [CLOSE_PAREN]);
      ItemsUnique(a, items, b, w.items);
    case Object(members) =>
      Assoc3(a, [OPEN_BRACE], MemberTokens(members), [CLOSE_BRACE]);
      Assoc3(b, [OPEN_BRACE], MemberTokens(w.members), [CLOSE_BRACE]);
      SplitEqual(a + [OPEN_BRACE] + MemberTokens(members), [CLOSE_BRACE],
                 b + [OPEN_BRACE] + MemberTokens(w.members), [CLOSE_BRACE]);
      MembersUnique(a, members, b, w.members);
    case _ =>
      SplitEqual(a, Tokens(v), b, Tokens(w));
  }

  /** The last token tells a value's sort, and a leaf in full. */
  lemma SameShape(v: Json, w: Json)
    requires Tokens(v)[|Tokens(v)| - 1] == Tokens(w)[|Tokens(w)| - 1]
    ensures v.Array? <==> w.Array?
    ensures v.Object? <==> w.Object?
    ensures !IsContainer(v) ==> v == w
  {
  }

  lemma {:induction false} ItemsUnique(a: seq<Token>, xs: seq<Json>, b: seq<Token>, ys: seq<Json>)
    requires a + [OPEN_PAREN] + ItemTokens(xs) == b + [OPEN_PAREN] + ItemTokens(ys)
    ensures a == b && xs == ys
    decreases xs, 0
  {
    if xs == [] || ys == [] {
      EmptyItems(a, xs, b, ys);
    } else {
      var xe, x := xs[..|xs| - 1], xs[|xs| - 1];
      var ye, y := ys[..|ys| - 1], ys[|ys| - 1];
      var before, before' := a + [OPEN_PAREN] + ItemTokens(xe), b + [OPEN_PAREN] + ItemTokens(ye);
      Assoc3(a + [OPEN_PAREN], ItemTokens(xe), Between(xe), Tokens(x));
      Assoc3(b + [OPEN_PAREN], ItemTokens(ye), Between(ye), Tokens(y));
      TokensUnique(before + Between(xe), x, before' + Between(ye), y);
      ItemsEnd(a, xe);
      ItemsEnd(b, ye);
      SplitEqual(before, Between(xe), before', Between(ye));
      ItemsUnique(a, xe, b, ye);
      assert xs == xe + [x] && ys == ye + [y];
    }
  }

  /** The token that stands before an item tells whether it is the first. */
  lemma ItemsEnd(a: seq<Token>, xs: seq<Json>)
    ensures var ts := a + [OPEN_PAREN] + ItemTokens(xs) + Between(xs);
      ts[|ts| - 1] == if xs == [] then OPEN_PAREN else COMMA_TOKEN
  {
  }

  lemma EmptyItems(a: seq<Token>, xs: seq<Json>, b: seq<Token>, ys: seq<Json>)
    requires a + [OPEN_PAREN] + ItemTokens(xs) == b + [OPEN_PAREN] + ItemTokens(ys)
    requires xs == [] || ys == []
    ensures a == b && xs == ys
  {
    ItemsLastToken(a + [OPEN_PAREN], xs);
    ItemsLastToken(b + [OPEN_PAREN], ys);
    LastOfSum(a, [OPEN_PAREN]);
    LastOfSum(b, [OPEN_PAREN]);
    assert ItemTokens([]) == [];
    assert a + [OPEN_PAREN] + [] == a + [OPEN_PAREN] && b + [OPEN_PAREN] + [] == b + [OPEN_PAREN];
    SplitEqual(a, [OPEN_PAREN], b, [OPEN_PAREN]);
  }

  lemma ItemsLastToken(a: seq<Token>, xs: seq<Json>)
    ensures xs != [] ==> a + ItemTokens(xs) != [] && (a + ItemTokens(xs))[|a + ItemTokens(xs)| - 1] != OPEN_PAREN
  {
    if xs != [] {
      var x := xs[|xs| - 1];
      LastToken(x);
      LastOfSum(a + ItemTokens(xs[..|xs| - 1]) + Between(xs[..|xs| - 1]), Tokens(x));
      Assoc3(a, ItemTokens(xs[..|xs| - 1]), Between(xs[..|xs| - 1]), Tokens(x));
    }
  }

  lemma {:induction false} MembersUnique(a: seq<Token>, xs: seq<Member>, b: seq<Token>, ys: seq<Member>)
    requires a + [OPEN_BRACE] + MemberTokens(xs) == b + [OPEN_BRACE] + MemberTokens(ys)
    ensures a == b && xs == ys
    decreases xs, 0
  {
    if xs == [] || ys == [] {
      EmptyMembers(a, xs, b, ys);
    } else {
      var xe, x := xs[..|xs| - 1], xs[|xs| - 1];
      var ye, y := ys[..|ys| - 1], ys[|ys| - 1];
      var before, before' := a + [OPEN_BRACE] + MemberTokens(xe), b + [OPEN_BRACE] + MemberTokens(ye);
      var name, name' := [StrToken(x.key), COLON_TOKEN], [StrToken(y.key), COLON_TOKEN];
      Assoc4(a + [OPEN_BRACE], MemberTokens(xe), Between(xe), name, Tokens(x.value));
      Assoc4(b + [OPEN_BRACE], MemberTokens(ye), Between(ye), name', Tokens(y.value));
      TokensUnique(before + Between(xe) + name, x.value, before' + Between(ye) + name', y.value);
      MembersEnd(a, xe);
      MembersEnd(b, ye);
      SplitEqual(before + Between(xe), name, before' + Between(ye), name');
      SplitEqual(before, Between(xe), before', Between(ye));
      MembersUnique(a, xe, b, ye);
      assert name[0] == name'[0];
      assert xs == xe + [x] && ys == ye + [y];
    }
  }

  lemma MembersEnd(a: seq<Token>, xs: seq<Member>)
    ensures var ts := a + [OPEN_BRACE] + MemberTokens(xs) + Between(xs);
      ts[|ts| - 1] == if xs == [] then OPEN_BRACE else COMMA_TOKEN
  {
  }

  lemma EmptyMembers(a: seq<Token>, xs: seq<Member>, b: seq<Token>, ys: seq<Member>)
    requires a + [OPEN_BRACE] + MemberTokens(xs) == b + [OPEN_BRACE] + MemberTokens(ys)
    requires xs == [] || ys == []
    ensures a == b && xs == ys
  {
    MembersLastToken(a + [OPEN_BRACE], xs);
    MembersLastToken(b + [OPEN_BRACE], ys);
    LastOfSum(a, [OPEN_BRACE]);
    LastOfSum(b, [OPEN_BRACE]);
    assert MemberTokens([]) == [];
    assert a + [OPEN_BRACE] + [] == a + [OPEN_BRACE] && b + [OPEN_BRACE] + [] == b + [OPEN_BRACE];
    SplitEqual(a, [OPEN_BRACE], b, [OPEN_BRACE]);
  }

  lemma MembersLastToken(a: seq<Token>, xs: seq<Member>)
    ensures xs != [] ==>
      a + MemberTokens(xs) != [] && (a + MemberTokens(xs))[|a + MemberTokens(xs)| - 1] != OPEN_BRACE
  {
    if xs != [] {
      var xe, x := xs[..|xs| - 1], xs[|xs| - 1];
      LastToken(x.value);
      var before := MemberTokens(xe) + Between(xe) + [StrToken(x.key), COLON_TOKEN];
      assert MemberTokens(xs) == before + Tokens(x.value);
      hide MemberTokens, Tokens, Between;
      LastOfSum(before, Tokens(x.value));
      LastOfSum(a, before + Tokens(x.value));
    }
  }

  lemma ReportedOnce(v: Json, gaps: seq<Text>, w: Json, gaps': seq<Text>)
    requires WellSpelled(v) && WellSpelled(w) && IsLayout(gaps, Tokens(v)) && IsLayout(gaps', Tokens(w))
    requires Reported(Tokens(v), gaps) == Reported(Tokens(w), gaps')
    ensures Tokens(v) == Tokens(w)
  {
    TokensLexable(v);
    TokensLexable(w);
    var n := |Tokens(v)|;
    forall i | 0 <= i < n
      ensures Tokens(v)[i] == Tokens(w)[i]
    {
      assert Reported(Tokens(v), gaps)[i] == Reported(Tokens(w), gaps')[i];
    }
  }

  lemma UniqueReading(s: Text, v: Json, w: Json)
    requires Denotes(s, v) && Denotes(s, w)
    ensures v == w
  {
    var gaps :| IsLayout(gaps, Tokens(v)) && s == Render(Tokens(v), gaps);
    var gaps' :| IsLayout(gaps', Tokens(w)) && s == Render(Tokens(w), gaps');
    TokensLexable(v);
    TokensLexable(w);
    LexWhole(Tokens(v), gaps);
    LexWhole(Tokens(w), gaps');
    ReportedOnce(v, gaps, w, gaps');
    assert [] + Tokens(v) == [] + Tokens(w);
    TokensUnique([], v, [], w);
  }

  // ----- parsing -----

  datatype Parsed = SyntaxError | Value(v: Json)

  /** `JSON.parse`: the one value a text denotes, or a syntax error. */
  ghost function JsonParse(s: Text): (r: Parsed)
    ensures r.Value? <==> exists v :: Denotes(s, v)
    ensures r.Value? ==> Denotes(s, r.v)
  {
    if v :| Denotes(s, v) then Value(v) else SyntaxError
  }

  ghost function PartialParse(input: Text): Parsed { JsonParse(Repaired(input)) }

  function NoGaps(n: nat): seq<Text> { seq(n, _ => []) }

  lemma {:induction false} GeneratedIsText(ts: seq<Token>)
    ensures IsLayout(NoGaps(|ts| + 1), ts)
    ensures Render(ts, NoGaps(|ts| + 1)) == Generated(ts)
  {
    if ts != [] {
      GeneratedIsText(ts[1..]);
      assert NoGaps(|ts| + 1)[1..] == NoGaps(|ts[1..]| + 1);
      assert [] + Spell(ts[0]) + Generated(ts[1..]) == Spell(ts[0]) + Generated(ts[1..]);
    }
  }

  lemma ParseGenerated(v: Json)
    requires WellSpelled(v)
    ensures JsonParse(Generated(Tokens(v))) == Value(v)
  {
    GeneratedIsText(Tokens(v));
    assert Denotes(Generated(Tokens(v)), v);
    UniqueReading(Generated(Tokens(v)), v, JsonParse(Generated(Tokens(v))).v);
  }

  lemma ParseNothing()
    ensures JsonParse([]) == SyntaxError
  {
    if JsonParse([]).Value? {
      var v := JsonParse([]).v;
      var gaps :| IsLayout(gaps, Tokens(v)) && [] == Render(Tokens(v), gaps);
      TokensLexable(v);
      RenderEmpty(Tokens(v), gaps);
    }
  }

  // ----- documents that are still arriving -----

  lemma ArrivedOpener(ts: seq<Token>, gaps: seq<Text>, n: nat)
    requires ts != [] && |gaps| == |ts| + 1 && |Spell(ts[0])| == 1 && ts[0].kind != Num
    ensures Arrived(ts, gaps, n) >= 1 <==> n > |gaps[0]|
  {
  }

  /** The exact view: the value of a prefix is what the tokens that have arrived for certain show. */
  lemma ViewOfPrefix(v: Json, gaps: seq<Text>, n: nat)
    requires WellSpelled(v) && IsContainer(v) && IsLayout(gaps, Tokens(v)) && n <= |Render(Tokens(v), gaps)|
    ensures PartialParse(Render(Tokens(v), gaps)[..n])
         == if n > |gaps[0]| then Value(Seen(v, Arrived(Tokens(v), gaps, n))) else SyntaxError
  {
    var ts := Tokens(v);
    var k := Arrived(ts, gaps, n);
    TokensLexable(v);
    ArrivedOpener(ts, gaps, n);
    if n > |gaps[0]| {
      var cut := LexPrefix(ts, gaps, n);
      RepairTokens(v, k, cut);
      SeenWellSpelled(v, k);
      ParseGenerated(Seen(v, k));
    } else {
      assert Render(ts, gaps)[..n] == gaps[0][..n];
      LexAllWs(gaps[0][..n]);
      ParseNothing();
    }
  }

  /** A layout's first gap ends where the first character that is not white space stands. */
  predicate HasBegun(s: Text) { exists i :: 0 <= i < |s| && !IsWs(s[i]) }

  lemma BegunAfterGap(v: Json, gaps: seq<Text>, n: nat)
    requires WellSpelled(v) && IsContainer(v) && IsLayout(gaps, Tokens(v)) && n <= |Render(Tokens(v), gaps)|
    ensures HasBegun(Render(Tokens(v), gaps)[..n]) <==> n > |gaps[0]|
  {
    var s := Render(Tokens(v), gaps);
    assert s[..|gaps[0]|] == gaps[0] && s[|gaps[0]|] == Spell(Tokens(v)[0])[0];
    if n > |gaps[0]| {
      assert !IsWs(s[..n][|gaps[0]|]);
    } else {
      assert s[..n] == gaps[0][..n];
    }
  }

  /**
   Every prefix of an object or array document that reaches its opening bracket parses, into a
   partial view of the document; a shorter prefix is a syntax error; the whole document is itself.
   */
  lemma PrefixIsPartialView(d: Text, v: Json, n: nat)
    requires Denotes(d, v) && IsContainer(v) && n <= |d|
    ensures PartialParse(d[..n]).Value? <==> HasBegun(d[..n])
    ensures HasBegun(d[..n]) ==> PartialOf(PartialParse(d[..n]).v, v)
  {
    var gaps :| IsLayout(gaps, Tokens(v)) && d == Render(Tokens(v), gaps);
    ViewOfPrefix(v, gaps, n);
    BegunAfterGap(v, gaps, n);
    if n > |gaps[0]| {
      var k := Arrived(Tokens(v), gaps, n);
      ArrivedOpener(Tokens(v), gaps, n);
      SeenGrows(v, k, |Tokens(v)|);
      SeenAll(v, |Tokens(v)|);
    }
  }

  /** What a prefix showed, every longer prefix shows too. */
  lemma NeverTakenBack(d: Text, v: Json, m: nat, n: nat)
    requires Denotes(d, v) && IsContainer(v) && m <= n <= |d| && HasBegun(d[..m])
    ensures PartialParse(d[..m]).Value? && PartialParse(d[..n]).Value?
    ensures PartialOf(PartialParse(d[..m]).v, PartialParse(d[..n]).v)
  {
    var gaps :| IsLayout(gaps, Tokens(v)) && d == Render(Tokens(v), gaps);
    ViewOfPrefix(v, gaps, m);
    ViewOfPrefix(v, gaps, n);
    BegunAfterGap(v, gaps, m);
    ArrivedOpener(Tokens(v), gaps, m);
    ArrivedGrows(Tokens(v), gaps, m, n);
    SeenGrows(v, Arrived(Tokens(v), gaps, m), Arrived(Tokens(v), gaps, n));
  }

  predicate EndsInWs(s: Text) { s != [] && IsWs(s[|s| - 1]) }

  /** A complete document parses to itself, except a bare number that nothing shows to be finished. */
  lemma WholeDocument(d: Text, v: Json)
    requires Denotes(d, v)
    ensures PartialParse(d) == Value(v) <==> !v.Number? || EndsInWs(d)
    ensures v.Number? && !EndsInWs(d) ==> PartialParse(d) == SyntaxError
  {
    var gaps :| IsLayout(gaps, Tokens(v)) && d == Render(Tokens(v), gaps);
    RepairedWhole(v, gaps);
    if !IsContainer(v) { ScalarEnd(v, gaps); }
    if v.Number? && gaps[1] == [] {
      ParseNothing();
    } else {
      ParseGenerated(v);
    }
  }

  /** So the document `1` is a syntax error. */
  lemma BareNumberUnread()
    ensures var d: Text := [0x31]; Denotes(d, Number(d)) && PartialParse(d) == SyntaxError
  {
    var d: Text := [0x31];
    var gaps: seq<Text> := [[], []];
    assert d[..0] == [] && NumRun(d[..0]) == Start;
    assert NumRun(d) == Whole;
    assert Tokens(Number(d)) == [NumToken(d)] && [NumToken(d)][1..] == [];
    assert gaps[1..] == [[]] && Render([], [[]]) == [];
    assert Render(Tokens(Number(d)), gaps) == [] + d + [] == d;
    assert IsLayout(gaps, Tokens(Number(d)));
    assert Denotes(d, Number(d));
    WholeDocument(d, Number(d));
  }

  lemma WhiteSpaceUnread(ws: Text)
    requires AllWs(ws)
    ensures PartialParse(ws) == SyntaxError && !HasBegun(ws)
  {
    LexAllWs(ws);
    ParseNothing();
  }

  lemma RepairedWhole(v: Json, gaps: seq<Text>)
    requires WellSpelled(v) && IsLayout(gaps, Tokens(v))
    ensures Repaired(Render(Tokens(v), gaps)) == if v.Number? && gaps[1] == [] then [] else Generated(Tokens(v))
  {
    TokensLexable(v);
    LexWhole(Tokens(v), gaps);
    if IsContainer(v) {
      WholeContainer(v);
    } else {
      WholeScalar(Tokens(v)[0], v.Number? && gaps[1] == []);
    }
  }

  lemma WholeContainer(v: Json)
    requires IsContainer(v) && WellSpelled(v)
    ensures Unstripped(Stripped(Tokens(v))) == Tokens(v)
  {
    assert Tokens(v)[..|Tokens(v)|] + [] == Tokens(v);
    RepairTokens(v, |Tokens(v)|, []);
    SeenAll(v, |Tokens(v)|);
  }

  /** A lone leaf is kept as it is, unless it is a number that may go on. */
  lemma WholeScalar(t: Token, cut: bool)
    requires TokenOk(t) && (t.kind == Str || IsWord(t)) && (cut ==> t.kind == Num)
    ensures Unstripped(Stripped([t.(unterminated := cut)])) == if cut then [] else [t]
  {
    var lexed := [t.(unterminated := cut)];
    StacksPlain([], lexed);
    assert lexed[..|lexed| - 1] == [];
    var left: seq<Token> := if cut then [] else [t];
    assert Trimmed(lexed, false) == left by {
      assert !cut ==> lexed == [t];
    }
    StacksPlain([], left);
    assert left + [] == left;
  }

  lemma ScalarEnd(v: Json, gaps: seq<Text>)
    requires WellSpelled(v) && !IsContainer(v) && IsLayout(gaps, Tokens(v))
    ensures EndsInWs(Render(Tokens(v), gaps)) <==> gaps[1] != []
  {
    var t, d := Tokens(v)[0], Render(Tokens(v), gaps);
    TokensLexable(v);
    assert Tokens(v)[1..] == [] && Render(Tokens(v)[1..], gaps[1..]) == gaps[1];
    assert d == gaps[0] + Spell(t) + gaps[1];
    WordEnd(t);
    if gaps[1] == [] {
      assert d == gaps[0] + Spell(t);
      LastOfSum(gaps[0], Spell(t));
    } else {
      LastOfSum(gaps[0] + Spell(t), gaps[1]);
    }
  }

  lemma WordEnd(t: Token)
    requires TokenOk(t)
    ensures Spell(t) != [] && !IsWs(Spell(t)[|Spell(t)| - 1])
  {
  }

  // ----- how much a prefix shows -----

  /** Once an array's first `m` items have arrived, with or without the comma after them, they are shown. */
  lemma {:induction false} ItemsShown(items: seq<Json>, m: nat)
    requires m <= |items|
    ensures |ItemTokens(items[..m])| <= |ItemTokens(items)|
    ensures SeenItems(items, |ItemTokens(items[..m])|) == items[..m]
    ensures m < |items| ==>
      |ItemTokens(items[..m]) + Between(items[..m])| <= |ItemTokens(items)|
      && SeenItems(items, |ItemTokens(items[..m]) + Between(items[..m])|) == items[..m]
    decreases |items|
  {
    if m == |items| {
      assert items[..m] == items;
      SeenAllItems(items, |ItemTokens(items)|);
    } else {
      var earlier := items[..|items| - 1];
      assert earlier[..m] == items[..m];
      ItemsShown(earlier, m);
    }
  }

  /** Once an object's first `m` members have arrived, with or without the comma after them, they are shown. */
  lemma {:induction false} MembersShown(members: seq<Member>, m: nat)
    requires m <= |members|
    ensures |MemberTokens(members[..m])| <= |MemberTokens(members)|
    ensures SeenMembers(members, |MemberTokens(members[..m])|) == members[..m]
    ensures m < |members| ==>
      |MemberTokens(members[..m]) + Between(members[..m])| <= |MemberTokens(members)|
      && SeenMembers(members, |MemberTokens(members[..m]) + Between(members[..m])|) == members[..m]
    decreases |members|
  {
    if m == |members| {
      assert members[..m] == members;
      SeenAllMembers(members, |MemberTokens(members)|);
    } else {
      var earlier := members[..|members| - 1];
      assert earlier[..m] == members[..m];
      MembersShown(earlier, m);
    }
  }
}
