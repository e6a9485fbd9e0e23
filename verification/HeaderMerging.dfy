/**
 Merging request headers from several sources: what the last source that mentions a header says
 about it wins, a null removes it, and one header accumulates instead.
 */
module HeaderMerging {
  import opened CodeUnits
  import opened Options

  /** Header names, in lower case. */
  type Name = string

  const HELPER: Name := "x-stainless-helper"

  predicate Accumulates(name: Name) { name == HELPER }

  // ----- the header that accumulates -----

  predicate IsSpace(c: CodeUnit) {
    || 0x09 <= c <= 0x0D || c == SPACE || c == 0xA0 || c == 0x1680 || 0x2000 <= c <= 0x200A
    || c == 0x2028 || c == 0x2029 || c == 0x202F || c == 0x205F || c == 0x3000 || c == BOM
  }

  function TrimStart(s: Text): Text {
    if s != [] && IsSpace(s[0]) then TrimStart(s[1..]) else s
  }

  function TrimEnd(s: Text): Text {
    if s != [] && IsSpace(s[|s| - 1]) then TrimEnd(s[..|s| - 1]) else s
  }

  function Trim(s: Text): Text { TrimEnd(TrimStart(s)) }

  function CommaAt(s: Text, i: nat): (n: nat)
    requires i <= |s|
    ensures i <= n <= |s|
    ensures n < |s| ==> s[n] == COMMA
    ensures forall k :: i <= k < n ==> s[k] != COMMA
    decreases |s| - i
  {
    if i == |s| || s[i] == COMMA then i else CommaAt(s, i + 1)
  }

  /** Split at commas, trimmed, empty pieces left out. */
  function Tokens(s: Text): seq<Text>
    decreases |s|
  {
    var n := CommaAt(s, 0);
    var first := Trim(s[..n]);
    (if first != [] then [first] else []) + (if n < |s| then Tokens(s[n + 1..]) else [])
  }

  function Joined(tokens: seq<Text>): Text {
    if tokens == [] then []
    else if |tokens| == 1 then tokens[0]
    else tokens[0] + [COMMA, SPACE] + Joined(tokens[1..])
  }

  /** The tokens of `more` that are not there yet, added in order. */
  function Added(tokens: seq<Text>, more: seq<Text>): seq<Text>
    decreases |more|
  {
    if more == [] then tokens
    else Added(if more[0] in tokens then tokens else tokens + [more[0]], more[1..])
  }

  function Appended(existing: Text, addition: Text): Text { Joined(Added(Tokens(existing), Tokens(addition))) }

  method AppendHeaderValue(existing: Text, addition: Text) returns (r: Text)
    ensures r == Appended(existing, addition)
  {
    var tokens := Tokens(existing);
    var more := Tokens(addition);
    hide Tokens;
    for i := 0 to |more|
      invariant Added(tokens, more[i..]) == Added(Tokens(existing), more)
    {
      assert more[i..][1..] == more[i + 1..];
      if more[i] !in tokens {
        tokens := tokens + [more[i]];
      }
    }
    r := Joined(tokens);
  }

  predicate IsToken(t: Text) {
    && t != [] && !IsSpace(t[0]) && !IsSpace(t[|t| - 1])
    && forall i :: 0 <= i < |t| ==> t[i] != COMMA
  }

  predicate AreTokens(ts: seq<Text>) { forall i :: 0 <= i < |ts| ==> IsToken(ts[i]) }

  lemma {:induction false} TrimStartIs(s: Text)
    ensures var t := TrimStart(s);
      (t != [] ==> !IsSpace(t[0])) && |t| <= |s| && t == s[|s| - |t|..]
  {
    hide IsSpace;
    if s != [] && IsSpace(s[0]) {
      TrimStartIs(s[1..]);
      var t := TrimStart(s);
      assert s[1..][|s| - 1 - |t|..] == s[|s| - |t|..];
    }
  }

  lemma {:induction false} TrimEndIs(s: Text)
    ensures var t := TrimEnd(s);
      (t != [] ==> !IsSpace(t[|t| - 1])) && |t| <= |s| && t == s[..|t|]
  {
    hide IsSpace;
    if s != [] && IsSpace(s[|s| - 1]) {
      TrimEndIs(s[..|s| - 1]);
      var t := TrimEnd(s);
      assert s[..|s| - 1][..|t|] == s[..|t|];
    }
  }

  /** A trimmed piece without a comma is a token, or empty. */
  lemma TrimmedToken(s: Text)
    requires forall i :: 0 <= i < |s| ==> s[i] != COMMA
    ensures Trim(s) == [] || IsToken(Trim(s))
  {
    TrimStartIs(s);
    TrimEndIs(TrimStart(s));
    hide TrimStart, TrimEnd, IsSpace;
    var t, u := TrimStart(s), Trim(s);
    assert forall i :: 0 <= i < |u| ==> u[i] == t[i];
  }

  lemma {:induction false} TokensAreTokens(s: Text)
    ensures AreTokens(Tokens(s))
    decreases |s|
  {
    hide Trim, IsToken;
    var n := CommaAt(s, 0);
    TrimmedToken(s[..n]);
    if n < |s| { TokensAreTokens(s[n + 1..]); }
  }

  lemma TrimToken(t: Text)
    requires IsToken(t)
    ensures Trim(t) == t && Trim([SPACE] + t) == t
  {
    assert ([SPACE] + t)[1..] == t;
  }

  lemma CommaIs(s: Text, n: nat)
    requires n <= |s| && (n < |s| ==> s[n] == COMMA) && forall k :: 0 <= k < n ==> s[k] != COMMA
    ensures CommaAt(s, 0) == n
  {
  }

  /** A token in front, with or without the space that joining leaves before it. */
  lemma TokensFirst(lead: Text, t: Text, rest: Text)
    requires IsToken(t) && (lead == [] || lead == [SPACE])
    ensures Tokens(lead + t) == [t]
    ensures Tokens(lead + t + [COMMA] + rest) == [t] + Tokens(rest)
  {
    TrimToken(t);
    assert [] + t == t;
    CommaIs(lead + t, |lead + t|);
    assert (lead + t)[..|lead + t|] == lead + t;
    var s := lead + t + [COMMA] + rest;
    CommaIs(s, |lead + t|);
    assert s[..|lead + t|] == lead + t && s[|lead + t| + 1..] == rest;
  }

  lemma JoinedNext(ts: seq<Text>)
    requires |ts| >= 2
    ensures Joined(ts) == ts[0] + [COMMA] + ([SPACE] + Joined(ts[1..]))
  {
  }

  lemma TokensNone(lead: Text)
    requires lead == [] || lead == [SPACE]
    ensures Tokens(lead) == []
  {
    CommaIs(lead, |lead|);
    assert lead[..|lead|] == lead;
    if lead == [SPACE] {
      assert lead[1..] == [];
      assert TrimStart(lead) == TrimStart([]);
    }
  }

  /** Splitting undoes joining. */
  lemma {:induction false} TokensJoined(lead: Text, ts: seq<Text>)
    requires AreTokens(ts) && (lead == [] || lead == [SPACE])
    ensures Tokens(lead + Joined(ts)) == ts
    decreases |ts|
  {
    hide Tokens, IsToken;
    if ts == [] {
      assert lead + [] == lead;
      TokensNone(lead);
    } else if |ts| == 1 {
      TokensFirst(lead, ts[0], []);
      assert ts == [ts[0]];
    } else {
      var t, rest := ts[0], ts[1..];
      TokensFirst(lead, t, [SPACE] + Joined(rest));
      JoinedNext(ts);
      hide Joined;
      TokensJoined([SPACE], rest);
      assert lead + (t + [COMMA] + ([SPACE] + Joined(rest))) == lead + t + [COMMA] + ([SPACE] + Joined(rest));
      assert ts == [t] + rest;
    }
  }

  lemma {:induction false} AddedHas(xs: seq<Text>, ys: seq<Text>)
    ensures forall t :: t in Added(xs, ys) <==> t in xs || t in ys
    decreases |ys|
  {
    if ys != [] {
      var next := if ys[0] in xs then xs else xs + [ys[0]];
      AddedHas(next, ys[1..]);
      assert ys == [ys[0]] + ys[1..];
    }
  }

  lemma {:induction false} AddedKeeps(tokens: seq<Text>, more: seq<Text>)
    requires AreTokens(tokens) && AreTokens(more)
    ensures AreTokens(Added(tokens, more)) && tokens <= Added(tokens, more)
    decreases |more|
  {
    hide IsToken;
    if more != [] {
      AddedKeeps(if more[0] in tokens then tokens else tokens + [more[0]], more[1..]);
    }
  }

  lemma {:induction false} AddedAgain(tokens: seq<Text>, more: seq<Text>)
    requires forall t :: t in more ==> t in tokens
    ensures Added(tokens, more) == tokens
    decreases |more|
  {
    if more != [] {
      assert more[0] in tokens;
      AddedAgain(tokens, more[1..]);
    }
  }

  /** The tokens there were come first, each new one once, none is lost; and appending again changes nothing. */
  lemma AppendedTokens(existing: Text, addition: Text)
    ensures Tokens(Appended(existing, addition)) == Added(Tokens(existing), Tokens(addition))
    ensures Tokens(existing) <= Tokens(Appended(existing, addition))
    ensures forall t :: t in Tokens(Appended(existing, addition)) <==> t in Tokens(existing) || t in Tokens(addition)
    ensures Appended(Appended(existing, addition), addition) == Appended(existing, addition)
  {
    TokensAreTokens(existing);
    TokensAreTokens(addition);
    var all := Added(Tokens(existing), Tokens(addition));
    AddedKeeps(Tokens(existing), Tokens(addition));
    AddedHas(Tokens(existing), Tokens(addition));
    TokensJoined([], all);
    assert [] + Joined(all) == Joined(all);
    AddedAgain(all, Tokens(addition));
  }

  // ----- sources -----

  /** A value of a row: undefined, null or text. */
  datatype Given = Undefined | Null | Value(text: Text)

  datatype Row = Row(name: Name, values: seq<Given>)

  datatype Entry = Entry(name: Name, text: Text)

  /**
   A source: absent, the result of an earlier merge or a headers object as the entries it iterates
   over, an array of rows, or an object by its keys, whose values always overwrite.
   */
  datatype Source =
    | Nothing
    | Merged(values: seq<Entry>, nulls: seq<Name>)
    | Plain(entries: seq<Entry>)
    | Rows(rows: seq<Row>)
    | Keys(rows: seq<Row>)

  datatype Item = Clear(name: Name) | Remove(name: Name) | Set(name: Name, text: Text)

  function EntryItems(entries: seq<Entry>): seq<Item> {
    if entries == [] then []
    else EntryItems(entries[..|entries| - 1]) + [Set(entries[|entries| - 1].name, entries[|entries| - 1].text)]
  }

  function NullItems(names: seq<Name>): seq<Item> {
    if names == [] then [] else NullItems(names[..|names| - 1]) + [Remove(names[|names| - 1])]
  }

  /** The values of a row that are given; where the source clears, the first of them is announced. */
  function ValueItems(name: Name, values: seq<Given>): seq<Item> {
    if values == [] then []
    else
      var last := values[|values| - 1];
      ValueItems(name, values[..|values| - 1])
      + (match last case Undefined => [] case Null => [Remove(name)] case Value(text) => [Set(name, text)])
  }

  function RowItems(row: Row, clears: bool): seq<Item> {
    var items := ValueItems(row.name, row.values);
    if clears && items != [] then [Clear(row.name)] + items else items
  }

  function RowsItems(rows: seq<Row>, clears: bool): seq<Item> {
    if rows == [] then [] else RowsItems(rows[..|rows| - 1], clears) + RowItems(rows[|rows| - 1], clears)
  }

  function Items(source: Source): seq<Item> {
    match source
    case Nothing => []
    case Merged(values, nulls) => EntryItems(values) + NullItems(nulls)
    case Plain(entries) => EntryItems(entries)
    case Rows(rows) => RowsItems(rows, false)
    case Keys(rows) => RowsItems(rows, true)
  }

  // ----- merging -----

  datatype Headers = Headers(values: map<Name, Text>, nulls: set<Name>)

  function Deleted(h: Headers, name: Name): Headers { h.(values := h.values - {name}) }

  function AppendedTo(h: Headers, name: Name, text: Text): Headers {
    h.(values := h.values[name := if name in h.values then h.values[name] + [COMMA, SPACE] + text else text],
       nulls := h.nulls - {name})
  }

  function Removed(h: Headers, name: Name): Headers { Headers(h.values - {name}, h.nulls + {name}) }

  datatype Merging = Merging(headers: Headers, seen: set<Name>)

  function Take(m: Merging, item: Item): Merging {
    var name := item.name;
    if Accumulates(name) then
      match item
      case Clear(_) => m
      case Remove(_) => m.(headers := Removed(m.headers, name))
      case Set(_, text) =>
        var existing := if name in m.headers.values then m.headers.values[name] else [];
        m.(headers := Headers(m.headers.values[name := Appended(existing, text)], m.headers.nulls - {name}))
    else
      var ready := if item.Clear? || name !in m.seen then Merging(Deleted(m.headers, name), m.seen + {name}) else m;
      match item
      case Clear(_) => ready
      case Remove(_) => ready.(headers := Removed(ready.headers, name))
      case Set(_, text) => ready.(headers := AppendedTo(ready.headers, name, text))
  }

  function TakeAll(m: Merging, items: seq<Item>): Merging {
    if items == [] then m else Take(TakeAll(m, items[..|items| - 1]), items[|items| - 1])
  }

  function Built(sources: seq<Source>): Headers {
    if sources == [] then Headers(map[], {})
    else TakeAll(Merging(Built(sources[..|sources| - 1]), {}), Items(sources[|sources| - 1])).headers
  }

  class HeaderBuilder {
    var values: map<Name, Text>
    var nulls: set<Name>

    constructor ()
      ensures View() == Headers(map[], {})
    {
      values, nulls := map[], {};
    }

    function View(): Headers
      reads this
    {
      Headers(values, nulls)
    }

    /** One item of a source that has mentioned the headers in `seen` so far. */
    method AddItem(item: Item, seen: set<Name>) returns (seen': set<Name>)
      modifies this
      ensures Merging(View(), seen') == Take(Merging(old(View()), seen), item)
    {
      hide Appended;
      var name := item.name;
      seen' := seen;
      if Accumulates(name) {
        match item {
          case Clear(_) =>
          case Remove(_) =>
            values, nulls := values - {name}, nulls + {name};
          case Set(_, text) =>
            var appended := AppendHeaderValue(if name in values then values[name] else [], text);
            values, nulls := values[name := appended], nulls - {name};
        }
        return;
      }
      if item.Clear? || name !in seen {
        values, seen' := values - {name}, seen + {name};
        if item.Clear? {
          return;
        }
      }
      if item.Remove? {
        values, nulls := values - {name}, nulls + {name};
      } else {
        var text := if name in values then values[name] + [COMMA, SPACE] + item.text else item.text;
        values, nulls := values[name := text], nulls - {name};
      }
    }

    /** One source: the first mention of an ordinary header in it drops what earlier sources said. */
    method AddSource(source: Source)
      modifies this
      ensures View() == TakeAll(Merging(old(View()), {}), Items(source)).headers
    {
      hide Take, Items;
      var items := Items(source);
      var seen: set<Name> := {};
      for i := 0 to |items|
        invariant Merging(View(), seen) == TakeAll(Merging(old(View()), {}), items[..i])
      {
        assert items[..i + 1][..i] == items[..i];
        seen := AddItem(items[i], seen);
      }
      assert items[..|items|] == items;
    }

    method Build(sources: seq<Source>)
      requires View() == Headers(map[], {})
      modifies this
      ensures View() == Built(sources)
    {
      for i := 0 to |sources|
        invariant View() == Built(sources[..i])
      {
        assert sources[..i + 1][..i] == sources[..i];
        AddSource(sources[i]);
      }
      assert sources[..|sources|] == sources;
    }
  }

  // ----- what becomes of one header -----

  datatype Slot = Absent | Held(text: Text) | Nulled

  predicate Disjoint(h: Headers) { forall n :: n in h.values ==> n !in h.nulls }

  function SlotOf(h: Headers, name: Name): Slot {
    if name in h.values then Held(h.values[name]) else if name in h.nulls then Nulled else Absent
  }

  lemma {:induction false} TakeAllDisjoint(m: Merging, items: seq<Item>)
    requires Disjoint(m.headers)
    ensures Disjoint(TakeAll(m, items).headers)
  {
    if items != [] { TakeAllDisjoint(m, items[..|items| - 1]); }
  }

  /** No header is both held and removed. */
  lemma {:induction false} BuiltDisjoint(sources: seq<Source>)
    ensures Disjoint(Built(sources))
  {
    if sources != [] {
      BuiltDisjoint(sources[..|sources| - 1]);
      TakeAllDisjoint(Merging(Built(sources[..|sources| - 1]), {}), Items(sources[|sources| - 1]));
    }
  }

  predicate Mentions(items: seq<Item>, name: Name) {
    items != [] && (items[|items| - 1].name == name || Mentions(items[..|items| - 1], name))
  }

  /** What some items say about a header by themselves. */
  function Said(items: seq<Item>, name: Name): Slot {
    if items == [] then Absent
    else
      var before, last := Said(items[..|items| - 1], name), items[|items| - 1];
      if last.name != name then before
      else
        match last
        case Clear(_) => if before.Held? then Absent else before
        case Remove(_) => Nulled
        case Set(_, text) => Held(if before.Held? then before.text + [COMMA, SPACE] + text else text)
  }

  /** A clearing is always followed by what it makes room for. */
  predicate Announced(items: seq<Item>) {
    forall i :: 0 <= i < |items| && items[i].Clear? ==>
      i + 1 < |items| && items[i + 1].name == items[i].name && !items[i + 1].Clear?
  }

  lemma {:induction false} EntriesSaid(entries: seq<Entry>)
    ensures forall i :: 0 <= i < |EntryItems(entries)| ==> EntryItems(entries)[i].Set?
  {
    if entries != [] { EntriesSaid(entries[..|entries| - 1]); }
  }

  lemma {:induction false} NullsSaid(names: seq<Name>)
    ensures forall i :: 0 <= i < |NullItems(names)| ==> NullItems(names)[i].Remove?
  {
    if names != [] { NullsSaid(names[..|names| - 1]); }
  }

  lemma {:induction false} ValuesSaid(name: Name, values: seq<Given>)
    ensures forall i :: 0 <= i < |ValueItems(name, values)| ==>
      ValueItems(name, values)[i].name == name && !ValueItems(name, values)[i].Clear?
  {
    if values != [] { ValuesSaid(name, values[..|values| - 1]); }
  }

  lemma {:induction false} RowsAnnounced(rows: seq<Row>, clears: bool)
    ensures Announced(RowsItems(rows, clears))
  {
    if rows != [] {
      RowsAnnounced(rows[..|rows| - 1], clears);
      ValuesSaid(rows[|rows| - 1].name, rows[|rows| - 1].values);
    }
  }

  lemma ItemsAnnounced(source: Source)
    ensures Announced(Items(source))
  {
    match source
    case Merged(values, nulls) => EntriesSaid(values); NullsSaid(nulls);
    case Plain(entries) => EntriesSaid(entries);
    case Rows(rows) => RowsAnnounced(rows, false);
    case Keys(rows) => RowsAnnounced(rows, true);
    case _ =>
  }

  /** The last item about the header is a clearing. */
  predicate Cleared(items: seq<Item>, name: Name) {
    items != []
    && if items[|items| - 1].name == name then items[|items| - 1].Clear? else Cleared(items[..|items| - 1], name)
  }

  lemma {:induction false} NotCleared(items: seq<Item>, name: Name)
    requires Announced(items)
    ensures !Cleared(items, name)
  {
    if items != [] && items[|items| - 1].name != name {
      NotClearedBefore(items, name, |items| - 1);
    }
  }

  lemma {:induction false} NotClearedBefore(items: seq<Item>, name: Name, n: nat)
    requires Announced(items) && n < |items| && items[n].name != name
    ensures !Cleared(items[..n], name)
  {
    if n > 0 {
      assert items[..n][..n - 1] == items[..n - 1];
      if items[n - 1].name != name { NotClearedBefore(items, name, n - 1); }
    }
  }

  /** Where merging stands with an ordinary header: as before, or as the source's items say by themselves. */
  predicate Stands(m: Merging, start: Headers, items: seq<Item>, name: Name) {
    && (name in m.seen <==> Mentions(items, name))
    && var now, said := SlotOf(m.headers, name), Said(items, name);
       if Mentions(items, name) then now == said || (Cleared(items, name) && !now.Held? && !said.Held?)
       else now == SlotOf(start, name)
  }

  lemma TakeStands(m: Merging, start: Headers, items: seq<Item>, item: Item, name: Name)
    requires Stands(m, start, items, name) && Disjoint(m.headers) && !Accumulates(name)
    ensures Stands(Take(m, item), start, items + [item], name)
  {
    assert (items + [item])[..|items|] == items;
    if !Mentions(items, name) { SaidNothing(items, name); }
  }

  lemma {:induction false} SaidNothing(items: seq<Item>, name: Name)
    requires !Mentions(items, name)
    ensures Said(items, name) == Absent && !Cleared(items, name)
  {
    if items != [] { SaidNothing(items[..|items| - 1], name); }
  }

  lemma {:induction false} TakeAllStands(start: Headers, items: seq<Item>, name: Name)
    requires Disjoint(start) && !Accumulates(name)
    ensures Stands(TakeAll(Merging(start, {}), items), start, items, name)
  {
    if items != [] {
      var earlier := items[..|items| - 1];
      TakeAllStands(start, earlier, name);
      TakeAllDisjoint(Merging(start, {}), earlier);
      TakeStands(TakeAll(Merging(start, {}), earlier), start, earlier, items[|items| - 1], name);
      assert earlier + [items[|items| - 1]] == items;
    }
  }

  /** What the last source that mentions a header says about it. */
  function LastSaid(sources: seq<Source>, name: Name): Slot {
    if sources == [] then Absent
    else
      var items := Items(sources[|sources| - 1]);
      if Mentions(items, name) then Said(items, name) else LastSaid(sources[..|sources| - 1], name)
  }

  /** An ordinary header is what the last source that mentions it says by itself. */
  lemma {:induction false} LastSourceWins(sources: seq<Source>, name: Name)
    requires !Accumulates(name)
    ensures SlotOf(Built(sources), name) == LastSaid(sources, name)
  {
    if sources != [] {
      var earlier, last := sources[..|sources| - 1], sources[|sources| - 1];
      LastSourceWins(earlier, name);
      BuiltDisjoint(earlier);
      TakeAllStands(Built(earlier), Items(last), name);
      ItemsAnnounced(last);
      NotCleared(Items(last), name);
    }
  }

  // ----- merging in steps -----

  function Lookup(entries: seq<Entry>, name: Name): Option<Text> {
    if entries == [] then None
    else if entries[|entries| - 1].name == name then Some(entries[|entries| - 1].text)
    else Lookup(entries[..|entries| - 1], name)
  }

  /** No two entries for one header. */
  predicate Distinct(entries: seq<Entry>) {
    entries != [] ==>
      Distinct(entries[..|entries| - 1]) && Lookup(entries[..|entries| - 1], entries[|entries| - 1].name) == None
  }

  /** `source` holds just what was merged, in whatever order it iterates. */
  ghost predicate Lists(source: Source, h: Headers) {
    && source.Merged? && Distinct(source.values)
    && (forall n :: Lookup(source.values, n) == if n in h.values then Some(h.values[n]) else None)
    && (forall n :: n in source.nulls <==> n in h.nulls)
  }

  lemma {:induction false} EntriesSay(entries: seq<Entry>, name: Name)
    requires Distinct(entries)
    ensures match Lookup(entries, name)
      case None => !Mentions(EntryItems(entries), name)
      case Some(text) => Mentions(EntryItems(entries), name) && Said(EntryItems(entries), name) == Held(text)
  {
    if entries != [] {
      var earlier := entries[..|entries| - 1];
      EntriesSay(earlier, name);
      var items := EntryItems(entries);
      assert items[..|items| - 1] == EntryItems(earlier);
      if entries[|entries| - 1].name == name { SaidNothing(EntryItems(earlier), name); }
    }
  }

  lemma {:induction false} NullsSay(items: seq<Item>, names: seq<Name>, name: Name)
    ensures name in names ==> Mentions(items + NullItems(names), name) && Said(items + NullItems(names), name) == Nulled
    ensures name !in names ==>
      (Mentions(items + NullItems(names), name) <==> Mentions(items, name))
      && Said(items + NullItems(names), name) == Said(items, name)
  {
    if names == [] {
      assert items + NullItems(names) == items;
    } else {
      var earlier, all := names[..|names| - 1], items + NullItems(names);
      NullsSay(items, earlier, name);
      assert all[..|all| - 1] == items + NullItems(earlier);
      assert names == earlier + [names[|names| - 1]];
    }
  }

  /** The result of a merge, used as a source, says about every header just what it holds. */
  lemma ListsSays(source: Source, h: Headers, name: Name)
    requires Lists(source, h) && Disjoint(h)
    ensures Mentions(Items(source), name) <==> SlotOf(h, name) != Absent
    ensures SlotOf(h, name) != Absent ==> Said(Items(source), name) == SlotOf(h, name)
  {
    EntriesSay(source.values, name);
    NullsSay(EntryItems(source.values), source.nulls, name);
    assert Lookup(source.values, name) == if name in h.values then Some(h.values[name]) else None;
    if name !in h.values { SaidNothing(EntryItems(source.values), name); }
  }

  predicate AnyMentions(sources: seq<Source>, name: Name) {
    sources != []
    && (Mentions(Items(sources[|sources| - 1]), name) || AnyMentions(sources[..|sources| - 1], name))
  }

  lemma {:induction false} LastSaidAppend(a: seq<Source>, b: seq<Source>, name: Name)
    ensures LastSaid(a + b, name) == if AnyMentions(b, name) then LastSaid(b, name) else LastSaid(a, name)
  {
    hide Items, Mentions, Said;
    if b == [] {
      assert a + b == a;
    } else {
      assert (a + b)[..|a + b| - 1] == a + b[..|b| - 1];
      LastSaidAppend(a, b[..|b| - 1], name);
    }
  }

  lemma {:induction false} MentionedHasSlot(sources: seq<Source>, name: Name)
    ensures LastSaid(sources, name) != Absent <==> AnyMentions(sources, name)
  {
    if sources != [] {
      var last := Items(sources[|sources| - 1]);
      MentionedHasSlot(sources[..|sources| - 1], name);
      ItemsAnnounced(sources[|sources| - 1]);
      NotCleared(last, name);
      SaidSomething(last, name);
    }
  }

  lemma {:induction false} SaidSomething(items: seq<Item>, name: Name)
    ensures Mentions(items, name) && !Cleared(items, name) ==> Said(items, name) != Absent
  {
    if items != [] { SaidSomething(items[..|items| - 1], name); }
  }

  /** Merging in steps: for every ordinary header it makes no difference whether some sources are merged first. */
  lemma MergeInSteps(xs: seq<Source>, ys: seq<Source>, inner: Source, name: Name)
    requires !Accumulates(name) && Lists(inner, Built(ys))
    ensures SlotOf(Built(xs + [inner]), name) == SlotOf(Built(xs + ys), name)
  {
    LastSourceWins(xs + [inner], name);
    LastSourceWins(xs + ys, name);
    LastSourceWins(ys, name);
    BuiltDisjoint(ys);
    ListsSays(inner, Built(ys), name);
    LastSaidAppend(xs, ys, name);
    MentionedHasSlot(ys, name);
    assert (xs + [inner])[..|xs|] == xs;
  }

  // ----- the header that accumulates, over all sources -----

  function HelperOf(h: Headers): Option<Text> { if HELPER in h.values then Some(h.values[HELPER]) else None }

  /** The tokens held after some items; none held is not the same as holding none. */
  function Tally(tokens: Option<seq<Text>>, items: seq<Item>): Option<seq<Text>> {
    if items == [] then tokens
    else
      var before, last := Tally(tokens, items[..|items| - 1]), items[|items| - 1];
      if last.name != HELPER then before
      else
        match last
        case Clear(_) => before
        case Remove(_) => None
        case Set(_, text) => Some(Added(Or(before, []), Tokens(text)))
  }

  function TallyAll(tokens: Option<seq<Text>>, sources: seq<Source>): Option<seq<Text>> {
    if sources == [] then tokens
    else Tally(TallyAll(tokens, sources[..|sources| - 1]), Items(sources[|sources| - 1]))
  }

  /** The header's text is its tokens, joined. */
  predicate Holds(h: Headers, tokens: Option<seq<Text>>) {
    match tokens
    case None => HelperOf(h) == None
    case Some(ts) => AreTokens(ts) && HelperOf(h) == Some(Joined(ts))
  }

  lemma TakeHolds(m: Merging, item: Item, tokens: Option<seq<Text>>)
    requires Holds(m.headers, tokens)
    ensures Holds(Take(m, item).headers, Tally(tokens, [item]))
  {
    assert [item][..0] == [];
    assert Tally(tokens, []) == tokens;
    if item.name == HELPER && item.Set? {
      var ts := Or(tokens, []);
      TokensJoined([], ts);
      assert [] + Joined(ts) == Joined(ts);
      TokensAreTokens(item.text);
      AddedKeeps(ts, Tokens(item.text));
    }
  }

  lemma {:induction false} TallyAppend(tokens: Option<seq<Text>>, items: seq<Item>, item: Item)
    ensures Tally(tokens, items + [item]) == Tally(Tally(tokens, items), [item])
  {
    assert (items + [item])[..|items|] == items && [item][..0] == [];
    assert Tally(Tally(tokens, items), []) == Tally(tokens, items);
  }

  lemma {:induction false} TakeAllHolds(m: Merging, items: seq<Item>, tokens: Option<seq<Text>>)
    requires Holds(m.headers, tokens)
    ensures Holds(TakeAll(m, items).headers, Tally(tokens, items))
  {
    hide Holds, Take;
    if items != [] {
      var earlier, last := items[..|items| - 1], items[|items| - 1];
      TakeAllHolds(m, earlier, tokens);
      TakeHolds(TakeAll(m, earlier), last, Tally(tokens, earlier));
      TallyAppend(tokens, earlier, last);
      assert earlier + [last] == items;
    }
  }

  /** Over all sources the header is the tokens given, in order of first mention, each once, since its last removal. */
  lemma {:induction false} HelperAccumulates(sources: seq<Source>)
    ensures Holds(Built(sources), TallyAll(None, sources))
  {
    if sources != [] {
      HelperAccumulates(sources[..|sources| - 1]);
      TakeAllHolds(Merging(Built(sources[..|sources| - 1]), {}), Items(sources[|sources| - 1]),
                   TallyAll(None, sources[..|sources| - 1]));
    }
  }

  predicate Removes(items: seq<Item>) {
    exists i :: 0 <= i < |items| && items[i] == Remove(HELPER)
  }

  lemma {:induction false} AddedTwice(xs: seq<Text>, ys: seq<Text>, zs: seq<Text>)
    ensures Added(xs, Added(ys, zs)) == Added(Added(xs, ys), zs)
    decreases |zs|
  {
    if zs != [] {
      var z := zs[0];
      var next := if z in ys then ys else ys + [z];
      AddedTwice(xs, next, zs[1..]);
      AddedLast(xs, ys, z);
    }
  }

  lemma {:induction false} AddedLast(xs: seq<Text>, ys: seq<Text>, z: Text)
    ensures var all := Added(xs, ys);
      Added(xs, if z in ys then ys else ys + [z]) == if z in all then all else all + [z]
    decreases |ys|
  {
    AddedHas(xs, ys);
    if z !in ys {
      if ys == [] {
        assert [z][1..] == [];
      } else {
        var next := if ys[0] in xs then xs else xs + [ys[0]];
        assert (ys + [z])[1..] == ys[1..] + [z];
        AddedLast(next, ys[1..], z);
      }
    }
  }

  /** Without a removal, tallying goes on from what was held as adding what it comes to by itself. */
  lemma {:induction false} TallyShift(tokens: Option<seq<Text>>, items: seq<Item>)
    requires !Removes(items)
    ensures var alone, held := Tally(None, items), Tally(tokens, items);
      held == if alone.None? then tokens else Some(Added(Or(tokens, []), alone.value))
  {
    if items != [] {
      var earlier, last := items[..|items| - 1], items[|items| - 1];
      assert forall i :: 0 <= i < |earlier| ==> earlier[i] == items[i];
      assert items[|items| - 1] == last;
      TallyShift(tokens, earlier);
      if last.name == HELPER && last.Set? {
        AddedTwice(Or(tokens, []), Or(Tally(None, earlier), []), Tokens(last.text));
        assert Added(Or(tokens, []), []) == Or(tokens, []);
      }
    }
  }

  predicate AnyRemoves(sources: seq<Source>) {
    exists i :: 0 <= i < |sources| && Removes(Items(sources[i]))
  }

  lemma {:induction false} TallyAllShift(tokens: Option<seq<Text>>, sources: seq<Source>)
    requires !AnyRemoves(sources)
    ensures var alone, held := TallyAll(None, sources), TallyAll(tokens, sources);
      held == if alone.None? then tokens else Some(Added(Or(tokens, []), alone.value))
  {
    if sources != [] {
      var earlier, last := sources[..|sources| - 1], Items(sources[|sources| - 1]);
      assert forall i :: 0 <= i < |earlier| ==> earlier[i] == sources[i];
      assert !Removes(last);
      TallyAllShift(tokens, earlier);
      TallyShift(TallyAll(tokens, earlier), last);
      TallyShift(TallyAll(None, earlier), last);
      var own := Tally(None, last);
      if own.Some? {
        AddedTwice(Or(tokens, []), Or(TallyAll(None, earlier), []), own.value);
        assert Added(Or(tokens, []), []) == Or(tokens, []);
      }
    }
  }

  lemma {:induction false} TallyAllAppend(tokens: Option<seq<Text>>, a: seq<Source>, b: seq<Source>)
    ensures TallyAll(tokens, a + b) == TallyAll(TallyAll(tokens, a), b)
  {
    if b == [] {
      assert a + b == a;
    } else {
      assert (a + b)[..|a + b| - 1] == a + b[..|b| - 1];
      TallyAllAppend(tokens, a, b[..|b| - 1]);
    }
  }

  lemma {:induction false} EntriesTally(tokens: Option<seq<Text>>, entries: seq<Entry>)
    requires Distinct(entries)
    ensures Tally(tokens, EntryItems(entries)) ==
      match Lookup(entries, HELPER)
      case None => tokens
      case Some(text) => Some(Added(Or(tokens, []), Tokens(text)))
  {
    hide Tokens, Added;
    if entries != [] {
      var earlier := entries[..|entries| - 1];
      EntriesTally(tokens, earlier);
      var items := EntryItems(entries);
      assert items[..|items| - 1] == EntryItems(earlier);
    }
  }

  lemma {:induction false} NullsTally(tokens: Option<seq<Text>>, items: seq<Item>, names: seq<Name>)
    requires HELPER !in names
    ensures Tally(tokens, items + NullItems(names)) == Tally(tokens, items)
  {
    if names == [] {
      assert items + NullItems(names) == items;
    } else {
      var all := items + NullItems(names);
      NullsTally(tokens, items, names[..|names| - 1]);
      assert all[..|all| - 1] == items + NullItems(names[..|names| - 1]);
      assert names[|names| - 1] in names;
    }
  }

  /** The result of a merge says the tokens it holds. */
  lemma ListsTally(source: Source, h: Headers, own: Option<seq<Text>>, tokens: Option<seq<Text>>)
    requires Lists(source, h) && Holds(h, own) && HELPER !in h.nulls
    ensures Tally(tokens, Items(source)) == if own.None? then tokens else Some(Added(Or(tokens, []), own.value))
  {
    NullsTally(tokens, EntryItems(source.values), source.nulls);
    EntriesTally(tokens, source.values);
    if own.Some? {
      TokensJoined([], own.value);
      assert [] + Joined(own.value) == Joined(own.value);
    }
    assert Lookup(source.values, HELPER) == HelperOf(h);
  }

  // ----- the exact condition -----

  lemma RemovesNext(items: seq<Item>, item: Item)
    ensures Removes(items + [item]) <==> Removes(items) || item == Remove(HELPER)
  {
    var all := items + [item];
    assert all[|items|] == item && forall i :: 0 <= i < |items| ==> all[i] == items[i];
    if Removes(items) {
      var i :| 0 <= i < |items| && items[i] == Remove(HELPER);
      assert all[i] == Remove(HELPER);
    }
  }

  lemma AnyRemovesNext(sources: seq<Source>, source: Source)
    ensures AnyRemoves(sources + [source]) <==> AnyRemoves(sources) || Removes(Items(source))
  {
    hide Removes;
    var all := sources + [source];
    assert all[|sources|] == source && forall i :: 0 <= i < |sources| ==> all[i] == sources[i];
    if AnyRemoves(sources) {
      var i :| 0 <= i < |sources| && Removes(Items(sources[i]));
      assert Removes(Items(all[i]));
    }
  }

  /** A tally in which something is removed forgets where it started. */
  lemma {:induction false} TallyForgets(tokens: Option<seq<Text>>, items: seq<Item>)
    requires Removes(items)
    ensures Tally(tokens, items) == Tally(None, items)
  {
    var earlier, last := items[..|items| - 1], items[|items| - 1];
    assert items == earlier + [last];
    RemovesNext(earlier, last);
    if last != Remove(HELPER) { TallyForgets(tokens, earlier); }
  }

  lemma {:induction false} TallyAllForgets(tokens: Option<seq<Text>>, sources: seq<Source>)
    requires AnyRemoves(sources)
    ensures TallyAll(tokens, sources) == TallyAll(None, sources)
  {
    var earlier, last := sources[..|sources| - 1], sources[|sources| - 1];
    assert sources == earlier + [last];
    AnyRemovesNext(earlier, last);
    hide Tally, Removes, AnyRemoves;
    if Removes(Items(last)) {
      TallyForgets(TallyAll(tokens, earlier), Items(last));
      TallyForgets(TallyAll(None, earlier), Items(last));
    } else {
      TallyAllForgets(tokens, earlier);
    }
  }

  /** The header is nulled when it is not held and has been removed. */
  predicate NulledAsSaid(h: Headers, tokens: Option<seq<Text>>, removed: bool) {
    HELPER in h.nulls <==> tokens.None? && removed
  }

  lemma TakeNulled(m: Merging, item: Item, tokens: Option<seq<Text>>, removed: bool)
    requires NulledAsSaid(m.headers, tokens, removed)
    ensures NulledAsSaid(Take(m, item).headers, Tally(tokens, [item]), removed || item == Remove(HELPER))
  {
    assert [item][..0] == [];
    assert Tally(tokens, []) == tokens;
    hide Appended, Tokens, Added;
  }

  lemma {:induction false} TakeAllNulled(m: Merging, items: seq<Item>, tokens: Option<seq<Text>>, removed: bool)
    requires NulledAsSaid(m.headers, tokens, removed)
    ensures NulledAsSaid(TakeAll(m, items).headers, Tally(tokens, items), removed || Removes(items))
  {
    hide Take, NulledAsSaid;
    if items != [] {
      var earlier, last := items[..|items| - 1], items[|items| - 1];
      assert earlier + [last] == items;
      TakeAllNulled(m, earlier, tokens, removed);
      TakeNulled(TakeAll(m, earlier), last, Tally(tokens, earlier), removed || Removes(earlier));
      TallyAppend(tokens, earlier, last);
      RemovesNext(earlier, last);
    }
  }

  lemma {:induction false} BuiltNulled(sources: seq<Source>)
    ensures NulledAsSaid(Built(sources), TallyAll(None, sources), AnyRemoves(sources))
  {
    if sources != [] {
      var earlier, last := sources[..|sources| - 1], sources[|sources| - 1];
      assert earlier + [last] == sources;
      BuiltNulled(earlier);
      AnyRemovesNext(earlier, last);
      hide NulledAsSaid, AnyRemoves, Removes;
      TakeAllNulled(Merging(Built(earlier), {}), Items(last), TallyAll(None, earlier), AnyRemoves(earlier));
    }
  }

  lemma {:induction false} NullsTallyNone(tokens: Option<seq<Text>>, items: seq<Item>, names: seq<Name>)
    requires HELPER in names
    ensures Tally(tokens, items + NullItems(names)) == None
  {
    var all, earlier := items + NullItems(names), names[..|names| - 1];
    assert all[..|all| - 1] == items + NullItems(earlier);
    assert names == earlier + [names[|names| - 1]];
    if names[|names| - 1] != HELPER { NullsTallyNone(tokens, items, earlier); }
  }

  /** What the result of a merge says, as a source: its tokens, or a removal, or nothing. */
  lemma ListsTallies(source: Source, h: Headers, own: Option<seq<Text>>, removed: bool, tokens: Option<seq<Text>>)
    requires Lists(source, h) && Holds(h, own) && NulledAsSaid(h, own, removed)
    ensures Tally(tokens, Items(source)) ==
      if own.Some? then Some(Added(Or(tokens, []), own.value)) else if removed then None else tokens
  {
    if HELPER in h.nulls {
      NullsTallyNone(tokens, EntryItems(source.values), source.nulls);
    } else {
      ListsTally(source, h, own, tokens);
    }
  }

  lemma JoinedOnce(ts: seq<Text>, us: seq<Text>)
    requires AreTokens(ts) && AreTokens(us)
    ensures Joined(ts) == Joined(us) <==> ts == us
  {
    TokensJoined([], ts);
    TokensJoined([], us);
    assert [] + Joined(ts) == Joined(ts) && [] + Joined(us) == Joined(us);
  }

  lemma SameHolding(g: Headers, h: Headers, ts: Option<seq<Text>>, us: Option<seq<Text>>)
    requires Holds(g, ts) && Holds(h, us)
    ensures HelperOf(g) == HelperOf(h) <==> ts == us
  {
    if ts.Some? && us.Some? { JoinedOnce(ts.value, us.value); }
  }

  /**
   Merging in steps makes no difference to the header that accumulates exactly when what is merged first
   removes nothing, or ends up holding nothing, or holds all that the rest would add to.
   */
  lemma HelperInSteps(xs: seq<Source>, ys: seq<Source>, inner: Source)
    requires Lists(inner, Built(ys))
    ensures var held, own := TallyAll(None, xs), TallyAll(None, ys);
      HelperOf(Built(xs + [inner])) == HelperOf(Built(xs + ys))
      <==> !AnyRemoves(ys) || own.None? || Added(Or(held, []), own.value) == own.value
  {
    var held, own := TallyAll(None, xs), TallyAll(None, ys);
    HelperAccumulates(xs + [inner]);
    HelperAccumulates(xs + ys);
    HelperAccumulates(ys);
    BuiltNulled(ys);
    ListsTallies(inner, Built(ys), own, AnyRemoves(ys), held);
    TallyAllAppend(None, xs, ys);
    TallyAllNext(None, xs, inner);
    if AnyRemoves(ys) { TallyAllForgets(held, ys); } else { TallyAllShift(held, ys); }
    hide TallyAll, Tally, Items, Lists, Added, Built, Holds, AnyRemoves;
    SameHolding(Built(xs + [inner]), Built(xs + ys), TallyAll(None, xs + [inner]), TallyAll(None, xs + ys));
  }

  lemma TallyAllNext(tokens: Option<seq<Text>>, sources: seq<Source>, source: Source)
    ensures TallyAll(tokens, sources + [source]) == Tally(TallyAll(tokens, sources), Items(source))
  {
    assert (sources + [source])[..|sources|] == sources;
  }

  lemma ItemsOne(e: Entry)
    ensures Items(Plain([e])) == [Set(e.name, e.text)]
  {
    assert [e][..0] == [];
    assert EntryItems([e][..0]) == [];
  }

  lemma TallySet(tokens: Option<seq<Text>>, text: Text)
    ensures Tally(tokens, [Set(HELPER, text)]) == Some(Added(Or(tokens, []), Tokens(text)))
  {
    hide Tokens, Added;
    assert [Set(HELPER, text)][..0] == [];
    assert Tally(tokens, []) == tokens;
  }

  lemma TallyOne(tokens: Option<seq<Text>>, t: Text)
    requires IsToken(t)
    ensures Tally(tokens, Items(Plain([Entry(HELPER, t)]))) == Some(Added(Or(tokens, []), [t]))
  {
    TokensFirst([], t, []);
    assert [] + t == t;
    hide Tokens, Added, Items, Tally, IsToken;
    ItemsOne(Entry(HELPER, t));
    TallySet(tokens, t);
  }

  lemma TallyNull(tokens: Option<seq<Text>>)
    ensures Tally(tokens, Items(Keys([Row(HELPER, [Null])]))) == None
  {
  }

  lemma AddedPair(a: Text, b: Text)
    requires a != b
    ensures Added([], [a]) == [a] && Added([a], [b]) == [a, b]
  {
    assert [a][1..] == [] && [b][1..] == [];
  }

  lemma TwoTallies(tokens: Option<seq<Text>>, b: Text, y: Source, z: Source)
    requires IsToken(b) && y == Keys([Row(HELPER, [Null])]) && z == Plain([Entry(HELPER, b)])
    ensures TallyAll(tokens, [y, z]) == Some([b])
  {
    TallyNull(tokens);
    TallyOne(None, b);
    assert [b][1..] == [] && Added([], [b]) == [b];
    hide Tally, Items, Added;
    TallyAllNext(tokens, [], y);
    TallyAllNext(tokens, [y], z);
    assert [] + [y] == [y] && [y] + [z] == [y, z];
    assert TallyAll(tokens, []) == tokens;
  }

  lemma OneTally(a: Text, x: Source)
    requires IsToken(a) && x == Plain([Entry(HELPER, a)])
    ensures TallyAll(None, [x]) == Some([a])
  {
    TallyOne(None, a);
    assert [a][1..] == [] && Added([], [a]) == [a];
    hide Tally, Items, Added;
    TallyAllNext(None, [], x);
    assert [] + [x] == [x];
    assert TallyAll(None, []) == None;
  }

  lemma {:induction false} NotMentioned(items: seq<Item>, name: Name)
    requires forall i :: 0 <= i < |items| ==> items[i].name != name
    ensures !Mentions(items, name)
  {
    if items != [] { NotMentioned(items[..|items| - 1], name); }
  }

  lemma OnlyHelper(b: Text, y: Source, z: Source, name: Name)
    requires y == Keys([Row(HELPER, [Null])]) && z == Plain([Entry(HELPER, b)]) && name != HELPER
    ensures SlotOf(Built([y, z]), name) == Absent
  {
    LastSourceWins([y, z], name);
    MentionedHasSlot([y, z], name);
    HelperItems(b);
    hide Items, Mentions, Built, LastSaid;
    NotMentioned(Items(y), name);
    NotMentioned(Items(z), name);
    assert [y, z][..1] == [y] && [y][..0] == [];
    assert !AnyMentions([], name);
    assert !AnyMentions([y], name);
  }

  predicate AllHelper(items: seq<Item>) { forall i :: 0 <= i < |items| ==> items[i].name == HELPER }

  lemma HelperItems(b: Text)
    ensures AllHelper(Items(Keys([Row(HELPER, [Null])]))) && AllHelper(Items(Plain([Entry(HELPER, b)])))
  {
    var row, one := Row(HELPER, [Null]), [Entry(HELPER, b)];
    assert [row][..0] == [] && one[..0] == [] && row.values[..0] == [];
    assert RowsItems([], true) == [] && EntryItems([]) == [] && ValueItems(HELPER, []) == [];
    assert ValueItems(HELPER, row.values) == [Remove(HELPER)];
    assert RowItems(row, true) == [Clear(HELPER), Remove(HELPER)];
    assert RowsItems([row], true) == RowItems(row, true);
    assert EntryItems(one) == [Set(HELPER, b)];
  }

  lemma LookupOne(e: Entry, name: Name)
    ensures Lookup([e], name) == (if e.name == name then Some(e.text) else None) && Distinct([e])
  {
    assert [e][..0] == [];
  }

  /** Merging a removal and a value leaves the value alone to be listed. */
  lemma RemovalMerged(b: Text, y: Source, z: Source)
    requires IsToken(b) && y == Keys([Row(HELPER, [Null])]) && z == Plain([Entry(HELPER, b)])
    ensures Lists(Merged([Entry(HELPER, b)], []), Built([y, z]))
  {
    TwoTallies(None, b, y, z);
    HelperAccumulates([y, z]);
    JoinedPair(b, b);
    BuiltDisjoint([y, z]);
    hide Built, TallyAll, Joined, IsToken, Lookup, Distinct;
    var h, e := Built([y, z]), Entry(HELPER, b);
    assert HelperOf(h) == Some(b);
    LookupOne(e, HELPER);
    forall n
      ensures Lookup([e], n) == (if n in h.values then Some(h.values[n]) else None) && n !in h.nulls
    {
      LookupOne(e, n);
      if n != HELPER { OnlyHelper(b, y, z, n); }
    }
  }

  /** A removal that is merged first is forgotten. */
  lemma RemovalForgotten(a: Text, b: Text)
    requires IsToken(a) && IsToken(b) && a != b
    ensures var x, y, z := Plain([Entry(HELPER, a)]), Keys([Row(HELPER, [Null])]), Plain([Entry(HELPER, b)]);
      var inner := Merged([Entry(HELPER, b)], []);
      && Lists(inner, Built([y, z]))
      && HelperOf(Built([x] + [inner])) == Some(a + [COMMA, SPACE] + b)
      && HelperOf(Built([x] + [y, z])) == Some(b)
  {
    var x, y, z := Plain([Entry(HELPER, a)]), Keys([Row(HELPER, [Null])]), Plain([Entry(HELPER, b)]);
    var inner := Merged([Entry(HELPER, b)], []);
    RemovalMerged(b, y, z);
    OneTally(a, x);
    TwoTallies(None, b, y, z);
    TwoTallies(Some([a]), b, y, z);
    AddedPair(a, b);
    JoinedPair(a, b);
    BuiltDisjoint([y, z]);
    HelperAccumulates([y, z]);
    hide TallyAll, Tally, Items, Lists, Added, Built, Joined;
    ListsTally(inner, Built([y, z]), Some([b]), Some([a]));
    HelperAccumulates([x] + [inner]);
    HelperAccumulates([x] + [y, z]);
    TallyAllAppend(None, [x], [y, z]);
    TallyAllNext(None, [x], inner);
  }

  lemma JoinedPair(a: Text, b: Text)
    ensures Joined([a]) == a && Joined([b]) == b && Joined([a, b]) == a + [COMMA, SPACE] + b
  {
    assert [a, b][1..] == [b];
  }
}
