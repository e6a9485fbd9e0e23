/**
 What sources give for a header, read off their entries, nulls and rows; and that merging comes to
 just that: the last source that gives anything wins, and one header gathers tokens from all.
 */
module HeaderSources {
  import opened CodeUnits
  import opened Options
  import opened HeaderMerging

  // ----- tokens -----

  /** Tokens are added one after another, each behind those that are there unless it is there already. */
  lemma {:induction false} AddedNext(tokens: seq<Text>, more: seq<Text>, t: Text)
    ensures Added(tokens, []) == tokens
    ensures var all := Added(tokens, more); Added(tokens, more + [t]) == if t in all then all else all + [t]
    decreases |more|
  {
    if more == [] {
      assert [t][1..] == [] && more + [t] == [t];
    } else {
      assert (more + [t])[1..] == more[1..] + [t];
      AddedNext(if more[0] in tokens then tokens else tokens + [more[0]], more[1..], t);
    }
  }

  /** White space as the program trims it. */
  predicate IsWhite(c: CodeUnit) {
    || c in {0x09, 0x0A, 0x0B, 0x0C, 0x0D, 0x20, 0xA0, 0x1680, 0x2028, 0x2029, 0x202F, 0x205F, 0x3000, 0xFEFF}
    || c in {0x2000, 0x2001, 0x2002, 0x2003, 0x2004, 0x2005, 0x2006, 0x2007, 0x2008, 0x2009, 0x200A}
  }

  predicate AllWhite(s: Text) { forall i :: 0 <= i < |s| ==> IsWhite(s[i]) }

  /** `t` is what is left of `s` without the white space around it. */
  predicate TrimmedOf(t: Text, s: Text, before: Text, after: Text) {
    && s == before + t + after && AllWhite(before) && AllWhite(after)
    && (t != [] ==> !IsWhite(t[0]) && !IsWhite(t[|t| - 1]))
  }

  lemma SpacesAre(c: CodeUnit)
    ensures IsSpace(c) <==> IsWhite(c)
  {
  }

  lemma {:induction false} TrimStartOf(s: Text) returns (before: Text)
    ensures s == before + TrimStart(s) && AllWhite(before)
  {
    before := [];
    if s != [] && IsSpace(s[0]) {
      SpacesAre(s[0]);
      var rest := TrimStartOf(s[1..]);
      before := [s[0]] + rest;
      assert s == [s[0]] + s[1..];
    }
  }

  lemma {:induction false} TrimEndOf(s: Text) returns (after: Text)
    ensures s == TrimEnd(s) + after && AllWhite(after)
  {
    after := [];
    if s != [] && IsSpace(s[|s| - 1]) {
      SpacesAre(s[|s| - 1]);
      var rest := TrimEndOf(s[..|s| - 1]);
      after := rest + [s[|s| - 1]];
      assert s == s[..|s| - 1] + [s[|s| - 1]];
    }
  }

  lemma TrimIs(s: Text) returns (before: Text, after: Text)
    ensures TrimmedOf(Trim(s), s, before, after)
  {
    before := TrimStartOf(s);
    after := TrimEndOf(TrimStart(s));
    TrimEnds(s);
    hide TrimStart, TrimEnd, Trim, IsWhite, AllWhite;
    assert s == before + (Trim(s) + after) == before + Trim(s) + after;
  }

  lemma TrimEnds(s: Text)
    ensures var t := Trim(s);
      && t == TrimEnd(TrimStart(s))
      && (t != [] ==> !IsWhite(t[0]) && !IsWhite(t[|t| - 1]))
  {
    TrimStartIs(s);
    TrimEndIs(TrimStart(s));
    hide TrimStart, TrimEnd, IsWhite, IsSpace;
    var t := Trim(s);
    if t != [] {
      SpacesAre(t[0]);
      SpacesAre(t[|t| - 1]);
      assert t[0] == TrimStart(s)[0];
    }
  }

  /** The pieces between commas, trimmed, those that are left empty passed over. */
  lemma TokensAre(piece: Text, rest: Text)
    requires forall i :: 0 <= i < |piece| ==> piece[i] != 0x2C
    ensures var first := if Trim(piece) == [] then [] else [Trim(piece)];
      Tokens(piece) == first && Tokens(piece + [0x2C] + rest) == first + Tokens(rest)
  {
    hide Trim;
    CommaIs(piece, |piece|);
    assert piece[..|piece|] == piece;
    var s := piece + [COMMA] + rest;
    assert forall i :: 0 <= i < |piece| ==> s[i] == piece[i];
    CommaIs(s, |piece|);
    assert s[..|piece|] == piece && s[|piece| + 1..] == rest;
  }

  // ----- what a source says -----

  /** The values of a row that are not undefined. */
  function Defined(values: seq<Given>): seq<Given> {
    if values == [] then []
    else Defined(values[..|values| - 1]) + (if values[|values| - 1].Undefined? then [] else [values[|values| - 1]])
  }

  /** What entries give for a header, in order. */
  function InEntries(entries: seq<Entry>, name: Name): seq<Given> {
    if entries == [] then []
    else
      var e := entries[|entries| - 1];
      InEntries(entries[..|entries| - 1], name) + (if e.name == name then [Value(e.text)] else [])
  }

  /** All that rows give for a header, in order. */
  function InRows(rows: seq<Row>, name: Name): seq<Given> {
    if rows == [] then []
    else
      var row := rows[|rows| - 1];
      InRows(rows[..|rows| - 1], name) + (if row.name == name then Defined(row.values) else [])
  }

  /** What the last row that gives anything for a header gives. */
  function InLastRow(rows: seq<Row>, name: Name): seq<Given> {
    if rows == [] then []
    else
      var row := rows[|rows| - 1];
      if row.name == name && Defined(row.values) != [] then Defined(row.values)
      else InLastRow(rows[..|rows| - 1], name)
  }

  function NullsFor(names: seq<Name>, name: Name): seq<Given> { if name in names then [Null] else [] }

  /** What a source gives for an ordinary header: by its keys an object overwrites what it gave before. */
  function GivenBy(source: Source, name: Name): seq<Given> {
    match source
    case Nothing => []
    case Merged(values, nulls) => InEntries(values, name) + NullsFor(nulls, name)
    case Plain(entries) => InEntries(entries, name)
    case Rows(rows) => InRows(rows, name)
    case Keys(rows) => InLastRow(rows, name)
  }

  /** What given values come to: a null removes all before it, and texts after that are held together. */
  function SlotGiven(given: seq<Given>): Slot {
    if given == [] then Absent
    else
      match given[|given| - 1]
      case Undefined => SlotGiven(given[..|given| - 1])
      case Null => Nulled
      case Value(text) =>
        match SlotGiven(given[..|given| - 1])
        case Held(before) => Held(before + [0x2C, 0x20] + text)
        case _ => Held(text)
  }

  /** Items that say of a header what `given` does. */
  predicate SaysGiven(items: seq<Item>, name: Name, given: seq<Given>) {
    && (Mentions(items, name) <==> given != [])
    && Said(items, name) == SlotGiven(given)
  }

  lemma SaysNext(items: seq<Item>, item: Item, name: Name, given: seq<Given>)
    requires SaysGiven(items, name, given) && !item.Clear?
    ensures SaysGiven(items + [item], name,
                      given + (if item.name != name then [] else if item.Remove? then [Null] else [Value(item.text)]))
  {
    assert (items + [item])[..|items|] == items;
    assert given + [] == given;
    if item.name == name {
      var g := if item.Remove? then Null else Value(item.text);
      assert (given + [g])[..|given|] == given;
    }
  }

  lemma {:induction false} EntriesGive(entries: seq<Entry>, name: Name)
    ensures SaysGiven(EntryItems(entries), name, InEntries(entries, name))
  {
    if entries != [] {
      EntriesGive(entries[..|entries| - 1], name);
      var e := entries[|entries| - 1];
      SaysNext(EntryItems(entries[..|entries| - 1]), Set(e.name, e.text), name,
               InEntries(entries[..|entries| - 1], name));
    }
  }

  lemma {:induction false} NullsGive(items: seq<Item>, names: seq<Name>, name: Name, given: seq<Given>)
    requires SaysGiven(items, name, given)
    ensures SaysGiven(items + NullItems(names), name, given + NullsFor(names, name))
  {
    NullsSay(items, names, name);
    var all := given + NullsFor(names, name);
    if name in names {
      assert all[..|given|] == given;
    } else {
      assert all == given;
    }
  }

  /** The values of a row, behind what has been said. */
  lemma {:induction false} ValuesGive(items: seq<Item>, row: Name, values: seq<Given>, name: Name, given: seq<Given>)
    requires SaysGiven(items, name, given)
    ensures SaysGiven(items + ValueItems(row, values), name, given + (if row == name then Defined(values) else []))
  {
    hide SaysGiven;
    if values == [] {
      assert items + [] == items && given + [] == given;
    } else {
      var earlier, last := values[..|values| - 1], values[|values| - 1];
      ValuesGive(items, row, earlier, name, given);
      var before := given + (if row == name then Defined(earlier) else []);
      var said := items + ValueItems(row, earlier);
      match last
      case Undefined =>
        assert ValueItems(row, values) == ValueItems(row, earlier);
        assert Defined(values) == Defined(earlier);
      case Null =>
        SaysNext(said, Remove(row), name, before);
        assert items + ValueItems(row, values) == said + [Remove(row)];
        assert given + (if row == name then Defined(values) else []) == before + (if row == name then [Null] else []);
      case Value(text) =>
        SaysNext(said, Set(row, text), name, before);
        assert items + ValueItems(row, values) == said + [Set(row, text)];
        assert given + (if row == name then Defined(values) else []) == before + (if row == name then [last] else []);
    }
  }

  lemma {:induction false} RowsGive(rows: seq<Row>, name: Name)
    ensures SaysGiven(RowsItems(rows, false), name, InRows(rows, name))
  {
    if rows != [] {
      var earlier, row := rows[..|rows| - 1], rows[|rows| - 1];
      RowsGive(earlier, name);
      ValuesGive(RowsItems(earlier, false), row.name, row.values, name, InRows(earlier, name));
    }
  }

  lemma {:induction false} NoneDefined(name: Name, values: seq<Given>)
    ensures ValueItems(name, values) == [] <==> Defined(values) == []
  {
    if values != [] { NoneDefined(name, values[..|values| - 1]); }
  }

  lemma DefinedNext(values: seq<Given>)
    requires values != []
    ensures var earlier, last := values[..|values| - 1], values[|values| - 1];
      && (last.Undefined? ==> Defined(values) == Defined(earlier))
      && (!last.Undefined? ==> Defined(values) == Defined(earlier) + [last] && Defined(values) != []
                               && Defined(values)[..|Defined(values)| - 1] == Defined(earlier))
  {
  }

  /** One more item about a header. */
  lemma SaidNext(items: seq<Item>, item: Item)
    ensures Mentions(items + [item], item.name)
    ensures Said(items + [item], item.name) ==
      match item
      case Clear(_) => if Said(items, item.name).Held? then Absent else Said(items, item.name)
      case Remove(_) => Nulled
      case Set(_, text) =>
        var before := Said(items, item.name);
        Held(if before.Held? then before.text + [COMMA, SPACE] + text else text)
  {
    assert (items + [item])[..|items|] == items;
  }

  /** What is said behind a clearing is said from the start, if it is anything. */
  predicate SaidAfresh(items: seq<Item>, name: Name, given: seq<Given>) {
    && Mentions(items, name)
    && if given != [] then Said(items, name) == SlotGiven(given) else !Said(items, name).Held?
  }

  lemma {:induction false} ValuesAfterClear(items: seq<Item>, values: seq<Given>, name: Name)
    ensures SaidAfresh(items + [Clear(name)] + ValueItems(name, values), name, Defined(values))
  {
    var front := items + [Clear(name)];
    hide Mentions, Said;
    if values == [] {
      SaidNext(items, Clear(name));
      assert front + [] == front;
    } else {
      var earlier, last := values[..|values| - 1], values[|values| - 1];
      var said := front + ValueItems(name, earlier);
      ValuesAfterClear(items, earlier, name);
      DefinedNext(values);
      hide Defined;
      match last
      case Undefined => assert ValueItems(name, values) == ValueItems(name, earlier);
      case Null =>
        SaidNext(said, Remove(name));
        assert front + ValueItems(name, values) == said + [Remove(name)];
      case Value(text) =>
        SaidNext(said, Set(name, text));
        assert front + ValueItems(name, values) == said + [Set(name, text)];
    }
  }

  lemma {:induction false} OthersSaid(items: seq<Item>, more: seq<Item>, name: Name)
    requires forall i :: 0 <= i < |more| ==> more[i].name != name
    ensures Said(items + more, name) == Said(items, name) && (Mentions(items + more, name) <==> Mentions(items, name))
  {
    if more == [] {
      assert items + more == items;
    } else {
      var all := items + more;
      OthersSaid(items, more[..|more| - 1], name);
      assert all[..|all| - 1] == items + more[..|more| - 1] && all[|all| - 1] == more[|more| - 1];
    }
  }

  /** One more row of an object. */
  lemma KeyGives(before: seq<Item>, row: Row, name: Name, given: seq<Given>)
    requires SaysGiven(before, name, given)
    ensures SaysGiven(before + RowItems(row, true), name,
                      if row.name == name && Defined(row.values) != [] then Defined(row.values) else given)
  {
    var items := ValueItems(row.name, row.values);
    NoneDefined(row.name, row.values);
    ValuesSaid(row.name, row.values);
    if items == [] {
      assert before + [] == before;
    } else {
      assert before + ([Clear(row.name)] + items) == before + [Clear(row.name)] + items;
      if row.name == name {
        ValuesAfterClear(before, row.values, name);
      } else {
        OthersSaid(before, [Clear(row.name)] + items, name);
      }
    }
  }

  lemma {:induction false} KeysGive(rows: seq<Row>, name: Name)
    ensures SaysGiven(RowsItems(rows, true), name, InLastRow(rows, name))
  {
    hide RowItems, Defined, SaysGiven;
    if rows == [] {
      NothingGiven(name);
    } else {
      KeysGive(rows[..|rows| - 1], name);
      KeyGives(RowsItems(rows[..|rows| - 1], true), rows[|rows| - 1], name, InLastRow(rows[..|rows| - 1], name));
    }
  }

  lemma NothingGiven(name: Name)
    ensures SaysGiven([], name, [])
  {
  }

  /** What a source says about an ordinary header is what it gives for it. */
  lemma SourceSays(source: Source, name: Name)
    ensures SaysGiven(Items(source), name, GivenBy(source, name))
  {
    match source
    case Nothing =>
    case Merged(values, nulls) =>
      EntriesGive(values, name);
      NullsGive(EntryItems(values), nulls, name, InEntries(values, name));
    case Plain(entries) => EntriesGive(entries, name);
    case Rows(rows) => RowsGive(rows, name);
    case Keys(rows) => KeysGive(rows, name);
  }

  /** What the last source that gives anything for a header gives. */
  function LastGiven(sources: seq<Source>, name: Name): seq<Given> {
    if sources == [] then []
    else
      var given := GivenBy(sources[|sources| - 1], name);
      if given != [] then given else LastGiven(sources[..|sources| - 1], name)
  }

  lemma {:induction false} LastSaidIsGiven(sources: seq<Source>, name: Name)
    ensures LastSaid(sources, name) == SlotGiven(LastGiven(sources, name))
  {
    if sources != [] {
      LastSaidIsGiven(sources[..|sources| - 1], name);
      SourceSays(sources[|sources| - 1], name);
      hide Items, GivenBy, Said, Mentions;
    }
  }

  /** An ordinary header comes to what the last source that gives anything for it gives. */
  lemma LastGivenWins(sources: seq<Source>, name: Name)
    requires name != "x-stainless-helper"
    ensures SlotOf(Built(sources), name) == SlotGiven(LastGiven(sources, name))
  {
    LastSourceWins(sources, name);
    LastSaidIsGiven(sources, name);
  }

  // ----- what sources give for that header -----

  /** All that a source gives for the header that accumulates: by its keys or not, an object adds too. */
  function HelperBy(source: Source): seq<Given> {
    match source
    case Nothing => []
    case Merged(values, nulls) => InEntries(values, "x-stainless-helper") + NullsFor(nulls, "x-stainless-helper")
    case Plain(entries) => InEntries(entries, "x-stainless-helper")
    case Rows(rows) => InRows(rows, "x-stainless-helper")
    case Keys(rows) => InRows(rows, "x-stainless-helper")
  }

  /** The tokens held after some given values: a null removes them, a text adds its own. */
  function Gathered(tokens: Option<seq<Text>>, given: seq<Given>): Option<seq<Text>> {
    if given == [] then tokens
    else
      var before := Gathered(tokens, given[..|given| - 1]);
      match given[|given| - 1]
      case Undefined => before
      case Null => None
      case Value(text) => Some(Added(Or(before, []), Tokens(text)))
  }

  function GatheredAll(sources: seq<Source>): Option<seq<Text>> {
    if sources == [] then None
    else Gathered(GatheredAll(sources[..|sources| - 1]), HelperBy(sources[|sources| - 1]))
  }

  predicate TalliesGiven(tokens: Option<seq<Text>>, items: seq<Item>, given: seq<Given>) {
    Tally(tokens, items) == Gathered(tokens, given)
  }

  lemma GatheredNext(tokens: Option<seq<Text>>, given: seq<Given>, g: Given)
    ensures Gathered(tokens, given + [g]) ==
      match g
      case Undefined => Gathered(tokens, given)
      case Null => None
      case Value(text) => Some(Added(Or(Gathered(tokens, given), []), Tokens(text)))
  {
    assert (given + [g])[..|given|] == given;
    hide Tokens, Added;
  }

  lemma TallyNext(tokens: Option<seq<Text>>, items: seq<Item>, item: Item)
    ensures Tally(tokens, items + [item]) ==
      if item.name != "x-stainless-helper" then Tally(tokens, items)
      else
        match item
        case Clear(_) => Tally(tokens, items)
        case Remove(_) => None
        case Set(_, text) => Some(Added(Or(Tally(tokens, items), []), Tokens(text)))
  {
    assert (items + [item])[..|items|] == items;
    hide Tokens, Added;
  }

  lemma {:induction false} EntriesTallied(tokens: Option<seq<Text>>, entries: seq<Entry>)
    ensures TalliesGiven(tokens, EntryItems(entries), InEntries(entries, HELPER))
  {
    hide Tokens, Added;
    if entries != [] {
      var earlier, e := entries[..|entries| - 1], entries[|entries| - 1];
      EntriesTallied(tokens, earlier);
      TallyNext(tokens, EntryItems(earlier), Set(e.name, e.text));
      GatheredNext(tokens, InEntries(earlier, HELPER), Value(e.text));
      assert InEntries(earlier, HELPER) + [] == InEntries(earlier, HELPER);
    }
  }

  lemma {:induction false} NullsTallied(tokens: Option<seq<Text>>, items: seq<Item>, names: seq<Name>,
                                        given: seq<Given>)
    requires TalliesGiven(tokens, items, given)
    ensures TalliesGiven(tokens, items + NullItems(names), given + NullsFor(names, HELPER))
  {
    hide Tokens, Added;
    assert given + [] == given;
    if names == [] {
      assert items + [] == items;
    } else {
      var earlier, name := names[..|names| - 1], names[|names| - 1];
      assert names == earlier + [name];
      NullsTallied(tokens, items, earlier, given);
      TallyNext(tokens, items + NullItems(earlier), Remove(name));
      assert items + NullItems(names) == items + NullItems(earlier) + [Remove(name)];
      GatheredNext(tokens, given, Null);
    }
  }

  lemma TalliedNext(tokens: Option<seq<Text>>, items: seq<Item>, item: Item, given: seq<Given>)
    requires TalliesGiven(tokens, items, given) && !item.Clear?
    ensures TalliesGiven(tokens, items + [item],
                         given + (if item.name != HELPER then []
                                  else if item.Remove? then [Null]
                                  else [Value(item.text)]))
  {
    TallyNext(tokens, items, item);
    assert given + [] == given;
    if item.name == HELPER { GatheredNext(tokens, given, if item.Remove? then Null else Value(item.text)); }
    hide Tokens, Added, Tally, Gathered;
  }

  lemma {:induction false} ValuesTallied(tokens: Option<seq<Text>>, items: seq<Item>, row: Name, values: seq<Given>,
                                         given: seq<Given>)
    requires TalliesGiven(tokens, items, given)
    ensures TalliesGiven(tokens, items + ValueItems(row, values),
                         given + (if row == HELPER then Defined(values) else []))
  {
    hide TalliesGiven;
    if values == [] {
      assert items + [] == items && given + [] == given;
    } else {
      var earlier, last := values[..|values| - 1], values[|values| - 1];
      ValuesTallied(tokens, items, row, earlier, given);
      var before := given + (if row == HELPER then Defined(earlier) else []);
      var said := items + ValueItems(row, earlier);
      match last
      case Undefined =>
        assert ValueItems(row, values) == ValueItems(row, earlier);
        assert Defined(values) == Defined(earlier);
      case Null =>
        TalliedNext(tokens, said, Remove(row), before);
        assert items + ValueItems(row, values) == said + [Remove(row)];
        assert given + (if row == HELPER then Defined(values) else [])
            == before + (if row == HELPER then [Null] else []);
      case Value(text) =>
        TalliedNext(tokens, said, Set(row, text), before);
        assert items + ValueItems(row, values) == said + [Set(row, text)];
        assert given + (if row == HELPER then Defined(values) else [])
            == before + (if row == HELPER then [last] else []);
    }
  }

  lemma {:induction false} RowsTallied(tokens: Option<seq<Text>>, rows: seq<Row>, clears: bool)
    ensures TalliesGiven(tokens, RowsItems(rows, clears), InRows(rows, HELPER))
  {
    hide Tokens, Added;
    if rows != [] {
      var earlier, row := rows[..|rows| - 1], rows[|rows| - 1];
      var before, items := RowsItems(earlier, clears), ValueItems(row.name, row.values);
      RowsTallied(tokens, earlier, clears);
      if clears && items != [] {
        TallyNext(tokens, before, Clear(row.name));
        ValuesTallied(tokens, before + [Clear(row.name)], row.name, row.values, InRows(earlier, HELPER));
        assert before + ([Clear(row.name)] + items) == before + [Clear(row.name)] + items;
      } else {
        ValuesTallied(tokens, before, row.name, row.values, InRows(earlier, HELPER));
      }
    }
  }

  lemma SourceTallied(tokens: Option<seq<Text>>, source: Source)
    ensures Tally(tokens, Items(source)) == Gathered(tokens, HelperBy(source))
  {
    match source
    case Nothing =>
    case Merged(values, nulls) =>
      EntriesTallied(tokens, values);
      NullsTallied(tokens, EntryItems(values), nulls, InEntries(values, HELPER));
    case Plain(entries) => EntriesTallied(tokens, entries);
    case Rows(rows) => RowsTallied(tokens, rows, false);
    case Keys(rows) => RowsTallied(tokens, rows, true);
  }

  lemma {:induction false} AllTallied(sources: seq<Source>)
    ensures TallyAll(None, sources) == GatheredAll(sources)
  {
    hide Tally, Items, Gathered, HelperBy;
    if sources != [] {
      AllTallied(sources[..|sources| - 1]);
      SourceTallied(GatheredAll(sources[..|sources| - 1]), sources[|sources| - 1]);
    }
  }

  /** Over all sources the header is held exactly when tokens are, and is those tokens. */
  lemma HelperIsGathered(sources: seq<Source>)
    ensures var h, tokens := Built(sources), GatheredAll(sources);
      && (tokens.None? <==> "x-stainless-helper" !in h.values)
      && (tokens.Some? ==> Tokens(h.values["x-stainless-helper"]) == tokens.value)
  {
    HelperAccumulates(sources);
    AllTallied(sources);
    hide Built, TallyAll, GatheredAll, Tokens, Joined;
    if GatheredAll(sources).Some? {
      TokensJoined([], GatheredAll(sources).value);
      assert [] + Joined(GatheredAll(sources).value) == Joined(GatheredAll(sources).value);
    }
  }
}
