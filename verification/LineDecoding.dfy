/** The incremental line decoder over bytes, and the newline-separated streams built on it. */
module LineDecoding {
  import opened CodeUnits
  import opened Options
  import opened UniversalNewlines

  datatype Found = Found(preceding: nat, index: nat, carriage: bool)

  /** The first newline at or after `start`: the index before it, the index after it, and whether it is a CR. */
  method FindNewlineIndex(buffer: Text, start: nat) returns (r: Option<Found>)
    requires start <= |buffer|
    ensures r == (var n := NewlineAt(buffer, start);
                  if n == |buffer| then None else Some(Found(n, n + 1, buffer[n] == CR)))
  {
    var i := start;
    while i < |buffer|
      invariant start <= i <= |buffer|
      invariant NewlineAt(buffer, i) == NewlineAt(buffer, start)
    {
      if buffer[i] == LF {
        return Some(Found(i, i + 1, false));
      }
      if buffer[i] == CR {
        return Some(Found(i, i + 1, true));
      }
      i := i + 1;
    }
    r := None;
  }

  /** Whatever is still to come, `lines` and then the lines of `left` are the lines of `given`. */
  ghost predicate Accounts(lines: seq<Text>, left: Text, given: Text) {
    forall rest: Text :: lines + Lines(left + rest) == Lines(given + rest)
  }

  lemma AccountsStep(lines: seq<Text>, left: Text, given: Text, n: nat)
    requires Accounts(lines, left, given)
    requires n < |left| && (forall k :: 0 <= k < n ==> !IsNewline(left[k]))
    requires left[n] == LF || (left[n] == CR && n + 1 < |left|)
    ensures Accounts(lines + [left[..n]], left[NextLine(left, n)..], given)
  {
    forall rest: Text
      ensures (lines + [left[..n]]) + Lines(left[NextLine(left, n)..] + rest) == Lines(given + rest)
    {
      FirstLine(left, n, rest);
      assert lines + Lines(left + rest) == Lines(given + rest);
      assert lines + [left[..n]] + Lines(left[NextLine(left, n)..] + rest)
          == lines + ([left[..n]] + Lines(left[NextLine(left, n)..] + rest));
    }
  }

  lemma AccountsStart(given: Text)
    ensures Accounts([], given, given)
  {
    forall rest: Text
      ensures [] + Lines(given + rest) == Lines(given + rest)
    {
    }
  }

  predicate IsSuffix(s: Text, t: Text) { |s| <= |t| && t[|t| - |s|..] == s }

  lemma SuffixSelf(s: Text)
    ensures IsSuffix(s, s)
  {
  }

  lemma SuffixDrop(s: Text, t: Text, n: nat)
    requires IsSuffix(s, t) && n <= |s|
    ensures IsSuffix(s[n..], t)
  {
    assert t[|t| - |s|..][n..] == t[|t| - |s| + n..];
  }

  lemma SuffixEnd(s: Text, t: Text)
    requires IsSuffix(s, t + [LF])
    ensures s == [] || s[|s| - 1] == LF
  {
    if s != [] {
      var u := t + [LF];
      assert u[|u| - |s|..][|s| - 1] == u[|u| - 1];
    }
  }

  class LineDecoder {
    var buffer: Text
    /** The index after a CR that has not been matched yet. */
    var carriageReturnIndex: Option<nat>

    constructor ()
      ensures Valid() && buffer == []
    {
      buffer, carriageReturnIndex := [], None;
    }

    /** The mark, if there is one, is after the first newline of the buffer, which is a CR. */
    predicate Marked()
      reads this
    {
      match carriageReturnIndex
      case None => true
      case Some(c) => 0 < c <= |buffer| && buffer[c - 1] == CR && forall k :: 0 <= k < c - 1 ==> !IsNewline(buffer[k])
    }

    /** Between calls the buffer holds no newline but the marked CR. */
    predicate Valid()
      reads this
    {
      && Marked()
      && forall k :: 0 <= k < |buffer| && carriageReturnIndex != Some(k + 1) ==> !IsNewline(buffer[k])
    }

    method Decode(chunk: Text) returns (lines: seq<Text>)
      requires Valid()
      modifies this
      ensures Valid() && Accounts(lines, buffer, old(buffer) + chunk) && IsSuffix(buffer, old(buffer) + chunk)
    {
      ghost var given := buffer + chunk;
      AccountsStart(given);
      hide Accounts, IsSuffix, NewlineAt;
      buffer := buffer + chunk;
      lines := [];
      assert IsSuffix(buffer, given) by { SuffixSelf(given); }
      while true
        invariant Marked() && Accounts(lines, buffer, given) && IsSuffix(buffer, given)
        decreases |buffer|, if carriageReturnIndex == None then 1 else 0
      {
        var start := if carriageReturnIndex.Some? then carriageReturnIndex.value else 0;
        var found := FindNewlineIndex(buffer, start);
        if found == None {
          break;
        }
        var pattern := found.value;
        if pattern.carriage && carriageReturnIndex == None {
          // skip until there is a matching LF, another CR, or nothing
          carriageReturnIndex := Some(pattern.index);
          continue;
        }
        var end, next: nat;
        if carriageReturnIndex != None && (pattern.index != carriageReturnIndex.value + 1 || pattern.carriage) {
          // the CR ended a line by itself
          end, next := carriageReturnIndex.value - 1, carriageReturnIndex.value;
        } else {
          end := if carriageReturnIndex != None then pattern.preceding - 1 else pattern.preceding;
          next := pattern.index;
        }
        assert next == NextLine(buffer, end);
        AccountsStep(lines, buffer, given, end);
        SuffixDrop(buffer, given, next);
        lines := lines + [buffer[..end]];
        buffer := buffer[next..];
        carriageReturnIndex := None;
      }
    }

    method Flush() returns (lines: seq<Text>)
      requires Valid()
      modifies this
      ensures Valid() && lines == Lines(old(buffer)) && buffer == []
    {
      if buffer == [] {
        return [];
      }
      ghost var was := buffer;
      lines := Decode([LF]);
      SuffixEnd(buffer, was);
      assert lines + Lines(buffer + []) == Lines(was + [LF] + []);
      assert buffer + [] == [] && was + [LF] + [] == was + [LF];
      FinalNewline(was);
    }
  }

  /** Decoding one more chunk, when `rest` follows it. */
  lemma OneMoreChunk(lines: seq<Text>, held: Text, more: seq<Text>, left: Text, chunk: Text, rest: Text)
    requires Accounts(more, left, held + chunk)
    ensures (lines + more) + Lines(left + rest) == lines + Lines(held + (chunk + rest))
  {
    assert more + Lines(left + rest) == Lines(held + chunk + rest);
    assert held + (chunk + rest) == held + chunk + rest;
    assert (lines + more) + Lines(left + rest) == lines + (more + Lines(left + rest));
  }

  /** Reading a whole stream: for every way of cutting it into chunks the same lines come out. */
  method IterLines(chunks: seq<Text>) returns (lines: seq<Text>)
    ensures lines == Lines(Flatten(chunks))
  {
    hide Accounts, Lines;
    var decoder := new LineDecoder();
    lines := [];
    assert chunks[0..] == chunks && [] + Flatten(chunks) == Flatten(chunks);
    for i := 0 to |chunks|
      invariant fresh(decoder) && decoder.Valid()
      invariant lines + Lines(decoder.buffer + Flatten(chunks[i..])) == Lines(Flatten(chunks))
    {
      ghost var held := decoder.buffer;
      assert chunks[i..][1..] == chunks[i + 1..];
      var more := decoder.Decode(chunks[i]);
      OneMoreChunk(lines, held, more, decoder.buffer, chunks[i], Flatten(chunks[i + 1..]));
      lines := lines + more;
    }
    assert chunks[|chunks|..] == [] && decoder.buffer + [] == decoder.buffer;
    var last := decoder.Flush();
    lines := lines + last;
  }

  // ----- values as lines -----

  function Stringified<T>(values: seq<T>, stringify: T -> Text): seq<Text> {
    if values == [] then [] else [stringify(values[0])] + Stringified(values[1..], stringify)
  }

  function Parsed<T>(lines: seq<Text>, parse: Text -> T): seq<T> {
    if lines == [] then []
    else (if lines[0] == [] then [] else [parse(lines[0])]) + Parsed(lines[1..], parse)
  }

  /** What `toReadableStream` writes. */
  function ToReadable<T>(values: seq<T>, stringify: T -> Text): Text { Written(Stringified(values, stringify)) }

  lemma ParsedNext<T>(lines: seq<Text>, parse: Text -> T, i: nat, values: seq<T>)
    requires i < |lines|
    ensures var rest := Parsed(lines[i + 1..], parse);
      values + Parsed(lines[i..], parse) == (if lines[i] == [] then values else values + [parse(lines[i])]) + rest
  {
    assert lines[i..][1..] == lines[i + 1..];
  }

  /** What `fromReadableStream` reads, whatever the chunks. */
  method FromReadable<T>(chunks: seq<Text>, parse: Text -> T) returns (values: seq<T>)
    ensures values == Parsed(Lines(Flatten(chunks)), parse)
  {
    var lines := IterLines(chunks);
    values := [];
    hide Lines, Flatten, Parsed;
    assert [] + Parsed(lines, parse) == Parsed(lines, parse) && lines[0..] == lines;
    assert Parsed([], parse) == [] by { ParsedNone(parse); }
    for i := 0 to |lines|
      invariant values + Parsed(lines[i..], parse) == Parsed(lines, parse)
    {
      ParsedNext(lines, parse, i, values);
      if lines[i] != [] {
        values := values + [parse(lines[i])];
      }
    }
    assert lines[|lines|..] == [] && values + [] == values;
  }

  lemma ParsedNone<T>(parse: Text -> T)
    ensures Parsed([], parse) == []
  {
  }

  /** The lines that are not empty. */
  function NotEmpty(lines: seq<Text>): seq<Text> {
    if lines == [] then []
    else NotEmpty(lines[..|lines| - 1]) + (if |lines[|lines| - 1]| > 0 then [lines[|lines| - 1]] else [])
  }

  lemma {:induction false} NotEmptyFirst(lines: seq<Text>)
    requires lines != []
    ensures NotEmpty(lines) == (if |lines[0]| > 0 then [lines[0]] else []) + NotEmpty(lines[1..])
  {
    if |lines| == 1 {
      assert lines[1..] == [] && lines[..0] == [];
    } else {
      NotEmptyFirst(lines[..|lines| - 1]);
      assert lines[..|lines| - 1][1..] == lines[1..][..|lines| - 2];
    }
  }

  /** One value is read from each line that is not empty, in order. */
  lemma {:induction false} ParsedEach<T>(lines: seq<Text>, parse: Text -> T, k: nat)
    ensures |Parsed(lines, parse)| == |NotEmpty(lines)|
    ensures k < |NotEmpty(lines)| ==> Parsed(lines, parse)[k] == parse(NotEmpty(lines)[k])
  {
    if lines != [] {
      NotEmptyFirst(lines);
      hide NotEmpty;
      if lines[0] == [] {
        ParsedEach(lines[1..], parse, k);
        assert Parsed(lines, parse) == Parsed(lines[1..], parse) && NotEmpty(lines) == NotEmpty(lines[1..]);
      } else {
        ParsedEach(lines[1..], parse, if k > 0 then k - 1 else 0);
        assert Parsed(lines, parse) == [parse(lines[0])] + Parsed(lines[1..], parse);
      }
    }
  }

  lemma {:induction false} ParsedStringified<T>(values: seq<T>, stringify: T -> Text, parse: Text -> T)
    requires forall v :: v in values ==> stringify(v) != [] && parse(stringify(v)) == v
    ensures Parsed(Stringified(values, stringify), parse) == values
  {
    if values != [] {
      ParsedStringified(values[1..], stringify, parse);
      assert values == [values[0]] + values[1..];
    }
  }

  lemma {:induction false} StringifiedLines<T>(values: seq<T>, stringify: T -> Text)
    requires forall v :: v in values ==> NoNewline(stringify(v))
    ensures forall l :: l in Stringified(values, stringify) ==> NoNewline(l)
  {
    if values != [] { StringifiedLines(values[1..], stringify); }
  }

  /** Values written to a readable stream are read back as they were, however the bytes are cut up on the way. */
  lemma ReadBack<T>(values: seq<T>, stringify: T -> Text, parse: Text -> T, chunks: seq<Text>)
    requires forall v :: v in values ==>
      stringify(v) != [] && NoNewline(stringify(v)) && parse(stringify(v)) == v
    requires Flatten(chunks) == ToReadable(values, stringify)
    ensures Parsed(Lines(Flatten(chunks)), parse) == values
  {
    var lines := Stringified(values, stringify);
    StringifiedLines(values, stringify);
    WrittenThen(lines, []);
    assert Written(lines) + [] == Written(lines) && lines + Lines([]) == lines;
    ParsedStringified(values, stringify, parse);
  }
}
