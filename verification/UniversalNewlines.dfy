/** Universal newlines: a line ends at CR LF, CR or LF; what follows the last newline is a line unless it is empty. */
module UniversalNewlines {
  import opened Basics
  import opened CodeUnits

  predicate IsNewline(c: CodeUnit) { c == LF || c == CR }

  predicate NoNewline(s: Text) { forall i :: 0 <= i < |s| ==> !IsNewline(s[i]) }

  /** The first newline at or after `i`, else `|s|`. */
  function NewlineAt(s: Text, i: nat): (n: nat)
    requires i <= |s|
    ensures i <= n <= |s|
    ensures forall k :: i <= k < n ==> !IsNewline(s[k])
    ensures n < |s| ==> IsNewline(s[n])
    decreases |s| - i
  {
    if i == |s| || IsNewline(s[i]) then i else NewlineAt(s, i + 1)
  }

  /** Where the next line begins after the newline at `n`. */
  function NextLine(s: Text, n: nat): (m: nat)
    requires n < |s|
    ensures n < m <= |s|
  {
    if s[n] == CR && n + 1 < |s| && s[n + 1] == LF then n + 2 else n + 1
  }

  function Lines(s: Text): seq<Text>
    decreases |s|
  {
    if s == [] then []
    else
      var n := NewlineAt(s, 0);
      if n == |s| then [s] else [s[..n]] + Lines(s[NextLine(s, n)..])
  }

  function Flatten(chunks: seq<Text>): Text {
    if chunks == [] then [] else chunks[0] + Flatten(chunks[1..])
  }

  lemma NewlineIs(s: Text, n: nat)
    requires n < |s| && IsNewline(s[n]) && (forall k :: 0 <= k < n ==> !IsNewline(s[k]))
    ensures NewlineAt(s, 0) == n
  {
  }

  /**
   A line that `s` shows to be finished, its newline at `n` being LF or a CR with something after it,
   is the first line of every text that continues `s`.
   */
  lemma FirstLine(s: Text, n: nat, rest: Text)
    requires n < |s| && (forall k :: 0 <= k < n ==> !IsNewline(s[k]))
    requires s[n] == LF || (s[n] == CR && n + 1 < |s|)
    ensures Lines(s + rest) == [s[..n]] + Lines(s[NextLine(s, n)..] + rest)
  {
    var t := s + rest;
    NewlineIs(t, n);
    assert t[..n] == s[..n];
    assert NextLine(t, n) == NextLine(s, n);
    assert t[NextLine(s, n)..] == s[NextLine(s, n)..] + rest;
  }

  lemma OneLine(s: Text)
    requires s != [] && NoNewline(s)
    ensures Lines(s) == [s]
  {
  }

  /** A newline at the end of a text whose last line is unfinished adds no line. */
  lemma {:induction false} FinalNewline(s: Text)
    requires s != [] && s[|s| - 1] != LF
    ensures Lines(s + [LF]) == Lines(s)
    decreases |s|
  {
    var t := s + [LF];
    var n := NewlineAt(s, 0);
    NewlineIs(t, n);
    if n == |s| {
      assert t[..n] == s && t[NextLine(t, n)..] == [];
    } else if n == |s| - 1 {
      assert s[n] == CR && t[n + 1] == LF;
      assert t[..n] == s[..n] && t[NextLine(t, n)..] == [] && s[NextLine(s, n)..] == [];
    } else {
      var m := NextLine(s, n);
      assert NextLine(t, n) == m by { assert t[n + 1] == s[n + 1]; }
      assert t[..n] == s[..n] && t[m..] == s[m..] + [LF];
      assert m < |s|;
      FinalNewline(s[m..]);
    }
  }

  /** No line holds a newline. */
  lemma {:induction false} LinesHaveNone(s: Text)
    ensures forall l :: l in Lines(s) ==> NoNewline(l)
    decreases |s|
  {
    if s != [] {
      var n := NewlineAt(s, 0);
      if n < |s| {
        LinesHaveNone(s[NextLine(s, n)..]);
      }
    }
  }

  /** Lines written with a newline each are read back as they are. */
  function Written(lines: seq<Text>): Text {
    if lines == [] then [] else lines[0] + [LF] + Written(lines[1..])
  }

  lemma FirstWritten(line: Text, rest: Text)
    requires NoNewline(line)
    ensures Lines(line + [LF] + rest) == [line] + Lines(rest)
  {
    var s := line + [LF];
    FirstLine(s, |line|, rest);
    assert s[..|line|] == line && s[|line| + 1..] + rest == rest;
  }

  lemma {:induction false} WrittenThen(lines: seq<Text>, rest: Text)
    requires forall l :: l in lines ==> NoNewline(l)
    ensures Lines(Written(lines) + rest) == lines + Lines(rest)
    decreases |lines|
  {
    hide Lines, NoNewline;
    if lines == [] {
      assert Written(lines) + rest == rest;
    } else {
      Regroup(lines[0] + [LF], Written(lines[1..]), rest);
      FirstWritten(lines[0], Written(lines[1..]) + rest);
      WrittenThen(lines[1..], rest);
      Regroup([lines[0]], lines[1..], Lines(rest));
      assert lines == [lines[0]] + lines[1..];
    }
  }

  lemma {:induction false} WrittenAppend(a: seq<Text>, b: seq<Text>)
    ensures Written(a + b) == Written(a) + Written(b)
  {
    if a == [] {
      assert a + b == b;
    } else {
      assert (a + b)[1..] == a[1..] + b;
      WrittenAppend(a[1..], b);
    }
  }

  /** What lines are: they end at CR LF, at LF, or at a CR that no LF follows; what is left over is a line. */
  lemma LinesAre(line: Text, rest: Text)
    requires forall k :: 0 <= k < |line| ==> line[k] != 0x0A && line[k] != 0x0D
    ensures Lines(line) == if |line| == 0 then [] else [line]
    ensures Lines(line + [0x0A] + rest) == [line] + Lines(rest)
    ensures Lines(line + [0x0D, 0x0A] + rest) == [line] + Lines(rest)
    ensures rest == [] || rest[0] != 0x0A ==> Lines(line + [0x0D] + rest) == [line] + Lines(rest)
  {
    if line != [] {
      assert NewlineAt(line, 0) == |line|;
    }
    LineBefore(line, [LF], rest);
    LineBefore(line, [CR, LF], rest);
    if rest == [] || rest[0] != LF { LineBefore(line, [CR], rest); }
  }

  lemma LineBefore(line: Text, end: Text, rest: Text)
    requires NoNewline(line)
    requires end == [LF] || end == [CR, LF] || (end == [CR] && (rest == [] || rest[0] != LF))
    ensures Lines(line + end + rest) == [line] + Lines(rest)
  {
    var s := line + end + rest;
    assert forall k :: 0 <= k < |line| ==> s[k] == line[k];
    assert s[|line|] == end[0];
    NewlineIs(s, |line|);
    assert s[..|line|] == line;
    if |end| == 2 {
      assert s[|line| + 1] == LF;
    } else if rest != [] {
      assert s[|line| + 1] == rest[0];
    }
    assert NextLine(s, |line|) == |line| + |end|;
    assert s[|line| + |end|..] == rest;
  }

  /** Chunks come to what they hold, one after another. */
  lemma {:induction false} FlattenAppend(a: seq<Text>, b: seq<Text>)
    ensures Flatten(a + b) == Flatten(a) + Flatten(b)
    ensures |a| == 1 ==> Flatten(a) == a[0]
    ensures Flatten([]) == []
  {
    if a == [] {
      assert a + b == b;
    } else {
      assert (a + b)[1..] == a[1..] + b;
      FlattenAppend(a[1..], b);
      if |a| == 1 { assert a[1..] == [] && a[0] + [] == a[0]; }
    }
  }
}
