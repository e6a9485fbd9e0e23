/**
 The leaves of the JSON grammar as RFC 8259 writes them: numbers by their parts, strings by their
 pieces, white space.
 */
module JsonLeaves {
  import opened CodeUnits
  import opened JsonGrammar

  // ----- numbers -----

  predicate Digits(s: Text) { s != [] && forall i :: 0 <= i < |s| ==> 0x30 <= s[i] <= 0x39 }

  /** A number's parts: a sign or none, digits without a needless zero, a fraction or none, an exponent or none. */
  datatype Parts = Parts(minus: Text, whole: Text, fraction: Text, exponent: Text)

  predicate IsMinus(s: Text) { s == [] || s == [0x2D] }

  predicate IsWhole(s: Text) { Digits(s) && (s[0] == 0x30 ==> |s| == 1) }

  predicate IsFraction(s: Text) { s == [] || (s[0] == 0x2E && Digits(s[1..])) }

  predicate IsExponent(s: Text) {
    || s == []
    || ((s[0] == 0x65 || s[0] == 0x45)
        && (Digits(s[1..]) || (|s| >= 2 && (s[1] == 0x2B || s[1] == 0x2D) && Digits(s[2..]))))
  }

  predicate IsNumberOf(s: Text, p: Parts) {
    && s == p.minus + p.whole + p.fraction + p.exponent
    && IsMinus(p.minus) && IsWhole(p.whole) && IsFraction(p.fraction) && IsExponent(p.exponent)
  }

  /** What has been read when the automaton is in state `q`. */
  predicate ReadUpTo(s: Text, p: Parts, q: NumState) {
    && s == p.minus + p.whole + p.fraction + p.exponent && IsMinus(p.minus)
    && match q
       case Start => s == [] && p.minus == []
       case Sign => p.minus == [0x2D] && p.whole == p.fraction == p.exponent == []
       case Zero => p.whole == [0x30] && p.fraction == p.exponent == []
       case Whole => IsWhole(p.whole) && p.whole[0] != 0x30 && p.fraction == p.exponent == []
       case Point => IsWhole(p.whole) && p.fraction == [0x2E] && p.exponent == []
       case Fraction => IsWhole(p.whole) && p.fraction != [] && IsFraction(p.fraction) && p.exponent == []
       case Mark =>
         && IsWhole(p.whole) && IsFraction(p.fraction) && |p.exponent| == 1
         && (p.exponent[0] == 0x65 || p.exponent[0] == 0x45)
       case MarkSign =>
         && IsWhole(p.whole) && IsFraction(p.fraction) && |p.exponent| == 2
         && (p.exponent[0] == 0x65 || p.exponent[0] == 0x45) && (p.exponent[1] == 0x2B || p.exponent[1] == 0x2D)
       case Exponent => IsWhole(p.whole) && IsFraction(p.fraction) && p.exponent != [] && IsExponent(p.exponent)
       case Dead => false
  }

  /** The next character goes to the part that is being read. */
  function PartsStep(p: Parts, q: NumState, c: CodeUnit): Parts {
    match NumStep(q, c)
    case Sign => p.(minus := [c])
    case Zero => p.(whole := [c])
    case Whole => p.(whole := p.whole + [c])
    case Point => p.(fraction := [c])
    case Fraction => p.(fraction := p.fraction + [c])
    case _ => p.(exponent := p.exponent + [c])
  }

  lemma DigitsNext(s: Text, c: CodeUnit)
    requires IsDigit(c) && (s == [] || Digits(s))
    ensures Digits(s + [c])
  {
  }

  lemma PartsNext(s: Text, p: Parts, q: NumState, c: CodeUnit)
    requires ReadUpTo(s, p, q) && NumStep(q, c) != Dead
    ensures var n := PartsStep(p, q, c); s + [c] == n.minus + n.whole + n.fraction + n.exponent
  {
    PartsBefore(s, p, q, c);
    hide ReadUpTo, NumStep;
    Grown(p.minus, p.whole, p.fraction, p.exponent, c);
  }

  /** The parts behind the one that is being read are still empty, and so is that one when it has just begun. */
  lemma PartsBefore(s: Text, p: Parts, q: NumState, c: CodeUnit)
    requires ReadUpTo(s, p, q) && NumStep(q, c) != Dead
    ensures s == p.minus + p.whole + p.fraction + p.exponent
    ensures match NumStep(q, c)
      case Sign => p.minus == p.whole == p.fraction == p.exponent == []
      case Zero => p.whole == p.fraction == p.exponent == []
      case Whole => p.fraction == p.exponent == []
      case Point => p.fraction == p.exponent == []
      case Fraction => p.exponent == []
      case _ => true
  {
    hide IsFraction, IsExponent, IsWhole;
  }

  lemma Grown(a: Text, b: Text, c: Text, d: Text, x: CodeUnit)
    ensures a + b + c + d + [x] == a + b + c + (d + [x])
    ensures d == [] ==> a + b + c + d + [x] == a + b + (c + [x]) + d
    ensures d == [] && c == [] ==> a + b + c + d + [x] == a + (b + [x]) + c + d
    ensures d == [] && c == [] && b == [] ==> a + b + c + d + [x] == (a + [x]) + b + c + d
    ensures [] + [x] == [x]
  {
  }

  lemma FractionNext(s: Text, c: CodeUnit)
    requires IsDigit(c) && (s == [0x2E] || (s != [] && IsFraction(s)))
    ensures IsFraction(s + [c])
  {
    assert (s + [c])[1..] == s[1..] + [c];
    DigitsNext(s[1..], c);
  }

  lemma ExponentNext(s: Text, c: CodeUnit)
    requires IsDigit(c) && s != [] && (s[0] == 0x65 || s[0] == 0x45)
    requires |s| == 1 || (|s| == 2 && (s[1] == 0x2B || s[1] == 0x2D)) || IsExponent(s)
    ensures IsExponent(s + [c])
  {
    assert (s + [c])[1..] == s[1..] + [c];
    if |s| == 1 || Digits(s[1..]) {
      DigitsNext(s[1..], c);
    } else {
      assert (s + [c])[2..] == s[2..] + [c];
      DigitsNext(s[2..], c);
    }
  }

  lemma ReadNext(s: Text, p: Parts, q: NumState, c: CodeUnit)
    requires ReadUpTo(s, p, q) && NumStep(q, c) != Dead
    ensures ReadUpTo(s + [c], PartsStep(p, q, c), NumStep(q, c))
  {
    PartsNext(s, p, q, c);
    hide IsFraction, IsExponent;
    match NumStep(q, c)
    case Whole => if q.Whole? { DigitsNext(p.whole, c); }
    case Fraction => FractionNext(p.fraction, c);
    case Exponent => ExponentNext(p.exponent, c);
    case Mark => NoFraction();
    case _ =>
  }

  lemma NoFraction()
    ensures IsFraction([])
  {
  }

  lemma {:induction false} ReadsParts(s: Text) returns (p: Parts)
    requires NumRun(s) != Dead
    ensures ReadUpTo(s, p, NumRun(s))
  {
    p := Parts([], [], [], []);
    if s != [] {
      var earlier, c := s[..|s| - 1], s[|s| - 1];
      var before := ReadsParts(earlier);
      assert s == earlier + [c];
      hide ReadUpTo, PartsStep;
      ReadNext(earlier, before, NumRun(earlier), c);
      p := PartsStep(before, NumRun(earlier), c);
    }
  }

  function RunOn(q: NumState, s: Text): NumState {
    if s == [] then q else NumStep(RunOn(q, s[..|s| - 1]), s[|s| - 1])
  }

  lemma {:induction false} RunAppend(a: Text, b: Text)
    ensures NumRun(a + b) == RunOn(NumRun(a), b)
  {
    hide NumStep;
    if b == [] {
      assert a + b == a;
    } else {
      assert (a + b)[..|a + b| - 1] == a + b[..|b| - 1];
      RunAppend(a, b[..|b| - 1]);
    }
  }

  lemma {:induction false} RunDigits(q: NumState, s: Text)
    requires Digits(s)
    ensures q.Whole? || q.Fraction? || q.Exponent? ==> RunOn(q, s) == q
    ensures q.Point? ==> RunOn(q, s) == Fraction
    ensures q.Mark? || q.MarkSign? ==> RunOn(q, s) == Exponent
    ensures q.Start? || q.Sign? ==>
      RunOn(q, s) == if s[0] != 0x30 then Whole else if |s| == 1 then Zero else Dead
  {
    var earlier := s[..|s| - 1];
    if earlier == [] {
      assert RunOn(q, []) == q;
    } else {
      RunDigits(q, earlier);
    }
  }

  lemma RunFirst(q: NumState, c: CodeUnit, s: Text)
    ensures RunOn(q, [c] + s) == RunOn(NumStep(q, c), s)
    decreases |s|
  {
    hide NumStep;
    if s == [] {
      assert [c] + s == [c] && [c][..0] == [];
      assert RunOn(q, []) == q;
    } else {
      assert ([c] + s)[..|s|] == [c] + s[..|s| - 1];
      RunFirst(q, c, s[..|s| - 1]);
    }
  }

  lemma RunExponent(q: NumState, s: Text)
    requires IsExponent(s) && (q.Zero? || q.Whole? || q.Fraction?)
    ensures RunOn(q, s) == if s == [] then q else Exponent
  {
    if s != [] {
      var rest := s[1..];
      assert s == [s[0]] + rest;
      RunFirst(q, s[0], rest);
      if Digits(rest) {
        RunDigits(Mark, rest);
      } else {
        assert rest == [s[1]] + s[2..];
        RunFirst(Mark, s[1], s[2..]);
        RunDigits(MarkSign, s[2..]);
      }
    }
  }

  lemma RunFraction(q: NumState, s: Text)
    requires IsFraction(s) && (q.Zero? || q.Whole?)
    ensures RunOn(q, s) == if s == [] then q else Fraction
  {
    if s != [] {
      assert s == [s[0]] + s[1..];
      RunFirst(q, s[0], s[1..]);
      RunDigits(Point, s[1..]);
    }
  }

  lemma RunsParts(s: Text, p: Parts)
    requires IsNumberOf(s, p)
    ensures IsJsonNumber(s)
  {
    hide NumStep;
    RunAppend(p.minus + p.whole + p.fraction, p.exponent);
    RunAppend(p.minus + p.whole, p.fraction);
    RunAppend(p.minus, p.whole);
    assert NumRun(p.minus) == if p.minus == [] then Start else Sign by { MinusRun(); }
    RunDigits(NumRun(p.minus), p.whole);
    hide NumRun, RunOn;
    RunFraction(NumRun(p.minus + p.whole), p.fraction);
    RunExponent(NumRun(p.minus + p.whole + p.fraction), p.exponent);
  }

  lemma MinusRun()
    ensures NumRun([]) == Start && NumRun([0x2D]) == Sign
  {
    assert [MINUS][..0] == [];
  }

  /** Section 6: a number is a sign or none, a whole part, a fraction or none and an exponent or none. */
  lemma NumberIs(s: Text)
    ensures IsJsonNumber(s) <==> exists p :: IsNumberOf(s, p)
  {
    if IsJsonNumber(s) {
      var p := ReadsParts(s);
      assert IsNumberOf(s, p);
    }
    if p :| IsNumberOf(s, p) { RunsParts(s, p); }
  }

  /** Section 7: a character that stands for itself, or an escape. */
  predicate IsPiece(piece: Text) {
    || (|piece| == 1 && piece[0] >= 0x20 && piece[0] != 0x22 && piece[0] != 0x5C)
    || (|piece| == 2 && piece[0] == 0x5C && piece[1] in {0x22, 0x5C, 0x2F, 0x62, 0x66, 0x6E, 0x72, 0x74})
    || (|piece| == 6 && piece[0] == 0x5C && piece[1] == 0x75 && forall i :: 2 <= i < 6 ==> IsHex(piece[i]))
  }

  predicate IsHex(c: CodeUnit) { 0x30 <= c <= 0x39 || 0x41 <= c <= 0x46 || 0x61 <= c <= 0x66 }

  lemma PieceBody(s: Text, n: nat)
    requires 1 <= n <= |s| && IsPiece(s[..n]) && IsStringBody(s[n..])
    ensures IsStringBody(s)
  {
    assert forall i :: 0 <= i < n ==> s[..n][i] == s[i];
    if n == 6 { assert IsHex(s[..6][2]) && IsHex(s[..6][3]) && IsHex(s[..6][4]) && IsHex(s[..6][5]); }
  }

  lemma BodyPiece(s: Text) returns (n: nat)
    requires s != [] && IsStringBody(s)
    ensures 1 <= n <= |s| && IsPiece(s[..n]) && IsStringBody(s[n..])
  {
    n := if s[0] != BACKSLASH then 1 else if IsSimpleEscape(s[1]) then 2 else 6;
    assert forall i :: 0 <= i < n ==> s[..n][i] == s[i];
  }

  /** A string's body is pieces one after another. */
  lemma BodyIs(s: Text)
    ensures IsStringBody([])
    ensures s != [] ==> (IsStringBody(s) <==> exists n :: 1 <= n <= |s| && IsPiece(s[..n]) && IsStringBody(s[n..]))
  {
    assert IsStringBody([]);
    hide IsStringBody, IsPiece;
    if s != [] && IsStringBody(s) { var n := BodyPiece(s); }
    if s != [] && exists n :: 1 <= n <= |s| && IsPiece(s[..n]) && IsStringBody(s[n..]) {
      var n :| 1 <= n <= |s| && IsPiece(s[..n]) && IsStringBody(s[n..]);
      PieceBody(s, n);
    }
  }

  /** Section 2: white space. */
  lemma SpaceIs(c: CodeUnit)
    ensures IsWs(c) <==> c == 0x20 || c == 0x09 || c == 0x0A || c == 0x0D
  {
  }
}
