/**
 Repair at the level of tokens: whatever number of a container's tokens has arrived, stripping and
 closing them yields exactly the tokens of the part of the container those tokens show.
 */
module PartialJsonRepair {
  import opened CodeUnits
  import opened JsonGrammar
  import opened PartialJson

  // ----- the visible part of a value, and the partial-view order -----

  /** What the first `k` tokens of a container show of it: finished leaves, and open containers as far as they go. */
  function Seen(v: Json, k: nat): Json
    requires IsContainer(v) && k >= 1
    decreases v, 0
  {
    match v
    case Array(items) => Array(SeenItems(items, k - 1))
    case Object(members) => Object(SeenMembers(members, k - 1))
  }

  function SeenValue(v: Json, k: nat): Json
    requires k >= 1
    decreases v, 1
  {
    if IsContainer(v) && k < |Tokens(v)| then Seen(v, k) else v
  }

  function SeenItems(items: seq<Json>, k: nat): seq<Json>
    decreases items, 0
  {
    if items == [] then []
    else
      var earlier, last := items[..|items| - 1], items[|items| - 1];
      var j := k - |ItemTokens(earlier)| - |Between(earlier)|;
      if k <= |ItemTokens(earlier)| then SeenItems(earlier, k)
      else if j <= 0 then earlier
      else earlier + [SeenValue(last, j)]
  }

  function SeenMembers(members: seq<Member>, k: nat): seq<Member>
    decreases members, 0
  {
    if members == [] then []
    else
      var earlier, last := members[..|members| - 1], members[|members| - 1];
      var j := k - |MemberTokens(earlier)| - |Between(earlier)| - 2;
      if k <= |MemberTokens(earlier)| then SeenMembers(earlier, k)
      else if j <= 0 then earlier
      else earlier + [Member(last.key, SeenValue(last.value, j))]
  }

  /**
   `p` could be an earlier view of `f`: entries arrive in order, all but the last are final, and
   only an array or object can be shown before it is complete.
   */
  predicate PartialOf(p: Json, f: Json)
    decreases p, 0
  {
    match p
    case Array(items) => f.Array? && ItemsPartialOf(items, f.items)
    case Object(members) => f.Object? && MembersPartialOf(members, f.members)
    case _ => p == f
  }

  predicate ItemsPartialOf(p: seq<Json>, f: seq<Json>)
    decreases p, 1
  {
    p == [] || (|p| <= |f| && p[..|p| - 1] == f[..|p| - 1] && PartialOf(p[|p| - 1], f[|p| - 1]))
  }

  predicate MembersPartialOf(p: seq<Member>, f: seq<Member>)
    decreases p, 1
  {
    p == [] || (
      && |p| <= |f| && p[..|p| - 1] == f[..|p| - 1] && p[|p| - 1].key == f[|p| - 1].key
      && PartialOf(p[|p| - 1].value, f[|p| - 1].value))
  }

  lemma {:induction false} PartialOfSelf(v: Json)
    ensures PartialOf(v, v)
  {
    match v
    case Array(items) =>
      if items != [] { PartialOfSelf(items[|items| - 1]); }
    case Object(members) =>
      if members != [] { PartialOfSelf(members[|members| - 1].value); }
    case _ =>
  }

  lemma {:induction false} PartialOfTransitive(a: Json, b: Json, c: Json)
    requires PartialOf(a, b) && PartialOf(b, c)
    ensures PartialOf(a, c)
    decreases a
  {
    match a
    case Array(items) =>
      if items != [] {
        var n := |items|;
        assert b.items[..n - 1] == b.items[..|b.items| - 1][..n - 1];
        if n == |b.items| {
          PartialOfTransitive(items[n - 1], b.items[n - 1], c.items[n - 1]);
        } else {
          assert b.items[..|b.items| - 1][n - 1] == c.items[..|b.items| - 1][n - 1];
        }
        assert c.items[..n - 1] == c.items[..|b.items| - 1][..n - 1];
      }
    case Object(members) =>
      if members != [] {
        var n := |members|;
        assert b.members[..n - 1] == b.members[..|b.members| - 1][..n - 1];
        if n == |b.members| {
          PartialOfTransitive(members[n - 1].value, b.members[n - 1].value, c.members[n - 1].value);
        } else {
          assert b.members[..|b.members| - 1][n - 1] == c.members[..|b.members| - 1][n - 1];
        }
        assert c.members[..n - 1] == c.members[..|b.members| - 1][..n - 1];
      }
    case _ =>
  }

  // ----- a longer prefix never takes back what a shorter one showed -----

  lemma {:induction false} SeenAll(v: Json, k: nat)
    requires IsContainer(v) && k >= |Tokens(v)|
    ensures Seen(v, k) == v
    decreases v, 0
  {
    match v
    case Array(items) => SeenAllItems(items, k - 1);
    case Object(members) => SeenAllMembers(members, k - 1);
  }

  lemma {:induction false} SeenAllItems(items: seq<Json>, k: nat)
    requires k >= |ItemTokens(items)|
    ensures SeenItems(items, k) == items
    decreases items, 0
  {
    if items != [] {
      assert items == items[..|items| - 1] + [items[|items| - 1]];
    }
  }

  lemma {:induction false} SeenAllMembers(members: seq<Member>, k: nat)
    requires k >= |MemberTokens(members)|
    ensures SeenMembers(members, k) == members
    decreases members, 0
  {
    if members != [] {
      assert members == members[..|members| - 1] + [members[|members| - 1]];
    }
  }

  lemma {:induction false} SeenGrows(v: Json, j: nat, k: nat)
    requires IsContainer(v) && 1 <= j <= k
    ensures PartialOf(Seen(v, j), Seen(v, k))
    decreases v, 0
  {
    match v
    case Array(items) => SeenItemsGrow(items, j - 1, k - 1);
    case Object(members) => SeenMembersGrow(members, j - 1, k - 1);
  }

  lemma {:induction false} SeenValueGrows(v: Json, j: nat, k: nat)
    requires 1 <= j <= k
    ensures PartialOf(SeenValue(v, j), SeenValue(v, k))
    decreases v, 1
  {
    if IsContainer(v) && j < |Tokens(v)| {
      if k >= |Tokens(v)| { SeenAll(v, k); }
      SeenGrows(v, j, k);
    } else {
      PartialOfSelf(v);
    }
  }

  lemma ItemsExtend(p: seq<Json>, f: seq<Json>, more: seq<Json>)
    requires ItemsPartialOf(p, f)
    ensures ItemsPartialOf(p, f + more)
  {
    if p != [] {
      assert (f + more)[..|p| - 1] == f[..|p| - 1];
    }
  }

  lemma ItemsLast(earlier: seq<Json>, x: Json, y: Json)
    requires PartialOf(x, y)
    ensures ItemsPartialOf(earlier + [x], earlier + [y])
  {
    assert (earlier + [x])[..|earlier|] == earlier == (earlier + [y])[..|earlier|];
  }

  lemma ItemsSelf(items: seq<Json>)
    ensures ItemsPartialOf(items, items)
  {
    if items != [] { PartialOfSelf(items[|items| - 1]); }
  }

  lemma {:induction false} SeenItemsGrow(items: seq<Json>, j: nat, k: nat)
    requires j <= k
    ensures ItemsPartialOf(SeenItems(items, j), SeenItems(items, k))
    decreases items, 0
  {
    if items != [] {
      var earlier, last := items[..|items| - 1], items[|items| - 1];
      var n := |ItemTokens(earlier)| + |Between(earlier)|;
      if k <= |ItemTokens(earlier)| {
        SeenItemsGrow(earlier, j, k);
      } else if j > n {
        SeenValueGrows(last, j - n, k - n);
        ItemsLast(earlier, SeenValue(last, j - n), SeenValue(last, k - n));
      } else {
        var a := SeenItems(items, j);
        assert ItemsPartialOf(a, earlier) by {
          if j <= |ItemTokens(earlier)| {
            SeenItemsGrow(earlier, j, |ItemTokens(earlier)|);
            SeenAllItems(earlier, |ItemTokens(earlier)|);
          } else {
            ItemsSelf(earlier);
          }
        }
        if k > n { ItemsExtend(a, earlier, [SeenValue(last, k - n)]); }
      }
    }
  }

  lemma MembersExtend(p: seq<Member>, f: seq<Member>, more: seq<Member>)
    requires MembersPartialOf(p, f)
    ensures MembersPartialOf(p, f + more)
  {
    if p != [] {
      assert (f + more)[..|p| - 1] == f[..|p| - 1];
    }
  }

  lemma MembersLast(earlier: seq<Member>, key: Text, x: Json, y: Json)
    requires PartialOf(x, y)
    ensures MembersPartialOf(earlier + [Member(key, x)], earlier + [Member(key, y)])
  {
    assert (earlier + [Member(key, x)])[..|earlier|] == earlier == (earlier + [Member(key, y)])[..|earlier|];
  }

  lemma MembersSelf(members: seq<Member>)
    ensures MembersPartialOf(members, members)
  {
    if members != [] { PartialOfSelf(members[|members| - 1].value); }
  }

  lemma {:induction false} SeenMembersGrow(members: seq<Member>, j: nat, k: nat)
    requires j <= k
    ensures MembersPartialOf(SeenMembers(members, j), SeenMembers(members, k))
    decreases members, 0
  {
    if members != [] {
      var earlier, last := members[..|members| - 1], members[|members| - 1];
      var n := |MemberTokens(earlier)| + |Between(earlier)| + 2;
      if k <= |MemberTokens(earlier)| {
        SeenMembersGrow(earlier, j, k);
      } else if j > n {
        SeenValueGrows(last.value, j - n, k - n);
        MembersLast(earlier, last.key, SeenValue(last.value, j - n), SeenValue(last.value, k - n));
      } else {
        var a := SeenMembers(members, j);
        assert MembersPartialOf(a, earlier) by {
          if j <= |MemberTokens(earlier)| {
            SeenMembersGrow(earlier, j, |MemberTokens(earlier)|);
            SeenAllMembers(earlier, |MemberTokens(earlier)|);
          } else {
            MembersSelf(earlier);
          }
        }
        if k > n { MembersExtend(a, earlier, [Member(last.key, SeenValue(last.value, k - n))]); }
      }
    }
  }

  lemma {:induction false} SeenWellSpelled(v: Json, k: nat)
    requires IsContainer(v) && k >= 1 && WellSpelled(v)
    ensures WellSpelled(Seen(v, k))
    decreases v, 0
  {
    match v
    case Array(items) => SeenItemsWellSpelled(items, k - 1);
    case Object(members) => SeenMembersWellSpelled(members, k - 1);
  }

  lemma {:induction false} SeenItemsWellSpelled(items: seq<Json>, k: nat)
    requires WellSpelled(Array(items))
    ensures WellSpelled(Array(SeenItems(items, k)))
    decreases items, 0
  {
    if items != [] {
      var earlier, last := items[..|items| - 1], items[|items| - 1];
      var j := k - |ItemTokens(earlier)| - |Between(earlier)|;
      SeenItemsWellSpelled(earlier, k);
      if j > 0 && IsContainer(last) { SeenWellSpelled(last, j); }
    }
  }

  lemma {:induction false} SeenMembersWellSpelled(members: seq<Member>, k: nat)
    requires WellSpelled(Object(members))
    ensures WellSpelled(Object(SeenMembers(members, k)))
    decreases members, 0
  {
    if members != [] {
      var earlier, last := members[..|members| - 1], members[|members| - 1];
      var j := k - |MemberTokens(earlier)| - |Between(earlier)| - 2;
      SeenMembersWellSpelled(earlier, k);
      if j > 0 && IsContainer(last.value) { SeenWellSpelled(last.value, j); }
    }
  }

  // ----- the brackets left open by a prefix -----

  function Pending(v: Json, k: nat): seq<Bracket>
    decreases v, 0
  {
    if k == 0 || k >= |Tokens(v)| then []
    else
      match v
      case Array(items) => [Square] + PendingItems(items, k - 1)
      case Object(members) => [Curly] + PendingMembers(members, k - 1)
      case _ => []
  }

  function PendingItems(items: seq<Json>, k: nat): seq<Bracket>
    decreases items, 0
  {
    if items == [] then []
    else
      var earlier, last := items[..|items| - 1], items[|items| - 1];
      var j := k - |ItemTokens(earlier)| - |Between(earlier)|;
      if k <= |ItemTokens(earlier)| then PendingItems(earlier, k)
      else if j <= 0 then []
      else Pending(last, j)
  }

  function PendingMembers(members: seq<Member>, k: nat): seq<Bracket>
    decreases members, 0
  {
    if members == [] then []
    else
      var earlier, last := members[..|members| - 1], members[|members| - 1];
      var j := k - |MemberTokens(earlier)| - |Between(earlier)| - 2;
      if k <= |MemberTokens(earlier)| then PendingMembers(earlier, k)
      else if j <= 0 then []
      else Pending(last.value, j)
  }

  /** Both bracket stacks, `strip`'s and `unstrip`'s, take `st` to `st'` over `ts`. */
  predicate Stacks(st: seq<Bracket>, ts: seq<Token>, st': seq<Bracket>) {
    OpenAfter(st, ts) == st' && TailAfter(st, ts) == st'
  }

  lemma {:induction false} OpenAfterAppend(st: seq<Bracket>, a: seq<Token>, b: seq<Token>)
    ensures OpenAfter(st, a + b) == OpenAfter(OpenAfter(st, a), b)
  {
    if b == [] {
      assert a + b == a;
    } else {
      assert (a + b)[..|a + b| - 1] == a + b[..|b| - 1];
      OpenAfterAppend(st, a, b[..|b| - 1]);
    }
  }

  lemma {:induction false} TailAfterAppend(st: seq<Bracket>, a: seq<Token>, b: seq<Token>)
    ensures TailAfter(st, a + b) == TailAfter(TailAfter(st, a), b)
  {
    if b == [] {
      assert a + b == a;
    } else {
      assert (a + b)[..|a + b| - 1] == a + b[..|b| - 1];
      TailAfterAppend(st, a, b[..|b| - 1]);
    }
  }

  lemma StacksAppend(st: seq<Bracket>, a: seq<Token>, st': seq<Bracket>, b: seq<Token>, st'': seq<Bracket>)
    requires Stacks(st, a, st') && Stacks(st', b, st'')
    ensures Stacks(st, a + b, st'')
  {
    OpenAfterAppend(st, a, b);
    TailAfterAppend(st, a, b);
  }

  lemma {:induction false} StacksPlain(st: seq<Bracket>, ts: seq<Token>)
    requires forall i :: 0 <= i < |ts| ==> !IsBracket(ts[i])
    ensures Stacks(st, ts, st)
  {
    if ts != [] {
      StacksPlain(st, ts[..|ts| - 1]);
    }
  }

  lemma StacksOne(st: seq<Bracket>)
    ensures Stacks(st, [OPEN_PAREN], st + [Square]) && Stacks(st, [OPEN_BRACE], st + [Curly])
    ensures Stacks(st + [Square], [CLOSE_PAREN], st) && Stacks(st + [Curly], [CLOSE_BRACE], st)
  {
  }

  /** Opening `b`, running `inner`, and closing again. */
  lemma StacksEnclosed(st: seq<Bracket>, b: Bracket, inner: seq<Token>)
    requires Stacks(st + [b], inner, st + [b])
    ensures Stacks(st, [Opener(b)] + inner + [Closer(b)], st)
  {
    StacksOne(st);
    StacksAppend(st, [Opener(b)], st + [b], inner, st + [b]);
    StacksAppend(st, [Opener(b)] + inner, st + [b], [Closer(b)], st);
  }

  function Opener(b: Bracket): Token { if b == Curly then OPEN_BRACE else OPEN_PAREN }

  lemma {:induction false} StacksPrefix(st: seq<Bracket>, v: Json, k: nat)
    requires k <= |Tokens(v)|
    ensures Stacks(st, Tokens(v)[..k], st + Pending(v, k))
    decreases v, 1
  {
    if k == |Tokens(v)| {
      assert Tokens(v)[..k] == Tokens(v);
      StacksWhole(st, v);
    } else if k > 0 {
      match v {
        case Array(items) => StacksOpenArray(st, items, k - 1);
        case Object(members) => StacksOpenObject(st, members, k - 1);
      }
    }
  }

  lemma {:induction false} StacksWhole(st: seq<Bracket>, v: Json)
    ensures Stacks(st, Tokens(v), st)
    decreases v, 0
  {
    hide Stacks;
    match v
    case Array(items) =>
      var inner := ItemTokens(items);
      assert st + [Square] + [] == st + [Square];
      StacksItems(st + [Square], items, |inner|);
      PendingAllItems(items);
      assert inner[..|inner|] == inner;
      StacksEnclosed(st, Square, inner);
    case Object(members) =>
      var inner := MemberTokens(members);
      assert st + [Curly] + [] == st + [Curly];
      StacksMembers(st + [Curly], members, |inner|);
      PendingAllMembers(members);
      assert inner[..|inner|] == inner;
      StacksEnclosed(st, Curly, inner);
    case _ =>
      StacksPlain(st, Tokens(v));
  }

  lemma {:induction false} StacksOpenArray(st: seq<Bracket>, items: seq<Json>, k: nat)
    requires k <= |ItemTokens(items)|
    ensures Stacks(st, Tokens(Array(items))[..k + 1], st + ([Square] + PendingItems(items, k)))
    decreases items, 1
  {
    StacksOne(st);
    StacksItems(st + [Square], items, k);
    assert Tokens(Array(items))[..k + 1] == [OPEN_PAREN] + ItemTokens(items)[..k];
    assert st + [Square] + PendingItems(items, k) == st + ([Square] + PendingItems(items, k));
    StacksAppend(st, [OPEN_PAREN], st + [Square], ItemTokens(items)[..k], st + ([Square] + PendingItems(items, k)));
  }

  lemma {:induction false} StacksOpenObject(st: seq<Bracket>, members: seq<Member>, k: nat)
    requires k <= |MemberTokens(members)|
    ensures Stacks(st, Tokens(Object(members))[..k + 1], st + ([Curly] + PendingMembers(members, k)))
    decreases members, 1
  {
    StacksOne(st);
    StacksMembers(st + [Curly], members, k);
    assert Tokens(Object(members))[..k + 1] == [OPEN_BRACE] + MemberTokens(members)[..k];
    assert st + [Curly] + PendingMembers(members, k) == st + ([Curly] + PendingMembers(members, k));
    StacksAppend(st, [OPEN_BRACE], st + [Curly], MemberTokens(members)[..k],
                 st + ([Curly] + PendingMembers(members, k)));
  }

  lemma PendingAllItems(items: seq<Json>)
    ensures PendingItems(items, |ItemTokens(items)|) == []
  {
  }

  lemma PendingAllMembers(members: seq<Member>)
    ensures PendingMembers(members, |MemberTokens(members)|) == []
  {
  }

  lemma {:induction false} StacksItems(st: seq<Bracket>, items: seq<Json>, k: nat)
    requires k <= |ItemTokens(items)|
    ensures Stacks(st, ItemTokens(items)[..k], st + PendingItems(items, k))
    decreases items, 0
  {
    hide Stacks;
    if items == [] {
      StacksPlain(st, []);
      assert ItemTokens(items)[..k] == [] && st + PendingItems(items, k) == st;
    } else {
      var earlier, last := items[..|items| - 1], items[|items| - 1];
      var before := ItemTokens(earlier);
      if k <= |before| {
        StacksItems(st, earlier, k);
        assert ItemTokens(items)[..k] == before[..k];
      } else {
        StacksItems(st, earlier, |before|);
        PendingAllItems(earlier);
        assert before[..|before|] == before && st + [] == st;
        var j := k - |before| - |Between(earlier)|;
        if j > 0 { StacksPrefix(st, last, j); }
        StacksThird(st, before, Between(earlier), last, k);
      }
    }
  }

  /** A finished part, then plain tokens, then the beginning of a value. */
  lemma StacksThird(st: seq<Bracket>, before: seq<Token>, lead: seq<Token>, v: Json, k: nat)
    requires |before| <= k <= |before| + |lead| + |Tokens(v)|
    requires Stacks(st, before, st) && forall i :: 0 <= i < |lead| ==> !IsBracket(lead[i])
    requires var j := k - |before| - |lead|; j > 0 ==> Stacks(st, Tokens(v)[..j], st + Pending(v, j))
    ensures var j := k - |before| - |lead|;
      Stacks(st, (before + lead + Tokens(v))[..k], st + (if j <= 0 then [] else Pending(v, j)))
  {
    hide Stacks, Pending, Tokens;
    var i := if k - |before| < |lead| then k - |before| else |lead|;
    StacksPlain(st, lead[..i]);
    StacksAppend(st, before, st, lead[..i], st);
    if k <= |before| + |lead| {
      assert (before + lead + Tokens(v))[..k] == before + lead[..i];
      assert st + [] == st;
    } else {
      var j := k - |before| - |lead|;
      assert lead[..i] == lead;
      assert (before + lead + Tokens(v))[..k] == before + lead + Tokens(v)[..j];
      StacksAppend(st, before + lead, st, Tokens(v)[..j], st + Pending(v, j));
    }
  }

  lemma LeadPlain(earlier: seq<Member>, key: Text)
    ensures |Lead(earlier, key)| == |Between(earlier)| + 2
    ensures forall i :: 0 <= i < |Lead(earlier, key)| ==> !IsBracket(Lead(earlier, key)[i])
  {
  }

  lemma {:induction false} StacksMembers(st: seq<Bracket>, members: seq<Member>, k: nat)
    requires k <= |MemberTokens(members)|
    ensures Stacks(st, MemberTokens(members)[..k], st + PendingMembers(members, k))
    decreases members, 0
  {
    if members == [] {
      StacksPlain(st, []);
      assert MemberTokens(members)[..k] == [] && st + PendingMembers(members, k) == st;
    } else {
      var earlier, last := members[..|members| - 1], members[|members| - 1];
      var before := MemberTokens(earlier);
      var lead := Lead(earlier, last.key);
      assert members == earlier + [last];
      AppendMember(earlier, last);
      LeadPlain(earlier, last.key);
      hide Stacks, Tokens, MemberTokens, Pending, Lead;
      if k <= |before| {
        StacksMembers(st, earlier, k);
        assert MemberTokens(members)[..k] == before[..k];
      } else {
        StacksMembers(st, earlier, |before|);
        PendingAllMembers(earlier);
        assert before[..|before|] == before && st + [] == st;
        var j := k - |before| - |lead|;
        if j > 0 { StacksPrefix(st, last.value, j); }
        StacksThird(st, before, lead, last.value, k);
      }
    }
  }

  // ----- trimming -----

  lemma {:induction false} TrimmedLocal(a: seq<Token>, q: seq<Token>, inObject: bool)
    requires q != [] && IsBracket(q[0])
    ensures Trimmed(a + q, inObject) == a + Trimmed(q, inObject)
  {
    var ts, n := a + q, |q|;
    if n > 1 {
      assert ts[..|ts| - 1] == a + q[..n - 1];
      TrimmedLocal(a, q[..n - 1], inObject);
    }
  }

  lemma {:induction false} ClosersAppend(outer: seq<Bracket>, inner: seq<Bracket>)
    ensures Closers(outer + inner) == Closers(inner) + Closers(outer)
  {
    if inner == [] {
      assert outer + inner == outer;
    } else {
      assert (outer + inner)[..|outer + inner| - 1] == outer + inner[..|inner| - 1];
      ClosersAppend(outer, inner[..|inner| - 1]);
    }
  }

  /** `strip` then `unstrip`, when `open` are the brackets left open. */
  function Mended(ts: seq<Token>, open: seq<Bracket>): seq<Token> {
    Trimmed(ts, InObject(open)) + Closers(open)
  }

  /** Mending an open container mends what is inside it. */
  lemma MendedInside(a: seq<Token>, b: Bracket, q: seq<Token>, open: seq<Bracket>)
    requires q != [] && IsBracket(q[0]) && open != []
    ensures Mended(a + q, [b] + open) == a + Mended(q, open) + [Closer(b)]
  {
    var kept := Trimmed(q, InObject(open));
    assert InObject([b] + open) == InObject(open);
    TrimmedLocal(a, q, InObject(open));
    ClosersAppend([b], open);
    ClosersOne(b);
    Regroup(a, kept, Closers(open), [Closer(b)]);
  }

  lemma Regroup(a: seq<Token>, b: seq<Token>, c: seq<Token>, d: seq<Token>)
    ensures (a + b) + (c + d) == a + (b + c) + d
  {
  }

  /** A finished value is not trimmed: it ends in a bracket, a name, a proper number or a string. */
  lemma MendedFinished(a: seq<Token>, b: Bracket, v: Json)
    requires a != [] && WellSpelled(v)
    requires b == Curly ==> !StartsMember(a[|a| - 1])
    ensures Mended(a + Tokens(v), [b]) == a + Tokens(v) + [Closer(b)]
  {
    var ts := a + Tokens(v);
    assert ts[|ts| - 1] == Tokens(v)[|Tokens(v)| - 1];
    assert v.String? ==> ts[..|ts| - 1][|ts| - 2] == a[|a| - 1];
    ClosersOne(b);
  }

  lemma ClosersOne(b: Bracket)
    ensures Closers([b]) == [Closer(b)]
  {
    assert [b][..0] == [];
  }

  /** A comma at the end goes, and nothing before it. */
  lemma MendedComma(a: seq<Token>, b: Bracket)
    ensures Mended(a + [COMMA_TOKEN], [b]) == a + [Closer(b)]
  {
    assert (a + [COMMA_TOKEN])[..|a|] == a;
    ClosersOne(b);
  }

  lemma CutEnclosed(open: Token, inner: seq<Token>, close: Token, k: nat)
    requires 1 <= k <= |inner| + 1
    ensures ([open] + inner + [close])[..k] == [open] + inner[..k - 1]
  {
  }

  lemma {:induction false} MendedPrefix(v: Json, k: nat)
    requires WellSpelled(v) && 1 <= k < |Tokens(v)|
    ensures IsContainer(v) && Mended(Tokens(v)[..k], Pending(v, k)) == Tokens(Seen(v, k))
    decreases v, 0
  {
    hide Mended;
    match v
    case Array(items) =>
      MendedItems(items, k - 1);
      CutEnclosed(OPEN_PAREN, ItemTokens(items), CLOSE_PAREN, k);
    case Object(members) =>
      MendedMembers(members, k - 1);
      CutEnclosed(OPEN_BRACE, MemberTokens(members), CLOSE_BRACE, k);
  }

  /** A value that has begun to arrive inside an open container. */
  lemma {:induction false} MendedValue(a: seq<Token>, b: Bracket, v: Json, k: nat)
    requires a != [] && WellSpelled(v) && 1 <= k <= |Tokens(v)|
    requires b == Curly ==> !StartsMember(a[|a| - 1])
    ensures Mended(a + Tokens(v)[..k], [b] + Pending(v, k)) == a + Tokens(SeenValue(v, k)) + [Closer(b)]
    decreases v, 1
  {
    if k == |Tokens(v)| {
      assert Tokens(v)[..k] == Tokens(v) && [b] + Pending(v, k) == [b];
      MendedFinished(a, b, v);
    } else {
      MendedPrefix(v, k);
      MendedInside(a, b, Tokens(v)[..k], Pending(v, k));
    }
  }

  lemma Flatten4(a: seq<Token>, b: seq<Token>, c: seq<Token>, d: seq<Token>, e: seq<Token>)
    ensures a + (b + c + d) + e == a + b + c + d + e
  {
  }

  lemma CutThird(a: seq<Token>, b: seq<Token>, c: seq<Token>, d: seq<Token>, k: nat)
    requires k <= |b| + |c| + |d|
    ensures k <= |b| ==> a + (b + c + d)[..k] == a + b[..k]
    ensures |b| <= k <= |b| + |c| ==> a + (b + c + d)[..k] == a + b + c[..k - |b|]
    ensures |b| + |c| <= k ==> a + (b + c + d)[..k] == a + b + c + d[..k - |b| - |c|]
  {
    var i := k - |b|;
    assert 0 <= i <= |c| ==> (b + c + d)[..k] == b + c[..i];
    assert |c| <= i ==> (b + c + d)[..k] == b + c + d[..i - |c|];
  }

  lemma AppendItem(earlier: seq<Json>, last: Json)
    ensures Tokens(Array(earlier + [last]))
         == [OPEN_PAREN] + ItemTokens(earlier) + Between(earlier) + Tokens(last) + [CLOSE_PAREN]
  {
    var items := earlier + [last];
    assert items[..|items| - 1] == earlier;
    Flatten4([OPEN_PAREN], ItemTokens(earlier), Between(earlier), Tokens(last), [CLOSE_PAREN]);
  }

  lemma {:induction false} MendedItems(items: seq<Json>, k: nat)
    requires WellSpelled(Array(items)) && k <= |ItemTokens(items)|
    ensures Mended([OPEN_PAREN] + ItemTokens(items)[..k], [Square] + PendingItems(items, k))
         == Tokens(Array(SeenItems(items, k)))
    decreases items, 0
  {
    if items == [] {
      ClosersOne(Square);
      assert [OPEN_PAREN] + ItemTokens(items)[..k] == [OPEN_PAREN];
      assert [Square] + PendingItems(items, k) == [Square];
    } else {
      var earlier, last := items[..|items| - 1], items[|items| - 1];
      var before, sep := ItemTokens(earlier), Between(earlier);
      CutThird([OPEN_PAREN], before, sep, Tokens(last), k);
      if k <= |before| {
        MendedItems(earlier, k);
      } else if k <= |before| + |sep| {
        assert sep[..k - |before|] == [COMMA_TOKEN];
        assert [Square] + PendingItems(items, k) == [Square];
        MendedComma([OPEN_PAREN] + before, Square);
      } else {
        MendedLastItem(earlier, last, k - |before| - |sep|);
      }
    }
  }

  lemma {:induction false} MendedLastItem(earlier: seq<Json>, last: Json, j: nat)
    requires WellSpelled(last) && 1 <= j <= |Tokens(last)|
    ensures Mended([OPEN_PAREN] + ItemTokens(earlier) + Between(earlier) + Tokens(last)[..j],
                   [Square] + Pending(last, j))
         == Tokens(Array(earlier + [SeenValue(last, j)]))
    decreases last, 2
  {
    MendedValue([OPEN_PAREN] + ItemTokens(earlier) + Between(earlier), Square, last, j);
    AppendItem(earlier, SeenValue(last, j));
  }

  /** A key without its value goes, with the colon and the comma around it. */
  lemma MendedKey(a: seq<Token>, sep: seq<Token>, name: seq<Token>)
    requires a != [] && IsBracket(a[0]) && (sep == [] ==> a == [OPEN_BRACE]) && (sep != [] ==> sep == [COMMA_TOKEN])
    requires |name| <= 2 && (|name| >= 1 ==> name[0].kind == Str) && (|name| == 2 ==> name[1] == COLON_TOKEN)
    requires sep + name != []
    ensures Mended(a + sep + name, [Curly]) == a + [CLOSE_BRACE]
  {
    ClosersOne(Curly);
    var lead := a + sep;
    assert Trimmed(lead, true) == a by {
      assert sep == [COMMA_TOKEN] ==> lead[..|lead| - 1] == a;
      assert sep == [] ==> lead == [OPEN_BRACE];
    }
    if |name| >= 1 {
      var keyed := lead + [name[0]];
      assert Trimmed(keyed, true) == a by {
        assert keyed[..|keyed| - 1] == lead && keyed[|keyed| - 1] == name[0];
      }
      if |name| == 2 {
        var named := lead + name;
        assert named[..|named| - 1] == keyed && named[|named| - 1] == COLON_TOKEN;
      } else {
        assert name == [name[0]];
      }
    } else {
      assert lead + name == lead;
    }
  }

  /** What stands before a member's value. */
  function Lead(earlier: seq<Member>, key: Text): seq<Token> { Between(earlier) + [StrToken(key), COLON_TOKEN] }

  lemma AppendMember(earlier: seq<Member>, last: Member)
    ensures MemberTokens(earlier + [last]) == MemberTokens(earlier) + Lead(earlier, last.key) + Tokens(last.value)
    ensures Tokens(Object(earlier + [last]))
         == [OPEN_BRACE] + MemberTokens(earlier) + Lead(earlier, last.key) + Tokens(last.value) + [CLOSE_BRACE]
  {
    var members := earlier + [last];
    assert members[..|members| - 1] == earlier;
    var before, sep, name := MemberTokens(earlier), Between(earlier), [StrToken(last.key), COLON_TOKEN];
    assert before + sep + name == before + (sep + name);
    Flatten4([OPEN_BRACE], before, sep + name, Tokens(last.value), [CLOSE_BRACE]);
  }

  lemma MendedNoMembers()
    ensures Mended([OPEN_BRACE], [Curly]) == Tokens(Object([]))
  {
    ClosersOne(Curly);
  }

  lemma MembersEarlier(earlier: seq<Member>, last: Member, k: nat)
    requires k <= |MemberTokens(earlier)|
    ensures k <= |MemberTokens(earlier + [last])|
    ensures MemberTokens(earlier + [last])[..k] == MemberTokens(earlier)[..k]
    ensures PendingMembers(earlier + [last], k) == PendingMembers(earlier, k)
    ensures SeenMembers(earlier + [last], k) == SeenMembers(earlier, k)
  {
    assert (earlier + [last])[..|earlier|] == earlier;
  }

  lemma {:induction false} MendedMembers(members: seq<Member>, k: nat)
    requires WellSpelled(Object(members)) && k <= |MemberTokens(members)|
    ensures Mended([OPEN_BRACE] + MemberTokens(members)[..k], [Curly] + PendingMembers(members, k))
         == Tokens(Object(SeenMembers(members, k)))
    decreases members, 0
  {
    if members == [] {
      MendedNoMembers();
      assert [OPEN_BRACE] + MemberTokens(members)[..k] == [OPEN_BRACE];
      assert [Curly] + PendingMembers(members, k) == [Curly];
    } else {
      var earlier, last := members[..|members| - 1], members[|members| - 1];
      SpelledParts(members);
      assert members == earlier + [last];
      hide Mended, WellSpelled, Tokens, Pending, PendingMembers, SeenMembers, MemberTokens;
      if k <= |MemberTokens(earlier)| {
        MembersEarlier(earlier, last, k);
        MendedMembers(earlier, k);
      } else {
        MendedPastEarlier(earlier, last, k);
      }
    }
  }

  lemma {:induction false} MendedPastEarlier(earlier: seq<Member>, last: Member, k: nat)
    requires WellSpelled(last.value)
    requires |MemberTokens(earlier)| < k <= |MemberTokens(earlier + [last])|
    ensures Mended([OPEN_BRACE] + MemberTokens(earlier + [last])[..k], [Curly] + PendingMembers(earlier + [last], k))
         == Tokens(Object(SeenMembers(earlier + [last], k)))
    decreases last, 3
  {
    var members := earlier + [last];
    assert members[..|members| - 1] == earlier && members[|members| - 1] == last;
    AppendMember(earlier, last);
    LeadPlain(earlier, last.key);
    var before, lead := MemberTokens(earlier), Lead(earlier, last.key);
    CutThird([OPEN_BRACE], before, lead, Tokens(last.value), k);
    hide Mended, WellSpelled, Tokens, MemberTokens, Pending, Lead;
    if k <= |before| + |lead| {
      assert [Curly] + PendingMembers(members, k) == [Curly];
      MendedLead(earlier, last.key, k - |before|);
    } else {
      MendedLastMember(earlier, last, k - |before| - |lead|);
    }
  }

  lemma SpelledParts(members: seq<Member>)
    requires WellSpelled(Object(members)) && members != []
    ensures WellSpelled(Object(members[..|members| - 1])) && WellSpelled(members[|members| - 1].value)
  {
  }

  lemma MendedLead(earlier: seq<Member>, key: Text, k: nat)
    requires 1 <= k <= |Lead(earlier, key)|
    ensures Mended([OPEN_BRACE] + MemberTokens(earlier) + Lead(earlier, key)[..k], [Curly]) == Tokens(Object(earlier))
  {
    hide Mended;
    var before, sep := MemberTokens(earlier), Between(earlier);
    var full := [StrToken(key), COLON_TOKEN];
    var name := full[..k - |sep|];
    assert (sep + full)[..k] == sep + name;
    Assoc([OPEN_BRACE] + before, sep, name);
    assert earlier == [] ==> [OPEN_BRACE] + before == [OPEN_BRACE];
    assert ([OPEN_BRACE] + before)[0] == OPEN_BRACE;
    MendedKey([OPEN_BRACE] + before, sep, name);
  }

  lemma Assoc(a: seq<Token>, b: seq<Token>, c: seq<Token>)
    ensures a + (b + c) == a + b + c
  {
  }

  lemma {:induction false} MendedLastMember(earlier: seq<Member>, last: Member, j: nat)
    requires WellSpelled(last.value) && 1 <= j <= |Tokens(last.value)|
    ensures Mended([OPEN_BRACE] + MemberTokens(earlier) + Lead(earlier, last.key) + Tokens(last.value)[..j],
                   [Curly] + Pending(last.value, j))
         == Tokens(Object(earlier + [Member(last.key, SeenValue(last.value, j))]))
    decreases last, 2
  {
    MendedValue([OPEN_BRACE] + MemberTokens(earlier) + Lead(earlier, last.key), Curly, last.value, j);
    AppendMember(earlier, Member(last.key, SeenValue(last.value, j)));
  }

  /** Trimming takes no bracket away, so both stacks stay as they were. */
  lemma {:induction false} TrimmedTail(ts: seq<Token>, inObject: bool)
    ensures TailAfter([], Trimmed(ts, inObject)) == TailAfter([], ts)
  {
    if ts != [] && !IsBracket(ts[|ts| - 1]) {
      TrimmedTail(ts[..|ts| - 1], inObject);
    }
  }

  /**
   The repair of the first `k` tokens of a well-spelled container: the tokens of what they show.
   An unfinished number at the very end, which `strip` drops first, changes nothing.
   */
  lemma RepairTokens(v: Json, k: nat, cut: seq<Token>)
    requires IsContainer(v) && WellSpelled(v) && 1 <= k <= |Tokens(v)|
    requires cut == [] || (|cut| == 1 && cut[0].kind == Num && cut[0].unterminated)
    ensures Unstripped(Stripped(Tokens(v)[..k] + cut)) == Tokens(Seen(v, k))
  {
    hide Trimmed, OpenAfter, TailAfter, Pending, Seen, Closers, WellSpelled;
    var ts, open := Tokens(v)[..k], Pending(v, k);
    StacksPrefix([], v, k);
    assert [] + open == open;
    StacksPlain(open, cut);
    OpenAfterAppend([], ts, cut);
    TrimmedCut(ts, cut, InObject(open));
    TrimmedTail(ts, InObject(open));
    MendedAll(v, k);
  }

  lemma TrimmedCut(ts: seq<Token>, cut: seq<Token>, inObject: bool)
    requires cut == [] || (|cut| == 1 && cut[0].kind == Num && cut[0].unterminated)
    ensures Trimmed(ts + cut, inObject) == Trimmed(ts, inObject)
  {
    if cut == [] {
      assert ts + cut == ts;
    } else {
      assert (ts + cut)[..|ts|] == ts;
    }
  }

  lemma MendedAll(v: Json, k: nat)
    requires IsContainer(v) && WellSpelled(v) && 1 <= k <= |Tokens(v)|
    ensures Mended(Tokens(v)[..k], Pending(v, k)) == Tokens(Seen(v, k))
  {
    if k < |Tokens(v)| {
      MendedPrefix(v, k);
    } else {
      assert Tokens(v)[..k] == Tokens(v);
      SeenAll(v, k);
    }
  }
}
