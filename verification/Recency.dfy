/** Least-recently-used caching, said without a cache: which identifiers are
    the most recently used ones in a history of uses. */
module Recency {
  import opened Events
  import opened Sets

  /** s without x. */
  function Without(s: seq<nat>, x: nat): seq<nat>
  {
    if s == [] then [] else if s[0] == x then Without(s[1..], x) else [s[0]] + Without(s[1..], x)
  }

  /** The distinct identifiers of a history of uses, most recent first. */
  function Recent(uses: seq<nat>): seq<nat>
  {
    if uses == [] then []
    else [uses[|uses| - 1]] + Without(Recent(uses[..|uses| - 1]), uses[|uses| - 1])
  }

  function Take(s: seq<nat>, n: nat): seq<nat>
  {
    if |s| <= n then s else s[..n]
  }

  predicate Distinct(s: seq<nat>)
  {
    forall i, j | 0 <= i < j < |s| :: s[i] != s[j]
  }

  /** The identifiers used after the last use of x. */
  function UsedSince(uses: seq<nat>, x: nat): set<nat>
  {
    if uses == [] || uses[|uses| - 1] == x then {}
    else UsedSince(uses[..|uses| - 1], x) + {uses[|uses| - 1]}
  }

  /** x was used, and fewer than n others were used since. */
  predicate StillRecent(uses: seq<nat>, x: nat, n: nat)
  {
    x in uses && |UsedSince(uses, x)| < n
  }

  // ------------------------------------------------------------------
  // The n most recent identifiers are exactly those still recent
  // ------------------------------------------------------------------

  lemma {:induction false} WithoutMember(s: seq<nat>, x: nat, y: nat)
    ensures y in Without(s, x) <==> y in s && y != x
  {
    if s != [] { WithoutMember(s[1..], x, y); }
  }

  lemma {:induction false} RecentMember(uses: seq<nat>, y: nat)
    ensures y in Recent(uses) <==> y in uses
  {
    if uses != [] {
      var n := |uses| - 1;
      RecentMember(uses[..n], y);
      WithoutMember(Recent(uses[..n]), uses[n], y);
      assert uses == uses[..n] + [uses[n]];
    }
  }

  lemma {:induction false} WithoutSplit(s: seq<nat>, j: nat)
    requires Distinct(s) && j < |s|
    ensures Without(s, s[j]) == s[..j] + s[j + 1..]
  {
    if j == 0 {
      WithoutAbsent(s[1..], s[0]);
    } else {
      WithoutSplit(s[1..], j - 1);
      assert s[..j] == [s[0]] + s[1..][..j - 1];
    }
  }

  lemma {:induction false} WithoutAbsent(s: seq<nat>, x: nat)
    requires x !in s
    ensures Without(s, x) == s
  {
    if s != [] { WithoutAbsent(s[1..], x); }
  }

  lemma {:induction false} WithoutDistinct(s: seq<nat>, x: nat)
    requires Distinct(s)
    ensures Distinct(Without(s, x))
  {
    if x in s {
      var j :| 0 <= j < |s| && s[j] == x;
      WithoutSplit(s, j);
    } else {
      WithoutAbsent(s, x);
    }
  }

  lemma {:induction false} RecentDistinct(uses: seq<nat>)
    ensures Distinct(Recent(uses))
  {
    if uses != [] {
      var last, rest := uses[|uses| - 1], Recent(uses[..|uses| - 1]);
      RecentDistinct(uses[..|uses| - 1]);
      WithoutDistinct(rest, last);
      WithoutMember(rest, last, last);
    }
  }

  /** What stands before x. */
  function Before(s: seq<nat>, x: nat): set<nat>
  {
    if s == [] || s[0] == x then {} else {s[0]} + Before(s[1..], x)
  }

  lemma {:induction false} BeforeMember(s: seq<nat>, x: nat, y: nat)
    ensures y in Before(s, x) ==> y in s
  {
    if s != [] && s[0] != x { BeforeMember(s[1..], x, y); }
  }

  lemma {:induction false} BeforeWithout(s: seq<nat>, y: nat, x: nat)
    requires x != y
    ensures Before(Without(s, y), x) == Before(s, x) - {y}
  {
    if s != [] && s[0] != x { BeforeWithout(s[1..], y, x); }
  }

  /** What stands before x among the recent ones is what was used since. */
  lemma {:induction false} BeforeIsSince(uses: seq<nat>, x: nat)
    ensures x in uses ==> Before(Recent(uses), x) == UsedSince(uses, x)
  {
    if uses != [] {
      var n := |uses| - 1;
      var last, rest := uses[n], Recent(uses[..n]);
      assert uses == uses[..n] + [last];
      if last != x {
        BeforeIsSince(uses[..n], x);
        BeforeWithout(rest, last, x);
        assert ([last] + Without(rest, last))[1..] == Without(rest, last);
      }
    }
  }

  /** In a list without repetitions, x is among the first n exactly if fewer
      than n stand before it. */
  lemma {:induction false} FirstIffFewBefore(s: seq<nat>, x: nat, n: nat)
    requires Distinct(s) && x in s
    ensures x in Take(s, n) <==> |Before(s, x)| < n
  {
    if n == 0 {
      assert Take(s, 0) == [];
    } else if s[0] == x {
      assert Take(s, n)[0] == x;
    } else {
      FirstIffFewBefore(s[1..], x, n - 1);
      BeforeMember(s[1..], x, s[0]);
      TakeFirst(s, x, n);
    }
  }

  lemma TakeFirst(s: seq<nat>, x: nat, n: nat)
    requires s != [] && s[0] != x && n > 0
    ensures x in Take(s, n) <==> x in Take(s[1..], n - 1)
  {
    assert Take(s, n) == [s[0]] + Take(s[1..], n - 1);
  }

  /** An identifier is among the n most recent exactly if it was used and fewer
      than n others were used since. */
  lemma RecentIffFew(uses: seq<nat>, x: nat, n: nat)
    ensures x in Take(Recent(uses), n) <==> StillRecent(uses, x, n)
  {
    RecentDistinct(uses);
    RecentMember(uses, x);
    BeforeIsSince(uses, x);
    if x in uses { FirstIffFewBefore(Recent(uses), x, n); }
  }

  // ------------------------------------------------------------------
  // How a bounded list keeps up with a growing history
  // ------------------------------------------------------------------

  lemma RecentAppend(uses: seq<nat>, x: nat)
    ensures Recent(uses + [x]) == [x] + Without(Recent(uses), x)
  {
    assert (uses + [x])[..|uses|] == uses;
  }

  lemma {:induction false} TakeWithout(r: seq<nat>, j: nat, n: nat)
    requires Distinct(r) && j < |r| && j < n
    ensures Without(Take(r, n), r[j]) == Take(Without(r, r[j]), n - 1)
  {
    assert Take(r, n) == [r[0]] + Take(r[1..], n - 1);
    if j == 0 {
      WithoutAbsent(r[1..], r[0]);
      WithoutAbsent(Take(r[1..], n - 1), r[0]);
    } else {
      TakeWithout(r[1..], j - 1, n - 1);
      assert Take(r, n)[1..] == Take(r[1..], n - 1);
    }
  }

  /** Using a listed identifier moves it to the front of the bounded list. */
  lemma PromoteTake(uses: seq<nat>, x: nat, n: nat)
    requires x in Take(Recent(uses), n)
    ensures [x] + Without(Take(Recent(uses), n), x) == Take(Recent(uses + [x]), n)
  {
    RecentAppend(uses, x);
    RecentDistinct(uses);
    var j :| 0 <= j < |Take(Recent(uses), n)| && Take(Recent(uses), n)[j] == x;
    TakeWithout(Recent(uses), j, n);
  }

  lemma {:induction false} PrefixKept(s: seq<nat>, x: nat, m: nat)
    requires m <= |s| && x !in s[..m]
    ensures m <= |Without(s, x)| && Without(s, x)[..m] == s[..m]
  {
    if m > 0 {
      assert s[..m] == [s[0]] + s[1..][..m - 1];
      PrefixKept(s[1..], x, m - 1);
    }
  }

  /** A full list: the new identifier takes the place of the last one. */
  lemma EnterFull(r: seq<nat>, x: nat, n: nat)
    requires n > 0 && |r| >= n && x !in r[..n]
    ensures n - 1 <= |Without(r, x)| && ([x] + Without(r, x))[..n] == [x] + r[..n - 1]
  {
    assert r[..n] == r[..n - 1] + [r[n - 1]];
    PrefixKept(r, x, n - 1);
    assert ([x] + Without(r, x))[..n] == [x] + Without(r, x)[..n - 1];
  }

  /** A list with room: the new identifier goes in front. */
  lemma EnterRoom(r: seq<nat>, x: nat, n: nat)
    requires |r| < n && x !in r
    ensures Take([x] + Without(r, x), n) == [x] + r
  {
    WithoutAbsent(r, x);
  }

  /** Using a new identifier puts it in front and pushes the last one out of a
      full list. */
  lemma EnterTake(uses: seq<nat>, x: nat, n: nat)
    requires x !in Take(Recent(uses), n) && n > 0
    ensures var c := Take(Recent(uses), n);
            [x] + (if |c| >= n then c[..|c| - 1] else c) == Take(Recent(uses + [x]), n)
  {
    RecentAppend(uses, x);
    var r := Recent(uses);
    if |r| >= n {
      EnterFull(r, x, n);
      assert r[..n][..n - 1] == r[..n - 1];
    } else {
      EnterRoom(r, x, n);
    }
  }

  // ------------------------------------------------------------------
  // Histories of cache operations
  // ------------------------------------------------------------------

  datatype Op = Remember(id: nat, text: Text) | Lookup(id: nat)

  /** The uses in a history: every remember, and every lookup that finds its
      identifier still recent. */
  function Uses(h: seq<Op>, n: nat): seq<nat>
  {
    if h == [] then []
    else
      var u, op := Uses(h[..|h| - 1], n), h[|h| - 1];
      if op.Remember? || StillRecent(u, op.id, n) then u + [op.id] else u
  }

  /** The text last remembered for an identifier, as far as it is kept. */
  function LastText(h: seq<Op>, id: nat): Text
  {
    if h == [] then ""
    else if h[|h| - 1].Remember? && h[|h| - 1].id == id then Clamp(h[|h| - 1].text)
    else LastText(h[..|h| - 1], id)
  }

  lemma HistoryAppend(h: seq<Op>, op: Op, n: nat)
    ensures Uses(h + [op], n) ==
            if op.Remember? || StillRecent(Uses(h, n), op.id, n) then Uses(h, n) + [op.id] else Uses(h, n)
    ensures forall id :: LastText(h + [op], id) ==
                         if op.Remember? && op.id == id then Clamp(op.text) else LastText(h, id)
  {
    assert (h + [op])[..|h|] == h;
  }

  predicate Remembers(op: Op, id: nat)
  {
    op.Remember? && op.id == id
  }

  /** An identifier has a use exactly if it was remembered. */
  lemma {:induction false} UsedIffRemembered(h: seq<Op>, n: nat, id: nat)
    ensures id in Uses(h, n) <==> exists i :: 0 <= i < |h| && Remembers(h[i], id)
  {
    if h != [] {
      var init := h[..|h| - 1];
      UsedIffRemembered(init, n, id);
      if i :| 0 <= i < |h| && Remembers(h[i], id) {
        if i < |h| - 1 { assert Remembers(init[i], id); }
      }
      if i :| 0 <= i < |init| && Remembers(init[i], id) { assert Remembers(h[i], id); }
    }
  }

  // ------------------------------------------------------------------
  // What a history lets a lookup find
  // ------------------------------------------------------------------

  /** The identifiers that some operations name, and those they remember. */
  function Named(h: seq<Op>): set<nat> { set op | op in h :: op.id }
  function Remembered(h: seq<Op>): set<nat> { set op | op in h && op.Remember? :: op.id }

  lemma NamedLast(h: seq<Op>)
    requires h != []
    ensures Named(h) == Named(h[..|h| - 1]) + {h[|h| - 1].id}
    ensures Remembered(h) == Remembered(h[..|h| - 1]) + if h[|h| - 1].Remember? then {h[|h| - 1].id} else {}
  {
    assert h == h[..|h| - 1] + [h[|h| - 1]];
  }

  lemma UsedSinceAppend(uses: seq<nat>, y: nat, x: nat)
    ensures UsedSince(uses + [y], x) == if y == x then {} else UsedSince(uses, x) + {y}
  {
    assert (uses + [y])[..|uses|] == uses;
  }

  /** Since a use of x nothing was used but what the operations after it name. */
  lemma {:induction false} UsedAfter(h: seq<Op>, more: seq<Op>, n: nat, x: nat)
    requires x in Uses(h, n) && UsedSince(Uses(h, n), x) == {}
    ensures x in Uses(h + more, n) && UsedSince(Uses(h + more, n), x) <= Named(more) - {x}
  {
    if more == [] {
      assert h + more == h;
    } else {
      var init, op := more[..|more| - 1], more[|more| - 1];
      UsedAfter(h, init, n, x);
      NamedLast(more);
      assert h + more == h + init + [op];
      HistoryAppend(h + init, op, n);
      UsedSinceAppend(Uses(h + init, n), op.id, x);
    }
  }

  /** An identifier that was remembered, or found by a lookup, is found again as
      long as fewer than n others have been named since. */
  lemma FoundAgain(h: seq<Op>, op: Op, more: seq<Op>, n: nat)
    requires op.Remember? || StillRecent(Uses(h, n), op.id, n)
    requires |Named(more) - {op.id}| < n
    ensures StillRecent(Uses(h + [op] + more, n), op.id, n)
  {
    HistoryAppend(h, op, n);
    UsedSinceAppend(Uses(h, n), op.id, op.id);
    UsedAfter(h + [op], more, n, op.id);
    SubsetBound(UsedSince(Uses(h + [op] + more, n), op.id), Named(more) - {op.id});
  }

  lemma {:induction false} AllUsed(h: seq<Op>, more: seq<Op>, n: nat, x: nat)
    requires x !in Named(more)
    ensures Remembered(more) <= UsedSince(Uses(h + more, n), x)
  {
    if more != [] {
      var init, op := more[..|more| - 1], more[|more| - 1];
      NamedLast(more);
      AllUsed(h, init, n, x);
      assert h + more == h + init + [op];
      HistoryAppend(h + init, op, n);
      UsedSinceAppend(Uses(h + init, n), op.id, x);
    }
  }

  /** An identifier not named while n others were remembered is not found. */
  lemma PushedOut(h: seq<Op>, more: seq<Op>, n: nat, x: nat)
    requires x !in Named(more) && |Remembered(more)| >= n
    ensures !StillRecent(Uses(h + more, n), x, n)
  {
    AllUsed(h, more, n, x);
    SubsetBound(Remembered(more), UsedSince(Uses(h + more, n), x));
  }

  /** Its text is the one last remembered for it. */
  lemma {:induction false} TextKept(h: seq<Op>, x: nat, text: Text, more: seq<Op>)
    requires x !in Remembered(more)
    ensures LastText(h + [Remember(x, text)] + more, x) == Clamp(text)
  {
    var now := h + [Remember(x, text)];
    if more == [] {
      assert now + more == now && now[..|now| - 1] == h;
    } else {
      var init := more[..|more| - 1];
      NamedLast(more);
      TextKept(h, x, text, init);
      assert (now + more)[..|now + more| - 1] == now + init;
    }
  }
}
