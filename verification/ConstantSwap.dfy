/** A statement with one constant replaced by another, of any length and with or
    without a minus, has the same normal form. */
module ConstantSwap {
  import opened Normalizer
  import opened QueryNormalizer

  /** What of a statement changes: the bytes from `start` up to `end`, spelled by
      `width` tokens from the `first` on. */
  datatype Spot = Spot(start: nat, end: nat, first: nat, width: nat)

  /** The bytes of the spot are a constant: one token, or a minus and its number. */
  predicate IsConstant(st: Statement, x: Spot)
  {
    && x.start < x.end <= st.len <= |st.query| && x.first + x.width <= |st.tokens|
    && x.width == (if st.query[x.start] == '-' then 2 else 1)
    && st.tokens[x.first].start == x.start && st.tokens[x.first + x.width - 1].end == x.end
  }

  /** The statements differ in the bytes and tokens of the spots only. */
  predicate SameText(st: Statement, x: Spot, st': Statement, y: Spot)
    requires IsConstant(st, x) && IsConstant(st', y)
  {
    && st'.loc == st.loc && st'.len - y.end == st.len - x.end && y.start == x.start
    && st'.query[..y.start] == st.query[..x.start] && st'.query[y.end..] == st.query[x.end..]
  }

  predicate SameTokens(st: Statement, x: Spot, st': Statement, y: Spot)
    requires IsConstant(st, x) && IsConstant(st', y)
  {
    && y.first == x.first && st'.tokens[..y.first] == st.tokens[..x.first]
    && AllMoved(st.tokens[x.first + x.width..], st'.tokens[y.first + y.width..], y.end - x.end)
  }

  predicate AllMoved(tokens: seq<Token>, tokens': seq<Token>, d: int)
  {
    |tokens'| == |tokens| && forall k | 0 <= k < |tokens| :: TokenMoved(tokens[k], tokens'[k], d)
  }

  predicate TokenMoved(t: Token, t': Token, d: int)
  {
    t'.start == t.start + d && t'.end == t.end + d
  }

  datatype Part = Old | New | Outside

  ghost predicate Agrees(st: Statement, x: Spot, st': Statement, y: Spot, part: Part)
  {
    match part
    case Old => Lexed(st) && IsConstant(st, x)
    case New => Lexed(st') && IsConstant(st', y)
    case Outside => IsConstant(st, x) && IsConstant(st', y) && SameText(st, x, st', y) && SameTokens(st, x, st', y)
  }

  /** The second statement is the first with another constant at the spot. */
  ghost predicate Swapped(st: Statement, x: Spot, st': Statement, y: Spot)
  {
    forall part: Part :: Agrees(st, x, st', y, part)
  }

  // ------------------------------------------------------------------
  // Lengths
  // ------------------------------------------------------------------

  lemma Measured(st: Statement, loc: int, k: nat, end: nat)
    requires Lexed(st) && Spells(st, loc, k, end)
    ensures ConstantAt(st, loc) && ConstantLength(st, loc) == end - loc
  {
    ConstantSpan(st, loc);
  }

  lemma Spelled(st: Statement, loc: int) returns (k: nat, end: nat)
    requires Lexed(st) && ConstantAt(st, loc)
    ensures Spells(st, loc, k, end) && ConstantLength(st, loc) == end - loc
  {
    ConstantSpan(st, loc);
    k, end :| Spells(st, loc, k, end);
  }

  lemma SpotLength(st: Statement, x: Spot)
    requires Lexed(st) && IsConstant(st, x)
    ensures ConstantAt(st, x.start) && ConstantLength(st, x.start) == x.end - x.start
  {
    Measured(st, x.start, x.first, x.end);
  }

  lemma TokenBefore(st: Statement, x: Spot, st': Statement, y: Spot, k: nat)
    requires Swapped(st, x, st', y) && k < |st.tokens| && st.tokens[k].end <= x.start
    ensures k < x.first && k < |st'.tokens| && st'.tokens[k] == st.tokens[k]
  {
    assert Agrees(st, x, st', y, Old) && Agrees(st, x, st', y, Outside);
    Beyond(st, k, x.first);
    assert st'.tokens[..x.first][k] == st.tokens[..x.first][k];
  }

  lemma ByteBefore(st: Statement, x: Spot, st': Statement, y: Spot, p: nat)
    requires Swapped(st, x, st', y) && p < x.start
    ensures p < |st.query| && p < |st'.query| && st'.query[p] == st.query[p]
  {
    assert Agrees(st, x, st', y, Outside);
    assert st'.query[..y.start][p] == st.query[..x.start][p];
  }

  lemma SpellsBefore(st: Statement, x: Spot, st': Statement, y: Spot, loc: int, k: nat, end: nat)
    requires Swapped(st, x, st', y) && Spells(st, loc, k, end) && end <= x.start
    ensures Spells(st', loc, k, end)
  {
    SpellsApart(st, x, st', y, loc, k, end);
    TokenBefore(st, x, st', y, k);
    if st.query[loc] == '-' { TokenBefore(st, x, st', y, k + 1); }
    ByteBefore(st, x, st', y, loc);
  }

  lemma SpellsApart(st: Statement, x: Spot, st': Statement, y: Spot, loc: int, k: nat, end: nat)
    requires Swapped(st, x, st', y) && Spells(st, loc, k, end)
    ensures 0 <= loc < st.tokens[k].end <= end
  {
    assert Agrees(st, x, st', y, Old);
  }

  /** Constants before the spot stay as they are. */
  lemma LengthBefore(st: Statement, x: Spot, st': Statement, y: Spot, loc: int)
    requires Swapped(st, x, st', y) && ConstantAt(st, loc) && loc + ConstantLength(st, loc) <= x.start
    ensures ConstantAt(st', loc) && ConstantLength(st', loc) == ConstantLength(st, loc)
  {
    assert Agrees(st, x, st', y, Old) && Agrees(st, x, st', y, New);
    var k, end := Spelled(st, loc);
    SpellsBefore(st, x, st', y, loc, k, end);
    Measured(st', loc, k, end);
  }

  lemma TokenAfter(st: Statement, x: Spot, st': Statement, y: Spot, k: nat)
    requires Swapped(st, x, st', y) && x.first + x.width <= k < |st.tokens|
    ensures |st'.tokens| - y.width == |st.tokens| - x.width && 0 <= k - x.width + y.width
    ensures TokenMoved(st.tokens[k], st'.tokens[k - x.width + y.width], y.end - x.end)
  {
    assert Agrees(st, x, st', y, Outside);
    var j := k - x.first - x.width;
    assert TokenMoved(st.tokens[x.first + x.width..][j], st'.tokens[y.first + y.width..][j], y.end - x.end);
  }

  lemma ByteAfter(st: Statement, x: Spot, st': Statement, y: Spot, p: nat)
    requires Swapped(st, x, st', y) && x.end <= p < |st.query|
    ensures 0 <= p + (y.end - x.end) < |st'.query| && st'.query[p + (y.end - x.end)] == st.query[p]
  {
    assert Agrees(st, x, st', y, Outside);
    assert st'.query[y.end..][p - x.end] == st.query[x.end..][p - x.end];
  }

  lemma SpellsAfter(st: Statement, x: Spot, st': Statement, y: Spot, loc: int, k: nat, end: nat) returns (k': nat, end': nat)
    requires Swapped(st, x, st', y) && Spells(st, loc, k, end) && x.end <= loc && x.first + x.width <= k
    ensures Spells(st', loc + (y.end - x.end), k', end') && end' == end + (y.end - x.end)
  {
    TokenAfter(st, x, st', y, k);
    ByteAfter(st, x, st', y, loc);
    k' := k - x.width + y.width;
    if st.query[loc] == '-' {
      TokenAfter(st, x, st', y, k + 1);
      end' := st'.tokens[k' + 1].end;
    } else {
      end' := st'.tokens[k'].end;
    }
  }

  /** Constants after the spot move along. */
  lemma LengthAfter(st: Statement, x: Spot, st': Statement, y: Spot, loc: int)
    requires Swapped(st, x, st', y) && ConstantAt(st, loc) && x.end <= loc
    ensures var d := y.end - x.end; ConstantAt(st', loc + d) && ConstantLength(st', loc + d) == ConstantLength(st, loc)
  {
    assert Agrees(st, x, st', y, Old) && Agrees(st, x, st', y, New);
    var k, end := Spelled(st, loc);
    Beyond(st, x.first + x.width - 1, k);
    var k', end' := SpellsAfter(st, x, st', y, loc, k, end);
    Measured(st', loc + (y.end - x.end), k', end');
  }

  // ------------------------------------------------------------------
  // Locations
  // ------------------------------------------------------------------

  /** A location after the spot moves along with its text. */
  function Move(at: int, loc: int, x: Spot, y: Spot): int
  {
    if at - loc <= x.start then at else at + (y.end - x.end)
  }

  function MoveAll(locs: seq<Location>, loc: int, x: Spot, y: Spot): (r: seq<Location>)
    ensures |r| == |locs| && forall i | 0 <= i < |locs| :: r[i] == locs[i].(at := Move(locs[i].at, loc, x, y))
  {
    seq(|locs|, i requires 0 <= i < |locs| => locs[i].(at := Move(locs[i].at, loc, x, y)))
  }

  datatype Facet = Marked | Constant | Spread

  /** Location c is that of the constant at the spot. */
  ghost predicate Marks(st: Statement, x: Spot, locs: seq<Location>, c: nat)
  {
    forall facet: Facet :: Shows(st, x, locs, c, facet)
  }

  ghost predicate Shows(st: Statement, x: Spot, locs: seq<Location>, c: nat, facet: Facet)
  {
    match facet
    case Marked => c < |locs| && locs[c].at - st.loc == x.start && !locs[c].squashed && !Duplicate(locs, c)
    case Constant => Lexed(st) && IsConstant(st, x)
    case Spread => WellPlaced(st, locs)
  }

  lemma MarkedLength(st: Statement, x: Spot, locs: seq<Location>, c: nat)
    requires Marks(st, x, locs, c)
    ensures c < |locs| && Placed(st, locs, c) && LengthOf(st, locs, c) == x.end - x.start
  {
    assert Shows(st, x, locs, c, Marked) && Shows(st, x, locs, c, Constant);
    SpotLength(st, x);
  }

  /** Where the constants lie about the spot. */
  lemma About(st: Statement, x: Spot, locs: seq<Location>, c: nat, i: nat)
    requires Marks(st, x, locs, c) && i < |locs| && !Duplicate(locs, i)
    ensures Placed(st, locs, i)
    ensures i < c ==> locs[i].at - st.loc <= x.start && locs[i].at - st.loc + LengthOf(st, locs, i) <= x.start
    ensures i > c ==> x.end <= locs[i].at - st.loc
  {
    MarkedLength(st, x, locs, c);
    assert Shows(st, x, locs, c, Marked) && Shows(st, x, locs, c, Spread);
    assert Placed(st, locs, i);
    if i < c { assert Apart(st, locs, i, c); }
    if c < i { assert Apart(st, locs, c, i); }
  }

  /** A repeated location goes back to one that is not. */
  lemma {:induction false} FirstThere(locs: seq<Location>, i: nat) returns (j: nat)
    requires i < |locs|
    ensures j <= i && !Duplicate(locs, j) && locs[j].at == locs[i].at
    decreases i
  {
    if Duplicate(locs, i) { j := FirstThere(locs, i - 1); } else { j := i; }
  }

  lemma NotInside(st: Statement, x: Spot, locs: seq<Location>, c: nat, i: nat)
    requires Marks(st, x, locs, c) && i < |locs|
    ensures locs[i].at - st.loc <= x.start || x.end <= locs[i].at - st.loc
  {
    assert Shows(st, x, locs, c, Marked);
    var j := FirstThere(locs, i);
    if j != c { About(st, x, locs, c, j); }
  }

  lemma SameDuplicates(st: Statement, x: Spot, y: Spot, locs: seq<Location>, c: nat, i: nat)
    requires Marks(st, x, locs, c) && i < |locs| && y.start == x.start < y.end
    ensures Duplicate(MoveAll(locs, st.loc, x, y), i) <==> Duplicate(locs, i)
  {
    NotInside(st, x, locs, c, i);
    if i > 0 { NotInside(st, x, locs, c, i - 1); }
  }

  /** The length a location gets: that of the new constant at the spot, the same
      as before elsewhere. */
  function NewLength(st: Statement, x: Spot, y: Spot, locs: seq<Location>, c: nat, i: nat): int
    requires i < |locs| && Placed(st, locs, i)
  {
    LengthOf(st, locs, i) + if i == c then y.end - x.end else 0
  }

  lemma LengthElsewhere(st: Statement, x: Spot, st': Statement, y: Spot, locs: seq<Location>, c: nat, i: nat)
    requires Swapped(st, x, st', y) && Marks(st, x, locs, c) && i < |locs| && i != c
    requires !Duplicate(locs, i) && !locs[i].squashed
    ensures Placed(st, locs, i)
    ensures var loc := Move(locs[i].at, st.loc, x, y) - st.loc;
            ConstantAt(st', loc) && ConstantLength(st', loc) == LengthOf(st, locs, i)
  {
    About(st, x, locs, c, i);
    if i < c {
      LengthBefore(st, x, st', y, locs[i].at - st.loc);
    } else {
      SpotWide(st, x, locs, c);
      LengthAfter(st, x, st', y, locs[i].at - st.loc);
      assert Move(locs[i].at, st.loc, x, y) - st.loc == locs[i].at - st.loc + (y.end - x.end);
    }
  }

  lemma SpotWide(st: Statement, x: Spot, locs: seq<Location>, c: nat)
    requires Marks(st, x, locs, c)
    ensures x.start < x.end
  {
    assert Shows(st, x, locs, c, Constant);
  }

  lemma PlacedElsewhere(st: Statement, x: Spot, st': Statement, y: Spot, locs: seq<Location>, c: nat, i: nat)
    requires Swapped(st, x, st', y) && Marks(st, x, locs, c) && i < |locs| && i != c
    requires st'.loc == st.loc && y.start == x.start < y.end
    ensures var locs' := MoveAll(locs, st.loc, x, y);
            Placed(st, locs, i) && Placed(st', locs', i) && LengthOf(st', locs', i) == LengthOf(st, locs, i)
  {
    SameDuplicates(st, x, y, locs, c, i);
    if !Duplicate(locs, i) {
      About(st, x, locs, c, i);
      if !locs[i].squashed { LengthElsewhere(st, x, st', y, locs, c, i); }
    }
  }

  lemma PlacedSpot(st: Statement, x: Spot, st': Statement, y: Spot, locs: seq<Location>, c: nat)
    requires Swapped(st, x, st', y) && Marks(st, x, locs, c) && st'.loc == st.loc && y.start == x.start < y.end
    ensures var locs' := MoveAll(locs, st.loc, x, y);
            && c < |locs| && Placed(st, locs, c) && LengthOf(st, locs, c) == x.end - x.start
            && Placed(st', locs', c) && LengthOf(st', locs', c) == y.end - y.start
  {
    MarkedLength(st, x, locs, c);
    SameDuplicates(st, x, y, locs, c, c);
    assert Shows(st, x, locs, c, Marked) && Agrees(st, x, st', y, New);
    SpotLength(st', y);
  }

  lemma SameStart(st: Statement, x: Spot, st': Statement, y: Spot)
    requires Swapped(st, x, st', y)
    ensures st'.loc == st.loc && y.start == x.start < x.end && y.start < y.end
    ensures x.end <= st.len <= |st.query| && y.end <= st'.len <= |st'.query| && st'.len - st.len == y.end - x.end
  {
    assert Agrees(st, x, st', y, Outside);
  }

  lemma LengthMoved(st: Statement, x: Spot, st': Statement, y: Spot, locs: seq<Location>, c: nat, i: nat)
    requires Swapped(st, x, st', y) && Marks(st, x, locs, c) && i < |locs|
    ensures var locs' := MoveAll(locs, st.loc, x, y);
            Placed(st, locs, i) && Placed(st', locs', i) && LengthOf(st', locs', i) == NewLength(st, x, y, locs, c, i)
  {
    SameStart(st, x, st', y);
    if i == c { PlacedSpot(st, x, st', y, locs, c); } else { PlacedElsewhere(st, x, st', y, locs, c, i); }
  }

  // ------------------------------------------------------------------
  // The moved locations are well placed
  // ------------------------------------------------------------------

  lemma MovedInOrder(st: Statement, x: Spot, st': Statement, y: Spot, locs: seq<Location>, c: nat, i: nat, j: nat)
    requires Swapped(st, x, st', y) && Marks(st, x, locs, c) && i < j < |locs|
    ensures var locs' := MoveAll(locs, st.loc, x, y); locs'[i].at <= locs'[j].at
  {
    SameStart(st, x, st', y);
    NotInside(st, x, locs, c, i);
    NotInside(st, x, locs, c, j);
    assert Shows(st, x, locs, c, Spread);
    assert locs[i].at <= locs[j].at;
  }

  lemma MovedWithin(st: Statement, x: Spot, st': Statement, y: Spot, locs: seq<Location>, c: nat, i: nat)
    requires Swapped(st, x, st', y) && Marks(st, x, locs, c) && i < |locs|
    ensures var locs' := MoveAll(locs, st.loc, x, y);
            && locs'[i].at >= st'.loc && Placed(st', locs', i)
            && locs'[i].at - st'.loc + LengthOf(st', locs', i) <= st'.len
  {
    SameStart(st, x, st', y);
    LengthMoved(st, x, st', y, locs, c, i);
    NotInside(st, x, locs, c, i);
    InPlace(st, x, locs, c, i);
    if i == c { PlacedSpot(st, x, st', y, locs, c); }
    else if !Duplicate(locs, i) { About(st, x, locs, c, i); }
  }

  lemma InPlace(st: Statement, x: Spot, locs: seq<Location>, c: nat, i: nat)
    requires Marks(st, x, locs, c) && i < |locs|
    ensures c < |locs| && locs[c].at - st.loc == x.start && locs[i].at >= st.loc
    ensures Placed(st, locs, i) && locs[i].at - st.loc + LengthOf(st, locs, i) <= st.len
  {
    assert Shows(st, x, locs, c, Marked) && Shows(st, x, locs, c, Spread);
  }

  lemma MovedApart(st: Statement, x: Spot, st': Statement, y: Spot, locs: seq<Location>, c: nat, i: nat, j: nat)
    requires Swapped(st, x, st', y) && Marks(st, x, locs, c) && i < j < |locs|
    ensures var locs' := MoveAll(locs, st.loc, x, y); Placed(st', locs', i) && Apart(st', locs', i, j)
  {
    SameStart(st, x, st', y);
    LengthMoved(st, x, st', y, locs, c, i);
    SameDuplicates(st, x, y, locs, c, i);
    SameDuplicates(st, x, y, locs, c, j);
    InPlace(st, x, locs, c, i);
    if !Duplicate(locs, i) && !Duplicate(locs, j) {
      About(st, x, locs, c, i);
      About(st, x, locs, c, j);
      StillApart(st, x, locs, c, i, j);
      if i == c { PlacedSpot(st, x, st', y, locs, c); }
    }
  }

  lemma StillApart(st: Statement, x: Spot, locs: seq<Location>, c: nat, i: nat, j: nat)
    requires Marks(st, x, locs, c) && i < j < |locs| && !Duplicate(locs, i) && !Duplicate(locs, j)
    ensures Placed(st, locs, i) && locs[i].at + LengthOf(st, locs, i) <= locs[j].at
  {
    assert Shows(st, x, locs, c, Spread);
    assert Placed(st, locs, i) && Apart(st, locs, i, j);
  }

  lemma MovedPlaced(st: Statement, x: Spot, st': Statement, y: Spot, locs: seq<Location>, c: nat)
    requires Swapped(st, x, st', y) && Marks(st, x, locs, c)
    ensures WellPlaced(st', MoveAll(locs, st.loc, x, y))
  {
    var locs' := MoveAll(locs, st.loc, x, y);
    forall i, j | 0 <= i < j < |locs'| ensures locs'[i].at <= locs'[j].at { MovedInOrder(st, x, st', y, locs, c, i, j); }
    forall i | 0 <= i < |locs'|
      ensures locs'[i].at >= st'.loc && Placed(st', locs', i) && locs'[i].at - st'.loc + LengthOf(st', locs', i) <= st'.len
    {
      MovedWithin(st, x, st', y, locs, c, i);
    }
    forall i, j | 0 <= i < j < |locs'| ensures Apart(st', locs', i, j) { MovedApart(st, x, st', y, locs, c, i, j); }
  }

  // ------------------------------------------------------------------
  // Edits
  // ------------------------------------------------------------------

  predicate AllShifted(a: seq<Edit>, b: seq<Edit>, d: int)
  {
    |a| == |b| && forall k | 0 <= k < |a| :: b[k] == a[k].(off := a[k].off + d)
  }

  /** The same location, moved by d unless it is ignored. */
  predicate Follows(u: Location, v: Location, d: int)
  {
    v == u.(at := v.at) && (u.length >= 0 ==> v.at == u.at + d)
  }

  lemma {:induction false} EditsAfter(g: seq<Location>, g': seq<Location>, loc: int, n: nat, hasSquashedLists: bool, d: int)
    requires |g| == |g'| && forall k | 0 <= k < |g| :: Follows(g[k], g'[k], d)
    ensures AllShifted(Edits(g, loc, n, hasSquashedLists), Edits(g', loc, n, hasSquashedLists), d)
  {
    if g != [] {
      assert Follows(g[0], g'[0], d);
      EditsAfter(g[1..], g'[1..], loc, if Replaced(g[0], hasSquashedLists) then n + 1 else n, hasSquashedLists, d);
    }
  }

  /** Edit m is stretched by d, those after it are moved by d. */
  predicate Stretched(a: seq<Edit>, b: seq<Edit>, m: nat, d: int)
  {
    && m < |a| == |b| && a[..m] == b[..m] && b[m] == a[m].(len := a[m].len + d)
    && AllShifted(a[m + 1..], b[m + 1..], d)
  }

  lemma StretchedHead(a: seq<Edit>, b: seq<Edit>, d: int)
    requires a != [] && b != [] && b[0] == a[0].(len := a[0].len + d) && AllShifted(a[1..], b[1..], d)
    ensures Stretched(a, b, 0, d)
  {
  }

  lemma StretchedMore(e: Edit, a: seq<Edit>, b: seq<Edit>, m: nat, d: int)
    requires Stretched(a, b, m, d)
    ensures Stretched([e] + a, [e] + b, m + 1, d)
  {
    assert ([e] + a)[m + 2..] == a[m + 1..] && ([e] + b)[m + 2..] == b[m + 1..];
    assert ([e] + a)[..m + 1] == [e] + a[..m] && ([e] + b)[..m + 1] == [e] + b[..m];
  }

  /** Location c is stretched by d, those after it are moved by d. */
  predicate LocsStretched(g: seq<Location>, g': seq<Location>, c: nat, d: int)
  {
    && c < |g| == |g'| && g[..c] == g'[..c] && g'[c] == g[c].(length := g[c].length + d)
    && forall k | c < k < |g| :: Follows(g[k], g'[k], d)
  }

  lemma LocsRest(g: seq<Location>, g': seq<Location>, c: nat, d: int)
    requires LocsStretched(g, g', c, d) && c > 0
    ensures g[0] == g'[0] && LocsStretched(g[1..], g'[1..], c - 1, d)
  {
    assert g[..c][0] == g'[..c][0];
    assert g[1..][..c - 1] == g[..c][1..] && g'[1..][..c - 1] == g'[..c][1..];
    forall k | c - 1 < k < |g[1..]| ensures Follows(g[1..][k], g'[1..][k], d) { assert Follows(g[k + 1], g'[k + 1], d); }
  }

  lemma EditsHere(g: seq<Location>, g': seq<Location>, loc: int, n: nat, hasSquashedLists: bool, d: int)
    requires LocsStretched(g, g', 0, d) && Replaced(g[0], hasSquashedLists) && Replaced(g'[0], hasSquashedLists)
    ensures Stretched(Edits(g, loc, n, hasSquashedLists), Edits(g', loc, n, hasSquashedLists), 0, d)
  {
    EditsAfter(g[1..], g'[1..], loc, n + 1, hasSquashedLists, d);
    StretchedHead(Edits(g, loc, n, hasSquashedLists), Edits(g', loc, n, hasSquashedLists), d);
  }

  lemma {:induction false} EditsStretched(g: seq<Location>, g': seq<Location>, c: nat, loc: int, n: nat,
                                          hasSquashedLists: bool, d: int) returns (m: nat)
    requires LocsStretched(g, g', c, d) && Replaced(g[c], hasSquashedLists) && Replaced(g'[c], hasSquashedLists)
    ensures Stretched(Edits(g, loc, n, hasSquashedLists), Edits(g', loc, n, hasSquashedLists), m, d)
    ensures Edits(g, loc, n, hasSquashedLists)[m].off == g[c].at - loc
    ensures Edits(g, loc, n, hasSquashedLists)[m].len == g[c].length
    decreases c
  {
    if c == 0 {
      EditsHere(g, g', loc, n, hasSquashedLists, d);
      m := 0;
    } else {
      LocsRest(g, g', c, d);
      if Replaced(g[0], hasSquashedLists) {
        m := EditsStretched(g[1..], g'[1..], c - 1, loc, n + 1, hasSquashedLists, d);
        var e := Edit(g[0].at - loc, g[0].length, Placeholder(n, g[0].squashed));
        StretchedMore(e, Edits(g[1..], loc, n + 1, hasSquashedLists), Edits(g'[1..], loc, n + 1, hasSquashedLists), m, d);
        m := m + 1;
      } else {
        m := EditsStretched(g[1..], g'[1..], c - 1, loc, n, hasSquashedLists, d);
      }
    }
  }

  // ------------------------------------------------------------------
  // Substitution
  // ------------------------------------------------------------------

  /** From p on, and from p + d on, the texts are the same. */
  predicate SameFrom(q: string, q': string, p: nat, d: int)
  {
    |q'| == |q| + d && 0 <= p + d && (p <= |q| ==> q'[p + d..] == q[p..])
  }

  lemma SameLater(q: string, q': string, p: nat, d: int, r: nat)
    requires SameFrom(q, q', p, d) && p <= r
    ensures SameFrom(q, q', r, d)
  {
    if r <= |q| { assert q[r..] == q[p..][r - p..] && q'[r + d..] == q'[p + d..][r - p..]; }
  }

  lemma SameNext(q: string, q': string, p: nat, d: int)
    requires SameFrom(q, q', p, d) && p < |q|
    ensures p + d < |q'| && q'[p + d] == q[p] && SameFrom(q, q', p + 1, d)
  {
    assert q[p..][0] == q[p] && q'[p + d..][0] == q'[p + d];
    SameLater(q, q', p, d, p + 1);
  }

  lemma ShiftedRest(a: seq<Edit>, b: seq<Edit>, d: int)
    requires AllShifted(a, b, d)
    ensures if a == [] then b == [] else b != [] && b[0] == a[0].(off := a[0].off + d) && AllShifted(a[1..], b[1..], d)
  {
  }

  lemma {:induction false} RewriteAfter(q: string, a: seq<Edit>, p: nat, q': string, b: seq<Edit>, d: int)
    requires AllShifted(a, b, d) && SameFrom(q, q', p, d)
    ensures Rewrite(q', b, p + d) == Rewrite(q, a, p)
    decreases |a|, if p < |q| then |q| - p else 0
  {
    ShiftedRest(a, b, d);
    if a != [] && a[0].off == p && a[0].len >= 0 {
      SameLater(q, q', p, d, p + a[0].len);
      RewriteAfter(q, a[1..], p + a[0].len, q', b[1..], d);
    } else if p < |q| {
      SameNext(q, q', p, d);
      RewriteAfter(q, a, p + 1, q', b, d);
    }
  }

  lemma {:induction false} OffsetsIncrease(edits: seq<Edit>, p: int, n: int, m: nat)
    requires InOrder(edits, p, n) && m < |edits|
    ensures p <= edits[m].off && 0 <= edits[m].len && edits[m].off + edits[m].len <= n
    ensures m > 0 ==> edits[0].off + edits[0].len <= edits[m].off
  {
    OrderBounds(edits, p, n);
    if m > 0 {
      OffsetsIncrease(edits[1..], edits[0].off + edits[0].len, n, m - 1);
    }
  }

  /** The texts are the same up to the stretched edit and after it. */
  predicate SameAround(q: string, q': string, e: Edit, d: int)
  {
    && 0 <= e.off <= |q| && 0 <= e.len && 0 <= e.len + d && e.off <= |q'|
    && q'[..e.off] == q[..e.off] && SameFrom(q, q', e.off + e.len, d)
  }

  lemma SamePiece(q: string, q': string, p: nat, o: nat, off: nat)
    requires p <= o <= off <= |q| && off <= |q'| && q'[..off] == q[..off]
    ensures q'[p..o] == q[p..o]
  {
    assert q'[p..o] == q'[..off][p..o] && q[p..o] == q[..off][p..o];
  }

  lemma RewriteHere(q: string, a: seq<Edit>, p: nat, q': string, b: seq<Edit>, d: int)
    requires Stretched(a, b, 0, d) && p <= a[0].off && SameAround(q, q', a[0], d)
    ensures Rewrite(q', b, p) == Rewrite(q, a, p)
  {
    CopyGap(q, a, p);
    CopyGap(q', b, p);
    SamePiece(q, q', p, a[0].off, a[0].off);
    RewriteAfter(q, a[1..], a[0].off + a[0].len, q', b[1..], d);
  }

  lemma StretchedRest(a: seq<Edit>, b: seq<Edit>, m: nat, d: int)
    requires Stretched(a, b, m, d) && m > 0
    ensures a[0] == b[0] && Stretched(a[1..], b[1..], m - 1, d)
  {
    assert a[..m][0] == b[..m][0];
    assert a[1..][..m - 1] == a[..m][1..] && b[1..][..m - 1] == b[..m][1..];
    assert a[1..][m..] == a[m + 1..] && b[1..][m..] == b[m + 1..];
  }

  lemma {:induction false} RewriteStretched(q: string, a: seq<Edit>, p: nat, q': string, b: seq<Edit>, m: nat, d: int)
    requires Stretched(a, b, m, d) && InOrder(a, p, |q|) && SameAround(q, q', a[m], d)
    ensures Rewrite(q', b, p) == Rewrite(q, a, p)
    decreases m
  {
    OffsetsIncrease(a, p, |q|, m);
    if m == 0 {
      RewriteHere(q, a, p, q', b, d);
    } else {
      StretchedRest(a, b, m, d);
      CopyGap(q, a, p);
      CopyGap(q', b, p);
      SamePiece(q, q', p, a[0].off, a[m].off);
      RewriteStretched(q, a[1..], a[0].off + a[0].len, q', b[1..], m - 1, d);
    }
  }

  // ------------------------------------------------------------------
  // The normal form
  // ------------------------------------------------------------------

  /** Location i of the two statements, after the lexer pass. */
  predicate Moves(u: Location, v: Location, i: nat, c: nat, d: int)
  {
    && (i < c ==> v == u)
    && (i == c ==> v == u.(length := u.length + d))
    && (i > c ==> Follows(u, v, d))
  }

  lemma FilledMoved(st: Statement, x: Spot, st': Statement, y: Spot, locs: seq<Location>, c: nat, i: nat)
    requires Swapped(st, x, st', y) && Marks(st, x, locs, c) && i < |locs|
    ensures var locs' := MoveAll(locs, st.loc, x, y);
            && Placed(st, locs, i) && Placed(st', locs', i)
            && Moves(locs[i].(length := LengthOf(st, locs, i)), locs'[i].(length := LengthOf(st', locs', i)),
                     i, c, y.end - x.end)
  {
    LengthMoved(st, x, st', y, locs, c, i);
    InPlace(st, x, locs, c, i);
    SameStart(st, x, st', y);
    if i < c {
      var j := FirstThere(locs, i);
      About(st, x, locs, c, j);
    } else if i > c && !Duplicate(locs, i) {
      About(st, x, locs, c, i);
    }
  }

  lemma AllMoves(f: seq<Location>, f': seq<Location>, c: nat, d: int)
    requires c < |f| == |f'| && forall i | 0 <= i < |f| :: Moves(f[i], f'[i], i, c, d)
    ensures LocsStretched(f, f', c, d)
  {
    forall i | 0 <= i < c ensures f'[i] == f[i] { assert Moves(f[i], f'[i], i, c, d); }
    assert Moves(f[c], f'[c], c, c, d);
    forall k | c < k < |f| ensures Follows(f[k], f'[k], d) { assert Moves(f[k], f'[k], k, c, d); }
  }

  lemma TextAround(st: Statement, x: Spot, st': Statement, y: Spot, e: Edit)
    requires Swapped(st, x, st', y) && e.off == x.start && e.len == x.end - x.start
    ensures st.len <= |st.query| && st'.len <= |st'.query|
    ensures SameAround(st.query[..st.len], st'.query[..st'.len], e, y.end - x.end)
  {
    SameStart(st, x, st', y);
    assert Agrees(st, x, st', y, Outside);
    var q, q', d := st.query[..st.len], st'.query[..st'.len], y.end - x.end;
    assert q'[..e.off] == st'.query[..y.start] && q[..e.off] == st.query[..x.start];
    assert q[x.end..] == st.query[x.end..][..st.len - x.end] && q'[y.end..] == st'.query[y.end..][..st'.len - y.end];
  }

  lemma FilledStretched(st: Statement, x: Spot, st': Statement, y: Spot, locs: seq<Location>, c: nat)
    requires Swapped(st, x, st', y) && Marks(st, x, locs, c) && c < |locs|
    requires WellPlaced(st, locs) && WellPlaced(st', MoveAll(locs, st.loc, x, y))
    ensures LocsStretched(Filled(st, locs), Filled(st', MoveAll(locs, st.loc, x, y)), c, y.end - x.end)
    ensures Filled(st, locs)[c].length == x.end - x.start
  {
    var f, f', d := Filled(st, locs), Filled(st', MoveAll(locs, st.loc, x, y)), y.end - x.end;
    forall i | 0 <= i < |f| ensures Moves(f[i], f'[i], i, c, d) { FilledMoved(st, x, st', y, locs, c, i); }
    AllMoves(f, f', c, d);
    MarkedLength(st, x, locs, c);
  }

  /** With the locations stretched, substitution gives the same text. */
  lemma SameRewrite(st: Statement, x: Spot, st': Statement, y: Spot, f: seq<Location>, f': seq<Location>, c: nat,
                    n: nat, hasSquashedLists: bool)
    requires Swapped(st, x, st', y) && LocsStretched(f, f', c, y.end - x.end)
    requires f[c].at - st.loc == x.start && f[c].length == x.end - x.start && !(f[c].extern && !hasSquashedLists)
    requires st.len <= |st.query| && st'.len <= |st'.query|
    requires InOrder(Edits(f, st.loc, n, hasSquashedLists), 0, |st.query[..st.len]|)
    ensures Rewrite(st'.query[..st'.len], Edits(f', st.loc, n, hasSquashedLists), 0) ==
            Rewrite(st.query[..st.len], Edits(f, st.loc, n, hasSquashedLists), 0)
  {
    SameStart(st, x, st', y);
    var m := EditsStretched(f, f', c, st.loc, n, hasSquashedLists, y.end - x.end);
    var a, b := Edits(f, st.loc, n, hasSquashedLists), Edits(f', st.loc, n, hasSquashedLists);
    TextAround(st, x, st', y, a[m]);
    RewriteStretched(st.query[..st.len], a, 0, st'.query[..st'.len], b, m, y.end - x.end);
  }

  /** Replacing a constant by another of any length, with or without a minus,
      leaves the normal form as it is: the replaced bytes and tokens may be
      anything, the text and the tokens outside them only move. */
  lemma SwapKeepsNormalForm(st: Statement, x: Spot, st': Statement, y: Spot, locs: seq<Location>, c: nat,
                            highest: nat, hasSquashedLists: bool)
    requires Swapped(st, x, st', y) && Marks(st, x, locs, c) && c < |locs| && !(locs[c].extern && !hasSquashedLists)
    ensures Lexed(st) && WellPlaced(st, locs) && Lexed(st') && WellPlaced(st', MoveAll(locs, st.loc, x, y))
    ensures NormalForm(st', MoveAll(locs, st.loc, x, y), highest, hasSquashedLists) ==
            NormalForm(st, locs, highest, hasSquashedLists)
  {
    SwapWellFormed(st, x, st', y, locs, c);
    SameStart(st, x, st', y);
    FilledStretched(st, x, st', y, locs, c);
    SpliceIsNormal(st, locs, highest, hasSquashedLists);
    InPlace(st, x, locs, c, c);
    SameRewrite(st, x, st', y, Filled(st, locs), Filled(st', MoveAll(locs, st.loc, x, y)), c, highest + 1, hasSquashedLists);
  }

  lemma SwapWellFormed(st: Statement, x: Spot, st': Statement, y: Spot, locs: seq<Location>, c: nat)
    requires Swapped(st, x, st', y) && Marks(st, x, locs, c)
    ensures Lexed(st) && WellPlaced(st, locs) && Lexed(st') && WellPlaced(st', MoveAll(locs, st.loc, x, y))
  {
    assert Agrees(st, x, st', y, Old) && Agrees(st, x, st', y, New) && Shows(st, x, locs, c, Spread);
    MovedPlaced(st, x, st', y, locs, c);
  }
}
