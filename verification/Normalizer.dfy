/** Query normalisation: constants of a statement are replaced by numbered
    placeholders. Constant lengths come from one forward pass of the lexer,
    whose tokens are taken as given. */
module Normalizer {
  import opened Events

  /** LocationLen; a negative length marks a location to ignore. */
  datatype Location = Location(at: int, length: int, squashed: bool, extern: bool)

  /** A token of the lexer: the bytes from start up to end. */
  datatype Token = Token(start: nat, end: nat)

  /** A statement of `len` bytes at offset `loc` of its source text; `query` and
      the tokens start at the statement. */
  datatype Statement = Statement(query: string, len: nat, loc: int, tokens: seq<Token>)

  /** Tokens come in order and do not overlap. */
  predicate Lexed(st: Statement)
  {
    && st.len <= |st.query|
    && (forall i | 0 <= i < |st.tokens| :: st.tokens[i].start < st.tokens[i].end <= |st.query|)
    && (forall i, j | 0 <= i < j < |st.tokens| :: st.tokens[i].end <= st.tokens[j].start)
  }

  // ------------------------------------------------------------------
  // Sorting
  // ------------------------------------------------------------------

  predicate Sorted(locs: seq<Location>)
  {
    forall i, j | 0 <= i < j < |locs| :: locs[i].at <= locs[j].at
  }

  function Insert(x: Location, locs: seq<Location>): seq<Location>
  {
    if locs == [] || x.at < locs[0].at then [x] + locs else [locs[0]] + Insert(x, locs[1..])
  }

  /** A sorted permutation: all that qsort promises. Entries at one location may
      come in any order. */
  ghost predicate IsSorting(sorted: seq<Location>, locs: seq<Location>)
  {
    Sorted(sorted) && multiset(sorted) == multiset(locs)
  }

  function SortByLocation(locs: seq<Location>): seq<Location>
  {
    if locs == [] then [] else Insert(locs[0], SortByLocation(locs[1..]))
  }

  lemma {:induction false} InsertMembers(x: Location, locs: seq<Location>)
    ensures multiset(Insert(x, locs)) == multiset{x} + multiset(locs)
  {
    if !(locs == [] || x.at < locs[0].at) {
      InsertMembers(x, locs[1..]);
      assert locs == [locs[0]] + locs[1..];
    }
  }

  lemma {:induction false} InsertAbove(x: Location, locs: seq<Location>, b: int)
    requires x.at >= b && forall j | 0 <= j < |locs| :: locs[j].at >= b
    ensures forall j | 0 <= j < |Insert(x, locs)| :: Insert(x, locs)[j].at >= b
  {
    if !(locs == [] || x.at < locs[0].at) { InsertAbove(x, locs[1..], b); }
  }

  lemma {:induction false} InsertSorts(x: Location, locs: seq<Location>)
    requires Sorted(locs)
    ensures Sorted(Insert(x, locs))
  {
    if !(locs == [] || x.at < locs[0].at) {
      InsertSorts(x, locs[1..]);
      InsertAbove(x, locs[1..], locs[0].at);
    }
  }

  lemma {:induction false} SortSorts(locs: seq<Location>)
    ensures IsSorting(SortByLocation(locs), locs)
  {
    if locs != [] {
      SortSorts(locs[1..]);
      InsertSorts(locs[0], SortByLocation(locs[1..]));
      InsertMembers(locs[0], SortByLocation(locs[1..]));
      assert locs == [locs[0]] + locs[1..];
    }
  }

  /** qsort by location. Callers know the result as some sorted permutation. */
  method Sort(locs: seq<Location>) returns (sorted: seq<Location>)
    ensures IsSorting(sorted, locs)
  {
    SortSorts(locs);
    sorted := SortByLocation(locs);
  }

  /** Entries at one location are alike. */
  ghost predicate AlikeWhereEqual(locs: seq<Location>)
  {
    forall x, y | x in locs && y in locs && x.at == y.at :: x == y
  }

  /** If entries at one location are alike there is but one sorting, whatever
      qsort does with them. */
  lemma SortingUnique(locs: seq<Location>, a: seq<Location>, b: seq<Location>)
    requires AlikeWhereEqual(locs) && IsSorting(a, locs) && IsSorting(b, locs)
    ensures a == b
  {
    forall x | x in a ensures x in locs { assert x in multiset(a); }
    SameSorted(a, b);
  }

  lemma {:induction false} SameSorted(a: seq<Location>, b: seq<Location>)
    requires AlikeWhereEqual(a) && Sorted(a) && Sorted(b) && multiset(a) == multiset(b)
    ensures a == b
  {
    if a == [] || b == [] {
      assert |multiset(a)| == |a| && |multiset(b)| == |b|;
    } else {
      SameFirst(a, b);
      SameRest(a, b);
      Tail(a);
      Tail(b);
      SameSorted(a[1..], b[1..]);
    }
  }

  lemma Tail(a: seq<Location>)
    requires Sorted(a) && a != []
    ensures a == [a[0]] + a[1..] && Sorted(a[1..]) && (AlikeWhereEqual(a) ==> AlikeWhereEqual(a[1..]))
  {
  }

  lemma SameFirst(a: seq<Location>, b: seq<Location>)
    requires AlikeWhereEqual(a) && Sorted(a) && Sorted(b) && multiset(a) == multiset(b) && a != [] && b != []
    ensures a[0] == b[0]
  {
    FirstIsLeast(a, b);
    FirstIsLeast(b, a);
    assert b[0] in multiset(a);
  }

  lemma SameRest(a: seq<Location>, b: seq<Location>)
    requires multiset(a) == multiset(b) && a != [] && b != [] && a[0] == b[0]
    ensures multiset(a[1..]) == multiset(b[1..])
  {
    assert a == [a[0]] + a[1..] && b == [b[0]] + b[1..];
    assert multiset(a[1..]) == multiset(a) - multiset{a[0]};
  }

  lemma FirstIsLeast(a: seq<Location>, b: seq<Location>)
    requires Sorted(a) && multiset(a) == multiset(b) && a != [] && b != []
    ensures a[0].at <= b[0].at
  {
    assert b[0] in multiset(a);
    var i :| 0 <= i < |a| && a[i] == b[0];
  }

  // ------------------------------------------------------------------
  // The length of a constant, looked up on its own
  // ------------------------------------------------------------------

  /** The index of the token that starts at `loc`, or the number of tokens. */
  function TokenAt(tokens: seq<Token>, loc: int): (k: nat)
    ensures k <= |tokens| && (k < |tokens| ==> tokens[k].start == loc)
  {
    if tokens == [] then 0 else if tokens[0].start == loc then 0 else 1 + TokenAt(tokens[1..], loc)
  }

  predicate Minus(st: Statement, loc: int)
  {
    0 <= loc < |st.query| && st.query[loc] == '-'
  }

  /** The last token of the constant at `loc`: a leading minus takes its number along. */
  function LastToken(st: Statement, loc: int): nat
  {
    TokenAt(st.tokens, loc) + if Minus(st, loc) then 1 else 0
  }

  /** The statement has a whole constant at `loc`. */
  predicate ConstantAt(st: Statement, loc: int)
  {
    LastToken(st, loc) < |st.tokens|
  }

  function ConstantLength(st: Statement, loc: int): int
    requires ConstantAt(st, loc)
  {
    st.tokens[LastToken(st, loc)].end - loc
  }

  lemma StartsIncrease(st: Statement)
    requires Lexed(st)
    ensures forall i, j | 0 <= i < j < |st.tokens| :: st.tokens[i].start < st.tokens[j].start
  {
    forall i, j | 0 <= i < j < |st.tokens| ensures st.tokens[i].start < st.tokens[j].start {
      assert st.tokens[i].end <= st.tokens[j].start;
    }
  }

  lemma {:induction false} TokenFound(tokens: seq<Token>, loc: int, k: nat)
    requires k < |tokens| && tokens[k].start == loc && forall i | 0 <= i < k :: tokens[i].start != loc
    ensures TokenAt(tokens, loc) == k
  {
    if k > 0 { TokenFound(tokens[1..], loc, k - 1); }
  }

  /** Token k spells the constant at `loc`, up to `end`: alone, or with the token
      after it if the constant begins with a minus. */
  predicate Spells(st: Statement, loc: int, k: nat, end: nat)
  {
    && k < |st.tokens| && st.tokens[k].start == loc < |st.query|
    && if st.query[loc] == '-' then k + 1 < |st.tokens| && st.tokens[k + 1].end == end else st.tokens[k].end == end
  }

  /** There is a constant at `loc` exactly if tokens spell one, and its length is
      what they span. */
  lemma ConstantSpan(st: Statement, loc: int)
    requires Lexed(st)
    ensures ConstantAt(st, loc) <==> exists k: nat, end: nat :: Spells(st, loc, k, end)
    ensures forall k: nat, end: nat | Spells(st, loc, k, end) :: ConstantLength(st, loc) == end - loc
  {
    StartsIncrease(st);
    forall k: nat, end: nat | Spells(st, loc, k, end)
      ensures ConstantAt(st, loc) && ConstantLength(st, loc) == end - loc
    {
      TokenFound(st.tokens, loc, k);
    }
    if ConstantAt(st, loc) {
      assert Spells(st, loc, TokenAt(st.tokens, loc), st.tokens[LastToken(st, loc)].end);
    }
  }

  // ------------------------------------------------------------------
  // Locations a parser produces
  // ------------------------------------------------------------------

  predicate Duplicate(locs: seq<Location>, i: nat)
  {
    0 < i < |locs| && locs[i].at == locs[i - 1].at
  }

  predicate Placed(st: Statement, locs: seq<Location>, i: nat)
    requires i < |locs|
  {
    Duplicate(locs, i) || (if locs[i].squashed then locs[i].length >= 0 else ConstantAt(st, locs[i].at - st.loc))
  }

  /** The length location i is to have. */
  function LengthOf(st: Statement, locs: seq<Location>, i: nat): int
    requires i < |locs| && Placed(st, locs, i)
  {
    if Duplicate(locs, i) then -1
    else if locs[i].squashed then locs[i].length
    else ConstantLength(st, locs[i].at - st.loc)
  }

  predicate Apart(st: Statement, locs: seq<Location>, i: nat, j: nat)
    requires i < |locs| && j < |locs| && Placed(st, locs, i)
  {
    !Duplicate(locs, i) && !Duplicate(locs, j) ==> locs[i].at + LengthOf(st, locs, i) <= locs[j].at
  }

  /** Sorted locations, each at a constant inside the statement, no two
      constants overlapping. */
  ghost predicate WellPlaced(st: Statement, locs: seq<Location>)
  {
    && Sorted(locs)
    && (forall i | 0 <= i < |locs| ::
          && locs[i].at >= st.loc && Placed(st, locs, i)
          && locs[i].at - st.loc + LengthOf(st, locs, i) <= st.len)
    && (forall i, j | 0 <= i < j < |locs| :: Apart(st, locs, i, j))
  }

  /** Well placed whichever way entries at one location are ordered. */
  ghost predicate WellPlacedAnyhow(st: Statement, locs: seq<Location>)
  {
    forall sorted | IsSorting(sorted, locs) :: WellPlaced(st, sorted)
  }

  // ------------------------------------------------------------------
  // FillInConstantLengths
  // ------------------------------------------------------------------

  class JumbleState {
    var clocations: seq<Location>
    const highestExternParamId: nat
    const hasSquashedLists: bool

    constructor (clocations: seq<Location>, highestExternParamId: nat, hasSquashedLists: bool)
      ensures this.clocations == clocations && this.highestExternParamId == highestExternParamId
      ensures this.hasSquashedLists == hasSquashedLists
    {
      this.clocations := clocations;
      this.highestExternParamId := highestExternParamId;
      this.hasSquashedLists := hasSquashedLists;
    }
  }

  /** What the lexer pass leaves: every length as looked up on its own. */
  function Filled(st: Statement, locs: seq<Location>): (r: seq<Location>)
    requires forall i | 0 <= i < |locs| :: Placed(st, locs, i)
    ensures |r| == |locs|
    ensures forall i | 0 <= i < |locs| :: r[i] == locs[i].(length := LengthOf(st, locs, i))
  {
    seq(|locs|, i requires 0 <= i < |locs| => locs[i].(length := LengthOf(st, locs, i)))
  }

  /** The tokens consumed before location i all start before it. */
  ghost predicate Passed(st: Statement, locs: seq<Location>, pos: nat, i: nat)
  {
    && pos <= |st.tokens|
    && forall j | i <= j < |locs| && !Duplicate(locs, j) && !locs[j].squashed ::
         TokenAt(st.tokens, locs[j].at - st.loc) >= pos
  }

  lemma Beyond(st: Statement, last: nat, k: nat)
    requires Lexed(st) && last < |st.tokens| && k < |st.tokens| && st.tokens[last].end <= st.tokens[k].start
    ensures k > last
  {
  }

  /** Later constants lie beyond the last token of this one. */
  lemma PassedOne(st: Statement, locs: seq<Location>, i: nat, j: nat)
    requires Lexed(st) && i < j < |locs| && Placed(st, locs, i) && Placed(st, locs, j) && Apart(st, locs, i, j)
    requires !Duplicate(locs, i) && !locs[i].squashed && !Duplicate(locs, j) && !locs[j].squashed
    ensures TokenAt(st.tokens, locs[j].at - st.loc) > LastToken(st, locs[i].at - st.loc)
  {
    Beyond(st, LastToken(st, locs[i].at - st.loc), TokenAt(st.tokens, locs[j].at - st.loc));
  }

  lemma PassedNext(st: Statement, locs: seq<Location>, i: nat)
    requires Lexed(st) && WellPlaced(st, locs) && i < |locs| && !Duplicate(locs, i) && !locs[i].squashed
    ensures Placed(st, locs, i) && Passed(st, locs, LastToken(st, locs[i].at - st.loc) + 1, i + 1)
  {
    assert Placed(st, locs, i);
    forall j | i + 1 <= j < |locs| && !Duplicate(locs, j) && !locs[j].squashed
      ensures TokenAt(st.tokens, locs[j].at - st.loc) >= LastToken(st, locs[i].at - st.loc) + 1
    {
      assert Placed(st, locs, j) && Apart(st, locs, i, j);
      PassedOne(st, locs, i, j);
    }
  }

  /** Token k, from `pos` on, is the first to start at or after `loc`. */
  predicate Reaches(st: Statement, loc: int, pos: nat, k: nat)
  {
    && pos <= k < |st.tokens| && st.tokens[k].start >= loc
    && forall i | pos <= i < k :: st.tokens[i].start < loc
  }

  /** What lexing on from token `pos` finds for the constant at `loc`: the end of
      the first token there, or of its number if the constant begins with a
      minus; nothing if the tokens run out. */
  ghost predicate Lexes(st: Statement, loc: int, pos: nat, next: nat, end: Option<nat>)
  {
    match end
    case Some(e) => exists k: nat :: Reaches(st, loc, pos, k) && LexedTo(st, loc, k, next, e)
    case None => forall k: nat | Reaches(st, loc, pos, k) :: Minus(st, loc) && k + 1 == |st.tokens|
  }

  predicate LexedTo(st: Statement, loc: int, k: nat, next: nat, end: nat)
  {
    var last := if Minus(st, loc) then k + 1 else k;
    last < |st.tokens| && next == last + 1 && end == st.tokens[last].end
  }

  /** The inner loop of the lexer pass: lex on from token `pos` up to the first
      token at or after `loc`, and its number if there is a minus. The end of
      the token is where the lexer has just put its terminator. */
  method LexConstant(st: Statement, loc: int, pos: nat) returns (next: nat, end: Option<nat>)
    requires Lexed(st) && pos <= |st.tokens|
    ensures pos <= next <= |st.tokens|
    ensures Lexes(st, loc, pos, next, end)
  {
    next := pos;
    while next < |st.tokens|
      invariant pos <= next <= |st.tokens|
      invariant forall i | pos <= i < next :: st.tokens[i].start < loc
    {
      var t := st.tokens[next];
      next := next + 1;
      if t.start >= loc {
        var k := next - 1;
        assert Reaches(st, loc, pos, k);
        if Minus(st, loc) {
          if next == |st.tokens| { return next, None; }
          t := st.tokens[next];
          next := next + 1;
        }
        return next, Some(t.end);
      }
    }
    return next, None;
  }

  /** A constant not passed yet is found. */
  lemma LexesConstant(st: Statement, loc: int, pos: nat, next: nat, end: Option<nat>)
    requires Lexed(st) && ConstantAt(st, loc) && TokenAt(st.tokens, loc) >= pos && Lexes(st, loc, pos, next, end)
    ensures next == LastToken(st, loc) + 1 && end == Some(st.tokens[LastToken(st, loc)].end)
  {
    StartsIncrease(st);
    var own := TokenAt(st.tokens, loc);
    assert Reaches(st, loc, pos, own);
    if end.Some? {
      var k: nat :| Reaches(st, loc, pos, k) && LexedTo(st, loc, k, next, end.value);
      assert k == own;
    }
  }

  /** Where the pass stands before location i: the locations done have their
      looked-up lengths, the others are as they were. `ok`: the locations are
      well placed. */
  datatype Aspect = Placement | Untouched | Lengths | Lexer

  ghost predicate Holds(st: Statement, locs: seq<Location>, now: seq<Location>, pos: nat, i: nat, ok: bool, aspect: Aspect)
  {
    match aspect
    case Placement => ok ==> WellPlaced(st, locs)
    case Untouched =>
      && i <= |locs| == |now|
      && (forall k | 0 <= k < |locs| :: now[k] == locs[k].(length := now[k].length))
      && (forall k | i <= k < |locs| :: now[k] == locs[k])
    case Lengths =>
      i <= |locs| == |now| && (ok ==> forall k | 0 <= k < i :: Placed(st, locs, k) && now[k].length == LengthOf(st, locs, k))
    case Lexer => pos <= |st.tokens| && (ok ==> Passed(st, locs, pos, i))
  }

  ghost predicate PassOk(st: Statement, locs: seq<Location>, now: seq<Location>, pos: nat, i: nat, ok: bool)
  {
    forall aspect: Aspect :: Holds(st, locs, now, pos, i, ok, aspect)
  }

  lemma PassStart(st: Statement, locs: seq<Location>)
    ensures PassOk(st, locs, locs, 0, 0, WellPlaced(st, locs))
  {
  }

  lemma PassShape(st: Statement, locs: seq<Location>, now: seq<Location>, pos: nat, i: nat, ok: bool)
    requires PassOk(st, locs, now, pos, i, ok)
    ensures i <= |locs| == |now| && pos <= |st.tokens|
    ensures i < |locs| ==> now[i] == locs[i]
    ensures 0 < i < |locs| ==> now[i - 1].at == locs[i - 1].at
  {
    assert Holds(st, locs, now, pos, i, ok, Untouched) && Holds(st, locs, now, pos, i, ok, Lexer);
  }

  lemma PassStep(st: Statement, locs: seq<Location>, now: seq<Location>, pos: nat, i: nat, ok: bool, pos': nat, length: int)
    requires PassOk(st, locs, now, pos, i, ok) && i < |locs| == |now| && pos' <= |st.tokens|
    requires ok ==> Placed(st, locs, i) && length == LengthOf(st, locs, i) && Passed(st, locs, pos', i + 1)
    ensures PassOk(st, locs, now[i := now[i].(length := length)], pos', i + 1, ok)
  {
    var now', n := now[i := now[i].(length := length)], i + 1;
    forall aspect: Aspect ensures Holds(st, locs, now', pos', n, ok, aspect) {
      assert Holds(st, locs, now, pos, i, ok, aspect) && Holds(st, locs, now, pos, i, ok, Untouched);
    }
  }

  /** A location that needs no lexing. */
  lemma PassSkip(st: Statement, locs: seq<Location>, now: seq<Location>, pos: nat, i: nat, ok: bool)
    requires PassOk(st, locs, now, pos, i, ok) && i < |locs| == |now| && (Duplicate(locs, i) || locs[i].squashed)
    ensures var length := if Duplicate(locs, i) then -1 else locs[i].length;
            PassOk(st, locs, now[i := now[i].(length := length)], pos, i + 1, ok)
  {
    assert Holds(st, locs, now, pos, i, ok, Lexer) && Holds(st, locs, now, pos, i, ok, Placement);
    PassStep(st, locs, now, pos, i, ok, pos, if Duplicate(locs, i) then -1 else locs[i].length);
  }

  /** A constant that the lexer pass measures. */
  lemma PassLexed(st: Statement, locs: seq<Location>, now: seq<Location>, pos: nat, i: nat)
    requires Lexed(st) && PassOk(st, locs, now, pos, i, true) && i < |locs| && !Duplicate(locs, i) && !locs[i].squashed
    ensures TokenAt(st.tokens, locs[i].at - st.loc) >= pos && ConstantAt(st, locs[i].at - st.loc)
    ensures Placed(st, locs, i) && Passed(st, locs, LastToken(st, locs[i].at - st.loc) + 1, i + 1)
  {
    assert Holds(st, locs, now, pos, i, true, Lexer) && Holds(st, locs, now, pos, i, true, Placement);
    PassedNext(st, locs, i);
  }

  lemma PassMeasured(st: Statement, locs: seq<Location>, now: seq<Location>, pos: nat, i: nat, ok: bool,
                     next: nat, end: Option<nat>)
    requires Lexed(st) && PassOk(st, locs, now, pos, i, ok) && i < |locs| == |now| && next <= |st.tokens|
    requires !Duplicate(locs, i) && !locs[i].squashed && Lexes(st, locs[i].at - st.loc, pos, next, end)
    ensures ok ==> end.Some?
    ensures end.Some? ==> PassOk(st, locs, now[i := now[i].(length := end.value - (locs[i].at - st.loc))], next, i + 1, ok)
  {
    if ok {
      PassLexed(st, locs, now, pos, i);
      LexesConstant(st, locs[i].at - st.loc, pos, next, end);
    }
    if end.Some? { PassStep(st, locs, now, pos, i, ok, next, end.value - (locs[i].at - st.loc)); }
  }

  lemma PassEnd(st: Statement, locs: seq<Location>, now: seq<Location>, pos: nat, i: nat)
    requires PassOk(st, locs, now, pos, i, WellPlaced(st, locs)) && (WellPlaced(st, locs) ==> i == |locs|)
    ensures |now| == |locs| && forall k | 0 <= k < |locs| :: now[k] == locs[k].(length := now[k].length)
    ensures WellPlaced(st, locs) ==> now == Filled(st, locs)
  {
    var ok := WellPlaced(st, locs);
    assert Holds(st, locs, now, pos, i, ok, Untouched) && Holds(st, locs, now, pos, i, ok, Lengths);
  }

  /** The pass over the sorted locations. */
  method MeasureAll(jstate: JumbleState, st: Statement, ghost ok: bool) returns (pos: nat, i: nat)
    requires Lexed(st) && PassOk(st, jstate.clocations, jstate.clocations, 0, 0, ok)
    modifies jstate`clocations
    ensures PassOk(st, old(jstate.clocations), jstate.clocations, pos, i, ok)
    ensures ok ==> i == |old(jstate.clocations)|
  {
    ghost var locs := jstate.clocations;
    pos, i := 0, 0;
    while i < |jstate.clocations|
      invariant i <= |jstate.clocations| == |locs| && PassOk(st, locs, jstate.clocations, pos, i, ok)
      decreases |locs| - i
    {
      PassShape(st, locs, jstate.clocations, pos, i, ok);
      var x := jstate.clocations[i];
      if i > 0 && x.at == jstate.clocations[i - 1].at {
        PassSkip(st, locs, jstate.clocations, pos, i, ok);
        jstate.clocations := jstate.clocations[i := x.(length := -1)];
      } else if x.squashed {
        PassSkip(st, locs, jstate.clocations, pos, i, ok);
        assert jstate.clocations[i := x.(length := x.length)] == jstate.clocations;
      } else {
        var next, end := LexConstant(st, x.at - st.loc, pos);
        PassMeasured(st, locs, jstate.clocations, pos, i, ok, next, end);
        if end.None? { break; }
        jstate.clocations := jstate.clocations[i := x.(length := end.value - (x.at - st.loc))];
        pos := next;
      }
      i := i + 1;
    }
  }

  /** FillInConstantLengths: sort, then give every constant its length in one
      forward pass. */
  method FillInConstantLengths(jstate: JumbleState, st: Statement) returns (ghost locs: seq<Location>)
    requires Lexed(st)
    modifies jstate`clocations
    ensures IsSorting(locs, old(jstate.clocations)) && |jstate.clocations| == |locs|
    ensures forall k | 0 <= k < |locs| :: jstate.clocations[k] == locs[k].(length := jstate.clocations[k].length)
    ensures WellPlaced(st, locs) ==> jstate.clocations == Filled(st, locs)
  {
    var sorted := Sort(jstate.clocations);
    jstate.clocations, locs := sorted, sorted;
    PassStart(st, locs);
    var pos, i := MeasureAll(jstate, st, WellPlaced(st, locs));
    PassEnd(st, locs, jstate.clocations, pos, i);
  }
}
