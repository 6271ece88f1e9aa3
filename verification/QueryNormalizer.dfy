/** The splice loop of query normalisation, against a byte-by-byte substitution. */
module QueryNormalizer {
  import opened Events
  import opened Normalizer

  // ------------------------------------------------------------------
  // Substitution, byte by byte
  // ------------------------------------------------------------------

  /** Replace `len` bytes at `off` by `text`. */
  datatype Edit = Edit(off: int, len: int, text: string)

  function Rewrite(q: string, edits: seq<Edit>, p: nat): string
    decreases |edits|, if p < |q| then |q| - p else 0
  {
    if edits != [] && edits[0].off == p && edits[0].len >= 0 then
      edits[0].text + Rewrite(q, edits[1..], p + edits[0].len)
    else if p < |q| then [q[p]] + Rewrite(q, edits, p + 1)
    else ""
  }

  /** Edits from p on, in order and without overlap, inside the first n bytes. */
  predicate InOrder(edits: seq<Edit>, p: int, n: int)
  {
    if edits == [] then p <= n
    else p <= edits[0].off && edits[0].len >= 0 && InOrder(edits[1..], edits[0].off + edits[0].len, n)
  }

  lemma {:induction false} OrderBounds(edits: seq<Edit>, p: int, n: int)
    requires InOrder(edits, p, n)
    ensures p <= n && (edits != [] ==> edits[0].off + edits[0].len <= n)
  {
    if edits != [] { OrderBounds(edits[1..], edits[0].off + edits[0].len, n); }
  }

  /** Bytes before the next edit are copied. */
  lemma {:induction false} CopyGap(q: string, edits: seq<Edit>, p: nat)
    requires edits != [] && p <= edits[0].off <= |q| && edits[0].len >= 0
    ensures Rewrite(q, edits, p) ==
            q[p..edits[0].off] + edits[0].text + Rewrite(q, edits[1..], edits[0].off + edits[0].len)
    decreases edits[0].off - p
  {
    if p < edits[0].off {
      CopyGap(q, edits, p + 1);
      assert q[p..edits[0].off] == [q[p]] + q[p + 1..edits[0].off];
    }
  }

  lemma {:induction false} CopyRest(q: string, p: nat)
    requires p <= |q|
    ensures Rewrite(q, [], p) == q[p..]
    decreases |q| - p
  {
    if p < |q| { CopyRest(q, p + 1); }
  }

  /** The bytes that stay: before, between and after the edits. */
  function Gaps(q: string, edits: seq<Edit>, p: nat): seq<string>
    requires InOrder(edits, p, |q|)
    decreases |edits|
  {
    OrderBounds(edits, p, |q|);
    if edits == [] then [q[p..]]
    else [q[p..edits[0].off]] + Gaps(q, edits[1..], edits[0].off + edits[0].len)
  }

  predicate SameTexts(a: seq<Edit>, b: seq<Edit>)
  {
    |a| == |b| && forall k | 0 <= k < |a| :: a[k].text == b[k].text
  }

  /** The outcome depends on the bytes that stay and on the replacements only. */
  lemma {:induction false} SameGapsSameResult(q: string, a: seq<Edit>, p: nat, q': string, b: seq<Edit>, p': nat)
    requires InOrder(a, p, |q|) && InOrder(b, p', |q'|) && SameTexts(a, b)
    requires Gaps(q, a, p) == Gaps(q', b, p')
    ensures Rewrite(q, a, p) == Rewrite(q', b, p')
    decreases |a|
  {
    OrderBounds(a, p, |q|);
    OrderBounds(b, p', |q'|);
    if a == [] {
      CopyRest(q, p);
      CopyRest(q', p');
      assert Gaps(q, a, p)[0] == Gaps(q', b, p')[0];
    } else {
      CopyGap(q, a, p);
      CopyGap(q', b, p');
      var g, g' := Gaps(q, a, p), Gaps(q', b, p');
      assert g[0] == g'[0] && g[1..] == g'[1..];
      SameGapsSameResult(q, a[1..], a[0].off + a[0].len, q', b[1..], b[0].off + b[0].len);
    }
  }

  lemma Rejoin(q: string, p: nat, a: nat, b: nat)
    requires p <= a <= b <= |q|
    ensures q[p..a] + q[a..b] + q[b..] == q[p..]
  {
  }

  /** Putting the replaced bytes back gives the statement again: nothing outside
      the replaced spans is lost, moved or repeated. */
  lemma {:induction false} PuttingBack(q: string, edits: seq<Edit>, p: nat)
    requires InOrder(edits, p, |q|)
    ensures p <= |q| && Rewrite(q, Originals(q, edits), p) == q[p..]
    decreases |edits|
  {
    OrderBounds(edits, p, |q|);
    if edits == [] {
      CopyRest(q, p);
    } else {
      var o, a, b := Originals(q, edits), edits[0].off, edits[0].off + edits[0].len;
      PuttingBack(q, edits[1..], b);
      assert o[0].off == a && o[0].text == q[a..b] && o[1..] == Originals(q, edits[1..]);
      CopyGap(q, o, p);
      Rejoin(q, p, a, b);
    }
  }

  /** The edits that replace each span by itself. */
  function Originals(q: string, edits: seq<Edit>): (r: seq<Edit>)
    ensures |r| == |edits|
  {
    if edits == [] then []
    else [edits[0].(text := Span(q, edits[0].off, edits[0].len))] + Originals(q, edits[1..])
  }

  function Span(q: string, off: int, len: int): string
  {
    if 0 <= off <= off + len <= |q| then q[off..off + len] else ""
  }

  // ------------------------------------------------------------------
  // Placeholders
  // ------------------------------------------------------------------

  function Decimal(n: nat): string
  {
    var digit := ['0' + (n % 10) as char];
    if n < 10 then digit else Decimal(n / 10) + digit
  }

  predicate IsDigit(c: char) { '0' <= c <= '9' }

  /** The number that digits stand for. */
  function ValueOf(digits: string): int
  {
    if digits == "" then 0
    else 10 * ValueOf(digits[..|digits| - 1]) + (digits[|digits| - 1] as int - '0' as int)
  }

  /** The decimal numeral of n: digits that stand for n, with no leading zero. */
  lemma {:induction false} DecimalIsNumeral(n: nat)
    ensures var r := Decimal(n);
            && r != "" && (forall k | 0 <= k < |r| :: IsDigit(r[k])) && ValueOf(r) == n
            && (n > 0 ==> r[0] != '0')
  {
    if n >= 10 {
      DecimalIsNumeral(n / 10);
      assert Decimal(n)[..|Decimal(n)| - 1] == Decimal(n / 10);
    }
  }

  function Placeholder(n: nat, squashed: bool): string
  {
    "$" + Decimal(n) + if squashed then " /*, ... */" else ""
  }

  /** Locations that are replaced: neither preserved external parameters nor ignored ones. */
  predicate Replaced(x: Location, hasSquashedLists: bool)
  {
    !(x.extern && !hasSquashedLists) && x.length >= 0
  }

  function Kept(locs: seq<Location>, hasSquashedLists: bool): seq<Location>
  {
    if locs == [] then []
    else (if Replaced(locs[0], hasSquashedLists) then [locs[0]] else []) + Kept(locs[1..], hasSquashedLists)
  }

  /** Locations are left alone exactly if they are ignored, or are external
      parameters of a statement without squashed lists. */
  lemma {:induction false} KeptExactly(locs: seq<Location>, hasSquashedLists: bool, x: Location)
    ensures multiset(Kept(locs, hasSquashedLists))[x] ==
            if x.length < 0 || (x.extern && !hasSquashedLists) then 0 else multiset(locs)[x]
  {
    if locs != [] {
      KeptExactly(locs[1..], hasSquashedLists, x);
      assert locs == [locs[0]] + locs[1..];
    }
  }

  /** The edits for the replaced locations, numbered from n on. */
  function Edits(locs: seq<Location>, loc: int, n: nat, hasSquashedLists: bool): seq<Edit>
  {
    if locs == [] then []
    else if Replaced(locs[0], hasSquashedLists) then
      [Edit(locs[0].at - loc, locs[0].length, Placeholder(n, locs[0].squashed))] +
      Edits(locs[1..], loc, n + 1, hasSquashedLists)
    else Edits(locs[1..], loc, n, hasSquashedLists)
  }

  /** The k-th replaced location gets number n + k. */
  lemma {:induction false} NumberedInOrder(locs: seq<Location>, loc: int, n: nat, hasSquashedLists: bool, k: nat)
    requires k < |Kept(locs, hasSquashedLists)|
    ensures |Edits(locs, loc, n, hasSquashedLists)| == |Kept(locs, hasSquashedLists)|
    ensures var x := Kept(locs, hasSquashedLists)[k];
            Edits(locs, loc, n, hasSquashedLists)[k] == Edit(x.at - loc, x.length, Placeholder(n + k, x.squashed))
  {
    if Replaced(locs[0], hasSquashedLists) {
      if k > 0 {
        NumberedInOrder(locs[1..], loc, n + 1, hasSquashedLists, k - 1);
      } else {
        EditsKept(locs[1..], loc, n + 1, hasSquashedLists);
      }
    } else {
      NumberedInOrder(locs[1..], loc, n, hasSquashedLists, k);
    }
  }

  lemma {:induction false} EditsKept(locs: seq<Location>, loc: int, n: nat, hasSquashedLists: bool)
    ensures |Edits(locs, loc, n, hasSquashedLists)| == |Kept(locs, hasSquashedLists)|
  {
    if locs != [] {
      EditsKept(locs[1..], loc, n, hasSquashedLists);
      EditsKept(locs[1..], loc, n + 1, hasSquashedLists);
    }
  }

  // ------------------------------------------------------------------
  // Well-placed locations give edits in order
  // ------------------------------------------------------------------

  /** The locations not ignored lie between lo and hi and do not overlap. */
  predicate Spaced(f: seq<Location>, lo: int, hi: int)
  {
    && (forall j | 0 <= j < |f| && f[j].length >= 0 :: lo <= f[j].at && f[j].at + f[j].length <= hi)
    && (forall j, k | 0 <= j < k < |f| && f[j].length >= 0 && f[k].length >= 0 :: f[j].at + f[j].length <= f[k].at)
  }

  lemma {:induction false} EditsInOrder(f: seq<Location>, loc: int, n: nat, hasSquashedLists: bool, p: int, len: int)
    requires Spaced(f, loc + p, loc + len) && p <= len
    ensures InOrder(Edits(f, loc, n, hasSquashedLists), p, len)
  {
    if f != [] {
      if Replaced(f[0], hasSquashedLists) {
        EditsInOrder(f[1..], loc, n + 1, hasSquashedLists, f[0].at - loc + f[0].length, len);
      } else {
        EditsInOrder(f[1..], loc, n, hasSquashedLists, p, len);
      }
    }
  }

  lemma FilledSpaced(st: Statement, locs: seq<Location>)
    requires Lexed(st) && WellPlaced(st, locs)
    ensures Spaced(Filled(st, locs), st.loc, st.loc + st.len)
  {
    var f := Filled(st, locs);
    forall j, k | 0 <= j < k < |f| && f[j].length >= 0 && f[k].length >= 0 ensures f[j].at + f[j].length <= f[k].at {
      assert Apart(st, locs, j, k);
    }
  }

  // ------------------------------------------------------------------
  // PschNormalizeQuery
  // ------------------------------------------------------------------

  /** The normal form of a statement with its locations sorted, by byte-wise
      substitution of constants whose lengths are looked up one by one. */
  ghost function NormalForm(st: Statement, locs: seq<Location>, highest: nat, hasSquashedLists: bool): string
    requires Lexed(st) && WellPlaced(st, locs)
  {
    Rewrite(st.query[..st.len], Edits(Filled(st, locs), st.loc, highest + 1, hasSquashedLists), 0)
  }

  /** Where the splice loop stands before location i: what is still to be
      substituted, and that nothing else differs from the substitution. */
  datatype Side = Order | Outcome

  ghost predicate Spliced(q: string, all: seq<Edit>, rest: seq<Edit>, out: string, p: nat, side: Side)
  {
    match side
    case Order => InOrder(rest, p, |q|)
    case Outcome => Rewrite(q, all, 0) == out + Rewrite(q, rest, p)
  }

  ghost predicate SplicedTo(q: string, all: seq<Edit>, rest: seq<Edit>, out: string, p: nat)
  {
    forall side: Side :: Spliced(q, all, rest, out, p, side)
  }

  lemma SpliceStart(q: string, all: seq<Edit>)
    requires InOrder(all, 0, |q|)
    ensures SplicedTo(q, all, all, "", 0)
  {
  }

  lemma SpliceRoom(q: string, all: seq<Edit>, rest: seq<Edit>, out: string, p: nat)
    requires SplicedTo(q, all, rest, out, p)
    ensures p <= |q| && (rest != [] ==> p <= rest[0].off <= rest[0].off + rest[0].len <= |q|)
  {
    assert Spliced(q, all, rest, out, p, Order);
    OrderBounds(rest, p, |q|);
  }

  lemma SpliceOne(q: string, all: seq<Edit>, rest: seq<Edit>, out: string, p: nat)
    requires SplicedTo(q, all, rest, out, p) && rest != [] && p <= rest[0].off <= rest[0].off + rest[0].len <= |q|
    ensures SplicedTo(q, all, rest[1..], out + q[p..rest[0].off] + rest[0].text, rest[0].off + rest[0].len)
  {
    assert Spliced(q, all, rest, out, p, Order) && Spliced(q, all, rest, out, p, Outcome);
    CopyGap(q, rest, p);
    var out', p' := out + q[p..rest[0].off] + rest[0].text, rest[0].off + rest[0].len;
    assert out + (q[p..rest[0].off] + rest[0].text + Rewrite(q, rest[1..], p')) == out' + Rewrite(q, rest[1..], p');
    var rest' := rest[1..];
    forall side: Side ensures Spliced(q, all, rest', out', p', side) { }
  }

  lemma SpliceEnd(q: string, all: seq<Edit>, out: string, p: nat)
    requires SplicedTo(q, all, [], out, p) && p <= |q|
    ensures Rewrite(q, all, 0) == out + q[p..]
  {
    assert Spliced(q, all, [], out, p, Outcome);
    CopyRest(q, p);
  }

  /** The edits for the first location and for the others. */
  lemma EditsSplit(locs: seq<Location>, i: nat, loc: int, n: nat, hasSquashedLists: bool)
    requires i < |locs|
    ensures var e, rest := Edits(locs[i..], loc, n, hasSquashedLists), locs[i + 1..];
            if Replaced(locs[i], hasSquashedLists) then
              && e != [] && e[0] == Edit(locs[i].at - loc, locs[i].length, Placeholder(n, locs[i].squashed))
              && e[1..] == Edits(rest, loc, n + 1, hasSquashedLists)
            else e == Edits(rest, loc, n, hasSquashedLists)
  {
    assert locs[i..][1..] == locs[i + 1..] && locs[i..][0] == locs[i];
  }

  /** The splice loop. */
  method Splice(q: string, locs: seq<Location>, loc: int, highest: nat, hasSquashedLists: bool) returns (out: string)
    requires InOrder(Edits(locs, loc, highest + 1, hasSquashedLists), 0, |q|)
    ensures out == Rewrite(q, Edits(locs, loc, highest + 1, hasSquashedLists), 0)
  {
    ghost var all := Edits(locs, loc, highest + 1, hasSquashedLists);
    SpliceStart(q, all);
    out := "";
    var querLoc, lastOff, lastTokLen, replaced := 0, 0, 0, 0;
    assert locs[0..] == locs;
    for i := 0 to |locs|
      invariant 0 <= querLoc == lastOff + lastTokLen && replaced >= 0
      invariant SplicedTo(q, all, Edits(locs[i..], loc, replaced + 1 + highest, hasSquashedLists), out, querLoc)
    {
      ghost var rest := Edits(locs[i..], loc, replaced + 1 + highest, hasSquashedLists);
      EditsSplit(locs, i, loc, replaced + 1 + highest, hasSquashedLists);
      if locs[i].extern && !hasSquashedLists { continue; }
      var off, tokLen := locs[i].at - loc, locs[i].length;
      if tokLen < 0 { continue; }
      SpliceRoom(q, all, rest, out, querLoc);
      SpliceOne(q, all, rest, out, querLoc);
      var lenToWrite := off - lastOff - lastTokLen;
      out := out + q[querLoc..querLoc + lenToWrite];
      out := out + Placeholder(replaced + 1 + highest, locs[i].squashed);
      replaced := replaced + 1;
      querLoc, lastOff, lastTokLen := off + tokLen, off, tokLen;
    }
    SpliceRoom(q, all, [], out, querLoc);
    SpliceEnd(q, all, out, querLoc);
    out := out + q[querLoc..];
  }

  /** Once the lengths are filled in, the splice loop computes the normal form. */
  lemma SpliceIsNormal(st: Statement, locs: seq<Location>, highest: nat, hasSquashedLists: bool)
    requires Lexed(st) && WellPlaced(st, locs)
    ensures var edits := Edits(Filled(st, locs), st.loc, highest + 1, hasSquashedLists);
            && InOrder(edits, 0, |st.query[..st.len]|)
            && NormalForm(st, locs, highest, hasSquashedLists) == Rewrite(st.query[..st.len], edits, 0)
  {
    FilledSpaced(st, locs);
    EditsInOrder(Filled(st, locs), st.loc, highest + 1, hasSquashedLists, 0, st.len);
  }

  method SpliceFilled(st: Statement, filled: seq<Location>, ghost locs: seq<Location>, highest: nat, hasSquashedLists: bool)
    returns (out: string)
    requires Lexed(st) && WellPlaced(st, locs) && filled == Filled(st, locs)
    ensures out == NormalForm(st, locs, highest, hasSquashedLists)
  {
    SpliceIsNormal(st, locs, highest, hasSquashedLists);
    out := Splice(st.query[..st.len], filled, st.loc, highest, hasSquashedLists);
  }

  /** PschNormalizeQuery: nothing for a statement without constants, else its
      normal form, for whatever sorted permutation qsort makes of the locations. */
  method NormalizeQuery(st: Statement, jstate: JumbleState?) returns (r: Option<string>, ghost locs: seq<Location>)
    requires Lexed(st) && (jstate != null ==> WellPlacedAnyhow(st, jstate.clocations))
    modifies jstate
    ensures r.None? <==> jstate == null || old(jstate.clocations) == []
    ensures r.Some? ==> IsSorting(locs, old(jstate.clocations)) && WellPlaced(st, locs)
    ensures r.Some? ==> r.value == NormalForm(st, locs, jstate.highestExternParamId, jstate.hasSquashedLists)
  {
    if jstate == null || |jstate.clocations| <= 0 { return None, []; }
    locs := FillInConstantLengths(jstate, st);
    var out := SpliceFilled(st, jstate.clocations, locs, jstate.highestExternParamId, jstate.hasSquashedLists);
    r := Some(out);
  }

  // ------------------------------------------------------------------
  // Same statement up to constants, same normal form
  // ------------------------------------------------------------------

  /** What a statement replaces, and what it keeps. */
  ghost function EditsOf(st: Statement, locs: seq<Location>, highest: nat, hasSquashedLists: bool): (r: seq<Edit>)
    requires Lexed(st) && WellPlaced(st, locs)
    ensures InOrder(r, 0, st.len)
  {
    FilledSpaced(st, locs);
    EditsInOrder(Filled(st, locs), st.loc, highest + 1, hasSquashedLists, 0, st.len);
    Edits(Filled(st, locs), st.loc, highest + 1, hasSquashedLists)
  }

  ghost function KeptOf(st: Statement, locs: seq<Location>, hasSquashedLists: bool): seq<Location>
    requires Lexed(st) && WellPlaced(st, locs)
  {
    Kept(Filled(st, locs), hasSquashedLists)
  }

  /** The normal form, spelled out: the k-th location kept is replaced by the
      number that comes k places after those of the external parameters, with a
      mark if it is a squashed list. All other bytes stay. */
  lemma NormalFormExact(st: Statement, locs: seq<Location>, highest: nat, hasSquashedLists: bool)
    requires Lexed(st) && WellPlaced(st, locs)
    ensures var kept, edits := KeptOf(st, locs, hasSquashedLists), EditsOf(st, locs, highest, hasSquashedLists);
            && NormalForm(st, locs, highest, hasSquashedLists) == Rewrite(st.query[..st.len], edits, 0)
            && NumberedFrom(edits, kept, st.loc, highest + 1)
  {
    AllNumbered(Filled(st, locs), st.loc, highest + 1, hasSquashedLists);
  }

  lemma AllNumbered(f: seq<Location>, loc: int, n: nat, hasSquashedLists: bool)
    ensures var kept, edits := Kept(f, hasSquashedLists), Edits(f, loc, n, hasSquashedLists);
            NumberedFrom(edits, kept, loc, n)
  {
    EditsKept(f, loc, n, hasSquashedLists);
    var kept, edits := Kept(f, hasSquashedLists), Edits(f, loc, n, hasSquashedLists);
    forall k | 0 <= k < |kept| ensures Numbered(edits[k], kept[k], loc, n + k) {
      NumberedInOrder(f, loc, n, hasSquashedLists, k);
    }
  }

  predicate NumberedFrom(edits: seq<Edit>, kept: seq<Location>, loc: int, n: nat)
  {
    |edits| == |kept| && forall k | 0 <= k < |kept| :: Numbered(edits[k], kept[k], loc, n + k)
  }

  predicate Numbered(e: Edit, x: Location, loc: int, n: nat)
  {
    && e.off == x.at - loc && e.len == x.length
    && e.text == "$" + Decimal(n) + if x.squashed then " /*, ... */" else ""
  }

  /** Placeholders depend on how many locations are replaced and which are squashed. */
  lemma SamePlaceholders(f: seq<Location>, loc: int, f': seq<Location>, loc': int, n: nat, hasSquashedLists: bool)
    requires var a, b := Kept(f, hasSquashedLists), Kept(f', hasSquashedLists);
             |a| == |b| && forall k | 0 <= k < |a| :: a[k].squashed == b[k].squashed
    ensures SameTexts(Edits(f, loc, n, hasSquashedLists), Edits(f', loc', n, hasSquashedLists))
  {
    EditsKept(f, loc, n, hasSquashedLists);
    EditsKept(f', loc', n, hasSquashedLists);
    var a, b := Edits(f, loc, n, hasSquashedLists), Edits(f', loc', n, hasSquashedLists);
    forall k | 0 <= k < |a| ensures a[k].text == b[k].text {
      NumberedInOrder(f, loc, n, hasSquashedLists, k);
      NumberedInOrder(f', loc', n, hasSquashedLists, k);
    }
  }

  /** Two statements with the same text outside their replaced constants, and as
      many of these, squashed or not alike, have the same normal form, whatever
      the constants and their lengths are. */
  lemma SameUpToConstants(st: Statement, locs: seq<Location>, st': Statement, locs': seq<Location>,
                          highest: nat, hasSquashedLists: bool)
    requires Lexed(st) && WellPlaced(st, locs)
    requires Lexed(st') && WellPlaced(st', locs')
    requires var a, b := KeptOf(st, locs, hasSquashedLists), KeptOf(st', locs', hasSquashedLists);
             |a| == |b| && forall k | 0 <= k < |a| :: a[k].squashed == b[k].squashed
    requires Gaps(st.query[..st.len], EditsOf(st, locs, highest, hasSquashedLists), 0) ==
             Gaps(st'.query[..st'.len], EditsOf(st', locs', highest, hasSquashedLists), 0)
    ensures NormalForm(st, locs, highest, hasSquashedLists) == NormalForm(st', locs', highest, hasSquashedLists)
  {
    SamePlaceholders(Filled(st, locs), st.loc, Filled(st', locs'), st'.loc,
                     highest + 1, hasSquashedLists);
    SameGapsSameResult(st.query[..st.len], EditsOf(st, locs, highest, hasSquashedLists), 0,
                       st'.query[..st'.len], EditsOf(st', locs', highest, hasSquashedLists), 0);
  }
}
