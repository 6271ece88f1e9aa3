/** The backend-local cache of normalised query texts: a hash table and an
    intrusive, circular, doubly linked list of its entries in order of use. */
module NormalizedCache {
  import opened Events
  import opened Recency

  /** Where the list begins and ends; query id 0 is never cached. */
  const HEAD: nat := 0

  /** The nodes met on a walk round the list. */
  function Chain(order: seq<nat>): seq<nat>
  {
    [HEAD] + order + [HEAD]
  }

  /** The node at place i of the walk and the next one point at each other. */
  predicate Joined(next: map<nat, nat>, prev: map<nat, nat>, c: seq<nat>, i: nat)
  {
    i + 1 < |c| && c[i] in next && next[c[i]] == c[i + 1] && c[i + 1] in prev && prev[c[i + 1]] == c[i]
  }

  /** The links run through `order` in both directions. */
  ghost predicate Links(next: map<nat, nat>, prev: map<nat, nat>, order: seq<nat>)
  {
    && HEAD !in order && Distinct(order)
    && forall i: nat | i <= |order| :: Joined(next, prev, Chain(order), i)
  }

  /** Only the sentinel is met twice. */
  lemma ChainApart(order: seq<nat>)
    requires HEAD !in order && Distinct(order)
    ensures var c := Chain(order);
            forall i, j | 0 <= i < j < |c| && c[i] == c[j] :: i == 0 && j == |c| - 1
  {
  }

  lemma PushLinks(next: map<nat, nat>, prev: map<nat, nat>, order: seq<nat>, id: nat)
    requires Links(next, prev, order) && id != HEAD && id !in order
    ensures HEAD in next && Links(next[id := next[HEAD]][HEAD := id], prev[id := HEAD][next[HEAD] := id], [id] + order)
  {
    var c, c' := Chain(order), Chain([id] + order);
    assert Joined(next, prev, c, 0);
    var next', prev' := next[id := next[HEAD]][HEAD := id], prev[id := HEAD][next[HEAD] := id];
    assert c' == [HEAD, id] + c[1..];
    ChainApart(order);
    forall i: nat | i <= |order| + 1 ensures Joined(next', prev', c', i) {
      if i > 1 { assert Joined(next, prev, c, i - 1); }
    }
  }

  lemma DeleteLinks(next: map<nat, nat>, prev: map<nat, nat>, order: seq<nat>, j: nat)
    requires Links(next, prev, order) && j < |order|
    ensures order[j] in next && order[j] in prev
    ensures Links(next[prev[order[j]] := next[order[j]]], prev[next[order[j]] := prev[order[j]]], order[..j] + order[j + 1..])
  {
    var c, c' := Chain(order), Chain(order[..j] + order[j + 1..]);
    assert Joined(next, prev, c, j) && Joined(next, prev, c, j + 1);
    var next', prev' := next[c[j] := c[j + 2]], prev[c[j + 2] := c[j]];
    assert c' == c[..j + 1] + c[j + 2..];
    ChainApart(order);
    forall i: nat | i <= |order| - 1 ensures Joined(next', prev', c', i) {
      assert Joined(next, prev, c, if i < j then i else i + 1);
    }
  }

  class Cache {
    var initialised: bool
    var maxEntries: nat
    /** Texts by query id; an entry just entered has an empty text. */
    var table: map<nat, Text>
    var next: map<nat, nat>
    var prev: map<nat, nat>
    var count: nat
    /** The entries, most recently used first. */
    ghost var order: seq<nat>
    /** The remembers and lookups so far. */
    ghost var history: seq<Op>

    ghost predicate Linked()
      reads this
    {
      count == |order| && Links(next, prev, order)
    }

    /** The cache holds the most recently used ids with their last texts. */
    ghost predicate Faithful()
      reads this
    {
      && order == Take(Recent(Uses(history, maxEntries)), maxEntries)
      && (forall id :: id in table <==> id in order)
      && (forall id | id in table :: table[id] == LastText(history, id))
    }

    ghost predicate Valid()
      reads this
    {
      if initialised then maxEntries > 0 && Linked() && Faithful() else history == [] && order == []
    }

    constructor (maxEntries: nat)
      ensures Valid() && !initialised && this.maxEntries == maxEntries
    {
      this.initialised, this.maxEntries := false, maxEntries;
      this.table, this.next, this.prev, this.count := map[], map[], map[], 0;
      this.order, this.history := [], [];
    }

    /** EnsureCacheInitialized: a size of zero means the configured one. */
    method EnsureInitialised(configured: nat)
      requires Valid() && configured > 0
      modifies this
      ensures Valid() && initialised && history == old(history)
      ensures maxEntries == if old(initialised) || old(maxEntries) > 0 then old(maxEntries) else configured
    {
      if initialised { return; }
      maxEntries := if maxEntries > 0 then maxEntries else configured;
      table := map[];
      next, prev, count := map[HEAD := HEAD], map[HEAD := HEAD], 0;
      initialised := true;
    }

    /** dclist_push_head. */
    method PushHead(id: nat)
      requires Linked() && id != HEAD && id !in order
      modifies this`next, this`prev, this`count, this`order
      ensures Linked() && order == [id] + old(order)
    {
      PushLinks(next, prev, order, id);
      var first := next[HEAD];
      next := next[id := first][HEAD := id];
      prev := prev[id := HEAD][first := id];
      count := count + 1;
      order := [id] + order;
    }

    /** dclist_delete_from. */
    method Delete(id: nat)
      requires Linked() && id in order
      modifies this`next, this`prev, this`count, this`order
      ensures Linked() && order == Without(old(order), id)
    {
      ghost var j :| 0 <= j < |order| && order[j] == id;
      DeleteLinks(next, prev, order, j);
      WithoutSplit(order, j);
      var before, after := prev[id], next[id];
      next := next[before := after];
      prev := prev[after := before];
      count := count - 1;
      order := order[..j] + order[j + 1..];
    }

    /** PromoteEntryToMru. */
    method Promote(id: nat)
      requires Linked() && id in order
      modifies this`next, this`prev, this`count, this`order
      ensures Linked() && order == [id] + Without(old(order), id)
      ensures forall x :: x in order <==> x in old(order)
    {
      forall x ensures x in Without(order, id) <==> x in order && x != id { WithoutMember(order, id, x); }
      Delete(id);
      PushHead(id);
    }

    /** EvictLru: the tail of the list leaves the list and the table. */
    method EvictLru()
      requires Linked() && order != []
      modifies this`next, this`prev, this`count, this`order, this`table
      ensures Linked() && order == old(order)[..|old(order)| - 1]
      ensures table == old(table) - {old(order)[|old(order)| - 1]}
    {
      ghost var n := |order|;
      assert Joined(next, prev, Chain(order), n);
      var victim := prev[HEAD];
      WithoutSplit(order, n - 1);
      Delete(victim);
      table := table - {victim};
    }

    /** The first half of PschRememberNormalizedQuery: enter the id in the
        table, then take it out of the list or, if it is new and the list is
        full, evict the tail. The entry just made is not in the list, so it is
        never the one evicted. */
    method Enter(id: nat)
      requires Valid() && initialised && id != HEAD
      modifies this`next, this`prev, this`count, this`order, this`table
      ensures Linked() && id !in order && id in table
      ensures [id] + order == Take(Recent(Uses(history, maxEntries) + [id]), maxEntries)
      ensures forall x :: x in table <==> x == id || x in order
      ensures forall x | x in order :: x in old(table) && table[x] == old(table)[x]
    {
      ghost var u := Uses(history, maxEntries);
      var found := id in table;
      if !found { table := table[id := ""]; }
      if found {
        PromoteTake(u, id, maxEntries);
        forall x ensures x in Without(order, id) <==> x in order && x != id { WithoutMember(order, id, x); }
        Delete(id);
      } else {
        EnterTake(u, id, maxEntries);
        if count >= maxEntries { EvictLru(); }
      }
    }

    /** PschRememberNormalizedQuery. */
    method Remember(id: nat, text: Option<Text>, configured: nat)
      requires Valid() && configured > 0
      modifies this
      ensures Valid()
      ensures id == 0 || text.None? ==> unchanged(this)
      ensures id != 0 && text.Some? ==>
                && initialised && history == old(history) + [Op.Remember(id, text.value)]
                && maxEntries == (if old(initialised) || old(maxEntries) > 0 then old(maxEntries) else configured)
                && order[..1] == [id] && id in table && table[id] == Clamp(text.value)
    {
      if text.None? || id == 0 { return; }
      EnsureInitialised(configured);
      Enter(id);
      table := table[id := Clamp(text.value)];
      PushHead(id);
      HistoryAppend(history, Op.Remember(id, text.value), maxEntries);
      history := history + [Op.Remember(id, text.value)];
    }

    /** PschLookupNormalizedQuery into a buffer of `room` bytes. A lookup hits
        exactly if the id was remembered and fewer than maxEntries others were
        used since. */
    method Lookup(id: nat, room: nat) returns (hit: bool, out: Text)
      requires Valid()
      modifies this
      ensures Valid() && maxEntries == old(maxEntries) && initialised == old(initialised)
      ensures !initialised || id == 0 || room == 0 ==> !hit && unchanged(this)
      ensures initialised && id != 0 && room > 0 ==>
                && history == old(history) + [Op.Lookup(id)]
                && (hit <==> StillRecent(Uses(old(history), maxEntries), id, maxEntries))
                && table == old(table)
      ensures hit ==> var t := LastText(old(history), id); out == if |t| < room then t else t[..room - 1]
      ensures !hit ==> out == ""
    {
      if !initialised || room == 0 || id == 0 { return false, ""; }
      ghost var u := Uses(history, maxEntries);
      RecentIffFew(u, id, maxEntries);
      HistoryAppend(history, Op.Lookup(id), maxEntries);
      if id !in table {
        history := history + [Op.Lookup(id)];
        return false, "";
      }
      PromoteTake(u, id, maxEntries);
      Promote(id);
      hit, out := true, table[id];
      if |out| > room - 1 { out := out[..room - 1]; }
      history := history + [Op.Lookup(id)];
    }
  }
}
