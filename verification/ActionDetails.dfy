// The details an operator signs for pick and ship: order ids sorted and deduplicated in place, then the
// ABI words (wms/internal/signedaction/challenge.go).
module ActionDetails {
  import opened Basics
  import opened Words
  import opened SortedLists

  function OrderKey(id: Uuid): nat {
    NumberOf(id)
  }

  // bytes.Compare orders ids as their numbers, and different ids differ in it.
  lemma OrderKeyIsByteOrder(a: Uuid, b: Uuid)
    ensures LexLess(a, b) <==> OrderKey(a) < OrderKey(b)
    ensures OrderKey(a) == OrderKey(b) ==> a == b
  {
    LexIsNumeric(a, b);
    if OrderKey(a) == OrderKey(b) {
      NumbersDiffer(a, b);
    }
  }

  lemma SortedSame(ids: seq<Uuid>)
    ensures AscendingBy(SortBy(ids, OrderKey), OrderKey) && Elems(SortBy(ids, OrderKey)) == Elems(ids)
  {
    SortBySorts(ids, OrderKey);
    SameMembers(SortBy(ids, OrderKey), ids);
  }

  // The list read and the list written share one array: what is kept is written to the front while the
  // rest is still being read.
  method Deduplicate(sorted: array<Uuid>) returns (n: nat)
    requires AscendingBy(sorted[..], OrderKey)
    modifies sorted
    ensures n <= sorted.Length
    ensures StrictlyBy(sorted[..n], OrderKey) && Elems(sorted[..n]) == Elems(old(sorted[..]))
  {
    ghost var all := sorted[..];
    n := 0;
    var i := 0;
    while i < sorted.Length
      invariant 0 <= n <= i <= sorted.Length && sorted[i..] == all[i..]
      invariant Deduplicated(sorted[..n], all, i)
      invariant i > 0 ==> sorted[i - 1] == all[i - 1]
    {
      var id := sorted[i];
      assert id == sorted[i..][0] && all[i..][0] == all[i];
      ghost var before := sorted[..];
      DeduplicatesOne(before[..n], all, i);
      if !(i > 0 && id == sorted[i - 1]) {
        sorted[n] := id;
        WrittenInFront(before, sorted[..], n, i, id);
        n := n + 1;
      }
      i := i + 1;
      TailShrinks(all, i);
    }
    assert all[..i] == all;
  }

  lemma WrittenInFront(before: seq<Uuid>, after: seq<Uuid>, n: nat, i: nat, id: Uuid)
    requires n <= i < |before| && after == before[n := id]
    ensures after[..n + 1] == before[..n] + [id] && after[i + 1..] == before[i + 1..] && (n == i ==> after[i] == id) && (n < i ==> after[i] == before[i])
  {
  }

  lemma TailShrinks(all: seq<Uuid>, i: nat)
    requires 0 < i <= |all|
    ensures all[i - 1..][1..] == all[i..]
  {
  }

  // The one strictly ascending list of a set of ids.
  function Canonical(ids: seq<Uuid>): (orders: seq<Uuid>)
    ensures StrictlyBy(orders, OrderKey) && Elems(orders) == Elems(ids)
  {
    SortedSame(ids);
    Unique(SortBy(ids, OrderKey))
  }

  // Each id once: an id equal to the one before it is dropped.
  function Unique(sorted: seq<Uuid>): (kept: seq<Uuid>)
    requires AscendingBy(sorted, OrderKey)
    ensures Deduplicated(kept, sorted, |sorted|)
  {
    if sorted == [] then []
    else
      var n := |sorted| - 1;
      var kept := Unique(sorted[..n]);
      UniqueSnoc(kept, sorted);
      if n > 0 && sorted[n] == sorted[n - 1] then kept else kept + [sorted[n]]
  }

  lemma UniqueSnoc(kept: seq<Uuid>, sorted: seq<Uuid>)
    requires sorted != [] && AscendingBy(sorted, OrderKey) && Deduplicated(kept, sorted[..|sorted| - 1], |sorted| - 1)
    ensures var n := |sorted| - 1;
            Deduplicated(if n > 0 && sorted[n] == sorted[n - 1] then kept else kept + [sorted[n]], sorted, |sorted|)
  {
    var n := |sorted| - 1;
    assert sorted[..n][..n] == sorted[..n];
    DeduplicatesOne(kept, sorted, n);
  }

  method SortedUniqueOrderIDs(ids: seq<Uuid>) returns (sorted: array<Uuid>, n: nat)
    ensures fresh(sorted) && n <= sorted.Length && sorted[..n] == Canonical(ids)
  {
    SortedSame(ids);
    var all := SortBy(ids, OrderKey);
    sorted := new Uuid[|all|](i requires 0 <= i < |all| => all[i]);
    assert sorted[..] == all;
    n := Deduplicate(sorted);
    StrictUnique(sorted[..n], Canonical(ids), OrderKey);
  }

  // The distinct ids among the first i, in order; the last one read is the last one kept.
  ghost predicate Deduplicated(kept: seq<Uuid>, all: seq<Uuid>, i: int) {
    && 0 <= i <= |all| && |kept| <= i && StrictlyBy(kept, OrderKey) && Elems(kept) == Elems(all[..i])
    && (i > 0 ==> kept != [] && kept[|kept| - 1] == all[i - 1])
  }

  lemma DeduplicatesOne(kept: seq<Uuid>, all: seq<Uuid>, i: nat)
    requires i < |all| && AscendingBy(all, OrderKey) && Deduplicated(kept, all, i)
    ensures Deduplicated(if i > 0 && all[i] == all[i - 1] then kept else kept + [all[i]], all, i + 1)
  {
    assert all[..i + 1] == all[..i] + [all[i]];
    if i > 0 {
      assert all[i - 1] in all[..i];
      OrderKeyIsByteOrder(all[i], all[i - 1]);
    }
    if i == 0 || all[i] != all[i - 1] {
      if i == 0 {
        assert kept == [];
      }
      StrictSnoc(kept, all[i]);
      assert Elems(kept + [all[i]]) == Elems(kept) + {all[i]};
    }
    assert Elems(all[..i + 1]) == Elems(all[..i]) + {all[i]};
  }

  lemma StrictSnoc(s: seq<Uuid>, x: Uuid)
    requires StrictlyBy(s, OrderKey) && (s != [] ==> OrderKey(s[|s| - 1]) < OrderKey(x))
    ensures StrictlyBy(s + [x], OrderKey)
  {
  }

  // -------------------------------------------------------------------------- the ABI words

  function Aligned(ids: seq<Uuid>): (ws: seq<Word>)
    ensures |ws| == |ids| && forall i :: 0 <= i < |ids| ==> ws[i] == LeftAligned(ids[i])
  {
    seq(|ids|, i requires 0 <= i < |ids| => LeftAligned(ids[i]))
  }

  // Salt, entities, the offset of the list, operator, time; then the list's length and its ids.
  function DetailsWords(salt: Word, entities: seq<Uuid>, orders: seq<Uuid>, operator: Uuid, ms: nat): seq<Word> {
    [salt] + Aligned(entities) + [WordOf(32 * (|entities| + 4)), LeftAligned(operator), WordOf(ms), WordOf(|orders|)] + Aligned(orders)
  }

  function Bytes(ws: seq<Word>): (bs: seq<Byte>)
    ensures |bs| == 32 * |ws|
  {
    if ws == [] then [] else Bytes(ws[..|ws| - 1]) + ws[|ws| - 1]
  }

  lemma {:induction false} BytesInjective(a: seq<Word>, b: seq<Word>)
    requires Bytes(a) == Bytes(b)
    ensures a == b
    decreases |a|
  {
    if a != [] && b != [] {
      var x, y := Bytes(a), Bytes(b);
      assert x[..|x| - 32] == Bytes(a[..|a| - 1]) && y[..|y| - 32] == Bytes(b[..|b| - 1]);
      assert x[|x| - 32..] == a[|a| - 1] && y[|y| - 32..] == b[|b| - 1];
      BytesInjective(a[..|a| - 1], b[..|b| - 1]);
      assert a == a[..|a| - 1] + [a[|a| - 1]] && b == b[..|b| - 1] + [b[|b| - 1]];
    }
  }

  const TWO_64: nat := 0x1_0000_0000_0000_0000

  // The offset word names the byte where the length word stands.
  lemma OffsetPointsAtLength(salt: Word, entities: seq<Uuid>, orders: seq<Uuid>, operator: Uuid, ms: nat)
    requires |entities| < 2000
    ensures var ws := DetailsWords(salt, entities, orders, operator, ms);
            var offset := NumberOf(ws[|entities| + 1]);
            offset == 32 * (|entities| + 4) && ws[offset / 32] == WordOf(|orders|) && ws[offset / 32 + 1..] == Aligned(orders)
  {
    SmallFits(32 * (|entities| + 4));
  }

  lemma SmallFits(v: nat)
    requires v < TWO_64
    ensures NumberOf(WordOf(v)) == v
  {
    PowersGrow(8, 24);
    assert Pow256(8) == TWO_64 by {
      assert Pow256(4) == 0x1_0000_0000 by { assert Pow256(2) == 65536; }
      assert Pow256(6) == 0x1_0000_0000_0000 by { assert Pow256(5) == 256 * Pow256(4); }
      assert Pow256(7) == 256 * Pow256(6);
    }
    ReadsNumber(v, 32);
  }

  lemma {:induction false} PowersGrow(n: nat, k: nat)
    ensures Pow256(n) <= Pow256(n + k)
    decreases k
  {
    if k > 0 {
      PowersGrow(n, k - 1);
    }
  }

  lemma WordOfInjective(a: nat, b: nat)
    requires a < TWO_64 && b < TWO_64 && WordOf(a) == WordOf(b)
    ensures a == b
  {
    SmallFits(a);
    SmallFits(b);
  }

  lemma AlignedInjective(a: seq<Uuid>, b: seq<Uuid>)
    requires Aligned(a) == Aligned(b)
    ensures a == b
  {
    forall i | 0 <= i < |a|
      ensures a[i] == b[i]
    {
      assert Aligned(a)[i] == Aligned(b)[i];
      LeftAlignedInjective(a[i], b[i]);
    }
  }

  // The words tell the number of entities: where one list has its small offset, the longer has an id.
  lemma EntityCountsAgree(salt: Word, es: seq<Uuid>, orders: seq<Uuid>, op: Uuid, ms: nat,
                          salt': Word, es': seq<Uuid>, orders': seq<Uuid>, op': Uuid, ms': nat)
    requires |es| < 2000 && DetailsWords(salt, es, orders, op, ms) == DetailsWords(salt', es', orders', op', ms')
    ensures |es| >= |es'|
  {
    if |es| < |es'| {
      var k := |es| + 1;
      assert DetailsWords(salt, es, orders, op, ms)[k] == WordOf(32 * (|es| + 4));
      assert DetailsWords(salt', es', orders', op', ms')[k] == LeftAligned(es'[|es|]);
      SmallNumberIsNoId(32 * (|es| + 4), es'[|es|]);
    }
  }

  lemma WordsInjective(salt: Word, es: seq<Uuid>, orders: seq<Uuid>, op: Uuid, ms: nat,
                       salt': Word, es': seq<Uuid>, orders': seq<Uuid>, op': Uuid, ms': nat)
    requires |es| < 2000 && |es'| < 2000 && ms < TWO_64 && ms' < TWO_64
    requires DetailsWords(salt, es, orders, op, ms) == DetailsWords(salt', es', orders', op', ms')
    ensures salt == salt' && es == es' && orders == orders' && op == op' && ms == ms'
  {
    EntityCountsAgree(salt, es, orders, op, ms, salt', es', orders', op', ms');
    EntityCountsAgree(salt', es', orders', op', ms', salt, es, orders, op, ms);
    var ws, ws', n := DetailsWords(salt, es, orders, op, ms), DetailsWords(salt', es', orders', op', ms'), |es|;
    assert ws[0] == salt && ws'[0] == salt';
    assert ws[1..n + 1] == Aligned(es) && ws'[1..n + 1] == Aligned(es');
    assert ws[n + 2] == LeftAligned(op) && ws'[n + 2] == LeftAligned(op');
    assert ws[n + 3] == WordOf(ms) && ws'[n + 3] == WordOf(ms');
    assert ws[n + 5..] == Aligned(orders) && ws'[n + 5..] == Aligned(orders');
    AlignedInjective(es, es');
    LeftAlignedInjective(op, op');
    WordOfInjective(ms, ms');
    AlignedInjective(orders, orders');
  }

  type Hash = seq<Byte> -> Word

  // The hash tells these two inputs apart.
  ghost predicate NoCollision(h: Hash, a: seq<Byte>, b: seq<Byte>) {
    h(a) == h(b) ==> a == b
  }

  lemma BytesSnoc(ws: seq<Word>, w: Word)
    ensures Bytes(ws + [w]) == Bytes(ws) + w
  {
  }

  lemma {:induction false} WordStandsAt(ws: seq<Word>, k: nat)
    requires k < |ws|
    ensures Bytes(ws)[32 * k..32 * k + 32] == ws[k]
    decreases |ws|
  {
    if k < |ws| - 1 {
      WordStandsAt(ws[..|ws| - 1], k);
      assert Bytes(ws)[..32 * (|ws| - 1)] == Bytes(ws[..|ws| - 1]);
      assert Bytes(ws)[32 * k..32 * k + 32] == Bytes(ws[..|ws| - 1])[32 * k..32 * k + 32];
    }
  }

  // ------------------------------------------------------------------ reading the bytes

  // Word k of a buffer.
  function WordAt(buf: seq<Byte>, k: nat): seq<Byte>
    requires 32 * k + 32 <= |buf|
  {
    buf[32 * k..32 * k + 32]
  }

  // A bytes16 as the ABI pads it: to the right.
  predicate ReadsId(w: seq<Byte>, id: Uuid) {
    |w| == 32 && w[..16] == id && forall i :: 16 <= i < 32 ==> w[i] == 0
  }

  // How a decoder of (bytes32 salt, bytes16 × n, bytes16[] orders, bytes16 operator, uint64 ms) reads the buffer:
  // heads in this order, the list's head being its offset, then its length and its members.
  ghost predicate DetailsRead(buf: seq<Byte>, salt: Word, entities: seq<Uuid>, orders: seq<Uuid>, operator: Uuid, ms: nat) {
    var n := |entities|;
    && |buf| == 32 * (n + 5 + |orders|)
    && WordAt(buf, 0) == salt
    && (forall i :: 0 <= i < n ==> ReadsId(WordAt(buf, 1 + i), entities[i]))
    && NumberOf(WordAt(buf, n + 1)) == 32 * (n + 4)
    && ReadsId(WordAt(buf, n + 2), operator)
    && NumberOf(WordAt(buf, n + 3)) == ms
    && NumberOf(WordAt(buf, n + 4)) == |orders|
    && forall j :: 0 <= j < |orders| ==> ReadsId(WordAt(buf, n + 5 + j), orders[j])
  }

  // The words, one by one.
  ghost predicate WordsAre(ws: seq<Word>, salt: Word, entities: seq<Uuid>, orders: seq<Uuid>, operator: Uuid, ms: nat) {
    var n := |entities|;
    && |ws| == n + 5 + |orders| && ws[0] == salt && (forall i :: 0 <= i < n ==> ws[1 + i] == LeftAligned(entities[i]))
    && ws[n + 1] == WordOf(32 * (n + 4)) && ws[n + 2] == LeftAligned(operator) && ws[n + 3] == WordOf(ms) && ws[n + 4] == WordOf(|orders|)
    && forall j :: 0 <= j < |orders| ==> ws[n + 5 + j] == LeftAligned(orders[j])
  }

  lemma DetailsWordsAre(salt: Word, entities: seq<Uuid>, orders: seq<Uuid>, operator: Uuid, ms: nat)
    ensures WordsAre(DetailsWords(salt, entities, orders, operator, ms), salt, entities, orders, operator, ms)
  {
  }

  lemma WordsRead(ws: seq<Word>, buf: seq<Byte>, salt: Word, entities: seq<Uuid>, orders: seq<Uuid>, operator: Uuid, ms: nat)
    requires WordsAre(ws, salt, entities, orders, operator, ms) && buf == Bytes(ws)
    requires ms < TWO_64 && |orders| < TWO_64 && 32 * (|entities| + 4) < TWO_64
    ensures DetailsRead(buf, salt, entities, orders, operator, ms)
  {
    SmallFits(32 * (|entities| + 4));
    SmallFits(ms);
    SmallFits(|orders|);
    forall k: nat | k < |ws|
      ensures WordAt(buf, k) == ws[k]
    {
      WordStandsAt(ws, k);
    }
    ReadsAligned();
  }

  lemma ReadsAligned()
    ensures forall id: Uuid :: ReadsId(LeftAligned(id), id)
  {
  }

  // A left-aligned word for each id, behind what is there.
  method AppendAligned(buf: seq<Byte>, ghost ws: seq<Word>, ids: seq<Uuid>) returns (grown: seq<Byte>)
    requires buf == Bytes(ws)
    ensures grown == Bytes(ws + Aligned(ids))
  {
    grown := buf;
    var i := 0;
    assert ws + Aligned(ids)[..0] == ws;
    while i < |ids|
      invariant 0 <= i <= |ids| && grown == Bytes(ws + Aligned(ids)[..i])
    {
      assert ws + Aligned(ids)[..i + 1] == ws + Aligned(ids)[..i] + [LeftAligned(ids[i])];
      BytesSnoc(ws + Aligned(ids)[..i], LeftAligned(ids[i]));
      grown := grown + LeftAligned(ids[i]);
      i := i + 1;
    }
    assert Aligned(ids)[..i] == Aligned(ids);
  }

  method OrderedListDetailsHash(keccak: Hash, salt: Word, entities: seq<Uuid>, orderIDs: seq<Uuid>, operator: Uuid, ms: nat)
    returns (hash: Word, ghost hashed: seq<Byte>, ghost orders: seq<Uuid>)
    ensures hash == keccak(Bytes(DetailsWords(salt, entities, Canonical(orderIDs), operator, ms)))
    ensures hashed == Bytes(DetailsWords(salt, entities, Canonical(orderIDs), operator, ms))
    ensures Elems(orders) == Elems(orderIDs) && forall i, j :: 0 <= i < j < |orders| ==> LexLess(orders[i], orders[j])
    ensures ms < TWO_64 && |orders| < TWO_64 && 32 * (|entities| + 4) < TWO_64 ==> DetailsRead(hashed, salt, entities, orders, operator, ms)
  {
    var sorted, n := SortedUniqueOrderIDs(orderIDs);
    var list := sorted[..n];
    ghost var ws := [salt];
    BytesSnoc([], salt);
    assert [] + [salt] == [salt];
    var buf := AppendAligned(salt, ws, entities);
    ws := ws + Aligned(entities);
    var head := [WordOf(32 * (|entities| + 4)), LeftAligned(operator), WordOf(ms), WordOf(|list|)];
    var k := 0;
    assert ws + head[..0] == ws;
    while k < 4
      invariant 0 <= k <= 4 && buf == Bytes(ws + head[..k])
    {
      assert ws + head[..k + 1] == ws + head[..k] + [head[k]];
      BytesSnoc(ws + head[..k], head[k]);
      buf := buf + head[k];
      k := k + 1;
    }
    assert head[..4] == head;
    buf := AppendAligned(buf, ws + head, list);
    hash := keccak(buf);
    hashed, orders := buf, list;
    forall i, j | 0 <= i < j < |orders|
      ensures LexLess(orders[i], orders[j])
    {
      OrderKeyIsByteOrder(orders[i], orders[j]);
    }
    if ms < TWO_64 && |orders| < TWO_64 && 32 * (|entities| + 4) < TWO_64 {
      DetailsWordsAre(salt, entities, orders, operator, ms);
      WordsRead(DetailsWords(salt, entities, orders, operator, ms), hashed, salt, entities, orders, operator, ms);
    }
  }

  // What is hashed for a pick or a ship.
  function DetailsBytes(salt: Word, entities: seq<Uuid>, orderIDs: seq<Uuid>, operator: Uuid, ms: nat): seq<Byte> {
    Bytes(DetailsWords(salt, entities, Canonical(orderIDs), operator, ms))
  }

  // Signing the same pick or ship again gives the same hash, however its orders are listed or repeated;
  // a hash is shared only by the same salt, entities, set of orders, operator and time.
  lemma DetailsHashIsCanonical(keccak: Hash, salt: Word, es: seq<Uuid>, orders: seq<Uuid>, op: Uuid, ms: nat,
                               salt': Word, es': seq<Uuid>, orders': seq<Uuid>, op': Uuid, ms': nat)
    requires |es| < 2000 && |es'| < 2000 && ms < TWO_64 && ms' < TWO_64
    requires NoCollision(keccak, DetailsBytes(salt, es, orders, op, ms), DetailsBytes(salt', es', orders', op', ms'))
    ensures keccak(DetailsBytes(salt, es, orders, op, ms)) == keccak(DetailsBytes(salt', es', orders', op', ms')) <==>
            salt == salt' && es == es' && Elems(orders) == Elems(orders') && op == op' && ms == ms'
  {
    var list, list' := Canonical(orders), Canonical(orders');
    if DetailsBytes(salt, es, orders, op, ms) == DetailsBytes(salt', es', orders', op', ms') {
      BytesInjective(DetailsWords(salt, es, list, op, ms), DetailsWords(salt', es', list', op', ms'));
      WordsInjective(salt, es, list, op, ms, salt', es', list', op', ms');
    } else if Elems(orders) == Elems(orders') {
      StrictUnique(list, list', OrderKey);
    }
  }
}
