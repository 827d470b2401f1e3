// One operation cut into signed parts, and the part the auditor cuts out again
// (wms/internal/signedops/operation.go, wms/internal/signedaction/challenge.go, wms/internal/audit/details_repository.go).
module ActionParts {
  import opened Basics
  import opened Words
  import opened HexText
  import opened SortedLists
  import opened ActionDetails

  const MAX_ITEMS_PER_ACTION: nat := 2000

  // ------------------------------------------------------------------------------- items

  // keccak is any hash of bytes.
  function ItemId(keccak: Hash, product: Uuid): Word {
    keccak(AsciiOf(UuidText(product)))
  }

  function ItemKey(keccak: Hash): Uuid -> nat {
    p => NumberOf(ItemId(keccak, p))
  }

  function SortByItemID(keccak: Hash, ids: seq<Uuid>): (sorted: seq<Uuid>)
    ensures |sorted| == |ids|
  {
    SortBy(ids, ItemKey(keccak))
  }

  // No two of these products share an item id.
  ghost predicate ItemsApart(keccak: Hash, ids: seq<Uuid>) {
    forall x, y :: x in ids && y in ids && ItemId(keccak, x) == ItemId(keccak, y) ==> x == y
  }

  // Whatever order the rows come in, the sorted list is the same.
  lemma SortForgetsOrder(keccak: Hash, a: seq<Uuid>, b: seq<Uuid>)
    requires multiset(a) == multiset(b) && ItemsApart(keccak, a)
    ensures SortByItemID(keccak, a) == SortByItemID(keccak, b)
  {
    var key := ItemKey(keccak);
    SortBySorts(a, key);
    SortBySorts(b, key);
    SameMembers(SortBy(a, key), a);
    forall x, y | x in SortBy(a, key) && y in SortBy(a, key) && key(x) == key(y)
      ensures x == y
    {
      NumbersDiffer(ItemId(keccak, x), ItemId(keccak, y));
    }
    AscendingUnique(SortBy(a, key), SortBy(b, key), key);
  }

  // The sorted list is the same products, their item ids ascending as numbers.
  lemma SortByItemIDSorts(keccak: Hash, ids: seq<Uuid>)
    ensures multiset(SortByItemID(keccak, ids)) == multiset(ids) && IdsAscend(keccak, SortByItemID(keccak, ids))
  {
    SortBySorts(ids, ItemKey(keccak));
  }

  ghost predicate IdsAscend(keccak: Hash, ids: seq<Uuid>) {
    forall i, j :: 0 <= i < j < |ids| ==> NumberOf(ItemId(keccak, ids[i])) <= NumberOf(ItemId(keccak, ids[j]))
  }

  // Strictly, as the contract asks, when no two of distinct products share an id.
  lemma SortedStrictly(keccak: Hash, ids: seq<Uuid>)
    requires Distinct(ids) && ItemsApart(keccak, ids)
    ensures var sorted := SortByItemID(keccak, ids);
            forall i, j :: 0 <= i < j < |sorted| ==> NumberOf(ItemId(keccak, sorted[i])) < NumberOf(ItemId(keccak, sorted[j]))
  {
    SortByItemIDSorts(keccak, ids);
    StaysDistinct(ids, SortByItemID(keccak, ids));
    ApartIsStrict(keccak, ids, SortByItemID(keccak, ids));
  }

  lemma StaysDistinct(a: seq<Uuid>, b: seq<Uuid>)
    requires multiset(a) == multiset(b) && Distinct(a)
    ensures Distinct(b) && forall x :: x in b ==> x in a
  {
    forall x
      ensures x in b <==> x in a
    {
      assert x in b <==> multiset(b)[x] > 0;
      assert x in a <==> multiset(a)[x] > 0;
    }
    assert Elems(a) == Elems(b) && |multiset(a)| == |a| && |multiset(b)| == |b|;
    DistinctCardinality(a);
    DistinctCardinality(b);
  }

  lemma ApartIsStrict(keccak: Hash, ids: seq<Uuid>, sorted: seq<Uuid>)
    requires ItemsApart(keccak, ids) && IdsAscend(keccak, sorted) && Distinct(sorted) && forall x :: x in sorted ==> x in ids
    ensures forall i, j :: 0 <= i < j < |sorted| ==> NumberOf(ItemId(keccak, sorted[i])) < NumberOf(ItemId(keccak, sorted[j]))
  {
    forall i, j | 0 <= i < j < |sorted|
      ensures NumberOf(ItemId(keccak, sorted[i])) < NumberOf(ItemId(keccak, sorted[j]))
    {
      assert sorted[i] in sorted && sorted[j] in sorted;
      KeysApart(keccak, sorted[i], sorted[j], ids);
    }
  }

  lemma KeysApart(keccak: Hash, x: Uuid, y: Uuid, ids: seq<Uuid>)
    requires ItemsApart(keccak, ids) && x in ids && y in ids && x != y
    ensures NumberOf(ItemId(keccak, x)) != NumberOf(ItemId(keccak, y))
  {
    if NumberOf(ItemId(keccak, x)) == NumberOf(ItemId(keccak, y)) {
      NumbersDiffer(ItemId(keccak, x), ItemId(keccak, y));
    }
  }

  function ItemWords(keccak: Hash, ids: seq<Uuid>): (ws: seq<Word>)
    ensures |ws| == |ids| && forall i :: 0 <= i < |ids| ==> ws[i] == ItemId(keccak, ids[i])
  {
    seq(|ids|, i requires 0 <= i < |ids| => ItemId(keccak, ids[i]))
  }

  lemma ItemWordsSnoc(keccak: Hash, ids: seq<Uuid>, i: nat)
    requires i < |ids|
    ensures ItemWords(keccak, ids[..i + 1]) == ItemWords(keccak, ids[..i]) + [ItemId(keccak, ids[i])]
  {
  }

  lemma HashedSnoc(keccak: Hash, ids: seq<Uuid>, i: nat)
    requires i < |ids|
    ensures Bytes(ItemWords(keccak, ids[..i + 1])) == Bytes(ItemWords(keccak, ids[..i])) + ItemId(keccak, ids[i])
  {
    ItemWordsSnoc(keccak, ids, i);
    BytesSnoc(ItemWords(keccak, ids[..i]), ItemId(keccak, ids[i]));
  }

  // A word for each item, the hash of its product's id as text.
  method ItemsHash(keccak: Hash, sorted: seq<Uuid>) returns (hash: Word, ghost hashed: seq<Byte>)
    ensures hash == keccak(Bytes(ItemWords(keccak, sorted))) && hashed == Bytes(ItemWords(keccak, sorted))
    ensures |hashed| == 32 * |sorted| && forall i :: 0 <= i < |sorted| ==> WordAt(hashed, i) == keccak(AsciiOf(UuidText(sorted[i])))
  {
    var buf: seq<Byte> := [];
    var i := 0;
    while i < |sorted|
      invariant 0 <= i <= |sorted| && buf == Bytes(ItemWords(keccak, sorted[..i]))
    {
      HashedSnoc(keccak, sorted, i);
      buf := buf + ItemId(keccak, sorted[i]);
      i := i + 1;
    }
    assert sorted[..i] == sorted;
    hash, hashed := keccak(buf), buf;
    forall i | 0 <= i < |sorted|
      ensures WordAt(hashed, i) == ItemId(keccak, sorted[i])
    {
      WordStandsAt(ItemWords(keccak, sorted), i);
    }
  }

  function TypeWord(t: Byte): Word {
    seq(31, _ => 0) + [t]
  }

  // typehash, action id, action type, items hash, details hash
  function Challenge(keccak: Hash, typeHash: Word, action: Uuid, actionType: Byte, itemsHash: Word, detailsHash: Word): Word {
    keccak(Bytes([typeHash, LeftAligned(action), TypeWord(actionType), itemsHash, detailsHash]))
  }

  // What a challenge hashes: 160 bytes, the typehash, the action id padded to the right, the type padded to the
  // left, the hash of the items and the hash of the details.
  lemma ChallengeReads(keccak: Hash, typeHash: Word, action: Uuid, actionType: Byte, itemsHash: Word, detailsHash: Word)
    returns (hashed: seq<Byte>)
    ensures Challenge(keccak, typeHash, action, actionType, itemsHash, detailsHash) == keccak(hashed) && |hashed| == 160
    ensures WordAt(hashed, 0) == typeHash && ReadsId(WordAt(hashed, 1), action)
    ensures hashed[95] == actionType && forall i :: 64 <= i < 95 ==> hashed[i] == 0
    ensures WordAt(hashed, 3) == itemsHash && WordAt(hashed, 4) == detailsHash
  {
    var ws := [typeHash, LeftAligned(action), TypeWord(actionType), itemsHash, detailsHash];
    hashed := Bytes(ws);
    forall k: nat | k < 5
      ensures WordAt(hashed, k) == ws[k]
    {
      WordStandsAt(ws, k);
    }
    forall i | 64 <= i < 96
      ensures hashed[i] == TypeWord(actionType)[i - 64]
    {
      assert hashed[i] == WordAt(hashed, 2)[i - 64];
    }
  }

  // A challenge names its action, its type, its items and its details.
  lemma ChallengeBinds(keccak: Hash, typeHash: Word, a: Uuid, t: Byte, items: Word, details: Word, a': Uuid, t': Byte, items': Word, details': Word)
    requires NoCollision(keccak, Bytes([typeHash, LeftAligned(a), TypeWord(t), items, details]),
                         Bytes([typeHash, LeftAligned(a'), TypeWord(t'), items', details']))
    requires Challenge(keccak, typeHash, a, t, items, details) == Challenge(keccak, typeHash, a', t', items', details')
    ensures a == a' && t == t' && items == items' && details == details'
  {
    var ws, ws' := [typeHash, LeftAligned(a), TypeWord(t), items, details], [typeHash, LeftAligned(a'), TypeWord(t'), items', details'];
    BytesInjective(ws, ws');
    assert ws[1] == ws'[1] && ws[2] == ws'[2] && ws[3] == ws'[3] && ws[4] == ws'[4];
    LeftAlignedInjective(a, a');
    assert TypeWord(t)[31] == t && TypeWord(t')[31] == t';
  }

  // ------------------------------------------------------------------------------- parts

  datatype Part = Part(action: Uuid, items: seq<Uuid>, salt: Word, detailsHash: Word, challenge: Word)

  // partItems: the auditor's own cut, at a signed 16-bit index.
  function PartItems(sorted: seq<Uuid>, part: int): seq<Uuid> {
    var start := part * MAX_ITEMS_PER_ACTION;
    if start < 0 || start >= |sorted| then []
    else
      var end := if start + MAX_ITEMS_PER_ACTION < |sorted| then start + MAX_ITEMS_PER_ACTION else |sorted|;
      sorted[start..end]
  }

  // How many parts n items make.
  function PartCount(n: nat): nat {
    (n + MAX_ITEMS_PER_ACTION - 1) / MAX_ITEMS_PER_ACTION
  }

  // As many parts as 2000 items each call for, all full but the last, which holds the rest.
  lemma PartSizes(sorted: seq<Uuid>, i: nat)
    requires i < PartCount(|sorted|)
    ensures 2000 * (PartCount(|sorted|) - 1) < |sorted| <= 2000 * PartCount(|sorted|)
    ensures PartItems(sorted, i) == if i < PartCount(|sorted|) - 1 then sorted[2000 * i..2000 * i + 2000] else sorted[2000 * i..]
  {
  }

  // Fresh ids and salts come from outside; details gives the hash of a part's own items.
  function NewPart(keccak: Hash, typeHash: Word, actionType: Byte, items: seq<Uuid>, details: (Word, seq<Uuid>) -> Word, action: Uuid, salt: Word): (p: Part)
    ensures p.items == items
  {
    var itemsHash := keccak(Bytes(ItemWords(keccak, items)));
    Part(action, items, salt, details(salt, items), Challenge(keccak, typeHash, action, actionType, itemsHash, details(salt, items)))
  }

  // A part signs its own action, type, items and details.
  ghost predicate IsSigned(keccak: Hash, typeHash: Word, actionType: Byte, p: Part, details: (Word, seq<Uuid>) -> Word, action: Uuid, salt: Word) {
    && p.action == action && p.salt == salt && p.detailsHash == details(salt, p.items)
    && p.challenge == Challenge(keccak, typeHash, action, actionType, keccak(Bytes(ItemWords(keccak, p.items))), p.detailsHash)
  }

  // The sorted list cut up to a multiple of the limit.
  ghost predicate CutUpTo(sorted: seq<Uuid>, cuts: seq<seq<Uuid>>, start: nat) {
    && start == MAX_ITEMS_PER_ACTION * |cuts| && (|cuts| > 0 ==> start - MAX_ITEMS_PER_ACTION < |sorted|)
    && Flatten(cuts) == (if start < |sorted| then sorted[..start] else sorted)
    && forall i :: 0 <= i < |cuts| ==> 0 < |cuts[i]| <= MAX_ITEMS_PER_ACTION && cuts[i] == PartItems(sorted, i)
  }

  lemma NextCut(sorted: seq<Uuid>, cuts: seq<seq<Uuid>>, start: nat, end: nat)
    requires CutUpTo(sorted, cuts, start) && start < |sorted|
    requires end == if start + MAX_ITEMS_PER_ACTION > |sorted| then |sorted| else start + MAX_ITEMS_PER_ACTION
    ensures CutUpTo(sorted, cuts + [sorted[start..end]], start + MAX_ITEMS_PER_ACTION)
  {
    var next := sorted[start..end];
    FlattenSnoc(cuts, next);
    assert sorted[..start] + next == sorted[..end];
    assert sorted[..|sorted|] == sorted;
    assert next == PartItems(sorted, |cuts|);
    assert forall i :: 0 <= i < |cuts| ==> (cuts + [next])[i] == cuts[i];
  }

  lemma NothingCut(sorted: seq<Uuid>, cuts: seq<seq<Uuid>>)
    requires cuts == []
    ensures CutUpTo(sorted, cuts, 0)
  {
  }

  lemma AllCut(sorted: seq<Uuid>, cuts: seq<seq<Uuid>>, start: nat)
    requires CutUpTo(sorted, cuts, start) && start >= |sorted|
    ensures Flatten(cuts) == sorted && |cuts| == PartCount(|sorted|)
    ensures forall i :: 0 <= i < |cuts| ==> 0 < |cuts[i]| <= MAX_ITEMS_PER_ACTION && cuts[i] == PartItems(sorted, i)
  {
  }

  ghost predicate AreSigned(parts: seq<Part>, cuts: seq<seq<Uuid>>, sign: (nat, seq<Uuid>) -> Part) {
    |parts| == |cuts| && forall i :: 0 <= i < |parts| ==> parts[i] == sign(i, cuts[i])
  }

  lemma SignedSnoc(parts: seq<Part>, cuts: seq<seq<Uuid>>, sign: (nat, seq<Uuid>) -> Part, cut: seq<Uuid>)
    requires AreSigned(parts, cuts, sign)
    ensures AreSigned(parts + [sign(|parts|, cut)], cuts + [cut], sign)
  {
  }

  // The loop of NewOperation: consecutive parts of at most MAX_ITEMS_PER_ACTION items, signed one by one.
  method CutInParts(sorted: seq<Uuid>, sign: (nat, seq<Uuid>) -> Part) returns (parts: seq<Part>)
    ensures |parts| == PartCount(|sorted|)
    ensures forall i :: 0 <= i < |parts| ==> parts[i] == sign(i, PartItems(sorted, i))
  {
    parts := [];
    ghost var cuts: seq<seq<Uuid>> := [];
    var start := 0;
    NothingCut(sorted, cuts);
    while start < |sorted|
      invariant 0 <= start && CutUpTo(sorted, cuts, start)
      invariant AreSigned(parts, cuts, sign)
    {
      var end := start + MAX_ITEMS_PER_ACTION;
      if end > |sorted| {
        end := |sorted|;
      }
      NextCut(sorted, cuts, start, end);
      SignedSnoc(parts, cuts, sign, sorted[start..end]);
      parts := parts + [sign(|parts|, sorted[start..end])];
      cuts := cuts + [sorted[start..end]];
      start := start + MAX_ITEMS_PER_ACTION;
    }
    AllCut(sorted, cuts, start);
  }

  // Part i signs exactly what the auditor cuts out of the sorted items at index i.
  method NewOperation(keccak: Hash, typeHash: Word, actionType: Byte, items: seq<Uuid>, details: (Word, seq<Uuid>) -> Word,
                      actionOf: nat -> Uuid, saltOf: nat -> Word)
    returns (parts: seq<Part>)
    ensures |parts| == PartCount(|items|)
    ensures forall i :: 0 <= i < |parts| ==>
              parts[i] == NewPart(keccak, typeHash, actionType, PartItems(SortByItemID(keccak, items), i), details, actionOf(i), saltOf(i))
    ensures forall i :: 0 <= i < |parts| ==> IsSigned(keccak, typeHash, actionType, parts[i], details, actionOf(i), saltOf(i))
  {
    var sign := (k: nat, part: seq<Uuid>) => NewPart(keccak, typeHash, actionType, part, details, actionOf(k), saltOf(k));
    parts := CutInParts(SortByItemID(keccak, items), sign);
  }

  function Cuts(sorted: seq<Uuid>, n: nat): (cuts: seq<seq<Uuid>>)
    ensures |cuts| == n && forall i :: 0 <= i < n ==> cuts[i] == PartItems(sorted, i)
  {
    seq(n, i requires 0 <= i < n => PartItems(sorted, i))
  }

  // The parts follow each other through the sorted items, each at most MAX_ITEMS_PER_ACTION long and none empty.
  lemma {:induction false} PartsJoin(sorted: seq<Uuid>, n: nat)
    requires n <= PartCount(|sorted|)
    ensures CutUpTo(sorted, Cuts(sorted, n), n * MAX_ITEMS_PER_ACTION)
    ensures n == PartCount(|sorted|) ==> Flatten(Cuts(sorted, n)) == sorted
    decreases n
  {
    if n == 0 {
      NothingCut(sorted, Cuts(sorted, 0));
    } else {
      PartsJoin(sorted, n - 1);
      var start := (n - 1) * MAX_ITEMS_PER_ACTION;
      var end := if start + MAX_ITEMS_PER_ACTION > |sorted| then |sorted| else start + MAX_ITEMS_PER_ACTION;
      NextCut(sorted, Cuts(sorted, n - 1), start, end);
      assert Cuts(sorted, n) == Cuts(sorted, n - 1) + [sorted[start..end]];
    }
  }

  // Out of range, from either side, there is nothing to audit.
  lemma NoFurtherParts(sorted: seq<Uuid>, part: int)
    ensures PartItems(sorted, part) != [] <==> 0 <= part < PartCount(|sorted|)
  {
  }

  // The auditor reads the products from other tables, in any order, and cuts out the same part.
  lemma AuditorCutsTheSamePart(keccak: Hash, signed: seq<Uuid>, audited: seq<Uuid>, part: int)
    requires multiset(signed) == multiset(audited) && ItemsApart(keccak, signed)
    ensures PartItems(SortByItemID(keccak, audited), part) == PartItems(SortByItemID(keccak, signed), part)
  {
    SortForgetsOrder(keccak, signed, audited);
  }
}
