// Cutting a Kafka window into homogeneous segments and packing a segment greedily into
// transactions (ledger-adapter/internal/consumer/flusher_actions.go).
module ActionChunks {
  import opened Basics
  import opened EventStore

  // Warehouse actions go to SignedMappingWMS.applyActions, key actions to ConsortiumRegistry.applyKeyActions.
  datatype Kind = Warehouse | Key

  // A parsed Kafka message: its action id, its kind and the offset it was read from.
  datatype Msg = Msg(id: Id, kind: Kind, off: nat)

  function Ids(ms: seq<Msg>): set<Id> {
    set m | m in ms :: m.id
  }

  // ---------------------------------------------------------------- segments

  predicate Homogeneous(seg: seq<Msg>) {
    |seg| > 0 && forall m :: m in seg ==> m.kind == seg[0].kind
  }

  ghost predicate IsSegmentation(segs: seq<seq<Msg>>, msgs: seq<Msg>) {
    && Flatten(segs) == msgs
    && (forall i :: 0 <= i < |segs| ==> Homogeneous(segs[i]))
    && (forall i :: 0 < i < |segs| ==> segs[i - 1][0].kind != segs[i][0].kind)
  }

  // The end of the run of equal kinds that starts at a.
  function RunEnd(msgs: seq<Msg>, a: nat): (b: nat)
    requires a < |msgs|
    ensures a < b <= |msgs|
    ensures forall k :: a <= k < b ==> msgs[k].kind == msgs[a].kind
    ensures b < |msgs| ==> msgs[b].kind != msgs[a].kind
    decreases |msgs| - a
  {
    if a + 1 < |msgs| && msgs[a + 1].kind == msgs[a].kind then RunEnd(msgs, a + 1) else a + 1
  }

  method SplitSegments(msgs: seq<Msg>) returns (segs: seq<seq<Msg>>)
    requires |msgs| > 0
    ensures IsSegmentation(segs, msgs)
  {
    segs := [];
    var start, kind := 0, msgs[0].kind;
    var i := 1;
    while i < |msgs|
      invariant 0 <= start < i <= |msgs|
      invariant kind == msgs[start].kind
      invariant Homogeneous(msgs[start..i])
      invariant IsSegmentation(segs, msgs[..start])
      invariant |segs| > 0 ==> segs[|segs| - 1][0].kind != kind
    {
      var k := msgs[i].kind;
      if k != kind {
        SegmentCloses(segs, msgs, start, i);
        segs := segs + [msgs[start..i]];
        start, kind := i, k;
      }
      assert msgs[start..i + 1] == msgs[start..i] + [msgs[i]];
      i := i + 1;
    }
    SegmentCloses(segs, msgs, start, i);
    assert msgs[start..] == msgs[start..i] && msgs[..i] == msgs;
    segs := segs + [msgs[start..]];
  }

  lemma SegmentCloses(segs: seq<seq<Msg>>, msgs: seq<Msg>, start: nat, i: nat)
    requires start < i <= |msgs| && IsSegmentation(segs, msgs[..start]) && Homogeneous(msgs[start..i])
    requires |segs| > 0 ==> segs[|segs| - 1][0].kind != msgs[start].kind
    ensures IsSegmentation(segs + [msgs[start..i]], msgs[..i])
  {
    FlattenSnoc(segs, msgs[start..i]);
    assert msgs[..start] + msgs[start..i] == msgs[..i];
  }

  lemma {:induction false} FirstSegmentIsFirstRun(segs: seq<seq<Msg>>, msgs: seq<Msg>)
    requires IsSegmentation(segs, msgs) && |segs| > 0
    ensures |msgs| > 0 && segs[0] == msgs[..RunEnd(msgs, 0)]
    ensures IsSegmentation(segs[1..], msgs[RunEnd(msgs, 0)..])
  {
    var head, rest := segs[0], Flatten(segs[1..]);
    assert msgs == head + rest;
    var b := RunEnd(msgs, 0);
    assert msgs[0] == head[0];
    if |segs| > 1 {
      assert segs[1..][0] == segs[1];
      assert rest == segs[1] + Flatten(segs[1..][1..]);
      assert msgs[|head|] == segs[1][0];
    }
    assert forall k :: 0 <= k < |head| ==> msgs[k] == head[k];
  }

  // Contiguity, homogeneity and alternation leave one way to cut: nothing is reordered, merged or
  // split, so a key action never crosses a warehouse action.
  lemma {:induction false} SegmentationUnique(a: seq<seq<Msg>>, b: seq<seq<Msg>>, msgs: seq<Msg>)
    requires IsSegmentation(a, msgs) && IsSegmentation(b, msgs)
    ensures a == b
  {
    if a != [] && b != [] {
      FirstSegmentIsFirstRun(a, msgs);
      FirstSegmentIsFirstRun(b, msgs);
      SegmentationUnique(a[1..], b[1..], msgs[RunEnd(msgs, 0)..]);
      assert a == [a[0]] + a[1..] && b == [b[0]] + b[1..];
    } else if a != [] {
      FirstSegmentIsFirstRun(a, msgs);
    } else if b != [] {
      FirstSegmentIsFirstRun(b, msgs);
    }
  }

  // ------------------------------------------------------------------ chunks

  type Calldata = seq<bv8>

  datatype Packing = Unpackable | Packed(data: Calldata)

  type Packer = seq<Msg> -> Packing

  predicate Fits(pack: Packer, limit: nat, ms: seq<Msg>) {
    pack(ms).Packed? && |pack(ms).data| <= limit
  }

  // The length of the longest prefix all of whose non-empty prefixes fit, from n upwards.
  function GreedyFrom(pack: Packer, limit: nat, ms: seq<Msg>, n: nat): (k: nat)
    requires n <= |ms|
    ensures n <= k <= |ms|
    decreases |ms| - n
  {
    if n < |ms| && Fits(pack, limit, ms[..n + 1]) then GreedyFrom(pack, limit, ms, n + 1) else n
  }

  lemma {:induction false} GreedyFromStops(pack: Packer, limit: nat, ms: seq<Msg>, n: nat)
    requires n <= |ms|
    ensures var k := GreedyFrom(pack, limit, ms, n);
            (forall j :: n < j <= k ==> Fits(pack, limit, ms[..j])) && (k < |ms| ==> !Fits(pack, limit, ms[..k + 1]))
    decreases |ms| - n
  {
    if n < |ms| && Fits(pack, limit, ms[..n + 1]) {
      GreedyFromStops(pack, limit, ms, n + 1);
    }
  }

  function Greedy(pack: Packer, limit: nat, ms: seq<Msg>): (k: nat)
    ensures k <= |ms|
  {
    GreedyFrom(pack, limit, ms, 0)
  }

  // failed: the first action does not pack at all; n == 0 otherwise: it is over the limit alone.
  method MaxActionChunk(msgs: seq<Msg>, limit: nat, pack: Packer) returns (n: nat, data: Option<Calldata>, failed: bool)
    ensures n == Greedy(pack, limit, msgs)
    ensures failed <==> |msgs| > 0 && pack(msgs[..1]).Unpackable?
    ensures n > 0 ==> Fits(pack, limit, msgs[..n]) && data == Some(pack(msgs[..n]).data)
    ensures n == 0 ==> data == None
    ensures n <= |msgs| && forall k :: 0 < k <= n ==> pack(msgs[..k]).Packed? && |pack(msgs[..k]).data| <= limit
    ensures n < |msgs| ==> pack(msgs[..n + 1]).Unpackable? || |pack(msgs[..n + 1]).data| > limit
  {
    GreedyFromStops(pack, limit, msgs, 0);
    data := None;
    var k := 1;
    while k <= |msgs|
      invariant 1 <= k <= |msgs| + 1
      invariant Greedy(pack, limit, msgs) == GreedyFrom(pack, limit, msgs, k - 1)
      invariant k == 1 ==> data == None
      invariant k > 1 ==> Fits(pack, limit, msgs[..k - 1]) && data == Some(pack(msgs[..k - 1]).data)
    {
      var next := pack(msgs[..k]);
      if next.Unpackable? {
        if k == 1 {
          return 0, None, true;
        }
        return k - 1, data, false;
      }
      if |next.data| > limit {
        return k - 1, data, false;
      }
      data := Some(next.data);
      k := k + 1;
    }
    return |msgs|, data, false;
  }

  // What the send loop does with a pending list when every call answers: transactions and
  // actions refused one by one, in order.
  datatype Piece = Tx(msgs: seq<Msg>) | Refused(msg: Msg)

  function PieceMsgs(p: Piece): seq<Msg> {
    match p
    case Tx(ms) => ms
    case Refused(m) => [m]
  }

  function Plan(pack: Packer, limit: nat, pending: seq<Msg>): seq<Piece>
    decreases |pending|
  {
    if pending == [] then []
    else
      var n := Greedy(pack, limit, pending);
      if n == 0 then [Refused(pending[0])] + Plan(pack, limit, pending[1..])
      else [Tx(pending[..n])] + Plan(pack, limit, pending[n..])
  }

  // From i the greedy plan takes the actions up to j.
  ghost predicate GreedyCut(pack: Packer, limit: nat, pending: seq<Msg>, i: int, j: int) {
    0 <= i < j <= |pending| && j - i == (if Greedy(pack, limit, pending[i..]) == 0 then 1 else Greedy(pack, limit, pending[i..]))
  }

  ghost predicate GreedyCuts(pack: Packer, limit: nat, pending: seq<Msg>, cuts: seq<nat>, end: nat) {
    && cuts != [] && cuts[0] == 0 && cuts[|cuts| - 1] == end
    && forall k :: 0 <= k < |cuts| - 1 ==> GreedyCut(pack, limit, pending, cuts[k], cuts[k + 1])
  }

  lemma CutsGrow(pack: Packer, limit: nat, pending: seq<Msg>, cuts: seq<nat>, i: nat, j: nat)
    requires GreedyCuts(pack, limit, pending, cuts, i) && GreedyCut(pack, limit, pending, i, j)
    ensures GreedyCuts(pack, limit, pending, cuts + [j], j)
  {
    var more := cuts + [j];
    forall k | 0 <= k < |more| - 1
      ensures GreedyCut(pack, limit, pending, more[k], more[k + 1])
    {
      if k < |cuts| - 1 {
        assert GreedyCut(pack, limit, pending, cuts[k], cuts[k + 1]);
      }
    }
  }

  // A plan whose pieces are the list cut at cuts[k..].
  ghost predicate CutAt(plan: seq<Piece>, pending: seq<Msg>, cuts: seq<nat>, k: nat)
    decreases |plan|
  {
    if plan == [] then k + 1 == |cuts|
    else
      && k + 1 < |cuts| && cuts[k] <= cuts[k + 1] <= |pending| && PieceMsgs(plan[0]) == pending[cuts[k]..cuts[k + 1]]
      && CutAt(plan[1..], pending, cuts, k + 1)
  }

  // The loop's cuts are the plan's.
  lemma {:induction false} CutsAreThePlan(pack: Packer, limit: nat, pending: seq<Msg>, cuts: seq<nat>, k: nat)
    requires GreedyCuts(pack, limit, pending, cuts, |pending|) && k < |cuts| && cuts[k] <= |pending|
    ensures CutAt(Plan(pack, limit, pending[cuts[k]..]), pending, cuts, k)
    decreases |cuts| - k
  {
    var rest := pending[cuts[k]..];
    if k + 1 < |cuts| {
      assert GreedyCut(pack, limit, pending, cuts[k], cuts[k + 1]);
      CutsAreThePlan(pack, limit, pending, cuts, k + 1);
      PlanHead(pack, limit, rest, cuts[k + 1] - cuts[k]);
      assert rest[cuts[k + 1] - cuts[k]..] == pending[cuts[k + 1]..];
      assert rest[..cuts[k + 1] - cuts[k]] == pending[cuts[k]..cuts[k + 1]];
    }
  }

  lemma PlanHead(pack: Packer, limit: nat, rest: seq<Msg>, n: nat)
    requires rest != [] && n == (if Greedy(pack, limit, rest) == 0 then 1 else Greedy(pack, limit, rest))
    ensures var plan := Plan(pack, limit, rest);
            n <= |rest| && plan != [] && PieceMsgs(plan[0]) == rest[..n] && plan[1..] == Plan(pack, limit, rest[n..])
  {
  }

  function Contents(pieces: seq<Piece>): seq<Msg> {
    if pieces == [] then [] else PieceMsgs(pieces[0]) + Contents(pieces[1..])
  }

  // Every pending action lands in exactly one place, in order; transactions are within the limit
  // and refusals are exactly the actions that do not fit alone.
  lemma {:induction false} PlanIsExact(pack: Packer, limit: nat, pending: seq<Msg>)
    ensures Contents(Plan(pack, limit, pending)) == pending
    ensures forall p :: p in Plan(pack, limit, pending) ==>
              match p
              case Tx(ms) => ms != [] && Fits(pack, limit, ms)
              case Refused(m) => !Fits(pack, limit, [m])
    decreases |pending|
  {
    if pending != [] {
      var n := Greedy(pack, limit, pending);
      GreedyFromStops(pack, limit, pending, 0);
      var k := if n == 0 then 1 else n;
      PlanIsExact(pack, limit, pending[k..]);
      assert pending[..1] == [pending[0]];
      assert pending == pending[..k] + pending[k..];
      var plan := Plan(pack, limit, pending);
      assert plan[1..] == Plan(pack, limit, pending[k..]);
    }
  }

  function Total(size: Msg -> nat, ms: seq<Msg>): nat {
    if ms == [] then 0 else size(ms[0]) + Total(size, ms[1..])
  }

  lemma {:induction false} TotalSplits(size: Msg -> nat, a: seq<Msg>, b: seq<Msg>)
    ensures Total(size, a + b) == Total(size, a) + Total(size, b)
  {
    if a == [] {
      assert a + b == b;
    } else {
      TotalSplits(size, a[1..], b);
      assert (a + b)[1..] == a[1..] + b;
    }
  }

  // ABI encoding of a dynamic array of tuples: a fixed head plus one share per element.
  ghost predicate Additive(pack: Packer, base: nat, size: Msg -> nat) {
    forall ms :: pack(ms).Packed? && |pack(ms).data| == base + Total(size, ms)
  }

  lemma SliceFits(pack: Packer, base: nat, size: Msg -> nat, limit: nat, ms: seq<Msg>, i: nat, j: nat)
    requires Additive(pack, base, size)
    requires i <= j <= |ms| && Fits(pack, limit, ms)
    ensures Fits(pack, limit, ms[i..j])
  {
    TotalSplits(size, ms[..i], ms[i..]);
    TotalSplits(size, ms[i..j], ms[j..]);
    assert ms[..i] + ms[i..] == ms;
    assert ms[i..j] + ms[j..] == ms[i..];
  }

  // With additive sizes the greedy prefix is at least as long as any prefix that fits.
  lemma GreedyIsLongest(pack: Packer, base: nat, size: Msg -> nat, limit: nat, ms: seq<Msg>, j: nat)
    requires Additive(pack, base, size)
    requires j <= |ms| && Fits(pack, limit, ms[..j])
    ensures j <= Greedy(pack, limit, ms)
  {
    var n := Greedy(pack, limit, ms);
    GreedyFromStops(pack, limit, ms, 0);
    if n < j {
      assert ms[..j][0..n + 1] == ms[..n + 1];
      SliceFits(pack, base, size, limit, ms[..j], 0, n + 1);
    }
  }

  ghost predicate AllFitAlone(pack: Packer, limit: nat, ms: seq<Msg>) {
    forall m :: m in ms ==> Fits(pack, limit, [m])
  }

  lemma GreedyProgress(pack: Packer, base: nat, size: Msg -> nat, limit: nat, ms: seq<Msg>)
    requires Additive(pack, base, size) && AllFitAlone(pack, limit, ms) && ms != []
    ensures Greedy(pack, limit, ms) > 0
  {
    assert ms[..1] == [ms[0]];
    GreedyIsLongest(pack, base, size, limit, ms, 1);
  }

  // Dropping leading actions never costs a transaction.
  lemma {:induction false} SuffixIsNoWorse(pack: Packer, base: nat, size: Msg -> nat, limit: nat, ms: seq<Msg>, k: nat)
    requires Additive(pack, base, size) && AllFitAlone(pack, limit, ms) && k <= |ms|
    ensures |Plan(pack, limit, ms[k..])| <= |Plan(pack, limit, ms)|
    decreases |ms|
  {
    if 0 < k < |ms| {
      GreedyProgress(pack, base, size, limit, ms);
      var n := Greedy(pack, limit, ms);
      if n <= k {
        SuffixIsNoWorse(pack, base, size, limit, ms[n..], k - n);
        assert ms[n..][k - n..] == ms[k..];
      } else {
        var tail := ms[k..];
        GreedyProgress(pack, base, size, limit, tail);
        var n' := Greedy(pack, limit, tail);
        GreedyFromStops(pack, limit, ms, 0);
        SliceFits(pack, base, size, limit, ms[..n], k, n);
        assert ms[..n][k..n] == tail[..n - k];
        GreedyIsLongest(pack, base, size, limit, tail, n - k);
        SuffixIsNoWorse(pack, base, size, limit, ms[n..], k + n' - n);
        assert ms[n..][k + n' - n..] == tail[n'..];
      }
    } else if k == 0 {
      assert ms[k..] == ms;
    }
  }

  // No way of cutting the list into consecutive within-limit transactions uses fewer of them.
  lemma {:induction false} GreedyIsOptimal(pack: Packer, base: nat, size: Msg -> nat, limit: nat, ms: seq<Msg>, parts: seq<seq<Msg>>)
    requires Additive(pack, base, size) && AllFitAlone(pack, limit, ms)
    requires Flatten(parts) == ms
    requires forall p :: p in parts ==> Fits(pack, limit, p)
    ensures |Plan(pack, limit, ms)| <= |parts|
    ensures forall p :: p in Plan(pack, limit, ms) ==> p.Tx?
    decreases |parts|, |ms|
  {
    PlanIsExact(pack, limit, ms);
    assert forall p :: p in Plan(pack, limit, ms) ==> p.Tx? by {
      AllPiecesAreTxs(pack, base, size, limit, ms);
    }
    if ms != [] {
      var p := |parts[0]|;
      assert ms[..p] == parts[0] && ms[p..] == Flatten(parts[1..]);
      GreedyProgress(pack, base, size, limit, ms);
      GreedyIsLongest(pack, base, size, limit, ms, p);
      var n := Greedy(pack, limit, ms);
      GreedyIsOptimal(pack, base, size, limit, ms[p..], parts[1..]);
      SuffixIsNoWorse(pack, base, size, limit, ms[p..], n - p);
      assert ms[p..][n - p..] == ms[n..];
    }
  }

  lemma {:induction false} AllPiecesAreTxs(pack: Packer, base: nat, size: Msg -> nat, limit: nat, ms: seq<Msg>)
    requires Additive(pack, base, size) && AllFitAlone(pack, limit, ms)
    ensures forall p :: p in Plan(pack, limit, ms) ==> p.Tx?
    decreases |ms|
  {
    if ms != [] {
      GreedyProgress(pack, base, size, limit, ms);
      AllPiecesAreTxs(pack, base, size, limit, ms[Greedy(pack, limit, ms)..]);
    }
  }
}
