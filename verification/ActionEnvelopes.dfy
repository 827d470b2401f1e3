// The envelope that carries a signed part, what the adapter makes of it, and what the auditor reads back
// (wms/internal/signedops/operation.go, ledger-adapter/internal/consumer/message.go, wms/internal/audit/audit_compare.go).
module ActionEnvelopes {
  import opened Basics
  import opened Words
  import opened HexText
  import opened SortedLists
  import opened ActionDetails
  import opened ActionParts

  // ---------------------------------------------------------------------------- envelopes

  datatype WebAuthnFields = WebAuthnFields(authenticatorData: string, clientDataJSON: string, challengeIndex: int, typeIndex: int, r: string, s: string)

  datatype Point = Point(qx: string, qy: string)

  datatype Envelope = Envelope(version: int, actionId: string, actionType: nat, itemIds: seq<string>, detailsHash: string,
                               subjectKey: Option<Point>, keyId: string, webauthn: WebAuthnFields)

  // A Kafka message; envelope is what the JSON decoder makes of the value.
  datatype Message = Message(idHeader: string, aggregate: string, key: string, envelope: Option<Envelope>)

  const SIGNED_ACTION := "signed_action"

  function Texts(ids: seq<Uuid>): (ts: seq<string>)
    ensures |ts| == |ids| && forall i :: 0 <= i < |ids| ==> ts[i] == UuidText(ids[i])
  {
    seq(|ids|, i requires 0 <= i < |ids| => UuidText(ids[i]))
  }

  function RenderAuth(a: Auth): WebAuthnFields {
    WebAuthnFields(Hex(a.authenticatorData), a.clientDataJSON, a.challengeIndex, a.typeIndex, Hex(a.r), Hex(a.s))
  }

  // The outbox row of a part, as it arrives.
  function Render(p: Part, actionType: Byte, keyId: Word, auth: Auth): Message {
    Message(UuidText(p.action), SIGNED_ACTION, UuidText(p.action),
            Some(Envelope(1, UuidText(p.action), actionType, Texts(p.items), Hex(p.detailsHash), None, Hex(keyId), RenderAuth(auth))))
  }

  // ------------------------------------------------------------------------------ parsing

  datatype Auth = Auth(r: Word, s: Word, challengeIndex: int, typeIndex: int, authenticatorData: seq<Byte>, clientDataJSON: string)

  // chain.WarehouseAction: the item ids are numbers now.
  datatype WarehouseAction = WarehouseAction(action: Uuid, actionType: nat, itemIds: seq<nat>, detailsHash: Word, keyId: Word, auth: Auth)

  datatype KeyAction = KeyAction(action: Uuid, actionType: nat, qx: Word, qy: Word, signerKeyId: Word, auth: Auth)

  datatype ParseError =
    | BAD_ID | BAD_AGGREGATE | KEY_MISMATCH | BAD_VALUE | BAD_VERSION | ACTION_ID_MISMATCH | NO_SUBJECT_KEY | UNSUPPORTED_TYPE
    | BAD_SUBJECT_KEY | BAD_DETAILS_HASH | BAD_AUTH | BAD_ITEM_ID

  datatype Parsed = Warehouse(warehouse: WarehouseAction) | KeyChange(change: KeyAction) | Invalid(error: ParseError)

  type UuidParser = string -> Option<Uuid>

  // Type 5 and 6 change keys, 1 to 4 are the warehouse's.
  predicate IsKeyType(t: nat) {
    t == 5 || t == 6
  }

  predicate IsWarehouseType(t: nat) {
    1 <= t <= 4
  }

  predicate AuthParses(env: Envelope) {
    && DecodeHex32(env.keyId).Some? && DecodeHex32(env.webauthn.r).Some? && DecodeHex32(env.webauthn.s).Some?
    && DecodeHex(env.webauthn.authenticatorData).Some?
  }

  // The signer's key and the signature, checked in this order.
  function AuthOf(env: Envelope): (r: Option<(Word, Auth)>)
    ensures r.Some? <==> AuthParses(env)
  {
    match (DecodeHex32(env.keyId), DecodeHex32(env.webauthn.r), DecodeHex32(env.webauthn.s), DecodeHex(env.webauthn.authenticatorData))
    case (Some(keyId), Some(r), Some(s), Some(data)) =>
      Some((keyId, Auth(r, s, env.webauthn.challengeIndex, env.webauthn.typeIndex, data, env.webauthn.clientDataJSON)))
    case (_, _, _, _) => None
  }

  // Each field is what its own text says.
  predicate IsAuth(a: Auth, keyId: Word, env: Envelope) {
    && Some(keyId) == DecodeHex32(env.keyId) && Some(a.r) == DecodeHex32(env.webauthn.r) && Some(a.s) == DecodeHex32(env.webauthn.s)
    && Some(a.authenticatorData) == DecodeHex(env.webauthn.authenticatorData) && a.clientDataJSON == env.webauthn.clientDataJSON
    && a.challengeIndex == env.webauthn.challengeIndex && a.typeIndex == env.webauthn.typeIndex
  }

  predicate ItemTextsParse(parse: UuidParser, texts: seq<string>) {
    forall i :: 0 <= i < |texts| ==> parse(texts[i]).Some?
  }

  // What every signed action satisfies, whatever its type.
  predicate HeadParses(parse: UuidParser, m: Message) {
    && m.idHeader != "" && parse(m.idHeader).Some? && m.aggregate == SIGNED_ACTION && m.key == m.idHeader
    && m.envelope.Some? && m.envelope.value.version == 1 && m.envelope.value.actionId == m.idHeader
  }

  predicate KeyBodyParses(env: Envelope) {
    && IsKeyType(env.actionType) && env.subjectKey.Some?
    && DecodeHex32(env.subjectKey.value.qx).Some? && DecodeHex32(env.subjectKey.value.qy).Some? && AuthParses(env)
  }

  predicate WarehouseBodyParses(parse: UuidParser, env: Envelope) {
    IsWarehouseType(env.actionType) && DecodeHex32(env.detailsHash).Some? && AuthParses(env) && ItemTextsParse(parse, env.itemIds)
  }

  // Parse and parseSignedAction.
  method Parse(keccak: Hash, parse: UuidParser, m: Message) returns (r: Parsed)
    ensures r.Warehouse? <==> HeadParses(parse, m) && WarehouseBodyParses(parse, m.envelope.value)
    ensures r.KeyChange? <==> HeadParses(parse, m) && KeyBodyParses(m.envelope.value)
    ensures r.Warehouse? ==>
              var env, w := m.envelope.value, r.warehouse;
              && Some(w.action) == parse(m.idHeader) && w.actionType == env.actionType
              && Some(w.detailsHash) == DecodeHex32(env.detailsHash) && Some((w.keyId, w.auth)) == AuthOf(env) && IsAuth(w.auth, w.keyId, env)
              && |w.itemIds| == |env.itemIds|
              && forall i :: 0 <= i < |env.itemIds| ==> w.itemIds[i] == NumberOf(ItemId(keccak, parse(env.itemIds[i]).value))
    ensures r.KeyChange? ==>
              var env, k := m.envelope.value, r.change;
              && Some(k.action) == parse(m.idHeader) && k.actionType == env.actionType && Some((k.signerKeyId, k.auth)) == AuthOf(env) && IsAuth(k.auth, k.signerKeyId, env)
              && Some(k.qx) == DecodeHex32(env.subjectKey.value.qx) && Some(k.qy) == DecodeHex32(env.subjectKey.value.qy)
  {
    if m.idHeader == "" {
      return Invalid(BAD_ID);
    }
    var id := parse(m.idHeader);
    if id == None {
      return Invalid(BAD_ID);
    }
    if m.aggregate != SIGNED_ACTION {
      return Invalid(BAD_AGGREGATE);
    }
    if m.key != m.idHeader {
      return Invalid(KEY_MISMATCH);
    }
    if m.envelope == None {
      return Invalid(BAD_VALUE);
    }
    var env := m.envelope.value;
    if env.version != 1 {
      return Invalid(BAD_VERSION);
    }
    if env.actionId != m.idHeader {
      return Invalid(ACTION_ID_MISMATCH);
    }
    if IsKeyType(env.actionType) {
      r := ToKeyAction(env, id.value);
    } else if IsWarehouseType(env.actionType) {
      r := ToWarehouseAction(keccak, parse, env, id.value);
    } else {
      r := Invalid(UNSUPPORTED_TYPE);
    }
  }

  // Which messages are read, spelled out: the id header a UUID and the same as the Kafka key and the envelope's own
  // id, a signed action, version 1; types 5 and 6 with the subject's key, types 1 to 4 with items and details; every
  // hexadecimal text of its length.
  lemma ParsesMeans(parse: UuidParser, m: Message)
    ensures HeadParses(parse, m) && (WarehouseBodyParses(parse, m.envelope.value) || KeyBodyParses(m.envelope.value)) <==>
            && m.idHeader != "" && parse(m.idHeader).Some? && m.aggregate == "signed_action" && m.key == m.idHeader && m.envelope.Some?
            && var env := m.envelope.value;
               && env.version == 1 && env.actionId == m.idHeader
               && DecodeHex32(env.keyId).Some? && DecodeHex32(env.webauthn.r).Some? && DecodeHex32(env.webauthn.s).Some?
               && DecodeHex(env.webauthn.authenticatorData).Some?
               && (if env.actionType in {5, 6} then
                     env.subjectKey.Some? && DecodeHex32(env.subjectKey.value.qx).Some? && DecodeHex32(env.subjectKey.value.qy).Some?
                   else
                     && env.actionType in {1, 2, 3, 4} && DecodeHex32(env.detailsHash).Some?
                     && forall i :: 0 <= i < |env.itemIds| ==> parse(env.itemIds[i]).Some?)
    ensures HeadParses(parse, m) && KeyBodyParses(m.envelope.value) ==> m.envelope.value.actionType in {5, 6}
  {
  }

  method ToKeyAction(env: Envelope, id: Uuid) returns (r: Parsed)
    requires IsKeyType(env.actionType)
    ensures !r.Warehouse? && (r.KeyChange? <==> KeyBodyParses(env))
    ensures r.KeyChange? ==>
              && r.change.action == id && r.change.actionType == env.actionType && Some((r.change.signerKeyId, r.change.auth)) == AuthOf(env)
              && Some(r.change.qx) == DecodeHex32(env.subjectKey.value.qx) && Some(r.change.qy) == DecodeHex32(env.subjectKey.value.qy)
  {
    if env.subjectKey == None {
      return Invalid(NO_SUBJECT_KEY);
    }
    var qx, qy := DecodeHex32(env.subjectKey.value.qx), DecodeHex32(env.subjectKey.value.qy);
    if qx == None || qy == None {
      return Invalid(BAD_SUBJECT_KEY);
    }
    var auth := AuthOf(env);
    if auth == None {
      return Invalid(BAD_AUTH);
    }
    r := KeyChange(KeyAction(id, env.actionType, qx.value, qy.value, auth.value.0, auth.value.1));
  }

  method ToWarehouseAction(keccak: Hash, parse: UuidParser, env: Envelope, id: Uuid) returns (r: Parsed)
    requires IsWarehouseType(env.actionType)
    ensures !r.KeyChange? && (r.Warehouse? <==> WarehouseBodyParses(parse, env))
    ensures r.Warehouse? ==>
              && r.warehouse.action == id && r.warehouse.actionType == env.actionType
              && Some(r.warehouse.detailsHash) == DecodeHex32(env.detailsHash) && Some((r.warehouse.keyId, r.warehouse.auth)) == AuthOf(env)
              && |r.warehouse.itemIds| == |env.itemIds|
              && forall i :: 0 <= i < |env.itemIds| ==> r.warehouse.itemIds[i] == NumberOf(ItemId(keccak, parse(env.itemIds[i]).value))
  {
    var detailsHash := DecodeHex32(env.detailsHash);
    if detailsHash == None {
      return Invalid(BAD_DETAILS_HASH);
    }
    var auth := AuthOf(env);
    if auth == None {
      return Invalid(BAD_AUTH);
    }
    var itemIds := ParseItems(keccak, parse, env.itemIds);
    if itemIds == None {
      return Invalid(BAD_ITEM_ID);
    }
    r := Warehouse(WarehouseAction(id, env.actionType, itemIds.value, detailsHash.value, auth.value.0, auth.value.1));
  }

  // The item texts in envelope order, each turned into its number.
  method ParseItems(keccak: Hash, parse: UuidParser, texts: seq<string>) returns (itemIds: Option<seq<nat>>)
    ensures itemIds.Some? <==> ItemTextsParse(parse, texts)
    ensures itemIds.Some? ==>
              && |itemIds.value| == |texts|
              && forall i :: 0 <= i < |texts| ==> itemIds.value[i] == NumberOf(ItemId(keccak, parse(texts[i]).value))
  {
    var numbers: seq<nat> := [];
    var i := 0;
    while i < |texts|
      invariant 0 <= i <= |texts| && |numbers| == i
      invariant forall j :: 0 <= j < i ==> parse(texts[j]).Some? && numbers[j] == NumberOf(ItemId(keccak, parse(texts[j]).value))
    {
      var u := parse(texts[i]);
      if u == None {
        return None;
      }
      numbers := numbers + [NumberOf(ItemId(keccak, u.value))];
      i := i + 1;
    }
    itemIds := Some(numbers);
  }

  function Refilled(itemIds: seq<nat>): (ws: seq<Word>)
    ensures |ws| == |itemIds| && forall i :: 0 <= i < |itemIds| ==> ws[i] == WordOf(itemIds[i])
  {
    seq(|itemIds|, i requires 0 <= i < |itemIds| => WordOf(itemIds[i]))
  }

  // itemsHashWords: the calldata's numbers, filled back into words.
  method ItemsHashWords(keccak: Hash, itemIds: seq<nat>) returns (hash: Word)
    ensures hash == keccak(Bytes(Refilled(itemIds)))
  {
    var buf: seq<Byte> := [];
    var i := 0;
    while i < |itemIds|
      invariant 0 <= i <= |itemIds| && buf == Bytes(Refilled(itemIds[..i]))
    {
      assert Refilled(itemIds[..i + 1]) == Refilled(itemIds[..i]) + [WordOf(itemIds[i])];
      BytesSnoc(Refilled(itemIds[..i]), WordOf(itemIds[i]));
      buf := buf + WordOf(itemIds[i]);
      i := i + 1;
    }
    assert itemIds[..i] == itemIds;
    hash := keccak(buf);
  }

  function ItemNumbers(keccak: Hash, ids: seq<Uuid>): (ns: seq<nat>)
    ensures |ns| == |ids| && forall i :: 0 <= i < |ids| ==> ns[i] == NumberOf(ItemId(keccak, ids[i]))
  {
    seq(|ids|, i requires 0 <= i < |ids| => NumberOf(ItemId(keccak, ids[i])))
  }

  lemma RefillsItems(keccak: Hash, ids: seq<Uuid>)
    ensures Refilled(ItemNumbers(keccak, ids)) == ItemWords(keccak, ids)
  {
    forall i | 0 <= i < |ids|
      ensures WordOf(NumberOf(ItemId(keccak, ids[i]))) == ItemId(keccak, ids[i])
    {
      RefillsBytes(ItemId(keccak, ids[i]));
    }
  }

  // What a part's message parses to.
  function Sent(keccak: Hash, p: Part, actionType: Byte, keyId: Word, auth: Auth): WarehouseAction {
    WarehouseAction(p.action, actionType, ItemNumbers(keccak, p.items), p.detailsHash, keyId, auth)
  }

  lemma RenderedParses(parse: UuidParser, p: Part, actionType: Byte, keyId: Word, auth: Auth)
    requires ReadsCanonical(parse) && IsWarehouseType(actionType)
    ensures var m := Render(p, actionType, keyId, auth);
            && HeadParses(parse, m) && WarehouseBodyParses(parse, m.envelope.value) && parse(m.idHeader) == Some(p.action)
            && AuthOf(m.envelope.value) == Some((keyId, auth)) && DecodeHex32(m.envelope.value.detailsHash) == Some(p.detailsHash)
            && forall i :: 0 <= i < |p.items| ==> parse(m.envelope.value.itemIds[i]) == Some(p.items[i])
  {
    HexRoundTrip(p.detailsHash);
    HexRoundTrip(keyId);
    HexRoundTrip(auth.r);
    HexRoundTrip(auth.s);
    HexRoundTrip(auth.authenticatorData);
  }

  // Round trip: the adapter reads from a part's message the part, its key and its signature.
  method PartArrives(keccak: Hash, parse: UuidParser, p: Part, actionType: Byte, keyId: Word, auth: Auth) returns (r: Parsed)
    requires ReadsCanonical(parse) && IsWarehouseType(actionType)
    ensures r == Warehouse(Sent(keccak, p, actionType, keyId, auth))
  {
    RenderedParses(parse, p, actionType, keyId, auth);
    r := Parse(keccak, parse, Render(p, actionType, keyId, auth));
    assert r.warehouse.itemIds == ItemNumbers(keccak, p.items);
  }

  // From a signed part over its message, the adapter's numbers and the auditor's words back to the
  // challenge the operator signed.
  method ChallengeSurvives(keccak: Hash, parse: UuidParser, typeHash: Word, actionType: Byte, items: seq<Uuid>, details: (Word, seq<Uuid>) -> Word,
                           action: Uuid, salt: Word, keyId: Word, auth: Auth)
    returns (challenge: Word)
    requires ReadsCanonical(parse) && IsWarehouseType(actionType)
    ensures challenge == NewPart(keccak, typeHash, actionType, items, details, action, salt).challenge
  {
    var p := NewPart(keccak, typeHash, actionType, items, details, action, salt);
    var parsed := PartArrives(keccak, parse, p, actionType, keyId, auth);
    RefillsItems(keccak, p.items);
    var itemsHash := ItemsHashWords(keccak, parsed.warehouse.itemIds);
    challenge := Challenge(keccak, typeHash, parsed.warehouse.action, actionType, itemsHash, parsed.warehouse.detailsHash);
  }

  // ----------------------------------------------------------------------------- checkItems

  // Sets on both sides, and no product twice on ours.
  method ItemsAgree(keccak: Hash, chainItems: seq<Word>, domainItems: seq<Uuid>) returns (ok: bool)
    ensures ok <==> Elems(chainItems) == Elems(ItemWords(keccak, domainItems)) && Distinct(ItemWords(keccak, domainItems))
  {
    var chainSet, dbSet := Elems(chainItems), Elems(ItemWords(keccak, domainItems));
    DistinctCardinality(ItemWords(keccak, domainItems));
    var same := |chainSet| == |dbSet|;
    if same {
      var left := dbSet;
      while left != {} && same
        invariant left <= dbSet && (same ==> dbSet - left <= chainSet) && (!same ==> !(dbSet <= chainSet))
        decreases |left|
      {
        var it :| it in left;
        if it !in chainSet {
          same := false;
        }
        left := left - {it};
      }
      if same {
        SubsetOfSameSize(dbSet, chainSet);
      }
    }
    var duplicated := |dbSet| != |domainItems|;
    ok := same && !duplicated;
  }

  // ------------------------------------------------------------------------- end to end

  lemma PartItemsFrom(sorted: seq<Uuid>, i: int)
    ensures forall x :: x in PartItems(sorted, i) ==> x in sorted
    ensures Distinct(sorted) ==> Distinct(PartItems(sorted, i))
  {
  }

  // The item words of distinct products are distinct.
  lemma WordsDistinct(keccak: Hash, ids: seq<Uuid>)
    requires ItemsApart(keccak, ids)
    ensures Distinct(ItemWords(keccak, ids)) <==> Distinct(ids)
  {
    if Distinct(ItemWords(keccak, ids)) {
      forall i, j | 0 <= i < j < |ids|
        ensures ids[i] != ids[j]
      {
        assert ItemWords(keccak, ids)[i] != ItemWords(keccak, ids)[j];
      }
    }
  }

  lemma SortedIsSame(keccak: Hash, ids: seq<Uuid>)
    requires ItemsApart(keccak, ids)
    ensures ItemsApart(keccak, SortByItemID(keccak, ids)) && (Distinct(SortByItemID(keccak, ids)) <==> Distinct(ids))
  {
    var sorted := SortByItemID(keccak, ids);
    SortBySorts(ids, ItemKey(keccak));
    SameMembers(sorted, ids);
    DistinctCardinality(sorted);
    DistinctCardinality(ids);
    assert Elems(sorted) == Elems(ids);
  }

  // An operation on distinct products, sent part by part, audited from rows in any order: for every part
  // the items check succeeds and the challenge recomputed is the one that was signed. With a product
  // signed twice in a part the items check of that part fails.
  method AuditAgrees(keccak: Hash, parse: UuidParser, typeHash: Word, actionType: Byte, items: seq<Uuid>, audited: seq<Uuid>,
                     details: (Word, seq<Uuid>) -> Word, actionOf: nat -> Uuid, saltOf: nat -> Word, keyId: Word, auth: Auth, i: nat)
    returns (parts: seq<Part>, itemsOk: bool, challenge: Word)
    requires ReadsCanonical(parse) && IsWarehouseType(actionType) && i < PartCount(|items|)
    requires multiset(items) == multiset(audited) && ItemsApart(keccak, items)
    ensures |parts| == PartCount(|items|) && challenge == parts[i].challenge
    ensures itemsOk <==> Distinct(parts[i].items)
    ensures Distinct(items) ==> itemsOk
  {
    parts := NewOperation(keccak, typeHash, actionType, items, details, actionOf, saltOf);
    var p := parts[i];
    var parsed := PartArrives(keccak, parse, p, actionType, keyId, auth);
    RefillsItems(keccak, p.items);
    AuditorCutsTheSamePart(keccak, items, audited, i);
    SortedIsSame(keccak, items);
    PartItemsFrom(SortByItemID(keccak, items), i);
    WordsDistinct(keccak, p.items);
    itemsOk := ItemsAgree(keccak, Refilled(parsed.warehouse.itemIds), PartItems(SortByItemID(keccak, audited), i));
    var itemsHash := ItemsHashWords(keccak, parsed.warehouse.itemIds);
    challenge := Challenge(keccak, typeHash, parsed.warehouse.action, actionType, itemsHash, parsed.warehouse.detailsHash);
  }
}
