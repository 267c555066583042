/**
 The account-token snapshot entity and its query handler.

 An account-token snapshot is the indexing service's record of one account's
 state for one super token: balance, flow rates, stream and subscription
 counters, and the block and time of the last update. The service returns a
 list of raw records in which the account and token are nested `{id}`
 references and the block number and timestamp are decimal strings. The
 handler maps that list, element by element and in order, to the typed
 entity; it also says which filter keys and which result fields carry
 addresses, grouped by role (accounts, tokens).
 */
module AccountTokenSnapshot {
  import opened Decimal

  /** Largest integer a JavaScript number represents exactly (2^53 - 1). */
  const MaxSafeInteger: nat := 0x1F_FFFF_FFFF_FFFF

  /** A nested reference to another indexed entity, by its identifier. */
  datatype Ref = Ref(id: string)

  /**
   The fields the handler copies through unchanged. Amounts and flow rates
   are big numbers carried as decimal strings and never computed with here;
   the counters are plain integers.
   */
  datatype Totals = Totals(
    balanceUntilUpdatedAt: string,
    totalAmountStreamedUntilUpdatedAt: string,
    totalAmountTransferredUntilUpdatedAt: string,
    totalInflowRate: string,
    totalApprovedSubscriptions: int,
    totalNetFlowRate: string,
    totalNumberOfActiveStreams: int,
    totalOutflowRate: string,
    totalNumberOfClosedStreams: int,
    totalSubscriptionsWithUnits: int
  )

  /** One item of the service's response, in the shape the service sends it. */
  datatype RawSnapshot = RawSnapshot(
    id: string,
    totals: Totals,
    updatedAtBlockNumber: string,
    updatedAtTimestamp: string,
    account: Ref,
    token: Ref
  )

  /** The service's response: the list of raw snapshots, in the service's order. */
  datatype Response = Response(accountTokenSnapshots: seq<RawSnapshot>)

  /** The typed entity handed to callers. */
  datatype Snapshot = Snapshot(
    id: string,
    totals: Totals,
    updatedAtBlockNumber: nat,
    updatedAtTimestamp: nat,
    account: string,
    token: string
  )

  /** The address roles the handler reports. */
  datatype AddressFieldKeys = AddressFieldKeys(accountKeys: seq<string>, tokenKeys: seq<string>)

  /** The addresses found in one result, grouped by the same roles. */
  datatype RelevantAddresses = RelevantAddresses(tokens: seq<string>, accounts: seq<string>)

  /** A decimal string that `Number(...)` converts exactly. */
  predicate IsExactNumber(s: string) {
    IsDigitString(s) && ParseNat(s) <= MaxSafeInteger
  }

  /** The numeric fields of a raw record are decimal strings within the exact range. */
  predicate WellFormed(x: RawSnapshot) {
    IsExactNumber(x.updatedAtBlockNumber) && IsExactNumber(x.updatedAtTimestamp)
  }

  predicate AllWellFormed(raws: seq<RawSnapshot>) {
    forall i :: 0 <= i < |raws| ==> WellFormed(raws[i])
  }

  /** A raw record as the service renders it: numbers without leading zeros. */
  predicate IsCanonicalRaw(x: RawSnapshot) {
    WellFormed(x) && IsCanonical(x.updatedAtBlockNumber) && IsCanonical(x.updatedAtTimestamp)
  }

  /** An entity whose numbers a raw record within the exact range can carry. */
  predicate InSafeRange(s: Snapshot) {
    s.updatedAtBlockNumber <= MaxSafeInteger && s.updatedAtTimestamp <= MaxSafeInteger
  }

  /** The address-typed fields of an entity, by field name. */
  function AddressFields(s: Snapshot): map<string, string> {
    map["account" := s.account, "token" := s.token]
  }

  /**
   Maps one raw record: the references collapse to their identifiers, the
   two numeric strings become numbers, everything else is copied.
   */
  function MapSnapshot(x: RawSnapshot): (s: Snapshot)
    requires WellFormed(x)
    ensures s.id == x.id && s.totals == x.totals
    ensures s.account == x.account.id && s.token == x.token.id
    ensures s.updatedAtBlockNumber == ParseNat(x.updatedAtBlockNumber)
    ensures s.updatedAtTimestamp == ParseNat(x.updatedAtTimestamp)
    ensures InSafeRange(s)
  {
    Snapshot(
      x.id,
      x.totals,
      ParseNat(x.updatedAtBlockNumber),
      ParseNat(x.updatedAtTimestamp),
      x.account.id,
      x.token.id
    )
  }

  /** The raw record the service would send for an entity. */
  function Unmap(s: Snapshot): (x: RawSnapshot)
    requires InSafeRange(s)
    ensures IsCanonicalRaw(x)
  {
    ParseFormat(s.updatedAtBlockNumber);
    ParseFormat(s.updatedAtTimestamp);
    RawSnapshot(
      s.id,
      s.totals,
      FormatNat(s.updatedAtBlockNumber),
      FormatNat(s.updatedAtTimestamp),
      Ref(s.account),
      Ref(s.token)
    )
  }

  /** Mapping a record loses nothing the service sends: unmapping restores it. */
  lemma UnmapMapSnapshot(x: RawSnapshot)
    requires IsCanonicalRaw(x)
    ensures Unmap(MapSnapshot(x)) == x
  {
    FormatParse(x.updatedAtBlockNumber);
    FormatParse(x.updatedAtTimestamp);
  }

  /** Every entity within the exact range is the image of some raw record. */
  lemma MapUnmapSnapshot(s: Snapshot)
    requires InSafeRange(s)
    ensures MapSnapshot(Unmap(s)) == s
  {
    ParseFormat(s.updatedAtBlockNumber);
    ParseFormat(s.updatedAtTimestamp);
  }

  /** The list mapping: one entity per raw record, in the same order. */
  function MapAll(raws: seq<RawSnapshot>): (r: seq<Snapshot>)
    requires AllWellFormed(raws)
    ensures |r| == |raws|
    ensures forall i :: 0 <= i < |raws| ==> r[i] == MapSnapshot(raws[i])
  {
    if |raws| == 0 then []
    else [MapSnapshot(raws[0])] + MapAll(raws[1..])
  }

  /** The handler's `mapFromSubgraphResponse`. */
  function MapFromSubgraphResponse(response: Response): (r: seq<Snapshot>)
    requires AllWellFormed(response.accountTokenSnapshots)
    ensures |r| == |response.accountTokenSnapshots|
    ensures response.accountTokenSnapshots == [] ==> r == []
    ensures forall i :: 0 <= i < |r| ==>
      var x := response.accountTokenSnapshots[i];
      && r[i].id == x.id
      && r[i].totals == x.totals
      && r[i].account == x.account.id
      && r[i].token == x.token.id
      && r[i].updatedAtBlockNumber == ParseNat(x.updatedAtBlockNumber)
      && r[i].updatedAtTimestamp == ParseNat(x.updatedAtTimestamp)
  {
    MapAll(response.accountTokenSnapshots)
  }

  /**
   The mapping works element by element: mapping a concatenation is the
   concatenation of the mappings, so nothing is reordered, merged or dropped.
   */
  lemma MapAllAppend(a: seq<RawSnapshot>, b: seq<RawSnapshot>)
    requires AllWellFormed(a) && AllWellFormed(b)
    ensures AllWellFormed(a + b)
    ensures MapAll(a + b) == MapAll(a) + MapAll(b)
  {
  }

  /** Unmapping a whole list. */
  function UnmapAll(snapshots: seq<Snapshot>): (r: seq<RawSnapshot>)
    requires forall i :: 0 <= i < |snapshots| ==> InSafeRange(snapshots[i])
    ensures |r| == |snapshots|
    ensures forall i :: 0 <= i < |r| ==> IsCanonicalRaw(r[i])
  {
    seq(|snapshots|, i requires 0 <= i < |snapshots| => Unmap(snapshots[i]))
  }

  /** A response the service renders canonically is recovered exactly from its mapping. */
  lemma UnmapAllMapAll(raws: seq<RawSnapshot>)
    requires forall i :: 0 <= i < |raws| ==> IsCanonicalRaw(raws[i])
    ensures AllWellFormed(raws)
    ensures UnmapAll(MapAll(raws)) == raws
  {
    var r := UnmapAll(MapAll(raws));
    forall i | 0 <= i < |raws|
      ensures r[i] == raws[i]
    {
      UnmapMapSnapshot(raws[i]);
    }
  }

  /** The handler's `getAddressFieldKeysFromFilter`: fixed metadata, independent of any data. */
  function GetAddressFieldKeysFromFilter(): (keys: AddressFieldKeys)
    ensures forall s: Snapshot, k :: k in keys.accountKeys + keys.tokenKeys <==> k in AddressFields(s)
    ensures forall k :: !(k in keys.accountKeys && k in keys.tokenKeys)
    ensures forall s: Snapshot, k :: k in keys.accountKeys ==> k in AddressFields(s) && AddressFields(s)[k] == s.account
    ensures forall s: Snapshot, k :: k in keys.tokenKeys ==> k in AddressFields(s) && AddressFields(s)[k] == s.token
    ensures |keys.accountKeys| == 1 && |keys.tokenKeys| == 1
  {
    AddressFieldKeys(["account"], ["token"])
  }

  /** The handler's `getRelevantAddressesFromResultCore`: one address per role. */
  function GetRelevantAddressesFromResultCore(result: Snapshot): (r: RelevantAddresses)
    ensures |r.tokens| == 1 && |r.accounts| == 1
    ensures forall a :: a in r.tokens <==> a == result.token
    ensures forall a :: a in r.accounts <==> a == result.account
  {
    RelevantAddresses([result.token], [result.account])
  }

  /**
   The two address functions agree: the addresses reported for a result in
   each role are exactly the values of that result's fields named by the
   filter keys of the same role.
   */
  lemma FilterKeysSelectRelevantAddresses(s: Snapshot)
    ensures var keys := GetAddressFieldKeysFromFilter();
            var found := GetRelevantAddressesFromResultCore(s);
            && (forall a :: a in found.accounts <==> exists k :: k in keys.accountKeys && k in AddressFields(s) && AddressFields(s)[k] == a)
            && (forall a :: a in found.tokens <==> exists k :: k in keys.tokenKeys && k in AddressFields(s) && AddressFields(s)[k] == a)
  {
    var keys := GetAddressFieldKeysFromFilter();
    var fields := AddressFields(s);
    assert keys.accountKeys == ["account"] && keys.tokenKeys == ["token"];
    assert "account" in fields && fields["account"] == s.account;
    assert "token" in fields && fields["token"] == s.token;
  }

  /**
   Mapping then extracting addresses yields, for each item, exactly the raw
   record's token and account identifiers.
   */
  lemma RelevantAddressesOfMapped(raws: seq<RawSnapshot>)
    requires AllWellFormed(raws)
    ensures forall i :: 0 <= i < |raws| ==>
      GetRelevantAddressesFromResultCore(MapAll(raws)[i])
        == RelevantAddresses([raws[i].token.id], [raws[i].account.id])
  {
  }
}
