/**
 * Reading validators back from `stake_validator_set`: a summary row is
 * copied field by field; a full row also carries the validator's definition
 * as JSON, whose funding streams are split into the community-pool rate
 * and the list of streams paid to addresses, highest rate first.
 *
 * JSON parsing belongs to another crate and is passed in as a function.
 */
module ValidatorComponent {
  import opened Wrappers
  import opened Ints

  /** An address, by its bytes. */
  type Address = seq<Byte>

  /** The 32 bytes of a validator's identity key. */
  type KeyBytes = s: seq<Byte> | |s| == 32 witness seq(32, i => 0)

  datatype IdentityKey = IdentityKey(bytes: KeyBytes)

  /** A funding stream of the validator definition. */
  datatype StakeFundingStream =
    | ToAddress(address: Address, rateBps: U16)
    | ToCommunityPool(rateBps: U16)

  /** The parts of a validator definition the explorer reads. */
  datatype Definition = Definition(
    description: string,
    website: string,
    enabled: bool,
    fundingStreams: seq<StakeFundingStream>)

  /** A funding stream paid to an address, as the explorer shows it. */
  datatype FundingStream = FundingStream(address: Address, rateBps: U16)

  datatype Validator = Validator(
    identity: IdentityKey,
    name: string,
    votingPower: I64,
    description: string,
    website: string,
    enabled: bool,
    fundingStreams: seq<FundingStream>,
    communityPoolRateBps: U16)

  datatype ValidatorSummary = ValidatorSummary(name: string, identity: IdentityKey, votingPower: I64)

  /** `SELECT ik, name, voting_power, definition`: the four typed columns. */
  datatype ValidatorRow = ValidatorRow(ik: KeyBytes, name: string, votingPower: I64, definition: string)

  /** `SELECT name, ik, voting_power`: the three typed columns. */
  datatype SummaryRow = SummaryRow(name: string, ik: KeyBytes, votingPower: I64)

  datatype SqlError = ColumnDecode(index: string, source: string)

  // ---------------------------------------------------------------------
  // What the funding-stream loop computes
  // ---------------------------------------------------------------------

  /** The sum of the rates of the community-pool streams. */
  function PoolRateSum(streams: seq<StakeFundingStream>): nat {
    if |streams| == 0 then 0
    else
      var last := streams[|streams| - 1];
      PoolRateSum(streams[..|streams| - 1]) + if last.ToCommunityPool? then last.rateBps else 0
  }

  /** The streams paid to addresses, in input order. */
  function AddressStreams(streams: seq<StakeFundingStream>): seq<FundingStream> {
    if |streams| == 0 then []
    else
      var last := streams[|streams| - 1];
      AddressStreams(streams[..|streams| - 1]) +
        if last.ToAddress? then [FundingStream(last.address, last.rateBps)] else []
  }

  lemma {:induction false} PoolRateSumPrefix(streams: seq<StakeFundingStream>, i: nat)
    requires i <= |streams|
    ensures PoolRateSum(streams[..i]) <= PoolRateSum(streams)
    decreases |streams|
  {
    if i < |streams| {
      var n := |streams| - 1;
      assert streams[..n][..i] == streams[..i];
      PoolRateSumPrefix(streams[..n], i);
    } else {
      assert streams[..i] == streams;
    }
  }

  /**
   * Each funding stream appears among the address streams as many times as
   * the corresponding to-address stream appears in the input.
   */
  lemma {:induction false} AddressStreamsCount(streams: seq<StakeFundingStream>, f: FundingStream)
    ensures multiset(AddressStreams(streams))[f] == multiset(streams)[ToAddress(f.address, f.rateBps)]
  {
    if |streams| > 0 {
      var n := |streams| - 1;
      assert streams == streams[..n] + [streams[n]];
      AddressStreamsCount(streams[..n], f);
    }
  }

  // ---------------------------------------------------------------------
  // The stable sort by descending rate
  // ---------------------------------------------------------------------

  predicate SortedByRateDesc(s: seq<FundingStream>) {
    forall i, j :: 0 <= i < j < |s| ==> s[i].rateBps >= s[j].rateBps
  }

  /** The streams with rate `k`, in order. */
  function WithRate(s: seq<FundingStream>, k: int): seq<FundingStream> {
    if |s| == 0 then []
    else (if s[0].rateBps == k then [s[0]] else []) + WithRate(s[1..], k)
  }

  /** Puts `x` before the first stream whose rate is not higher than its own. */
  function InsertByRate(x: FundingStream, t: seq<FundingStream>): seq<FundingStream> {
    if |t| == 0 || x.rateBps >= t[0].rateBps then [x] + t
    else [t[0]] + InsertByRate(x, t[1..])
  }

  /** `sort_by_key(|x| Reverse(x.rate_bps))`: a stable sort, highest rate first. */
  function SortByRateDesc(s: seq<FundingStream>): seq<FundingStream> {
    if |s| == 0 then [] else InsertByRate(s[0], SortByRateDesc(s[1..]))
  }

  lemma {:induction false} InsertByRateFacts(x: FundingStream, t: seq<FundingStream>)
    ensures multiset(InsertByRate(x, t)) == multiset{x} + multiset(t)
    ensures |InsertByRate(x, t)| == |t| + 1
  {
    if |t| > 0 && x.rateBps < t[0].rateBps {
      InsertByRateFacts(x, t[1..]);
      assert t == [t[0]] + t[1..];
    }
  }

  lemma {:induction false} InsertByRateSorted(x: FundingStream, t: seq<FundingStream>)
    requires SortedByRateDesc(t)
    ensures SortedByRateDesc(InsertByRate(x, t))
  {
    if |t| == 0 || x.rateBps >= t[0].rateBps {
      var u := [x] + t;
      forall i, j | 0 <= i < j < |u|
        ensures u[i].rateBps >= u[j].rateBps
      {
        if i > 0 {
          assert u[i] == t[i - 1] && u[j] == t[j - 1];
        } else {
          assert u[j] == t[j - 1];
        }
      }
    } else {
      var rest := InsertByRate(x, t[1..]);
      InsertByRateSorted(x, t[1..]);
      InsertByRateFacts(x, t[1..]);
      var u := [t[0]] + rest;
      forall j | 0 <= j < |rest|
        ensures rest[j].rateBps <= t[0].rateBps
      {
        assert rest[j] in multiset{x} + multiset(t[1..]);
        if rest[j] != x {
          assert rest[j] in t[1..];
        }
      }
      forall i, j | 0 <= i < j < |u|
        ensures u[i].rateBps >= u[j].rateBps
      {
        assert u[j] == rest[j - 1];
        if i > 0 {
          assert u[i] == rest[i - 1];
        }
      }
    }
  }

  lemma {:induction false} InsertByRateWithRate(x: FundingStream, t: seq<FundingStream>, k: int)
    ensures WithRate(InsertByRate(x, t), k) == (if x.rateBps == k then [x] else []) + WithRate(t, k)
  {
    var own: seq<FundingStream> := if x.rateBps == k then [x] else [];
    if |t| == 0 || x.rateBps >= t[0].rateBps {
      var u := [x] + t;
      assert u[0] == x && u[1..] == t;
      assert WithRate(u, k) == own + WithRate(t, k);
    } else {
      var rest := InsertByRate(x, t[1..]);
      var u := [t[0]] + rest;
      assert u[0] == t[0] && u[1..] == rest;
      var head: seq<FundingStream> := if t[0].rateBps == k then [t[0]] else [];
      assert WithRate(u, k) == head + WithRate(rest, k);
      InsertByRateWithRate(x, t[1..], k);
      assert WithRate(rest, k) == own + WithRate(t[1..], k);
      assert WithRate(t, k) == head + WithRate(t[1..], k);
      // x's rate is below t[0]'s, so at most one of head and own is non-empty
      assert head == [] || own == [];
      assert head + (own + WithRate(t[1..], k)) == own + (head + WithRate(t[1..], k));
    }
  }

  /** The sort yields a non-increasing permutation of its input ... */
  lemma {:induction false} SortByRateDescCorrect(s: seq<FundingStream>)
    ensures SortedByRateDesc(SortByRateDesc(s))
    ensures multiset(SortByRateDesc(s)) == multiset(s)
  {
    if |s| > 0 {
      SortByRateDescCorrect(s[1..]);
      InsertByRateFacts(s[0], SortByRateDesc(s[1..]));
      InsertByRateSorted(s[0], SortByRateDesc(s[1..]));
      assert s == [s[0]] + s[1..];
    }
  }

  /** ... and keeps streams of equal rate in their input order. */
  lemma {:induction false} SortByRateDescStable(s: seq<FundingStream>, k: int)
    ensures WithRate(SortByRateDesc(s), k) == WithRate(s, k)
  {
    if |s| > 0 {
      SortByRateDescStable(s[1..], k);
      InsertByRateWithRate(s[0], SortByRateDesc(s[1..]), k);
    }
  }

  // ---------------------------------------------------------------------
  // Rows to values
  // ---------------------------------------------------------------------

  /**
   * The block of `Validator::from_row` that walks the funding streams:
   * community-pool rates are added up (a u16 sum, so the caller's data must
   * keep it below 2^16), address streams are collected, then sorted.
   */
  method FlattenFundingStreams(streams: seq<StakeFundingStream>) returns (poolRate: U16, fundingStreams: seq<FundingStream>)
    requires PoolRateSum(streams) < U16_LIMIT
    ensures poolRate == PoolRateSum(streams)
    ensures fundingStreams == SortByRateDesc(AddressStreams(streams))
    ensures SortedByRateDesc(fundingStreams)
    ensures multiset(fundingStreams) == multiset(AddressStreams(streams))
    ensures forall k :: WithRate(fundingStreams, k) == WithRate(AddressStreams(streams), k)
  {
    poolRate := 0;
    var pushed: seq<FundingStream> := [];
    for i := 0 to |streams|
      invariant poolRate == PoolRateSum(streams[..i])
      invariant pushed == AddressStreams(streams[..i])
    {
      assert streams[..i + 1][..i] == streams[..i];
      match streams[i]
      case ToAddress(address, rateBps) =>
        pushed := pushed + [FundingStream(address, rateBps)];
      case ToCommunityPool(rateBps) =>
        PoolRateSumPrefix(streams, i + 1);
        poolRate := poolRate + rateBps;
    }
    assert streams[..|streams|] == streams;
    fundingStreams := SortByRateDesc(pushed);
    SortByRateDescCorrect(pushed);
    forall k
      ensures WithRate(fundingStreams, k) == WithRate(pushed, k)
    {
      SortByRateDescStable(pushed, k);
    }
  }

  /** `Validator::from_row`. */
  method FromRow(row: ValidatorRow, parseDefinition: string -> Result<Definition, string>)
    returns (r: Result<Validator, SqlError>)
    requires parseDefinition(row.definition).Ok? ==>
               PoolRateSum(parseDefinition(row.definition).value.fundingStreams) < U16_LIMIT
    ensures r.Ok? <==> parseDefinition(row.definition).Ok?
    ensures parseDefinition(row.definition).Err? ==>
              r == Err(ColumnDecode("3", parseDefinition(row.definition).error))
    ensures r.Ok? ==>
              var d := parseDefinition(row.definition).value;
              && r.value.identity == IdentityKey(row.ik)
              && r.value.name == row.name
              && r.value.votingPower == row.votingPower
              && r.value.description == d.description
              && r.value.website == d.website
              && r.value.enabled == d.enabled
              && r.value.communityPoolRateBps == PoolRateSum(d.fundingStreams)
              && r.value.fundingStreams == SortByRateDesc(AddressStreams(d.fundingStreams))
  {
    var identity := IdentityKey(row.ik);
    var name := row.name;
    var votingPower := row.votingPower;
    var definition: Definition;
    match parseDefinition(row.definition) {
      case Err(e) =>
        return Err(ColumnDecode("3", e));
      case Ok(d) =>
        definition := d;
    }
    var poolRate, fundingStreams := FlattenFundingStreams(definition.fundingStreams);
    r := Ok(Validator(identity, name, votingPower, definition.description, definition.website,
                      definition.enabled, fundingStreams, poolRate));
  }

  /** `ValidatorSummary::from_row`. */
  function SummaryFromRow(row: SummaryRow): (s: ValidatorSummary)
    ensures s.name == row.name && s.identity.bytes == row.ik && s.votingPower == row.votingPower
  {
    ValidatorSummary(row.name, IdentityKey(row.ik), row.votingPower)
  }
}
