/** The root contract's parameter cell: what its layout is in each struct version, and that parsing undoes encoding. */
module RootParams {
  import opened Wrappers
  import opened Bytes
  import opened Cells

  /** An amount or a code that is absent is Go's nil pointer. */
  datatype Snapshot = Snapshot(
    structVersion: byte,
    paramsVersion: uint32,
    uniqueId: uint32,
    isTest: bool,
    pricePerToken: Option<nat>,
    workerFeePerToken: Option<nat>,
    promptMult: uint32,
    cachedMult: uint32,
    completionMult: uint32,
    reasoningMult: uint32,
    proxyDelay: uint32,
    clientDelay: uint32,
    minProxyStake: Option<nat>,
    minClientStake: Option<nat>,
    proxyCode: Option<Cell>,
    workerCode: Option<Cell>,
    clientCode: Option<Cell>)

  const BLANK := Snapshot(0, 0, 0, false, None, None, 0, 0, 0, 0, 0, 0, None, None, None, None, None)

  const MAX_VERSION := 5

  // ---- the layout ------------------------------------------------------------------------------------

  function HeadFields(s: Snapshot): seq<Field> {
    [UInt(s.structVersion, 8), UInt(s.paramsVersion, 32), UInt(s.uniqueId, 32), Flag(s.isTest),
     Coins(s.pricePerToken), Coins(s.workerFeePerToken)]
  }

  /** Multipliers came in versions 2 and 3, interleaved. */
  function MultFields(s: Snapshot): seq<Field> {
    if s.structVersion >= 3 then
      [UInt(s.promptMult, 32), UInt(s.cachedMult, 32), UInt(s.completionMult, 32), UInt(s.reasoningMult, 32)]
    else if s.structVersion == 2 then [UInt(s.cachedMult, 32), UInt(s.reasoningMult, 32)]
    else []
  }

  function DelayFields(s: Snapshot): seq<Field> { [UInt(s.proxyDelay, 32), UInt(s.clientDelay, 32)] }

  /** Stakes came in version 1. */
  function StakeFields(s: Snapshot): seq<Field> {
    if s.structVersion >= 1 then [Coins(s.minProxyStake), Coins(s.minClientStake)] else []
  }

  function CodeFields(s: Snapshot, includeCodes: bool): seq<Field> {
    if includeCodes then [MaybeRef(s.proxyCode), MaybeRef(s.workerCode), MaybeRef(s.clientCode)]
    else [MaybeRef(None), MaybeRef(None), MaybeRef(None)]
  }

  function ParamsFields(s: Snapshot, includeCodes: bool): seq<Field> {
    HeadFields(s) + (MultFields(s) + (DelayFields(s) + (StakeFields(s) + CodeFields(s, includeCodes))))
  }

  predicate AmountFits(amount: Option<nat>) { amount.Some? && CoinsFit(amount.value) }

  /** What the encoder needs: every amount its version writes is there and below 2^120. */
  predicate Encodable(s: Snapshot) {
    && AmountFits(s.pricePerToken) && AmountFits(s.workerFeePerToken)
    && (s.structVersion >= 1 ==> AmountFits(s.minProxyStake) && AmountFits(s.minClientStake))
  }

  // ---- it always fits ----------------------------------------------------------------------------------

  lemma CoinsSize(amount: Option<nat>)
    ensures AmountFits(amount) <==> Storable(Coins(amount))
    ensures AmountFits(amount) ==> |FieldBits(Coins(amount))| <= 124
  {
  }

  ghost predicate Size(fs: seq<Field>, bits: nat, refs: nat, storable: bool) {
    (AllStorable(fs) <==> storable) && (storable ==> |BitsOf(fs)| <= bits) && |RefsOf(fs)| <= refs
  }

  lemma SizeJoin(a: seq<Field>, abits: nat, arefs: nat, aok: bool, b: seq<Field>, bbits: nat, brefs: nat, bok: bool)
    requires Size(a, abits, arefs, aok) && Size(b, bbits, brefs, bok)
    ensures Size(a + b, abits + bbits, arefs + brefs, aok && bok)
  {
    BitsOfConcat(a, b);
    StorableConcat(a, b);
  }

  lemma StorableConcat(a: seq<Field>, b: seq<Field>)
    ensures AllStorable(a + b) <==> AllStorable(a) && AllStorable(b)
  {
    if AllStorable(a + b) {
      forall i | 0 <= i < |a|
        ensures Storable(a[i])
      {
        assert (a + b)[i] == a[i];
      }
      forall i | 0 <= i < |b|
        ensures Storable(b[i])
      {
        assert (a + b)[|a| + i] == b[i];
      }
    }
  }

  lemma Size1(f: Field, bits: nat, refs: nat)
    requires Storable(f) ==> |FieldBits(f)| <= bits
    requires |FieldRefs(f)| <= refs
    ensures Size([f], bits, refs, Storable(f))
  {
    OneField(f);
    assert [f][0] == f;
  }

  lemma Size2(f: Field, g: Field, bits: nat, refs: nat)
    requires Storable(f) ==> |FieldBits(f)| <= bits
    requires Storable(g) ==> |FieldBits(g)| <= bits
    requires |FieldRefs(f)| <= refs && |FieldRefs(g)| <= refs
    ensures Size([f, g], 2 * bits, 2 * refs, Storable(f) && Storable(g))
  {
    hide Size, FieldBits, FieldRefs, Storable;
    Size1(f, bits, refs);
    Size1(g, bits, refs);
    SizeJoin([f], bits, refs, Storable(f), [g], bits, refs, Storable(g));
    assert [f] + [g] == [f, g];
  }

  lemma HeadSize(s: Snapshot)
    ensures Size(HeadFields(s), 321, 0, AmountFits(s.pricePerToken) && AmountFits(s.workerFeePerToken))
  {
    hide Size, UIntBits, CoinsBits, AmountFits;
    var a, b, c, d := UInt(s.structVersion, 8), UInt(s.paramsVersion, 32), UInt(s.uniqueId, 32), Flag(s.isTest);
    var e, f := Coins(s.pricePerToken), Coins(s.workerFeePerToken);
    CoinsSize(s.pricePerToken);
    CoinsSize(s.workerFeePerToken);
    Size1(a, 8, 0);
    Size2(b, c, 32, 0);
    Size1(d, 1, 0);
    Size2(e, f, 124, 0);
    SizeJoin([d], 1, 0, true, [e, f], 248, 0, Storable(e) && Storable(f));
    SizeJoin([b, c], 64, 0, true, [d] + [e, f], 249, 0, Storable(e) && Storable(f));
    SizeJoin([a], 8, 0, true, [b, c] + ([d] + [e, f]), 313, 0, Storable(e) && Storable(f));
    assert HeadFields(s) == [a] + ([b, c] + ([d] + [e, f]));
  }

  lemma NothingStored()
    ensures Size([], 0, 0, true)
  {
  }

  lemma MultSize(s: Snapshot)
    ensures Size(MultFields(s), 128, 0, true)
  {
    hide UIntBits;
    if s.structVersion >= 3 {
      var a, b, c, d := UInt(s.promptMult, 32), UInt(s.cachedMult, 32), UInt(s.completionMult, 32),
          UInt(s.reasoningMult, 32);
      Size2(a, b, 32, 0);
      Size2(c, d, 32, 0);
      SizeJoin([a, b], 64, 0, true, [c, d], 64, 0, true);
      assert [a, b] + [c, d] == MultFields(s);
    } else if s.structVersion == 2 {
      Size2(UInt(s.cachedMult, 32), UInt(s.reasoningMult, 32), 32, 0);
    } else {
      NothingStored();
    }
  }

  lemma StakeSize(s: Snapshot)
    ensures Size(StakeFields(s), 248, 0,
                 s.structVersion >= 1 ==> AmountFits(s.minProxyStake) && AmountFits(s.minClientStake))
  {
    hide Size, CoinsBits, AmountFits;
    if s.structVersion >= 1 {
      CoinsSize(s.minProxyStake);
      CoinsSize(s.minClientStake);
      Size2(Coins(s.minProxyStake), Coins(s.minClientStake), 124, 0);
    } else {
      NothingStored();
      Looser([], 248);
    }
  }

  lemma Looser(fs: seq<Field>, bits: nat)
    requires Size(fs, 0, 0, true)
    ensures Size(fs, bits, 0, true)
  {
  }

  lemma CodeSize(s: Snapshot, includeCodes: bool)
    ensures Size(CodeFields(s, includeCodes), 3, 3, true)
  {
    hide Size;
    var fs := CodeFields(s, includeCodes);
    Size2(fs[0], fs[1], 1, 1);
    Size1(fs[2], 1, 1);
    SizeJoin([fs[0], fs[1]], 2, 2, true, [fs[2]], 1, 1, true);
    assert fs == [fs[0], fs[1]] + [fs[2]];
  }

  /** Whatever the version and the amounts, at most 764 bits and three references: never a cell overflow. */
  lemma ParamsFit(s: Snapshot, includeCodes: bool)
    ensures AllStorable(ParamsFields(s, includeCodes)) <==> Encodable(s)
    ensures Encodable(s) ==> |BitsOf(ParamsFields(s, includeCodes))| <= 764
    ensures |RefsOf(ParamsFields(s, includeCodes))| <= 3
  {
    hide HeadFields, MultFields, StakeFields, CodeFields, UIntBits, AmountFits;
    var stakesOk := s.structVersion >= 1 ==> AmountFits(s.minProxyStake) && AmountFits(s.minClientStake);
    HeadSize(s);
    MultSize(s);
    Size2(UInt(s.proxyDelay, 32), UInt(s.clientDelay, 32), 32, 0);
    StakeSize(s);
    CodeSize(s, includeCodes);
    JoinAll(s, includeCodes, stakesOk);
  }

  lemma JoinAll(s: Snapshot, includeCodes: bool, stakesOk: bool)
    requires Size(HeadFields(s), 321, 0, AmountFits(s.pricePerToken) && AmountFits(s.workerFeePerToken))
    requires Size(MultFields(s), 128, 0, true) && Size(DelayFields(s), 64, 0, true)
    requires Size(StakeFields(s), 248, 0, stakesOk) && Size(CodeFields(s, includeCodes), 3, 3, true)
    ensures Size(ParamsFields(s, includeCodes), 764, 3,
                 AmountFits(s.pricePerToken) && AmountFits(s.workerFeePerToken) && stakesOk)
  {
    hide Size, HeadFields, MultFields, DelayFields, StakeFields, CodeFields, AmountFits;
    var c, st, d, m := CodeFields(s, includeCodes), StakeFields(s), DelayFields(s), MultFields(s);
    SizeJoin(st, 248, 0, stakesOk, c, 3, 3, true);
    SizeJoin(d, 64, 0, true, st + c, 251, 3, stakesOk);
    SizeJoin(m, 128, 0, true, d + (st + c), 315, 3, stakesOk);
    SizeJoin(HeadFields(s), 321, 0, AmountFits(s.pricePerToken) && AmountFits(s.workerFeePerToken),
             m + (d + (st + c)), 443, 3, stakesOk);
  }

  // ---- encoding ----------------------------------------------------------------------------------------

  /** Succeeds exactly if the amounts it writes are there and below 2^120. */
  method EncodeParamsCell(s: Snapshot, includeCodes: bool) returns (cell: Option<Cell>)
    ensures cell == if Encodable(s) then Some(CellOf(ParamsFields(s, includeCodes))) else None
  {
    hide BitsOf, RefsOf, AllStorable, Encodable, HeadFields, MultFields, DelayFields, StakeFields, CodeFields;
    var b := new Builder();
    StoreHead(b, s);
    StoreMults(b, s);
    StoreDelays(b, s);
    StoreStakes(b, s);
    StoreCodes(b, s, includeCodes);
    assert b.stored == ParamsFields(s, includeCodes);
    ParamsFit(s, includeCodes);
    cell := b.EndCell();
  }

  method StoreHead(b: Builder, s: Snapshot)
    requires b.Valid()
    modifies b
    ensures b.Valid() && b.stored == old(b.stored) + HeadFields(s)
  {
    hide BitsOf, RefsOf, AllStorable;
    b.Store(UInt(s.structVersion, 8));
    b.Store(UInt(s.paramsVersion, 32));
    b.Store(UInt(s.uniqueId, 32));
    b.Store(Flag(s.isTest));
    b.Store(Coins(s.pricePerToken));
    b.Store(Coins(s.workerFeePerToken));
  }

  method StoreMults(b: Builder, s: Snapshot)
    requires b.Valid()
    modifies b
    ensures b.Valid() && b.stored == old(b.stored) + MultFields(s)
  {
    hide BitsOf, RefsOf, AllStorable;
    if s.structVersion >= 3 {
      b.Store(UInt(s.promptMult, 32));
    }
    if s.structVersion >= 2 {
      b.Store(UInt(s.cachedMult, 32));
    }
    if s.structVersion >= 3 {
      b.Store(UInt(s.completionMult, 32));
    }
    if s.structVersion >= 2 {
      b.Store(UInt(s.reasoningMult, 32));
    }
  }

  method StoreDelays(b: Builder, s: Snapshot)
    requires b.Valid()
    modifies b
    ensures b.Valid() && b.stored == old(b.stored) + DelayFields(s)
  {
    hide BitsOf, RefsOf, AllStorable;
    b.Store(UInt(s.proxyDelay, 32));
    b.Store(UInt(s.clientDelay, 32));
  }

  method StoreStakes(b: Builder, s: Snapshot)
    requires b.Valid()
    modifies b
    ensures b.Valid() && b.stored == old(b.stored) + StakeFields(s)
  {
    hide BitsOf, RefsOf, AllStorable;
    if s.structVersion >= 1 {
      b.Store(Coins(s.minProxyStake));
      b.Store(Coins(s.minClientStake));
    }
  }

  method StoreCodes(b: Builder, s: Snapshot, includeCodes: bool)
    requires b.Valid()
    modifies b
    ensures b.Valid() && b.stored == old(b.stored) + CodeFields(s, includeCodes)
  {
    hide BitsOf, RefsOf, AllStorable;
    b.Store(MaybeRef(if includeCodes then s.proxyCode else None));
    b.Store(MaybeRef(if includeCodes then s.workerCode else None));
    b.Store(MaybeRef(if includeCodes then s.clientCode else None));
  }

  // ---- parsing -----------------------------------------------------------------------------------------

  function GetU32(s: Rest): (r: Loaded<uint32>)
    ensures r.Got? <==> GetUInt(s, 32).Got?
    ensures r.Got? ==> GetUInt(s, 32) == Got(r.value, r.rest)
  {
    var (v, s) :- GetUInt(s, 32);
    Widths();
    Got(v, s)
  }

  /** Versions above 5 are refused. */
  function GetHead(s: Rest): Loaded<Snapshot> {
    var (version, s) :- GetUInt(s, 8);
    if version > MAX_VERSION then Failed
    else
      var (paramsVersion, s) :- GetU32(s);
      var (uniqueId, s) :- GetU32(s);
      var (isTest, s) :- GetFlag(s);
      var (price, s) :- GetCoins(s);
      var (fee, s) :- GetCoins(s);
      Got(BLANK.(structVersion := version, paramsVersion := paramsVersion, uniqueId := uniqueId, isTest := isTest,
                 pricePerToken := Some(price), workerFeePerToken := Some(fee)), s)
  }

  function GetU32If(present: bool, was: uint32, s: Rest): Loaded<uint32> { if present then GetU32(s) else Got(was, s) }

  function GetMults(snap: Snapshot, s: Rest): Loaded<Snapshot> {
    var (prompt, s) :- GetU32If(snap.structVersion >= 3, snap.promptMult, s);
    var (cached, s) :- GetU32If(snap.structVersion >= 2, snap.cachedMult, s);
    var (completion, s) :- GetU32If(snap.structVersion >= 3, snap.completionMult, s);
    var (reasoning, s) :- GetU32If(snap.structVersion >= 2, snap.reasoningMult, s);
    Got(snap.(promptMult := prompt, cachedMult := cached, completionMult := completion, reasoningMult := reasoning), s)
  }

  function GetDelays(snap: Snapshot, s: Rest): Loaded<Snapshot> {
    var (proxyDelay, s) :- GetU32(s);
    var (clientDelay, s) :- GetU32(s);
    Got(snap.(proxyDelay := proxyDelay, clientDelay := clientDelay), s)
  }

  function GetStakes(snap: Snapshot, s: Rest): Loaded<Snapshot> {
    if snap.structVersion < 1 then Got(snap, s)
    else
      var (minProxy, s) :- GetCoins(s);
      var (minClient, s) :- GetCoins(s);
      Got(snap.(minProxyStake := Some(minProxy), minClientStake := Some(minClient)), s)
  }

  function GetCodes(snap: Snapshot, s: Rest): Loaded<Snapshot> {
    var (proxyCode, s) :- GetMaybeRef(s);
    var (workerCode, s) :- GetMaybeRef(s);
    var (clientCode, s) :- GetMaybeRef(s);
    Got(snap.(proxyCode := proxyCode, workerCode := workerCode, clientCode := clientCode), s)
  }

  function GetParams(s: Rest): Loaded<Snapshot> {
    var (snap, s) :- GetHead(s);
    var (snap, s) :- GetMults(snap, s);
    var (snap, s) :- GetDelays(snap, s);
    var (snap, s) :- GetStakes(snap, s);
    GetCodes(snap, s)
  }

  function ParseParams(cell: Cell): Option<Snapshot> {
    var r := GetParams(Rest(cell.bits, cell.refs));
    if r.Got? then Some(r.value) else None
  }

  /** Refuses a nil cell, a version above 5 and a cell that ends early. */
  method ParseParamsCell(params: Option<Cell>) returns (r: Option<Snapshot>)
    ensures r == if params.Some? then ParseParams(params.value) else None
    ensures params.Some? && |params.value.bits| >= 8 && FromBits(params.value.bits[..8]) > 5 ==> r == None
  {
    if params.None? {
      return None;
    }
    hide GetHead, GetMults, GetDelays, GetStakes, GetCodes;
    var s := new Slice.BeginParse(params.value);
    r := ReadHead(s);
    if r.None? {
      return;
    }
    r := ReadMults(s, r.value);
    if r.None? {
      return;
    }
    r := ReadDelays(s, r.value);
    if r.None? {
      return;
    }
    r := ReadStakes(s, r.value);
    if r.None? {
      return;
    }
    r := ReadCodes(s, r.value);
  }

  method ReadU32(s: Slice) returns (v: Option<uint32>)
    modifies s
    ensures Moved(GetU32(old(s.State())), v, s.State())
  {
    hide GetUInt;
    var n := s.LoadUInt(32);
    if n.None? {
      return None;
    }
    Widths();
    return Some(n.value);
  }

  method ReadHead(s: Slice) returns (r: Option<Snapshot>)
    modifies s
    ensures Moved(GetHead(old(s.State())), r, s.State())
  {
    hide GetUInt, GetU32, GetFlag, GetCoins;
    var version := s.LoadUInt(8);
    if version.None? || version.value > MAX_VERSION {
      return None;
    }
    var snap := BLANK.(structVersion := version.value);
    var paramsVersion := ReadU32(s);
    if paramsVersion.None? {
      return None;
    }
    snap := snap.(paramsVersion := paramsVersion.value);
    var uniqueId := ReadU32(s);
    if uniqueId.None? {
      return None;
    }
    snap := snap.(uniqueId := uniqueId.value);
    var isTest := s.LoadBoolBit();
    if isTest.None? {
      return None;
    }
    snap := snap.(isTest := isTest.value);
    var price := s.LoadBigCoins();
    if price.None? {
      return None;
    }
    var fee := s.LoadBigCoins();
    if fee.None? {
      return None;
    }
    return Some(snap.(pricePerToken := price, workerFeePerToken := fee));
  }

  method ReadMults(s: Slice, blank: Snapshot) returns (r: Option<Snapshot>)
    modifies s
    ensures Moved(GetMults(blank, old(s.State())), r, s.State())
  {
    hide GetU32;
    var snap := blank;
    if snap.structVersion >= 3 {
      var v := ReadU32(s);
      if v.None? {
        return None;
      }
      snap := snap.(promptMult := v.value);
    }
    if snap.structVersion >= 2 {
      var v := ReadU32(s);
      if v.None? {
        return None;
      }
      snap := snap.(cachedMult := v.value);
    }
    if snap.structVersion >= 3 {
      var v := ReadU32(s);
      if v.None? {
        return None;
      }
      snap := snap.(completionMult := v.value);
    }
    if snap.structVersion >= 2 {
      var v := ReadU32(s);
      if v.None? {
        return None;
      }
      snap := snap.(reasoningMult := v.value);
    }
    return Some(snap);
  }

  method ReadDelays(s: Slice, snap: Snapshot) returns (r: Option<Snapshot>)
    modifies s
    ensures Moved(GetDelays(snap, old(s.State())), r, s.State())
  {
    hide GetU32;
    var proxyDelay := ReadU32(s);
    if proxyDelay.None? {
      return None;
    }
    var clientDelay := ReadU32(s);
    if clientDelay.None? {
      return None;
    }
    return Some(snap.(proxyDelay := proxyDelay.value, clientDelay := clientDelay.value));
  }

  method ReadStakes(s: Slice, snap: Snapshot) returns (r: Option<Snapshot>)
    modifies s
    ensures Moved(GetStakes(snap, old(s.State())), r, s.State())
  {
    hide GetCoins;
    if snap.structVersion < 1 {
      return Some(snap);
    }
    var minProxy := s.LoadBigCoins();
    if minProxy.None? {
      return None;
    }
    var minClient := s.LoadBigCoins();
    if minClient.None? {
      return None;
    }
    return Some(snap.(minProxyStake := minProxy, minClientStake := minClient));
  }

  method ReadCodes(s: Slice, snap: Snapshot) returns (r: Option<Snapshot>)
    modifies s
    ensures Moved(GetCodes(snap, old(s.State())), r, s.State())
  {
    hide GetMaybeRef;
    var proxyCode := s.LoadMaybeRef();
    if proxyCode.None? {
      return None;
    }
    var workerCode := s.LoadMaybeRef();
    if workerCode.None? {
      return None;
    }
    var clientCode := s.LoadMaybeRef();
    if clientCode.None? {
      return None;
    }
    return Some(snap.(proxyCode := proxyCode.value, workerCode := workerCode.value, clientCode := clientCode.value));
  }

  // ---- the round trip ------------------------------------------------------------------------------------

  lemma U32Loads(v: uint32, more: seq<Field>)
    ensures GetU32(RestOf([UInt(v, 32)] + more)) == Got(v, RestOf(more))
  {
    hide GetUInt, RestOf;
    LoadUInt(v, 32, more);
    Widths();
    SmallMod(v, 32);
  }

  lemma HeadRoundTrip(s: Snapshot, more: seq<Field>)
    requires AmountFits(s.pricePerToken) && AmountFits(s.workerFeePerToken)
    ensures GetHead(RestOf(HeadFields(s) + more))
         == if s.structVersion > 5 then Failed
            else Got(BLANK.(structVersion := s.structVersion, paramsVersion := s.paramsVersion,
                            uniqueId := s.uniqueId, isTest := s.isTest,
                            pricePerToken := s.pricePerToken, workerFeePerToken := s.workerFeePerToken), RestOf(more))
  {
    hide GetUInt, GetU32, GetFlag, GetCoins, RestOf, CoinsFit;
    var t5 := [Coins(s.workerFeePerToken)] + more;
    var t4 := [Coins(s.pricePerToken)] + t5;
    var t3 := [Flag(s.isTest)] + t4;
    var t2 := [UInt(s.uniqueId, 32)] + t3;
    var t1 := [UInt(s.paramsVersion, 32)] + t2;
    assert HeadFields(s) + more == [UInt(s.structVersion, 8)] + t1;
    LoadUInt(s.structVersion, 8, t1);
    Widths();
    SmallMod(s.structVersion, 8);
    U32Loads(s.paramsVersion, t2);
    U32Loads(s.uniqueId, t3);
    LoadFlag(s.isTest, t4);
    LoadCoins(s.pricePerToken.value, t5);
    LoadCoins(s.workerFeePerToken.value, more);
  }

  lemma MultsRoundTrip(snap: Snapshot, s: Snapshot, more: seq<Field>)
    requires snap.structVersion == s.structVersion
    requires snap.promptMult == snap.cachedMult == snap.completionMult == snap.reasoningMult == 0
    ensures GetMults(snap, RestOf(MultFields(s) + more))
         == Got(snap.(promptMult := if s.structVersion >= 3 then s.promptMult else 0,
                      cachedMult := if s.structVersion >= 2 then s.cachedMult else 0,
                      completionMult := if s.structVersion >= 3 then s.completionMult else 0,
                      reasoningMult := if s.structVersion >= 2 then s.reasoningMult else 0), RestOf(more))
  {
    hide GetU32, RestOf;
    var t3 := [UInt(s.reasoningMult, 32)] + more;
    U32Loads(s.reasoningMult, more);
    if s.structVersion >= 3 {
      var t2 := [UInt(s.completionMult, 32)] + t3;
      var t1 := [UInt(s.cachedMult, 32)] + t2;
      assert MultFields(s) + more == [UInt(s.promptMult, 32)] + t1;
      U32Loads(s.promptMult, t1);
      U32Loads(s.cachedMult, t2);
      U32Loads(s.completionMult, t3);
    } else if s.structVersion == 2 {
      assert MultFields(s) + more == [UInt(s.cachedMult, 32)] + t3;
      U32Loads(s.cachedMult, t3);
    } else {
      assert MultFields(s) + more == more;
    }
  }

  lemma DelaysRoundTrip(snap: Snapshot, s: Snapshot, more: seq<Field>)
    ensures GetDelays(snap, RestOf(DelayFields(s) + more))
         == Got(snap.(proxyDelay := s.proxyDelay, clientDelay := s.clientDelay), RestOf(more))
  {
    hide GetU32, RestOf;
    var t := [UInt(s.clientDelay, 32)] + more;
    assert DelayFields(s) + more == [UInt(s.proxyDelay, 32)] + t;
    U32Loads(s.proxyDelay, t);
    U32Loads(s.clientDelay, more);
  }

  lemma StakesRoundTrip(snap: Snapshot, s: Snapshot, more: seq<Field>)
    requires snap.structVersion == s.structVersion && snap.minProxyStake == snap.minClientStake == None
    requires s.structVersion >= 1 ==> AmountFits(s.minProxyStake) && AmountFits(s.minClientStake)
    ensures GetStakes(snap, RestOf(StakeFields(s) + more))
         == Got(snap.(minProxyStake := if s.structVersion >= 1 then s.minProxyStake else None,
                      minClientStake := if s.structVersion >= 1 then s.minClientStake else None), RestOf(more))
  {
    hide GetCoins, RestOf, CoinsFit;
    if s.structVersion >= 1 {
      var t := [Coins(s.minClientStake)] + more;
      assert StakeFields(s) + more == [Coins(s.minProxyStake)] + t;
      LoadCoins(s.minProxyStake.value, t);
      LoadCoins(s.minClientStake.value, more);
    } else {
      assert StakeFields(s) + more == more;
    }
  }

  lemma CodesRoundTrip(snap: Snapshot, s: Snapshot, includeCodes: bool)
    ensures GetCodes(snap, RestOf(CodeFields(s, includeCodes)))
         == Got(snap.(proxyCode := if includeCodes then s.proxyCode else None,
                      workerCode := if includeCodes then s.workerCode else None,
                      clientCode := if includeCodes then s.clientCode else None), RestOf([]))
  {
    hide GetMaybeRef, RestOf;
    var fs := CodeFields(s, includeCodes);
    assert fs == [fs[0]] + ([fs[1]] + ([fs[2]] + []));
    LoadMaybeRef(fs[0].maybe, [fs[1]] + ([fs[2]] + []));
    LoadMaybeRef(fs[1].maybe, [fs[2]] + []);
    LoadMaybeRef(fs[2].maybe, []);
  }

  /** What a reader can see of a snapshot: fields its version does not carry are blank, codes may be left out. */
  function Seen(s: Snapshot, includeCodes: bool): Snapshot {
    s.(promptMult := if s.structVersion >= 3 then s.promptMult else 0,
       cachedMult := if s.structVersion >= 2 then s.cachedMult else 0,
       completionMult := if s.structVersion >= 3 then s.completionMult else 0,
       reasoningMult := if s.structVersion >= 2 then s.reasoningMult else 0,
       minProxyStake := if s.structVersion >= 1 then s.minProxyStake else None,
       minClientStake := if s.structVersion >= 1 then s.minClientStake else None,
       proxyCode := if includeCodes then s.proxyCode else None,
       workerCode := if includeCodes then s.workerCode else None,
       clientCode := if includeCodes then s.clientCode else None)
  }

  /** For every version and all amounts: the encoded cell parses to what the version carries, or is refused above 5. */
  lemma ParamsRoundTrip(s: Snapshot, includeCodes: bool)
    requires Encodable(s)
    ensures ParseParams(CellOf(ParamsFields(s, includeCodes)))
         == if s.structVersion <= 5 then Some(Seen(s, includeCodes)) else None
  {
    hide GetHead, GetMults, GetDelays, GetStakes, GetCodes, BitsOf, RefsOf;
    hide HeadFields, MultFields, DelayFields, StakeFields, CodeFields, AmountFits;
    var c := CodeFields(s, includeCodes);
    var st := StakeFields(s) + c;
    var d := DelayFields(s) + st;
    var m := MultFields(s) + d;
    HeadRoundTrip(s, m);
    if s.structVersion <= 5 {
      var snap := GetHead(RestOf(HeadFields(s) + m)).value;
      MultsRoundTrip(snap, s, d);
      snap := GetMults(snap, RestOf(m)).value;
      DelaysRoundTrip(snap, s, st);
      snap := GetDelays(snap, RestOf(d)).value;
      StakesRoundTrip(snap, s, c);
      snap := GetStakes(snap, RestOf(st)).value;
      CodesRoundTrip(snap, s, includeCodes);
    }
  }

  /** A snapshot that carries nothing its version lacks. */
  predicate Carried(s: Snapshot) {
    && (s.structVersion < 3 ==> s.promptMult == s.completionMult == 0)
    && (s.structVersion < 2 ==> s.cachedMult == s.reasoningMult == 0)
    && (s.structVersion < 1 ==> s.minProxyStake == s.minClientStake == None)
  }

  /** Exactly such snapshots of versions up to 5 survive with their codes; without codes only the codes are lost. */
  lemma SnapshotSurvives(s: Snapshot)
    requires Encodable(s)
    ensures ParseParams(CellOf(ParamsFields(s, true))) == Some(s) <==> Carried(s) && s.structVersion <= 5
    ensures Carried(s) && s.structVersion <= 5
            ==> ParseParams(CellOf(ParamsFields(s, false)))
                == Some(s.(proxyCode := None, workerCode := None, clientCode := None))
  {
    hide ParseParams, ParamsFields, Encodable;
    ParamsRoundTrip(s, true);
    ParamsRoundTrip(s, false);
  }

  /** Whatever parses can be encoded again, and parses to the same snapshot. */
  lemma ParsedSurvives(cell: Cell)
    requires ParseParams(cell).Some?
    ensures var s := ParseParams(cell).value;
            Encodable(s) && ParseParams(CellOf(ParamsFields(s, true))) == Some(s)
  {
    hide ParseParams, ParamsFields, Encodable, Carried;
    ParsedIsEncodable(cell);
    SnapshotSurvives(ParseParams(cell).value);
  }

  lemma ParsedIsEncodable(cell: Cell)
    requires ParseParams(cell).Some?
    ensures Encodable(ParseParams(cell).value) && Carried(ParseParams(cell).value)
            && ParseParams(cell).value.structVersion <= 5
  {
    hide GetUInt, GetU32, GetFlag, GetMaybeRef, GetCoins;
    var s0 := Rest(cell.bits, cell.refs);
    var h := GetHead(s0);
    HeadIsEncodable(s0);
    var st := GetDelays(GetMults(h.value, h.rest).value, GetMults(h.value, h.rest).rest);
    if st.value.structVersion >= 1 {
      StakesAreEncodable(st.value, st.rest);
    }
  }

  lemma CoinsAreSmall(s: Rest)
    requires GetCoins(s).Got?
    ensures CoinsFit(GetCoins(s).value)
  {
    hide FromBits;
    Widths();
    var n := GetUInt(s, 4);
    assert n.Got? && n.value < 16;
    ByteLengthFits(GetCoins(s).value, n.value);
  }

  lemma HeadIsEncodable(s: Rest)
    requires GetHead(s).Got?
    ensures var h := GetHead(s).value;
            && AmountFits(h.pricePerToken) && AmountFits(h.workerFeePerToken) && h.structVersion <= 5
            && h == BLANK.(structVersion := h.structVersion, paramsVersion := h.paramsVersion, uniqueId := h.uniqueId,
                isTest := h.isTest,
                           pricePerToken := h.pricePerToken, workerFeePerToken := h.workerFeePerToken)
  {
    hide GetUInt, GetU32, GetFlag, GetCoins, CoinsFit;
    var s1 := GetUInt(s, 8).rest;
    var s2 := GetU32(s1).rest;
    var s3 := GetU32(s2).rest;
    var s4 := GetFlag(s3).rest;
    CoinsAreSmall(s4);
    CoinsAreSmall(GetCoins(s4).rest);
  }

  lemma StakesAreEncodable(snap: Snapshot, s: Rest)
    requires GetStakes(snap, s).Got? && snap.structVersion >= 1
    ensures AmountFits(GetStakes(snap, s).value.minProxyStake) && AmountFits(GetStakes(snap, s).value.minClientStake)
  {
    hide GetCoins, CoinsFit;
    CoinsAreSmall(s);
    CoinsAreSmall(GetCoins(s).rest);
  }
}
