/** The client contract's storage: two encoders that must build the same cell, and the reader of its data. */
module ClientStorage {
  import opened Wrappers
  import opened Bytes
  import opened Cells
  import opened RootParams

  type Key32 = s: seq<byte> | |s| == 32 witness seq(32, _ => 0)
  type uint256 = n: nat | n < Pow2(256)
  type int8 = n: int | -128 <= n < 128

  /** A standard address; it is stored as TL-B's addr_std without anycast. */
  datatype Address = Address(workchain: int8, hash: Key32)

  const STD_TAG := [true, false, false]

  function AddrBits(a: Address): (b: seq<bool>)
    ensures |b| == 267 && b[..3] == [true, false, false]
  {
    STD_TAG + (UIntBits(if a.workchain < 0 then a.workchain + 256 else a.workchain, 8) + BytesBits(a.hash))
  }

  /** Absent fields are Go's nil pointers. */
  datatype Storage = Storage(
    state: byte,
    balance: Option<nat>,
    stake: Option<nat>,
    tokensUsed: uint64,
    unlockTs: uint32,
    secretHash: Option<uint256>,
    owner: Option<Address>,
    proxy: Option<Address>,
    proxyPubKey: Option<uint256>,
    params: Option<Cell>)

  datatype Built = Built(cell: Cell) | MissingAddresses | MissingStake | MissingKey | MissingCode | Panicked

  const EMPTY := Cell([], [])

  function Build(fs: seq<Field>): Built {
    if AllStorable(fs) && Fits(fs) then Built(CellOf(fs)) else Panicked
  }

  function Or0(amount: Option<nat>): nat { if amount.Some? then amount.value else 0 }

  // ---- the encoders ------------------------------------------------------------------------------------

  /** The fields before the references. */
  function DataFields(state: byte, balance: nat, stake: nat, tokensUsed: uint64, unlockTs: uint32,
      secretHash: nat): seq<Field>
  {
    [UInt(state, 2), Coins(Some(balance)), Coins(Some(stake)),
     UInt(tokensUsed, 64), UInt(unlockTs, 32), UInt(secretHash, 256)]
  }

  function EncodeStorage(s: Storage): Built {
    if s.owner.None? || s.proxy.None? then MissingAddresses
    else if s.proxyPubKey.None? then MissingKey
    else
      var params := if s.params.Some? then s.params.value else EMPTY;
      var constData := Build([Raw(AddrBits(s.owner.value)), Raw(AddrBits(s.proxy.value)),
          UInt(s.proxyPubKey.value, 256)]);
      if !constData.Built? then Panicked
      else Build(DataFields(s.state, Or0(s.balance), Or0(s.stake), s.tokensUsed, s.unlockTs, Or0(s.secretHash))
                 + [Ref(constData.cell), Ref(params)])
  }

  /** The other encoder, for a fresh deployment; a parameter cell that cannot be built is a panic. */
  function ClientInitData(owner: Option<Address>, proxy: Option<Address>, key: Key32, minClientStake: Option<nat>,
      params: Option<Cell>): Built
  {
    if owner.None? || proxy.None? then MissingAddresses
    else if minClientStake.None? then MissingStake
    else if params.None? then Panicked
    else
      var constData := Build([Raw(AddrBits(owner.value)), Raw(AddrBits(proxy.value)), Raw(BytesBits(key))]);
      if !constData.Built? then Panicked
      else Build(DataFields(0, 0, minClientStake.value, 0, 0, 0) + [Ref(constData.cell), Ref(params.value)])
  }

  /** The storage the session code describes for the same deployment. */
  function InitialStorage(owner: Option<Address>, proxy: Option<Address>, key: Key32, stake: Option<nat>,
      params: Cell): Storage
  {
    KeyBound(key);
    Storage(0, Some(0), stake, 0, 0, Some(0), owner, proxy, Some(FromBE(key)), Some(params))
  }

  lemma {:induction false} KeyBound(bs: seq<byte>)
    ensures FromBE(bs) < Pow2(8 * |bs|)
    decreases |bs|
  {
    if bs == [] {
      assert Pow2(0) == 1;
    } else {
      hide Pow2;
      KeyBound(bs[..|bs| - 1]);
      Widths();
      Pow2Adds(8 * (|bs| - 1), 8);
      assert 8 * (|bs| - 1) + 8 == 8 * |bs|;
    }
  }

  lemma SameConstData(owner: Address, proxy: Address, key: Key32)
    ensures Build([Raw(AddrBits(owner)), Raw(AddrBits(proxy)), UInt(FromBE(key), 256)])
         == Build([Raw(AddrBits(owner)), Raw(AddrBits(proxy)), Raw(BytesBits(key))])
  {
    hide AddrBits, UIntBits;
    BytesAsNumber(key);
    var a, b, c, d := Raw(AddrBits(owner)), Raw(AddrBits(proxy)), UInt(FromBE(key), 256), Raw(BytesBits(key));
    assert FieldBits(c) == FieldBits(d);
    SameBits([a, b], c, d);
    assert [a, b] + [c] == [a, b, c] && [a, b] + [d] == [a, b, d];
  }

  lemma SameBits(fs: seq<Field>, c: Field, d: Field)
    requires FieldBits(c) == FieldBits(d) && FieldRefs(c) == FieldRefs(d) && Storable(c) == Storable(d)
    ensures Build(fs + [c]) == Build(fs + [d])
  {
    hide FieldBits, FieldRefs, Storable;
    BitsOfConcat(fs, [c]);
    BitsOfConcat(fs, [d]);
    OneField(c);
    OneField(d);
    StorableStep(fs, c);
    StorableStep(fs, d);
  }

  /**
   The two encoders build the same cell or fail alike, for every owner, proxy, key, parameter cell
   and stake; only a missing stake, which one defaults and the other refuses, tells them apart.
   */
  lemma EncodersAgree(owner: Option<Address>, proxy: Option<Address>, key: Key32, stake: Option<nat>, params: Cell)
    ensures ClientInitData(owner, proxy, key, stake, Some(params))
            == EncodeStorage(InitialStorage(owner, proxy, key, stake, params))
            <==> stake.Some? || owner.None? || proxy.None?
    ensures EncodeStorage(InitialStorage(owner, proxy, key, None, params))
            == EncodeStorage(InitialStorage(owner, proxy, key, Some(0), params))
  {
    hide Build, AddrBits, UIntBits, BytesBits, FromBE;
    if owner.Some? && proxy.Some? {
      SameConstData(owner.value, proxy.value, key);
      BuildNeverMissesStake();
    }
  }

  lemma BuildNeverMissesStake()
    ensures forall fs :: Build(fs) != MissingStake
  {
  }

  // ---- when encoding succeeds ----------------------------------------------------------------------------

  /** Everything required is present and both amounts are below 2^120. */
  predicate Complete(s: Storage) {
    s.owner.Some? && s.proxy.Some? && s.proxyPubKey.Some? && CoinsFit(Or0(s.balance)) && CoinsFit(Or0(s.stake))
  }

  function ConstFields(s: Storage): seq<Field>
    requires s.owner.Some? && s.proxy.Some? && s.proxyPubKey.Some?
  {
    [Raw(AddrBits(s.owner.value)), Raw(AddrBits(s.proxy.value)), UInt(s.proxyPubKey.value, 256)]
  }

  function StorageFields(s: Storage): seq<Field>
    requires s.owner.Some? && s.proxy.Some? && s.proxyPubKey.Some?
  {
    DataFields(s.state, Or0(s.balance), Or0(s.stake), s.tokensUsed, s.unlockTs, Or0(s.secretHash))
    + [Ref(CellOf(ConstFields(s))), Ref(if s.params.Some? then s.params.value else EMPTY)]
  }

  lemma ConstSize(s: Storage)
    requires s.owner.Some? && s.proxy.Some? && s.proxyPubKey.Some?
    ensures Build(ConstFields(s)) == Built(CellOf(ConstFields(s)))
  {
    hide Size, AddrBits, UIntBits, BitsOf, RefsOf, AllStorable;
    var a, b, c := Raw(AddrBits(s.owner.value)), Raw(AddrBits(s.proxy.value)), UInt(s.proxyPubKey.value, 256);
    Size2(a, b, 267, 0);
    Size1(c, 256, 0);
    SizeJoin([a, b], 534, 0, true, [c], 256, 0, true);
    assert [a, b] + [c] == ConstFields(s);
    SizeMeans(ConstFields(s), 790, 0, true);
  }

  lemma SizeMeans(fs: seq<Field>, bits: nat, refs: nat, storable: bool)
    requires Size(fs, bits, refs, storable) && bits <= MAX_BITS && refs <= MAX_REFS
    ensures Build(fs) == if storable then Built(CellOf(fs)) else Panicked
  {
  }

  lemma DataSize(state: byte, balance: nat, stake: nat, tokensUsed: uint64, unlockTs: uint32, secretHash: nat)
    ensures Size(DataFields(state, balance, stake, tokensUsed, unlockTs, secretHash), 602, 0,
                 CoinsFit(balance) && CoinsFit(stake))
  {
    hide Size, UIntBits, CoinsBits, CoinsFit;
    var a, b, c := UInt(state, 2), Coins(Some(balance)), Coins(Some(stake));
    var d, e, f := UInt(tokensUsed, 64), UInt(unlockTs, 32), UInt(secretHash, 256);
    CoinsSize(Some(balance));
    CoinsSize(Some(stake));
    Size1(a, 2, 0);
    Size2(b, c, 124, 0);
    Size1(d, 64, 0);
    Size1(e, 32, 0);
    Size1(f, 256, 0);
    var ok := CoinsFit(balance) && CoinsFit(stake);
    SizeJoin([a], 2, 0, true, [b, c], 248, 0, ok);
    SizeJoin([d], 64, 0, true, [e], 32, 0, true);
    SizeJoin([d] + [e], 96, 0, true, [f], 256, 0, true);
    SizeJoin([a] + [b, c], 250, 0, ok, [d] + [e] + [f], 352, 0, true);
    assert [a] + [b, c] + ([d] + [e] + [f]) == DataFields(state, balance, stake, tokensUsed, unlockTs, secretHash);
  }

  lemma StorageSize(s: Storage)
    requires s.owner.Some? && s.proxy.Some? && s.proxyPubKey.Some?
    ensures Build(StorageFields(s))
         == if CoinsFit(Or0(s.balance)) && CoinsFit(Or0(s.stake)) then Built(CellOf(StorageFields(s))) else Panicked
  {
    hide Size, Build, ConstFields, DataFields, CellOf, CoinsFit;
    var ok := CoinsFit(Or0(s.balance)) && CoinsFit(Or0(s.stake));
    var data := DataFields(s.state, Or0(s.balance), Or0(s.stake), s.tokensUsed, s.unlockTs, Or0(s.secretHash));
    DataSize(s.state, Or0(s.balance), Or0(s.stake), s.tokensUsed, s.unlockTs, Or0(s.secretHash));
    var x, y := Ref(CellOf(ConstFields(s))), Ref(if s.params.Some? then s.params.value else EMPTY);
    Size2(x, y, 0, 1);
    SizeJoin(data, 602, 0, ok, [x, y], 0, 2, true);
    SizeMeans(data + [x, y], 602, 2, ok);
  }

  /** A cell is built exactly if its amounts can be stored and it holds at most 1023 bits and four references. */
  lemma BuildLimit(fs: seq<Field>)
    ensures Build(fs).Built? <==> AllStorable(fs) && |BitsOf(fs)| <= 1023 && |RefsOf(fs)| <= 4
  {
  }

  /** Encoding succeeds exactly on complete storages; the cell never overflows. */
  lemma EncodesIfComplete(s: Storage)
    ensures EncodeStorage(s).Built? <==> Complete(s)
    ensures Complete(s) ==> EncodeStorage(s) == Built(CellOf(StorageFields(s)))
  {
    hide Build, AddrBits, UIntBits, DataFields, CellOf, CoinsFit;
    if s.owner.Some? && s.proxy.Some? && s.proxyPubKey.Some? {
      ConstSize(s);
      StorageSize(s);
    }
  }

  // ---- reading it back -------------------------------------------------------------------------------------

  datatype ClientData = ClientData(state: byte, balance: nat, stake: nat, tokensUsed: uint64, unlockTs: uint32)

  function GetClientData(s: Rest): Loaded<ClientData> {
    var (state, s) :- GetUInt(s, 2);
    var (balance, s) :- GetCoins(s);
    var (stake, s) :- GetCoins(s);
    var (tokensUsed, s) :- GetUInt(s, 64);
    var (unlockTs, s) :- GetU32(s);
    Widths();
    Got(ClientData(state, balance, stake, tokensUsed, unlockTs), s)
  }

  /** The reader of the status command. */
  method ParseClientSCData(cell: Cell) returns (r: Option<ClientData>)
    ensures var g := GetClientData(Rest(cell.bits, cell.refs)); r == if g.Got? then Some(g.value) else None
  {
    hide GetUInt, GetCoins, GetU32;
    Widths();
    var s := new Slice.BeginParse(cell);
    var state := s.LoadUInt(2);
    if state.None? {
      return None;
    }
    var balance := s.LoadBigCoins();
    if balance.None? {
      return None;
    }
    var stake := s.LoadBigCoins();
    if stake.None? {
      return None;
    }
    var tokensUsed := s.LoadUInt(64);
    if tokensUsed.None? {
      return None;
    }
    var unlockTs := ReadU32(s);
    if unlockTs.None? {
      return None;
    }
    return Some(ClientData(state.value, balance.value, stake.value, tokensUsed.value, unlockTs.value));
  }

  lemma DataReadsBack(state: byte, balance: nat, stake: nat, tokensUsed: uint64, unlockTs: uint32, secretHash: nat,
      more: seq<Field>)
    requires CoinsFit(balance) && CoinsFit(stake)
    ensures GetClientData(RestOf(DataFields(state, balance, stake, tokensUsed, unlockTs, secretHash) + more))
         == Got(ClientData(state % 4, balance, stake, tokensUsed, unlockTs), RestOf([UInt(secretHash, 256)] + more))
  {
    hide GetUInt, GetCoins, GetU32, RestOf, CoinsFit;
    var t5 := [UInt(secretHash, 256)] + more;
    var t4 := [UInt(unlockTs, 32)] + t5;
    var t3 := [UInt(tokensUsed, 64)] + t4;
    var t2 := [Coins(Some(stake))] + t3;
    var t1 := [Coins(Some(balance))] + t2;
    assert DataFields(state, balance, stake, tokensUsed, unlockTs, secretHash) + more == [UInt(state, 2)] + t1;
    Widths();
    LoadUInt(state, 2, t1);
    LoadCoins(balance, t2);
    LoadCoins(stake, t3);
    LoadUInt(tokensUsed, 64, t4);
    SmallMod(tokensUsed, 64);
    U32Loads(unlockTs, t5);
  }

  /** Every encoded storage reads back; of the state only the low two bits are kept. */
  lemma StorageReadsBack(s: Storage)
    requires Complete(s)
    ensures EncodeStorage(s).Built?
    ensures var g := GetClientData(Rest(EncodeStorage(s).cell.bits, EncodeStorage(s).cell.refs));
            && g.Got?
            && g.value == ClientData(s.state % 4, Or0(s.balance), Or0(s.stake), s.tokensUsed, s.unlockTs)
            && (g.value.state == s.state <==> s.state < 4)
  {
    hide EncodeStorage, BitsOf, RefsOf, CoinsFit, DataFields, GetClientData;
    EncodesIfComplete(s);
    var refs := [Ref(CellOf(ConstFields(s))), Ref(if s.params.Some? then s.params.value else EMPTY)];
    DataReadsBack(s.state, Or0(s.balance), Or0(s.stake), s.tokensUsed, s.unlockTs, Or0(s.secretHash), refs);
  }

  // ---- the deployed contract is determined by its storage ------------------------------------------------------

  /** The state-init cell, whose hash is the contract's address. */
  function BuildStateInit(s: Storage, code: Option<Cell>): Built {
    if code.None? then MissingCode
    else
      var data := EncodeStorage(s);
      if !data.Built? then data
      else Build([UInt(0, 2), UInt(3, 2), Ref(code.value), Ref(data.cell), UInt(0, 1)])
  }

  lemma StateInitFields(code: Cell, data: Cell)
    ensures Build([UInt(0, 2), UInt(3, 2), Ref(code), Ref(data), UInt(0, 1)]).Built?
    ensures RefsOf([UInt(0, 2), UInt(3, 2), Ref(code), Ref(data), UInt(0, 1)]) == [code, data]
  {
    hide UIntBits, BitsOf, RefsOf, Size;
    var a, b, c, d, e := UInt(0, 2), UInt(3, 2), Ref(code), Ref(data), UInt(0, 1);
    Size2(a, b, 2, 0);
    Size2(c, d, 0, 1);
    Size1(e, 1, 0);
    SizeJoin([a, b], 4, 0, true, [c, d], 0, 2, true);
    SizeJoin([a, b] + [c, d], 4, 2, true, [e], 1, 0, true);
    assert [a, b] + [c, d] + [e] == [a, b, c, d, e];
    SizeMeans([a, b, c, d, e], 5, 2, true);
    TwoFields(a, b);
    TwoFields(c, d);
    OneField(e);
    BitsOfConcat([a, b], [c, d]);
    BitsOfConcat([a, b] + [c, d], [e]);
  }

  lemma StateInitParts(s: Storage, code: Cell)
    requires Complete(s)
    ensures EncodeStorage(s).Built?
    ensures BuildStateInit(s, Some(code)).Built?
            && BuildStateInit(s, Some(code)).cell.refs == [code, EncodeStorage(s).cell]
  {
    hide EncodeStorage, UIntBits, BitsOf, RefsOf;
    EncodesIfComplete(s);
    StateInitFields(code, EncodeStorage(s).cell);
  }

  lemma TwoFields(f: Field, g: Field)
    ensures BitsOf([f, g]) == FieldBits(f) + FieldBits(g) && RefsOf([f, g]) == FieldRefs(f) + FieldRefs(g)
  {
    hide FieldBits, FieldRefs;
    assert [f, g] == [f] + [g];
    BitsOfConcat([f], [g]);
    OneField(f);
    OneField(g);
  }

  lemma {:induction false} BytesBitsInjective(a: seq<byte>, b: seq<byte>)
    requires |a| == |b| && BytesBits(a) == BytesBits(b)
    ensures a == b
    decreases |a|
  {
    if a != [] {
      hide UIntBits, Pow2;
      var m := |a| - 1;
      TakeDrop(BytesBits(a[..m]), UIntBits(a[m], 8));
      TakeDrop(BytesBits(b[..m]), UIntBits(b[m], 8));
      BytesBitsInjective(a[..m], b[..m]);
      Widths();
      UIntBitsInjective(a[m], b[m], 8);
      assert a == a[..m] + [a[m]] && b == b[..m] + [b[m]];
    }
  }

  lemma UIntBitsInjective(v: nat, w: nat, n: nat)
    requires v < Pow2(n) && w < Pow2(n)
    requires UIntBits(v, n) == UIntBits(w, n)
    ensures v == w
  {
    hide Pow2, UIntBits;
    FromUIntBits(v, n);
    FromUIntBits(w, n);
    SmallMod(v, n);
    SmallMod(w, n);
  }

  lemma AddrBitsInjective(a: Address, b: Address)
    requires AddrBits(a) == AddrBits(b)
    ensures a == b
  {
    hide UIntBits, BytesBits;
    var wa: nat := if a.workchain < 0 then a.workchain + 256 else a.workchain;
    var wb: nat := if b.workchain < 0 then b.workchain + 256 else b.workchain;
    assert AddrBits(a)[3..11] == UIntBits(wa, 8) && AddrBits(b)[3..11] == UIntBits(wb, 8);
    Widths();
    UIntBitsInjective(wa, wb, 8);
    assert AddrBits(a)[11..] == BytesBits(a.hash) && AddrBits(b)[11..] == BytesBits(b.hash);
    BytesBitsInjective(a.hash, b.hash);
  }

  lemma ConstBits(s: Storage)
    requires s.owner.Some? && s.proxy.Some? && s.proxyPubKey.Some?
    ensures BitsOf(ConstFields(s)) == AddrBits(s.owner.value) + AddrBits(s.proxy.value)
            + UIntBits(s.proxyPubKey.value, 256)
  {
    hide AddrBits, UIntBits;
    var a, b, c := Raw(AddrBits(s.owner.value)), Raw(AddrBits(s.proxy.value)), UInt(s.proxyPubKey.value, 256);
    TwoFields(a, b);
    OneField(c);
    BitsOfConcat([a, b], [c]);
    assert [a, b] + [c] == ConstFields(s);
  }

  lemma ConstDataDetermines(s: Storage, t: Storage)
    requires Complete(s) && Complete(t) && CellOf(ConstFields(s)) == CellOf(ConstFields(t))
    ensures s.owner == t.owner && s.proxy == t.proxy && s.proxyPubKey == t.proxyPubKey
  {
    hide AddrBits, UIntBits, BitsOf, RefsOf, CoinsFit, Pow2;
    ConstBits(s);
    ConstBits(t);
    var b := BitsOf(ConstFields(s));
    assert b[..267] == AddrBits(s.owner.value) == AddrBits(t.owner.value);
    assert b[267..534] == AddrBits(s.proxy.value) == AddrBits(t.proxy.value);
    assert b[534..] == UIntBits(s.proxyPubKey.value, 256) == UIntBits(t.proxyPubKey.value, 256);
    AddrBitsInjective(s.owner.value, t.owner.value);
    AddrBitsInjective(s.proxy.value, t.proxy.value);
    UIntBitsInjective(s.proxyPubKey.value, t.proxyPubKey.value, 256);
  }

  function Effective(s: Storage): Storage {
    s.(state := s.state % 4, balance := Some(Or0(s.balance)), stake := Some(Or0(s.stake)),
       secretHash := Some(if s.secretHash.Some? then s.secretHash.value else 0),
       params := Some(if s.params.Some? then s.params.value else EMPTY))
  }

  lemma StorageRefs(s: Storage)
    requires Complete(s)
    ensures RefsOf(StorageFields(s)) == [CellOf(ConstFields(s)), Effective(s).params.value]
  {
    hide CellOf, ConstFields, UIntBits, CoinsBits, CoinsFit;
    var x, y := Ref(CellOf(ConstFields(s))), Ref(Effective(s).params.value);
    var data := DataFields(s.state, Or0(s.balance), Or0(s.stake), s.tokensUsed, s.unlockTs, Or0(s.secretHash));
    DataRefs(data);
    BitsOfConcat(data, [x, y]);
    TwoFields(x, y);
  }

  lemma {:induction false} DataRefs(fs: seq<Field>)
    requires forall i :: 0 <= i < |fs| ==> fs[i].UInt? || fs[i].Coins?
    ensures RefsOf(fs) == []
    decreases |fs|
  {
    if fs != [] {
      DataRefs(fs[1..]);
    }
  }

  lemma SecretHashLoads(s: Storage)
    requires Complete(s)
    ensures var g := GetClientData(RestOf(StorageFields(s)));
            g.Got? && GetUInt(g.rest, 256).Got? && GetUInt(g.rest, 256).value == Or0(s.secretHash)
  {
    hide RestOf, CoinsFit, DataFields, GetClientData, GetUInt, Pow2;
    var refs := [Ref(CellOf(ConstFields(s))), Ref(if s.params.Some? then s.params.value else EMPTY)];
    DataReadsBack(s.state, Or0(s.balance), Or0(s.stake), s.tokensUsed, s.unlockTs, Or0(s.secretHash), refs);
    LoadUInt(Or0(s.secretHash), 256, refs);
    SmallHash(s);
    SmallMod(Or0(s.secretHash), 256);
  }

  lemma SmallHash(s: Storage)
    ensures Or0(s.secretHash) < Pow2(256)
  {
    hide Pow2;
    Pow2Positive(256);
  }

  lemma Pow2Positive(n: nat)
    ensures Pow2(n) > 0
  {
  }

  /** Two storages with the same state-init cell are the same but for defaults and the state's high bits. */
  lemma StateInitDetermines(s: Storage, t: Storage, code: Cell, other: Cell)
    requires Complete(s) && Complete(t) && BuildStateInit(s, Some(code)) == BuildStateInit(t, Some(other))
    ensures code == other && Effective(s) == Effective(t)
  {
    hide EncodeStorage, BuildStateInit, BitsOf, RefsOf, CoinsFit, StorageFields, ConstFields, GetClientData, GetUInt,
        Pow2;
    StateInitParts(s, code);
    StateInitParts(t, other);
    EncodesIfComplete(s);
    EncodesIfComplete(t);
    assert EncodeStorage(s).cell == BuildStateInit(s, Some(code)).cell.refs[1] == EncodeStorage(t).cell;
    assert code == BuildStateInit(s, Some(code)).cell.refs[0] == other;
    StorageReadsBack(s);
    StorageReadsBack(t);
    SecretHashLoads(s);
    SecretHashLoads(t);
    StorageRefs(s);
    StorageRefs(t);
    assert CellOf(ConstFields(s)) == RefsOf(StorageFields(s))[0] == CellOf(ConstFields(t));
    assert Effective(s).params.value == RefsOf(StorageFields(s))[1] == Effective(t).params.value;
    ConstDataDetermines(s, t);
  }
}
