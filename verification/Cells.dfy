/**
 Cells of the TON virtual machine: up to 1023 bits and four references, written by a builder and
 read by a slice. Amounts of coins are TL-B's VarUInteger 16: a 4-bit byte count and the bytes.
 */
module Cells {
  import opened Wrappers
  import opened Bytes

  datatype Cell = Cell(bits: seq<bool>, refs: seq<Cell>)

  const MAX_BITS := 1023
  const MAX_REFS := 4

  // ---- unsigned integers as bits, most significant first -----------------------------------------

  /** The low `n` bits of a number. */
  function UIntBits(v: nat, n: nat): (b: seq<bool>)
    ensures |b| == n
  {
    if n == 0 then [] else UIntBits(v / 2, n - 1) + [v % 2 == 1]
  }

  function FromBits(b: seq<bool>): nat
    decreases |b|
  {
    if b == [] then 0 else 2 * FromBits(b[..|b| - 1]) + (if b[|b| - 1] then 1 else 0)
  }

  lemma {:induction false} HalfMod(v: nat, n: nat)
    requires n > 0
    ensures v % Pow2(n) == 2 * (v / 2 % Pow2(n - 1)) + v % 2
  {
    var p, h := Pow2(n - 1), v / 2;
    var q, r := h / p, h % p;
    assert h == q * p + r;
    var low := 2 * r + v % 2;
    assert v == 2 * h + v % 2;
    assert 2 * (q * p) == q * (2 * p);
    assert v == q * (2 * p) + low && low < 2 * p;
    ModIs(v, 2 * p, q, low);
  }

  lemma ModIs(v: nat, m: nat, q: nat, r: nat)
    requires v == q * m + r && r < m
    ensures v % m == r
  {
    assert v == (v / m) * m + v % m;
    MultipleBound(v / m - q, m);
    assert (v / m) * m - q * m == (v / m - q) * m;
  }

  lemma MultipleBound(d: int, m: int)
    requires m > 0
    ensures d > 0 ==> d * m >= m
    ensures d < 0 ==> d * m <= -m
  {
  }

  /** Bits stand for the number modulo the power of their count. */
  lemma {:induction false} FromUIntBits(v: nat, n: nat)
    ensures FromBits(UIntBits(v, n)) == v % Pow2(n)
  {
    if n > 0 {
      var b := UIntBits(v, n);
      assert b[..|b| - 1] == UIntBits(v / 2, n - 1);
      FromUIntBits(v / 2, n - 1);
      HalfMod(v, n);
    }
  }

  lemma SmallMod(v: nat, n: nat)
    requires v < Pow2(n)
    ensures v % Pow2(n) == v
  {
    hide Pow2;
    ModIs(v, Pow2(n), 0, v);
  }

  /** Bits of a number split as high and low part. */
  lemma {:induction false} BitsSplit(a: nat, n: nat, b: nat, m: nat)
    requires b < Pow2(m)
    ensures UIntBits(a * Pow2(m) + b, n + m) == UIntBits(a, n) + UIntBits(b, m)
    decreases m
  {
    if m == 0 {
      assert a * 1 + 0 == a;
      assert UIntBits(a, n) + [] == UIntBits(a, n);
    } else {
      var v, p := a * Pow2(m) + b, Pow2(m - 1);
      assert a * (2 * p) == 2 * (a * p);
      assert v / 2 == a * p + b / 2 && v % 2 == b % 2;
      BitsSplit(a, n, b / 2, m - 1);
      assert UIntBits(a, n) + (UIntBits(b / 2, m - 1) + [b % 2 == 1])
          == (UIntBits(a, n) + UIntBits(b / 2, m - 1)) + [b % 2 == 1];
    }
  }

  // ---- byte strings -------------------------------------------------------------------------------

  function BytesBits(bs: seq<byte>): (b: seq<bool>)
    ensures |b| == 8 * |bs|
    decreases |bs|
  {
    if bs == [] then [] else BytesBits(bs[..|bs| - 1]) + UIntBits(bs[|bs| - 1], 8)
  }

  /** big.Int.SetBytes: big-endian. */
  function FromBE(bs: seq<byte>): nat
    decreases |bs|
  {
    if bs == [] then 0 else 256 * FromBE(bs[..|bs| - 1]) + bs[|bs| - 1]
  }

  /** Raw bytes and the big-endian number they spell have the same bits. */
  lemma {:induction false} BytesAsNumber(bs: seq<byte>)
    ensures UIntBits(FromBE(bs), 8 * |bs|) == BytesBits(bs)
    decreases |bs|
  {
    if bs == [] {
      assert UIntBits(0, 0) == [];
    } else {
      hide UIntBits, Pow2;
      var init, last := bs[..|bs| - 1], bs[|bs| - 1];
      BytesAsNumber(init);
      ByteStep(FromBE(init), |init|, last);
    }
  }

  lemma ByteStep(high: nat, count: nat, last: byte)
    ensures UIntBits(256 * high + last, 8 * (count + 1)) == UIntBits(high, 8 * count) + UIntBits(last, 8)
  {
    hide UIntBits, Pow2;
    Widths();
    BitsSplit(high, 8 * count, last, 8);
    assert 256 * high + last == high * Pow2(8) + last && 8 * (count + 1) == 8 * count + 8;
  }

  // ---- coins ----------------------------------------------------------------------------------------

  function ByteLength(v: nat): nat { if v == 0 then 0 else 1 + ByteLength(v / 256) }

  lemma {:induction false} ByteLengthFits(v: nat, n: nat)
    ensures ByteLength(v) <= n <==> v < Pow2(8 * n)
    decreases n
  {
    if n == 0 {
    } else if v > 0 {
      ByteLengthFits(v / 256, n - 1);
      Widths();
      Pow2Adds(8 * (n - 1), 8);
      assert v / 256 < Pow2(8 * (n - 1)) <==> v < 256 * Pow2(8 * (n - 1));
    }
  }

  predicate CoinsFit(v: nat) { ByteLength(v) <= 15 }

  /** The limit of VarUInteger 16. */
  lemma CoinsLimit(v: nat)
    ensures CoinsFit(v) <==> v < Pow2(120)
  {
    ByteLengthFits(v, 15);
  }

  function CoinsBits(v: nat): seq<bool> { UIntBits(ByteLength(v), 4) + UIntBits(v, 8 * ByteLength(v)) }

  // ---- what a builder is asked to store ---------------------------------------------------------------

  /** Coins without an amount are Go's nil pointer. */
  datatype Field =
    | UInt(v: nat, width: nat)
    | Flag(b: bool)
    | Coins(amount: Option<nat>)
    | Raw(raw: seq<bool>)
    | MaybeRef(maybe: Option<Cell>)
    | Ref(ref: Cell)

  predicate Storable(f: Field) { f.Coins? ==> f.amount.Some? && CoinsFit(f.amount.value) }

  function FieldBits(f: Field): seq<bool> {
    match f
    case UInt(v, width) => UIntBits(v, width)
    case Flag(b) => [b]
    case Coins(amount) => if amount.Some? then CoinsBits(amount.value) else []
    case Raw(raw) => raw
    case MaybeRef(maybe) => [maybe.Some?]
    case Ref(_) => []
  }

  function FieldRefs(f: Field): seq<Cell> {
    match f
    case MaybeRef(Some(cell)) => [cell]
    case Ref(cell) => [cell]
    case _ => []
  }

  function BitsOf(fs: seq<Field>): seq<bool>
    decreases |fs|
  {
    if fs == [] then [] else FieldBits(fs[0]) + BitsOf(fs[1..])
  }

  function RefsOf(fs: seq<Field>): seq<Cell>
    decreases |fs|
  {
    if fs == [] then [] else FieldRefs(fs[0]) + RefsOf(fs[1..])
  }

  lemma {:induction false} BitsOfConcat(a: seq<Field>, b: seq<Field>)
    ensures BitsOf(a + b) == BitsOf(a) + BitsOf(b) && RefsOf(a + b) == RefsOf(a) + RefsOf(b)
    decreases |a|
  {
    hide FieldBits, FieldRefs;
    if a == [] {
      assert a + b == b;
    } else {
      assert (a + b)[1..] == a[1..] + b;
      BitsOfConcat(a[1..], b);
      Assoc(FieldBits(a[0]), BitsOf(a[1..]), BitsOf(b));
      Assoc(FieldRefs(a[0]), RefsOf(a[1..]), RefsOf(b));
    }
  }

  predicate AllStorable(fs: seq<Field>) { forall i :: 0 <= i < |fs| ==> Storable(fs[i]) }

  function CellOf(fs: seq<Field>): Cell { Cell(BitsOf(fs), RefsOf(fs)) }

  predicate Fits(fs: seq<Field>) { |BitsOf(fs)| <= MAX_BITS && |RefsOf(fs)| <= MAX_REFS }

  /** A builder whose stores panic on a nil or too large amount and on overflow of the cell. */
  class Builder {
    var bits: seq<bool>
    var refs: seq<Cell>
    var panicked: bool
    ghost var stored: seq<Field>

    ghost predicate Valid()
      reads this
    {
      && (panicked <==> !(AllStorable(stored) && Fits(stored)))
      && (!panicked ==> bits == BitsOf(stored) && refs == RefsOf(stored))
    }

    constructor ()
      ensures Valid() && stored == []
    {
      bits, refs, panicked, stored := [], [], false, [];
    }

    method Store(f: Field)
      requires Valid()
      modifies this
      ensures Valid() && stored == old(stored) + [f]
    {
      hide FieldBits, FieldRefs, Storable;
      ghost var next := stored + [f];
      BitsOfConcat(stored, [f]);
      OneField(f);
      StorableStep(stored, f);
      if !Storable(f) || |bits| + |FieldBits(f)| > MAX_BITS || |refs| + |FieldRefs(f)| > MAX_REFS {
        panicked := true;
      } else {
        bits, refs := bits + FieldBits(f), refs + FieldRefs(f);
      }
      stored := next;
    }

    method EndCell() returns (cell: Option<Cell>)
      requires Valid()
      ensures cell == if AllStorable(stored) && Fits(stored) then Some(CellOf(stored)) else None
      ensures cell.Some? <==> AllStorable(stored) && |BitsOf(stored)| <= 1023 && |RefsOf(stored)| <= 4
    {
      return if panicked then None else Some(Cell(bits, refs));
    }
  }

  lemma OneField(f: Field)
    ensures BitsOf([f]) == FieldBits(f) && RefsOf([f]) == FieldRefs(f)
  {
    assert [f][1..] == [] && FieldBits(f) + [] == FieldBits(f) && FieldRefs(f) + [] == FieldRefs(f);
  }

  lemma StorableStep(fs: seq<Field>, f: Field)
    ensures AllStorable(fs + [f]) <==> AllStorable(fs) && Storable(f)
  {
    assert (fs + [f])[|fs|] == f;
    if AllStorable(fs + [f]) {
      forall i | 0 <= i < |fs|
        ensures Storable(fs[i])
      {
        assert (fs + [f])[i] == fs[i];
      }
    }
  }

  // ---- reading ------------------------------------------------------------------------------------------

  /** What a slice has still to give. */
  datatype Rest = Rest(bits: seq<bool>, refs: seq<Cell>)

  datatype Loaded<+T> = Got(value: T, rest: Rest) | Failed {
    predicate IsFailure() { Failed? }
    function PropagateFailure<U>(): Loaded<U> requires Failed? { Failed }
    function Extract(): (T, Rest) requires Got? { (value, rest) }
  }

  function GetUInt(s: Rest, n: nat): (r: Loaded<nat>)
    ensures r.Got? ==> r.value < Pow2(n)
  {
    if |s.bits| < n then Failed else BitsBound(s.bits[..n]); Got(FromBits(s.bits[..n]), Rest(s.bits[n..], s.refs))
  }

  lemma {:induction false} BitsBound(b: seq<bool>)
    ensures FromBits(b) < Pow2(|b|)
    decreases |b|
  {
    if b != [] {
      BitsBound(b[..|b| - 1]);
    }
  }

  function GetFlag(s: Rest): Loaded<bool> {
    if s.bits == [] then Failed else Got(s.bits[0], Rest(s.bits[1..], s.refs))
  }

  function GetCoins(s: Rest): Loaded<nat> {
    var (n, s) :- GetUInt(s, 4);
    GetUInt(s, 8 * n)
  }

  function GetMaybeRef(s: Rest): Loaded<Option<Cell>> {
    var (present, s) :- GetFlag(s);
    if !present then Got(None, s)
    else if s.refs == [] then Failed
    else Got(Some(s.refs[0]), Rest(s.bits, s.refs[1..]))
  }

  function RestOf(fs: seq<Field>): Rest { Rest(BitsOf(fs), RefsOf(fs)) }

  lemma RestOfCons(f: Field, fs: seq<Field>)
    ensures RestOf([f] + fs) == Rest(FieldBits(f) + BitsOf(fs), FieldRefs(f) + RefsOf(fs))
  {
    assert ([f] + fs)[1..] == fs;
  }

  lemma UIntLoads(v: nat, n: nat, bits: seq<bool>, refs: seq<Cell>)
    ensures GetUInt(Rest(UIntBits(v, n) + bits, refs), n) == Got(v % Pow2(n), Rest(bits, refs))
  {
    var all := UIntBits(v, n) + bits;
    assert all[..n] == UIntBits(v, n) && all[n..] == bits;
    FromUIntBits(v, n);
  }

  /** A stored integer loads as its low bits, and the slice goes on behind it. */
  lemma LoadUInt(v: nat, n: nat, fs: seq<Field>)
    ensures GetUInt(RestOf([UInt(v, n)] + fs), n) == Got(v % Pow2(n), RestOf(fs))
  {
    hide UIntBits, BitsOf, RefsOf, GetUInt;
    RestOfCons(UInt(v, n), fs);
    UIntLoads(v, n, BitsOf(fs), RefsOf(fs));
    assert [] + RefsOf(fs) == RefsOf(fs);
  }

  lemma LoadFlag(b: bool, fs: seq<Field>)
    ensures GetFlag(RestOf([Flag(b)] + fs)) == Got(b, RestOf(fs))
  {
    hide BitsOf, RefsOf;
    RestOfCons(Flag(b), fs);
    assert ([b] + BitsOf(fs))[1..] == BitsOf(fs);
    assert [] + RefsOf(fs) == RefsOf(fs);
  }

  lemma CoinsLoad(v: nat, bits: seq<bool>, refs: seq<Cell>)
    requires CoinsFit(v)
    ensures GetCoins(Rest(CoinsBits(v) + bits, refs)) == Got(v, Rest(bits, refs))
  {
    hide GetUInt, UIntBits, ByteLength;
    var n := ByteLength(v);
    var body := UIntBits(v, 8 * n) + bits;
    assert (UIntBits(n, 4) + UIntBits(v, 8 * n)) + bits == UIntBits(n, 4) + body;
    UIntLoads(n, 4, body, refs);
    Widths();
    SmallMod(n, 4);
    UIntLoads(v, 8 * n, bits, refs);
    ByteLengthFits(v, n);
    SmallMod(v, 8 * n);
  }

  lemma LoadCoins(v: nat, fs: seq<Field>)
    requires CoinsFit(v)
    ensures GetCoins(RestOf([Coins(Some(v))] + fs)) == Got(v, RestOf(fs))
  {
    hide GetCoins, BitsOf, RefsOf, CoinsBits, CoinsFit;
    RestOfCons(Coins(Some(v)), fs);
    CoinsLoad(v, BitsOf(fs), RefsOf(fs));
    assert [] + RefsOf(fs) == RefsOf(fs);
  }

  lemma LoadMaybeRef(maybe: Option<Cell>, fs: seq<Field>)
    ensures GetMaybeRef(RestOf([MaybeRef(maybe)] + fs)) == Got(maybe, RestOf(fs))
  {
    hide BitsOf, RefsOf;
    RestOfCons(MaybeRef(maybe), fs);
    assert ([maybe.Some?] + BitsOf(fs))[1..] == BitsOf(fs);
    if maybe.Some? {
      assert ([maybe.value] + RefsOf(fs))[1..] == RefsOf(fs);
    } else {
      assert [] + RefsOf(fs) == RefsOf(fs);
    }
  }

  /** A cursor over a cell. After a failed load callers give up. */
  class Slice {
    var bits: seq<bool>
    var refs: seq<Cell>

    constructor BeginParse(cell: Cell)
      ensures State() == Rest(cell.bits, cell.refs)
    {
      bits, refs := cell.bits, cell.refs;
    }

    function State(): Rest
      reads this
    {
      Rest(bits, refs)
    }

    method LoadUInt(n: nat) returns (v: Option<nat>)
      modifies this
      ensures Moved(GetUInt(old(State()), n), v, State())
    {
      if |bits| < n {
        return None;
      }
      v := Some(FromBits(bits[..n]));
      bits := bits[n..];
    }

    method LoadBoolBit() returns (v: Option<bool>)
      modifies this
      ensures Moved(GetFlag(old(State())), v, State())
    {
      if |bits| == 0 {
        return None;
      }
      v := Some(bits[0]);
      bits := bits[1..];
    }

    method LoadBigCoins() returns (v: Option<nat>)
      modifies this
      ensures Moved(GetCoins(old(State())), v, State())
    {
      hide FromBits;
      var n := LoadUInt(4);
      if n.None? {
        return None;
      }
      v := LoadUInt(8 * n.value);
    }

    method LoadMaybeRef() returns (v: Option<Option<Cell>>)
      modifies this
      ensures Moved(GetMaybeRef(old(State())), v, State())
    {
      var present := LoadBoolBit();
      if present.None? {
        return None;
      }
      if !present.value {
        return Some(None);
      }
      if |refs| == 0 {
        return None;
      }
      v := Some(Some(refs[0]));
      refs := refs[1..];
    }
  }

  /** A load did what the specification says: its value, and the slice moved exactly past it. */
  ghost predicate Moved<T>(g: Loaded<T>, v: Option<T>, after: Rest) {
    match g
    case Failed => v == None
    case Got(value, rest) => v == Some(value) && after == rest
  }
}
