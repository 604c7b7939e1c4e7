/**
 * The register codec: packs the five-entry function table into the image the
 * controller understands (a channel table of eight function slots and three
 * 16-bit masks, bit c describing channel c), lays that image out as object
 * dictionary writes, and decodes both again.
 */
module EposCodec {
  import opened EposTypes

  /** Width of the mask registers (a C `short`). */
  const MASK_WIDTH: nat := 16

  function Pow2(n: nat): (p: nat)
    ensures p >= 1
  {
    if n == 0 then 1 else 2 * Pow2(n - 1)
  }

  /** Bit c of a non-negative mask, bit 0 being the least significant. */
  predicate TestBit(m: nat, c: nat)
  {
    if c == 0 then m % 2 == 1 else TestBit(m / 2, c - 1)
  }

  /** No bit at or above position n is set in a mask below 2^n. */
  lemma {:induction false} TestBitAbove(m: nat, n: nat, c: nat)
    requires m < Pow2(n) && n <= c
    ensures !TestBit(m, c)
  {
    if n == 0 {
      assert m == 0;
      if c > 0 { TestBitAbove(0, 0, c - 1); }
    } else {
      TestBitAbove(m / 2, n - 1, c - 1);
    }
  }

  /** The mask whose bit c is bits[c], channel 0 in the least significant bit. */
  function MaskFrom(bits: seq<bool>): (m: nat)
    ensures m < Pow2(|bits|)
    ensures forall c :: 0 <= c < |bits| ==> (TestBit(m, c) <==> bits[c])
  {
    if bits == [] then 0
    else (if bits[0] then 1 else 0) + 2 * MaskFrom(bits[1..])
  }

  /** The first n bits of a mask, in channel order. */
  function MaskBits(m: nat, n: nat): (bits: seq<bool>)
    ensures |bits| == n
    ensures forall c :: 0 <= c < n ==> (bits[c] <==> TestBit(m, c))
  {
    seq(n, c requires 0 <= c < n => TestBit(m, c))
  }

  /** Packing and unpacking n bits are inverse to each other. */
  lemma {:induction false} MaskRoundTrip(m: nat, n: nat)
    requires m < Pow2(n)
    ensures MaskFrom(MaskBits(m, n)) == m
  {
    if n > 0 {
      var bits := MaskBits(m, n);
      MaskRoundTrip(m / 2, n - 1);
      assert bits[1..] == MaskBits(m / 2, n - 1);
    } else {
      assert MaskBits(m, n) == [];
    }
  }

  lemma MaskBitsRoundTrip(bits: seq<bool>)
    ensures MaskBits(MaskFrom(bits), |bits|) == bits
  {
  }

  /** Appending one bit adds its weight to the mask: the `m |= 1 << c` step of a packing loop. */
  lemma {:induction false} MaskFromSnoc(bits: seq<bool>, b: bool)
    ensures MaskFrom(bits + [b]) == MaskFrom(bits) + (if b then Pow2(|bits|) else 0)
  {
    if bits != [] {
      MaskFromSnoc(bits[1..], b);
      assert (bits + [b])[1..] == bits[1..] + [b];
    }
  }

  /** Setting a clear bit c adds its weight 2^c; setting a set bit changes nothing: `m |= 1 << c`. */
  lemma {:induction false} MaskFromSet(bits: seq<bool>, c: nat)
    requires c < |bits|
    ensures MaskFrom(bits[c := true]) == MaskFrom(bits) + (if bits[c] then 0 else Pow2(c))
  {
    if c == 0 {
      assert bits[c := true][1..] == bits[1..];
    } else {
      MaskFromSet(bits[1..], c - 1);
      assert bits[c := true][1..] == bits[1..][c - 1 := true];
    }
  }

  /** A slot of the channel table holds a function ordinal or one of the two sentinel functions. */
  predicate IsOrdinal(v: int)
  {
    0 <= v < FUNC_COUNT
  }

  predicate IsSlotValue(v: int)
  {
    IsOrdinal(v) || v == RESERVED_FUNC || v == DUMMY_FUNC
  }

  /** Upper bound of a mask with one bit per channel and nothing above channel 7. */
  const CHANNEL_MASK_LIMIT: nat := 256

  lemma ChannelMaskLimit()
    ensures Pow2(CHANNEL_COUNT) == CHANNEL_MASK_LIMIT
  {
  }

  /** The packed image: the channel table and the polarity, execute and enabled masks. */
  datatype Image = Image(channels: seq<int>, polarity: nat, execute: nat, enabled: nat)

  predicate WellFormed(img: Image)
  {
    && |img.channels| == CHANNEL_COUNT
    && (forall c :: 0 <= c < CHANNEL_COUNT ==> IsSlotValue(img.channels[c]))
    && img.polarity < CHANNEL_MASK_LIMIT
    && img.execute < CHANNEL_MASK_LIMIT
    && img.enabled < CHANNEL_MASK_LIMIT
  }

  /**
   * The channel table after the first n functions, in enumeration order, have
   * claimed their channels: a function whose channel is a physical line writes
   * its ordinal into that slot, overwriting any earlier claim.
   */
  function RouteUpTo(funcs: seq<Descriptor>, n: nat): (slots: seq<int>)
    requires n <= |funcs|
    ensures |slots| == CHANNEL_COUNT
    ensures forall c :: 0 <= c < CHANNEL_COUNT ==> slots[c] == DUMMY_FUNC || 0 <= slots[c] < n
  {
    if n == 0 then seq(CHANNEL_COUNT, _ => DUMMY_FUNC)
    else
      var slots := RouteUpTo(funcs, n - 1);
      var ch := funcs[n - 1].channel;
      if IsChannel(ch) then slots[ch := n - 1] else slots
  }

  function Route(funcs: seq<Descriptor>): (slots: seq<int>)
    requires |funcs| == FUNC_COUNT
  {
    RouteUpTo(funcs, FUNC_COUNT)
  }

  /**
   * Slot c holds k exactly when function k claims channel c and no later one
   * does, and holds the dummy function exactly when no function claims c.
   */
  lemma {:induction false} RouteUpToSlot(funcs: seq<Descriptor>, n: nat, c: int, k: int)
    requires n <= |funcs| && n <= FUNC_COUNT && IsChannel(c)
    ensures RouteUpTo(funcs, n)[c] == DUMMY_FUNC <==> forall j :: 0 <= j < n ==> funcs[j].channel != c
    ensures 0 <= k < n ==>
      (RouteUpTo(funcs, n)[c] == k <==> funcs[k].channel == c && forall j :: k < j < n ==> funcs[j].channel != c)
  {
    if n > 0 {
      RouteUpToSlot(funcs, n - 1, c, k);
      var prev := RouteUpTo(funcs, n - 1);
      if funcs[n - 1].channel == c {
        assert RouteUpTo(funcs, n)[c] == n - 1;
      } else {
        assert RouteUpTo(funcs, n)[c] == prev[c];
      }
    }
  }

  /** The three per-channel flags that the masks carry. */
  datatype Flag = PolarityFlag | ExecuteFlag | EnabledFlag

  predicate FlagOf(d: Descriptor, f: Flag)
  {
    match f
    case PolarityFlag => d.polarity.Code() == 1
    case ExecuteFlag => d.execute != 0
    case EnabledFlag => d.enabled != 0
  }

  /**
   * The per-channel flags after the first n functions, in enumeration order,
   * have been routed: a function on a physical line with flag f set sets bit
   * f of its channel; nothing ever clears a bit.
   */
  function FlagBitsUpTo(funcs: seq<Descriptor>, f: Flag, n: nat): (bits: seq<bool>)
    requires n <= |funcs|
    ensures |bits| == CHANNEL_COUNT
  {
    if n == 0 then seq(CHANNEL_COUNT, _ => false)
    else
      var bits := FlagBitsUpTo(funcs, f, n - 1);
      var ch := funcs[n - 1].channel;
      if IsChannel(ch) && FlagOf(funcs[n - 1], f) then bits[ch := true] else bits
  }

  function ChannelBits(funcs: seq<Descriptor>, f: Flag): (bits: seq<bool>)
    requires |funcs| == FUNC_COUNT
  {
    FlagBitsUpTo(funcs, f, FUNC_COUNT)
  }

  /** Channel c's flag is set exactly when one of the first n functions on channel c has it. */
  lemma {:induction false} FlagBitsUpToAt(funcs: seq<Descriptor>, f: Flag, n: nat, c: int)
    requires n <= |funcs| && IsChannel(c)
    ensures FlagBitsUpTo(funcs, f, n)[c] <==>
      exists k :: 0 <= k < n && funcs[k].channel == c && FlagOf(funcs[k], f)
  {
    if n > 0 {
      FlagBitsUpToAt(funcs, f, n - 1, c);
      if funcs[n - 1].channel == c && FlagOf(funcs[n - 1], f) {
        assert FlagBitsUpTo(funcs, f, n)[c];
      } else {
        assert FlagBitsUpTo(funcs, f, n)[c] == FlagBitsUpTo(funcs, f, n - 1)[c];
      }
    }
  }

  function MaskOf(img: Image, f: Flag): nat
  {
    match f
    case PolarityFlag => img.polarity
    case ExecuteFlag => img.execute
    case EnabledFlag => img.enabled
  }

  /** Packs the function table into the image pushed to the controller. */
  function Pack(funcs: seq<Descriptor>): (img: Image)
    requires |funcs| == FUNC_COUNT
    ensures WellFormed(img)
  {
    var slots := Route(funcs);
    ChannelMaskLimit();
    Image(slots,
          MaskFrom(ChannelBits(funcs, PolarityFlag)),
          MaskFrom(ChannelBits(funcs, ExecuteFlag)),
          MaskFrom(ChannelBits(funcs, EnabledFlag)))
  }

  /**
   * Where a function lands in the packed channel table: at most in the slot of
   * its own channel, there exactly when no later function claims that channel,
   * and nowhere when its channel is not a physical line.
   */
  lemma PackSlot(funcs: seq<Descriptor>, t: FuncType, c: int)
    requires |funcs| == FUNC_COUNT && IsChannel(c)
    ensures Pack(funcs).channels[c] == t.Ordinal() <==>
      funcs[t.Ordinal()].channel == c && forall j :: t.Ordinal() < j < FUNC_COUNT ==> funcs[j].channel != c
    ensures Pack(funcs).channels[c] == DUMMY_FUNC <==> forall j :: 0 <= j < FUNC_COUNT ==> funcs[j].channel != c
    ensures !IsChannel(funcs[t.Ordinal()].channel) ==> Pack(funcs).channels[c] != t.Ordinal()
  {
    RouteUpToSlot(funcs, FUNC_COUNT, c, t.Ordinal());
  }

  /** Two functions on one channel: the later one in enumeration order takes the slot. */
  lemma LastWriterWins(funcs: seq<Descriptor>, i: nat, j: nat)
    requires |funcs| == FUNC_COUNT && i < j < FUNC_COUNT
    requires IsChannel(funcs[i].channel) && funcs[j].channel == funcs[i].channel
    ensures var slot := Pack(funcs).channels[funcs[i].channel]; j <= slot < FUNC_COUNT
  {
    var c := funcs[i].channel;
    var slot := Pack(funcs).channels[c];
    RouteUpToSlot(funcs, FUNC_COUNT, c, slot);
    assert funcs[j].channel == c;
  }

  /**
   * Bit c of each mask is set exactly when c is a physical channel and some
   * function routed to c has that flag; no bit above channel 7 is ever set.
   */
  lemma PackFlags(funcs: seq<Descriptor>, c: nat, f: Flag)
    requires |funcs| == FUNC_COUNT
    ensures TestBit(MaskOf(Pack(funcs), f), c) <==>
      c < CHANNEL_COUNT && exists k :: 0 <= k < FUNC_COUNT && funcs[k].channel == c && FlagOf(funcs[k], f)
  {
    var bits := ChannelBits(funcs, f);
    assert MaskOf(Pack(funcs), f) == MaskFrom(bits);
    if c >= CHANNEL_COUNT {
      TestBitAbove(MaskFrom(bits), CHANNEL_COUNT, c);
    } else {
      FlagBitsUpToAt(funcs, f, FUNC_COUNT, c);
    }
  }

  /**
   * A function on a physical channel sets that channel's bit for each flag it
   * has; when it is the only function there, it owns the slot and the
   * channel's bits are exactly its own flags.
   */
  lemma PackOwnerFlags(funcs: seq<Descriptor>, t: FuncType, f: Flag)
    requires |funcs| == FUNC_COUNT && IsChannel(funcs[t.Ordinal()].channel)
    ensures var c := funcs[t.Ordinal()].channel;
      FlagOf(funcs[t.Ordinal()], f) ==> TestBit(MaskOf(Pack(funcs), f), c)
    ensures var c := funcs[t.Ordinal()].channel;
      (forall j :: 0 <= j < FUNC_COUNT && j != t.Ordinal() ==> funcs[j].channel != c) ==>
        Pack(funcs).channels[c] == t.Ordinal() &&
        (TestBit(MaskOf(Pack(funcs), f), c) <==> FlagOf(funcs[t.Ordinal()], f))
  {
    var c := funcs[t.Ordinal()].channel;
    PackSlot(funcs, t, c);
    PackFlags(funcs, c, f);
  }

  /**
   * Negative and positive limit switch both on channel 3 and no other function
   * there: slot 3 holds the positive switch, and each of channel 3's bits is
   * set when either switch has that flag.
   */
  lemma CollisionOnChannelThree(funcs: seq<Descriptor>, f: Flag)
    requires |funcs| == FUNC_COUNT
    requires funcs[NegSwitch.Ordinal()].channel == 3 && funcs[PosSwitch.Ordinal()].channel == 3
    requires forall j :: PosSwitch.Ordinal() < j < FUNC_COUNT ==> funcs[j].channel != 3
    ensures Pack(funcs).channels[3] == PosSwitch.Ordinal()
    ensures TestBit(MaskOf(Pack(funcs), f), 3) <==>
      FlagOf(funcs[NegSwitch.Ordinal()], f) || FlagOf(funcs[PosSwitch.Ordinal()], f)
  {
    PackSlot(funcs, PosSwitch, 3);
    PackFlags(funcs, 3, f);
  }

  /** The freshly initialised table packs to all-dummy slots and empty masks. */
  lemma PackDefault()
    ensures Pack(DefaultTable()) == Image(seq(CHANNEL_COUNT, _ => DUMMY_FUNC), 0, 0, 0)
  {
    var funcs := DefaultTable();
    forall c | 0 <= c < CHANNEL_COUNT
      ensures Route(funcs)[c] == DUMMY_FUNC
    {
      RouteUpToSlot(funcs, FUNC_COUNT, c, 0);
    }
    assert Route(funcs) == seq(CHANNEL_COUNT, _ => DUMMY_FUNC);
    var none := seq(CHANNEL_COUNT, _ => false);
    NoFlags(funcs, PolarityFlag, FUNC_COUNT);
    NoFlags(funcs, ExecuteFlag, FUNC_COUNT);
    NoFlags(funcs, EnabledFlag, FUNC_COUNT);
    ZeroMask(CHANNEL_COUNT);
  }

  lemma {:induction false} NoFlags(funcs: seq<Descriptor>, f: Flag, n: nat)
    requires n <= |funcs| && forall k :: 0 <= k < n ==> !IsChannel(funcs[k].channel)
    ensures FlagBitsUpTo(funcs, f, n) == seq(CHANNEL_COUNT, _ => false)
  {
    if n > 0 {
      NoFlags(funcs, f, n - 1);
    }
  }

  lemma {:induction false} ZeroMask(n: nat)
    ensures MaskFrom(seq(n, _ => false)) == 0
  {
    if n > 0 {
      ZeroMask(n - 1);
      assert seq(n, _ => false)[1..] == seq(n - 1, _ => false);
    }
  }

  /** The functionality object's sub-index that holds the slot of channel c. */
  function SlotAddress(c: int): (int, int)
  {
    (INDEX_FUNCS, c + 1)
  }

  /** One object dictionary write. */
  datatype Write = Write(index: int, subindex: int, value: int)

  /** Where a write lands in the object dictionary. */
  function Address(w: Write): (int, int)
  {
    (w.index, w.subindex)
  }

  /**
   * The writes that push an image: the eight channel slots to the functionality
   * object, one sub-index per channel, then the enabled, polarity and execute
   * masks to the configuration object.
   */
  function SetupWrites(img: Image): (plan: seq<Write>)
    requires |img.channels| == CHANNEL_COUNT
    ensures |plan| == CHANNEL_COUNT + 3
    ensures forall i :: 0 <= i < |plan| ==>
      || (plan[i].index == INDEX_FUNCS && 1 <= plan[i].subindex <= CHANNEL_COUNT)
      || (plan[i].index == INDEX_CONFIG && plan[i].subindex in {SUBINDEX_MASK, SUBINDEX_POLARITY, SUBINDEX_EXECUTE})
    ensures forall i, j :: 0 <= i < j < |plan| ==> Address(plan[i]) != Address(plan[j])
  {
    seq(CHANNEL_COUNT, c requires 0 <= c < CHANNEL_COUNT => Write(SlotAddress(c).0, SlotAddress(c).1, img.channels[c]))
    + [ Write(INDEX_CONFIG, SUBINDEX_MASK, img.enabled),
        Write(INDEX_CONFIG, SUBINDEX_POLARITY, img.polarity),
        Write(INDEX_CONFIG, SUBINDEX_EXECUTE, img.execute) ]
  }

  /** The controller's object dictionary, as far as this module writes it. */
  type Registers = map<(int, int), int>

  /** The dictionary after a sequence of writes has been acknowledged. */
  function Apply(regs: Registers, plan: seq<Write>): (r: Registers)
    decreases |plan|
  {
    if plan == [] then regs else Apply(regs[Address(plan[0]) := plan[0].value], plan[1..])
  }

  /** After writes to distinct addresses, each written address holds its value and the rest is as before. */
  lemma {:induction false} ApplyDistinct(regs: Registers, plan: seq<Write>, a: (int, int))
    requires forall i, j :: 0 <= i < j < |plan| ==> Address(plan[i]) != Address(plan[j])
    ensures forall i :: 0 <= i < |plan| ==>
      Address(plan[i]) in Apply(regs, plan) && Apply(regs, plan)[Address(plan[i])] == plan[i].value
    ensures (forall i :: 0 <= i < |plan| ==> Address(plan[i]) != a) ==>
      (a in Apply(regs, plan) <==> a in regs) && (a in regs ==> Apply(regs, plan)[a] == regs[a])
    decreases |plan|
  {
    if plan != [] {
      var regs' := regs[Address(plan[0]) := plan[0].value];
      ApplyDistinct(regs', plan[1..], a);
      ApplyDistinct(regs', plan[1..], Address(plan[0]));
    }
  }

  /** Reads the image back out of the object dictionary, if every register it needs is there. */
  function DecodeRegisters(r: Registers): (img: Option<Image>)
    ensures img.Some? ==> |img.value.channels| == CHANNEL_COUNT
  {
    if && (forall c :: 0 <= c < CHANNEL_COUNT ==> SlotAddress(c) in r)
       && (INDEX_CONFIG, SUBINDEX_MASK) in r && r[(INDEX_CONFIG, SUBINDEX_MASK)] >= 0
       && (INDEX_CONFIG, SUBINDEX_POLARITY) in r && r[(INDEX_CONFIG, SUBINDEX_POLARITY)] >= 0
       && (INDEX_CONFIG, SUBINDEX_EXECUTE) in r && r[(INDEX_CONFIG, SUBINDEX_EXECUTE)] >= 0
    then
      Some(Image(seq(CHANNEL_COUNT, c requires 0 <= c < CHANNEL_COUNT => r[SlotAddress(c)]),
                 r[(INDEX_CONFIG, SUBINDEX_POLARITY)],
                 r[(INDEX_CONFIG, SUBINDEX_EXECUTE)],
                 r[(INDEX_CONFIG, SUBINDEX_MASK)]))
    else None
  }

  /**
   * Whatever the dictionary held before, acknowledging every write of a setup
   * leaves exactly the image in it, and repeating the setup changes nothing.
   */
  lemma SetupRoundTrip(regs: Registers, img: Image)
    requires |img.channels| == CHANNEL_COUNT
    ensures DecodeRegisters(Apply(regs, SetupWrites(img))) == Some(img)
    ensures Apply(Apply(regs, SetupWrites(img)), SetupWrites(img)) == Apply(regs, SetupWrites(img))
  {
    var plan := SetupWrites(img);
    var r := Apply(regs, plan);
    ApplyDistinct(regs, plan, (0, 0));
    assert forall c :: 0 <= c < CHANNEL_COUNT ==> Address(plan[c]) == SlotAddress(c);
    assert Address(plan[8]) == (INDEX_CONFIG, SUBINDEX_MASK);
    assert Address(plan[9]) == (INDEX_CONFIG, SUBINDEX_POLARITY);
    assert Address(plan[10]) == (INDEX_CONFIG, SUBINDEX_EXECUTE);
    assert forall c :: 0 <= c < CHANNEL_COUNT ==> SlotAddress(c) in r && r[SlotAddress(c)] == img.channels[c];
    assert DecodeRegisters(r).Some?;
    assert DecodeRegisters(r).value.channels == img.channels;
    ApplyTwice(regs, plan);
  }

  /** Repeating writes to distinct addresses leaves the dictionary as the first pass did. */
  lemma ApplyTwice(regs: Registers, plan: seq<Write>)
    requires forall i, j :: 0 <= i < j < |plan| ==> Address(plan[i]) != Address(plan[j])
    ensures Apply(Apply(regs, plan), plan) == Apply(regs, plan)
  {
    var r := Apply(regs, plan);
    var r2 := Apply(r, plan);
    forall a
      ensures (a in r2 <==> a in r) && (a in r ==> r2[a] == r[a])
    {
      ApplyDistinct(regs, plan, a);
      ApplyDistinct(r, plan, a);
    }
  }
}
