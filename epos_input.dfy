/**
 * The EPOS input module: a function table of five descriptors, the packed
 * image last computed from it, and the device connection the image is pushed
 * to.  Every setter updates the table in memory and then re-runs the setup.
 */
module EposInput {
  import opened EposTypes
  import opened EposCodec

  /** One write as the device saw it, and whether the device acknowledged it. */
  datatype Transfer = Transfer(write: Write, ok: bool)

  /**
   * The borrowed device connection, reduced to what this module observes: every
   * write it is handed is logged, and each one may succeed or fail.
   */
  class Device {
    var log: seq<Transfer>

    constructor ()
      ensures log == []
    {
      log := [];
    }

    method WriteObject(w: Write) returns (ok: bool)
      modifies this
      ensures log == old(log) + [Transfer(w, ok)]
    {
      ok :| true;
      log := log + [Transfer(w, ok)];
    }
  }

  /**
   * The attempts `sent` of pushing `plan` that ended with code err: the writes
   * went out in plan order, every one but the last was acknowledged, the push
   * stopped at the first failure, and err tells which way it ended.
   */
  predicate Transmitted(sent: seq<Transfer>, plan: seq<Write>, err: int)
  {
    && |sent| <= |plan|
    && (forall j :: 0 <= j < |sent| ==> sent[j].write == plan[j])
    && (forall j :: 0 <= j < |sent| - 1 ==> sent[j].ok)
    && (err == ERROR_NONE || err == ERROR_SETUP)
    && (err == ERROR_NONE <==> |sent| == |plan| && (sent == [] || sent[|sent| - 1].ok))
    && (err == ERROR_SETUP <==> sent != [] && !sent[|sent| - 1].ok)
  }

  /** The device log grew from before to after by a push of plan ending with err. */
  predicate Pushed(before: seq<Transfer>, after: seq<Transfer>, plan: seq<Write>, err: int)
  {
    && |before| <= |after|
    && after[..|before|] == before
    && Transmitted(after[|before|..], plan, err)
  }

  /** A push succeeds exactly when every write of the plan was sent and acknowledged. */
  lemma PushedOutcome(sent: seq<Transfer>, plan: seq<Write>, err: int)
    requires plan != [] && Transmitted(sent, plan, err)
    ensures err == ERROR_NONE <==> |sent| == |plan| && forall j :: 0 <= j < |sent| ==> sent[j].ok
    ensures err == ERROR_SETUP ==> exists j :: 0 <= j < |sent| && !sent[j].ok
  {
  }

  class Input {
    const dev: Device
    const funcs: array<Descriptor>
    const channels: array<int>
    var polarity: nat
    var execute: nat
    var enabled: nat

    /** The fixed sizes of the function table and of the channel table. */
    ghost predicate Shaped()
      reads this
    {
      funcs.Length == FUNC_COUNT && channels.Length == CHANNEL_COUNT
    }

    /** The object invariant: the cached image is the packing of the function table. */
    ghost predicate Valid()
      reads this, funcs, channels
    {
      Shaped() && Image() == Pack(funcs[..])
    }

    function Image(): Image
      reads this, channels
    {
      EposCodec.Image(channels[..], polarity, execute, enabled)
    }

    /** Binds the module to a device; no I/O.  Every function starts unassigned, high, off. */
    constructor (dev: Device)
      ensures Valid() && this.dev == dev && fresh(funcs) && fresh(channels)
      ensures funcs[..] == DefaultTable()
      ensures Image() == EposCodec.Image(seq(CHANNEL_COUNT, _ => DUMMY_FUNC), 0, 0, 0)
    {
      this.dev := dev;
      funcs := new Descriptor[FUNC_COUNT](_ => DEFAULT_FUNC);
      channels := new int[CHANNEL_COUNT](_ => DUMMY_FUNC);
      polarity, execute, enabled := 0, 0, 0;
      new;
      assert funcs[..] == DefaultTable();
      PackDefault();
    }

    /** Repacks the function table and pushes the image to the device. */
    method Setup() returns (err: int)
      requires Shaped()
      modifies this, channels, dev
      ensures Valid() && funcs[..] == old(funcs[..])
      ensures Image() == Pack(old(funcs[..]))
      ensures Pushed(old(dev.log), dev.log, SetupWrites(Image()), err)
    {
      Repack();
      err := Push();
    }

    /** Recomputes the channel table and the masks from the function table. */
    method Repack()
      requires Shaped()
      modifies this, channels
      ensures Valid() && funcs[..] == old(funcs[..])
      ensures unchanged(dev)
    {
      RouteChannels();
      var p := ChannelMask(PolarityFlag);
      var x := ChannelMask(ExecuteFlag);
      var e := ChannelMask(EnabledFlag);
      polarity, execute, enabled := p, x, e;
    }

    /**
     * Fills the channel table: every slot starts as the dummy function, then
     * each function in enumeration order claims the slot of its channel.
     */
    method RouteChannels()
      requires Shaped()
      modifies channels
      ensures channels[..] == Route(funcs[..])
    {
      for c := 0 to CHANNEL_COUNT
        invariant forall k :: 0 <= k < c ==> channels[k] == DUMMY_FUNC
      {
        channels[c] := DUMMY_FUNC;
      }
      assert channels[..] == RouteUpTo(funcs[..], 0);
      for i := 0 to FUNC_COUNT
        invariant channels[..] == RouteUpTo(funcs[..], i)
      {
        var ch := funcs[i].channel;
        if IsChannel(ch) {
          channels[ch] := i;
        }
      }
    }

    /**
     * Collects one flag of the functions into a mask: each function in
     * enumeration order that sits on a physical channel and has the flag sets
     * that channel's bit; bits are only ever set, never cleared.
     */
    method ChannelMask(f: Flag) returns (m: nat)
      requires Shaped()
      ensures m == MaskFrom(ChannelBits(funcs[..], f))
    {
      m := 0;
      assert FlagBitsUpTo(funcs[..], f, 0) == seq(CHANNEL_COUNT, _ => false);
      ZeroMask(CHANNEL_COUNT);
      for i := 0 to FUNC_COUNT
        invariant m == MaskFrom(FlagBitsUpTo(funcs[..], f, i))
      {
        var ch := funcs[i].channel;
        if IsChannel(ch) && FlagOf(funcs[i], f) {
          MaskFromSet(FlagBitsUpTo(funcs[..], f, i), ch);
          if !TestBit(m, ch) {
            m := m + Pow2(ch);
          }
        }
      }
    }

    /** Sends the writes of the current image in order, stopping at the first one refused. */
    method Push() returns (err: int)
      requires Valid()
      modifies dev
      ensures Valid()
      ensures Pushed(old(dev.log), dev.log, SetupWrites(Image()), err)
    {
      var plan := SetupWrites(Image());
      ghost var before := dev.log;
      err := ERROR_NONE;
      var i := 0;
      while i < |plan| && err == ERROR_NONE
        invariant 0 <= i <= |plan|
        invariant |before| <= |dev.log| && dev.log[..|before|] == before
        invariant var sent := dev.log[|before|..];
          && |sent| == i
          && (forall j :: 0 <= j < i ==> sent[j].write == plan[j])
          && (forall j :: 0 <= j < i - 1 ==> sent[j].ok)
          && (err == ERROR_NONE ==> forall j :: 0 <= j < i ==> sent[j].ok)
          && (err == ERROR_NONE || err == ERROR_SETUP)
          && (err == ERROR_SETUP <==> i > 0 && !sent[i - 1].ok)
      {
        var ok := dev.WriteObject(plan[i]);
        if !ok {
          err := ERROR_SETUP;
        }
        i := i + 1;
      }
    }

    /** The cached descriptor of one function; defined for every function type. */
    function GetFunc(t: FuncType): (d: Descriptor)
      reads this, funcs
      requires Shaped()
      ensures d == funcs[..][t.Ordinal()]
    {
      funcs[t.Ordinal()]
    }

    /** Replaces one descriptor, then pushes the whole image; memory is updated whatever the outcome. */
    method SetFunc(t: FuncType, d: Descriptor) returns (err: int)
      requires Valid()
      modifies this, funcs, channels, dev
      ensures Valid()
      ensures GetFunc(t) == d
      ensures forall u :: u != t ==> GetFunc(u) == old(GetFunc(u))
      ensures Pushed(old(dev.log), dev.log, SetupWrites(Image()), err)
    {
      funcs[t.Ordinal()] := d;
      err := Setup();
    }

    function GetFuncChannel(t: FuncType): (ch: int)
      reads this, funcs
      requires Shaped()
      ensures ch == GetFunc(t).channel
    {
      funcs[t.Ordinal()].channel
    }

    function GetFuncPolarity(t: FuncType): (p: Polarity)
      reads this, funcs
      requires Shaped()
      ensures p == GetFunc(t).polarity
    {
      funcs[t.Ordinal()].polarity
    }

    function GetFuncExecute(t: FuncType): (x: int)
      reads this, funcs
      requires Shaped()
      ensures x == GetFunc(t).execute
    {
      funcs[t.Ordinal()].execute
    }

    function GetFuncEnabled(t: FuncType): (e: int)
      reads this, funcs
      requires Shaped()
      ensures e == GetFunc(t).enabled
    {
      funcs[t.Ordinal()].enabled
    }

    method SetFuncChannel(t: FuncType, channel: int) returns (err: int)
      requires Valid()
      modifies this, funcs, channels, dev
      ensures Valid()
      ensures GetFunc(t) == old(GetFunc(t)).(channel := channel)
      ensures GetFuncChannel(t) == channel
      ensures forall u :: u != t ==> GetFunc(u) == old(GetFunc(u))
      ensures Pushed(old(dev.log), dev.log, SetupWrites(Image()), err)
    {
      var d := funcs[t.Ordinal()];
      err := SetFunc(t, d.(channel := channel));
    }

    method SetFuncPolarity(t: FuncType, polarity: Polarity) returns (err: int)
      requires Valid()
      modifies this, funcs, channels, dev
      ensures Valid()
      ensures GetFunc(t) == old(GetFunc(t)).(polarity := polarity)
      ensures GetFuncPolarity(t) == polarity
      ensures forall u :: u != t ==> GetFunc(u) == old(GetFunc(u))
      ensures Pushed(old(dev.log), dev.log, SetupWrites(Image()), err)
    {
      var d := funcs[t.Ordinal()];
      err := SetFunc(t, d.(polarity := polarity));
    }

    method SetFuncExecute(t: FuncType, execute: int) returns (err: int)
      requires Valid()
      modifies this, funcs, channels, dev
      ensures Valid()
      ensures GetFunc(t) == old(GetFunc(t)).(execute := execute)
      ensures GetFuncExecute(t) == execute
      ensures forall u :: u != t ==> GetFunc(u) == old(GetFunc(u))
      ensures Pushed(old(dev.log), dev.log, SetupWrites(Image()), err)
    {
      var d := funcs[t.Ordinal()];
      err := SetFunc(t, d.(execute := execute));
    }

    method SetFuncEnabled(t: FuncType, enabled: int) returns (err: int)
      requires Valid()
      modifies this, funcs, channels, dev
      ensures Valid()
      ensures GetFunc(t) == old(GetFunc(t)).(enabled := enabled)
      ensures GetFuncEnabled(t) == enabled
      ensures forall u :: u != t ==> GetFunc(u) == old(GetFunc(u))
      ensures Pushed(old(dev.log), dev.log, SetupWrites(Image()), err)
    {
      var d := funcs[t.Ordinal()];
      err := SetFunc(t, d.(enabled := enabled));
    }
  }

  /**
   * Negative and positive limit switch configured on channel 3, both high and
   * enabled, neither executing: the positive switch, later in enumeration
   * order, owns the slot, and channel 3 is enabled, high and not executing.
   */
  method CollisionScenario(dev: Device) returns (input: Input)
    modifies dev
    ensures input.Valid() && input.dev == dev
    ensures input.channels[3] == PosSwitch.Ordinal()
    ensures TestBit(input.enabled, 3)
    ensures !TestBit(input.polarity, 3) && !TestBit(input.execute, 3)
  {
    input := new Input(dev);
    var d := InitFunc(3, High, 0, 1);
    var err := input.SetFunc(NegSwitch, d);
    err := input.SetFunc(PosSwitch, d);
    forall j | PosSwitch.Ordinal() < j < FUNC_COUNT
      ensures input.funcs[..][j].channel != 3
    {
      assert input.funcs[..][j] == input.GetFunc(FuncTypeOf(j).value);
    }
    CollisionOnChannelThree(input.funcs[..], PolarityFlag);
    CollisionOnChannelThree(input.funcs[..], ExecuteFlag);
    CollisionOnChannelThree(input.funcs[..], EnabledFlag);
  }

  /** Setting up twice without touching the table sends the same writes and leaves the same image. */
  method SetupTwice(input: Input) returns (err1: int, err2: int)
    requires input.Shaped()
    modifies input, input.channels, input.dev
    ensures input.Valid() && input.funcs[..] == old(input.funcs[..])
    ensures var plan := SetupWrites(Pack(old(input.funcs[..])));
      exists mid :: Pushed(old(input.dev.log), mid, plan, err1) && Pushed(mid, input.dev.log, plan, err2)
  {
    err1 := input.Setup();
    ghost var mid := input.dev.log;
    err2 := input.Setup();
  }
}
