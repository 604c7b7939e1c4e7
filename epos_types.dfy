/**
 * Constants, enumerations and the per-function descriptor of the EPOS
 * digital-input module: the closed domains everything else is built on.
 */
module EposTypes {

  datatype Option<T> = None | Some(value: T)

  /** Sentinel slot values of the channel table. */
  const RESERVED_FUNC: int := 7
  const DUMMY_FUNC: int := 65535

  /** Object dictionary addresses of the input configuration. */
  const INDEX_CONFIG: int := 0x2070
  const INDEX_FUNCS: int := 0x2071
  const SUBINDEX_MASK: int := 0x02
  const SUBINDEX_POLARITY: int := 0x03
  const SUBINDEX_EXECUTE: int := 0x04

  /** The module's error codes; the error description table has one entry per code. */
  const ERROR_NONE: int := 0
  const ERROR_SETUP: int := 1
  const ERROR_COUNT: nat := 2

  /** Sizes of the function table and of the physical channel bank. */
  const FUNC_COUNT: nat := 5
  const CHANNEL_COUNT: nat := 8

  /** The five logical input functionalities, in enumeration order. */
  datatype FuncType = NegSwitch | PosSwitch | HomeSwitch | PosMarker | DevEnable
  {
    /** The enumerator's value, which is also its index into the function table. */
    function Ordinal(): (k: nat)
      ensures k < FUNC_COUNT
    {
      match this
      case NegSwitch => 0
      case PosSwitch => 1
      case HomeSwitch => 2
      case PosMarker => 3
      case DevEnable => 4
    }
  }

  /** The enumerator with value k, if there is one. */
  function FuncTypeOf(k: int): (t: Option<FuncType>)
    ensures t.Some? <==> 0 <= k < FUNC_COUNT
  {
    if k == 0 then Some(NegSwitch)
    else if k == 1 then Some(PosSwitch)
    else if k == 2 then Some(HomeSwitch)
    else if k == 3 then Some(PosMarker)
    else if k == 4 then Some(DevEnable)
    else None
  }

  lemma FuncTypeRoundTrip(t: FuncType, k: int)
    ensures FuncTypeOf(t.Ordinal()) == Some(t)
    ensures FuncTypeOf(k).Some? ==> FuncTypeOf(k).value.Ordinal() == k
  {
  }

  /** Ordinals are distinct, so each function owns its own table entry. */
  lemma OrdinalInjective(t: FuncType, u: FuncType)
    ensures t.Ordinal() == u.Ordinal() ==> t == u
  {
  }

  /** Input polarity: a function triggers on a high or on a low line. */
  datatype Polarity = High | Low
  {
    /** The enumerator's value: high = 0, low = 1. */
    function Code(): (v: int)
      ensures v == 0 || v == 1
      ensures v == 1 <==> this == Low
    {
      match this
      case High => 0
      case Low => 1
    }
  }

  /** The polarity with value v, if there is one. */
  function PolarityOf(v: int): (p: Option<Polarity>)
    ensures p.Some? <==> v == 0 || v == 1
    ensures p.Some? ==> p.value.Code() == v
  {
    if v == 0 then Some(High) else if v == 1 then Some(Low) else None
  }

  /** Descriptor of one input functionality. */
  datatype Descriptor = Descriptor(channel: int, polarity: Polarity, execute: int, enabled: int)

  /** True when ch names one of the eight physical input lines. */
  predicate IsChannel(ch: int)
  {
    0 <= ch < CHANNEL_COUNT
  }

  /** The descriptor every function holds right after the module is initialised. */
  const DEFAULT_FUNC: Descriptor := Descriptor(DUMMY_FUNC, High, 0, 0)

  function DefaultTable(): (fs: seq<Descriptor>)
    ensures |fs| == FUNC_COUNT
    ensures forall i :: 0 <= i < |fs| ==> fs[i] == DEFAULT_FUNC && !IsChannel(fs[i].channel)
  {
    seq(FUNC_COUNT, _ => DEFAULT_FUNC)
  }

  /** Fills a descriptor from its four parameters, without validating them. */
  method InitFunc(channel: int, polarity: Polarity, execute: int, enabled: int)
    returns (func: Descriptor)
    ensures func.channel == channel && func.polarity == polarity
    ensures func.execute == execute && func.enabled == enabled
  {
    func := Descriptor(channel, polarity, execute, enabled);
  }

  /** The two error kinds of the module. */
  datatype InputError = NoError | SetupError
  {
    function Code(): (c: int)
      ensures 0 <= c < ERROR_COUNT
      ensures c == ERROR_NONE <==> this == NoError
    {
      match this
      case NoError => ERROR_NONE
      case SetupError => ERROR_SETUP
    }
  }

  /** Looks a code up in the error description table: defined exactly for the two codes. */
  function ErrorOf(code: int): (e: Option<InputError>)
    ensures e.Some? <==> 0 <= code < ERROR_COUNT
    ensures e.Some? ==> e.value.Code() == code
  {
    if code == ERROR_NONE then Some(NoError)
    else if code == ERROR_SETUP then Some(SetupError)
    else None
  }

  lemma ErrorRoundTrip(e: InputError)
    ensures ErrorOf(e.Code()) == Some(e)
  {
  }
}
