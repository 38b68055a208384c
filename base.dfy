/** Vocabulary shared by every part of the bridge: fixed-width integers,
    Option/Result, the error values the bridge reports, native handle tokens,
    and Rust's `str::parse::<u32>`. */
module Base {

  /** Rust's `u32` and `i32`. */
  type U32 = x: int | 0 <= x < 0x1_0000_0000
  type I32 = x: int | -0x8000_0000 <= x < 0x8000_0000

  const U32_MAX: U32 := 0xFFFF_FFFF

  datatype Option<+T> = None | Some(value: T)

  datatype Result<+T> = Ok(value: T) | Err(error: Error)

  /** The root cause of every failure the bridge reports (the `anyhow`
      context strings wrapped around them are not modelled). */
  datatype Error =
    // store.rs: the thread-local slot holds no store
    | NoStore
    // store.rs: the five links of default-device resolution
    | NoDefaultSinkName
    | NoDefaultSinkId
    | NoDefaultDeviceId
    | NotDefaultDevice
    | NoDefaultRoute
    // sink_props.rs, audio_sink.rs, audio_device.rs: parameter decoding
    | PodNotObject
    | ChannelVolumesNotFloatArray
    | ChannelVolumesNotTwo
    | MuteNotBool
    | RouteIndexNotInt
    | RouteDeviceNotInt
    | NoRouteIndex
    | NoRouteDevice
    // audio_sink.rs: the global object's property dictionary
    | NoSinkName
    | NoDeviceId
    | DeviceIdNotNumber
    // mod.rs: `registry.bind` asked for the wrong proxy type
    | WrongProxyType(expected: ObjectType)
    // audio_sink.rs: the event receiver is gone
    | EventChannelClosed

  /** The interface type of a PipeWire global object. */
  datatype ObjectType = NodeType | DeviceType | MetadataType | OtherType(name: string)

  /** A bound native proxy (`Node`, `Device` or `Metadata`), as an opaque token. */
  datatype Proxy = Proxy(kind: ObjectType, id: U32)

  /** A registered native listener, as an opaque token. */
  datatype ListenerHandle = ListenerHandle(token: nat)

  function DigitValue(c: char): (d: nat)
    requires '0' <= c <= '9'
    ensures d < 10
  {
    (c as int - '0' as int) as nat
  }

  predicate AllDigits(s: string) {
    forall i :: 0 <= i < |s| ==> '0' <= s[i] <= '9'
  }

  /** The value of a string of decimal digits, most significant first. */
  function DigitsValue(s: string): nat
    requires AllDigits(s)
  {
    if s == [] then 0 else DigitsValue(s[..|s| - 1]) * 10 + DigitValue(s[|s| - 1])
  }

  /** Rust's `u32::from_str`: an optional `+`, then at least one decimal digit,
      and a value that fits in 32 bits; anything else is an error. */
  function ParseU32(s: string): (r: Option<U32>)
    ensures r.Some? ==> s != [] && s != "+"
  {
    var digits := if |s| > 0 && s[0] == '+' then s[1..] else s;
    if digits == [] || !AllDigits(digits) then None
    else if DigitsValue(digits) <= U32_MAX then Some(DigitsValue(digits))
    else None
  }

  /** Decimal rendering of a number, the form PipeWire writes `device.id` in. */
  function Decimal(n: nat): (s: string)
    ensures s != [] && AllDigits(s)
  {
    if n < 10 then [('0' as int + n) as char]
    else Decimal(n / 10) + [('0' as int + n % 10) as char]
  }

  lemma {:induction false} DecimalValue(n: nat)
    ensures DigitsValue(Decimal(n)) == n
  {
    var s := Decimal(n);
    if n >= 10 {
      DecimalValue(n / 10);
      assert s[..|s| - 1] == Decimal(n / 10);
    }
  }

  /** Parsing the decimal rendering of a 32-bit id gives the id back. */
  lemma ParseDecimalRoundTrip(n: U32)
    ensures ParseU32(Decimal(n)) == Some(n)
  {
    DecimalValue(n);
  }
}
