/** Decoding a sink node's Props parameter into optional volume and mute
    (src/pipewire/sink_props.rs). The per-property interpretation is shared
    with the event-emitting decoder of audio_sink.rs. */
module SinkPropsCodec {
  import opened Base
  import opened Spa
  import opened Scale
  import opened Runtime

  datatype SinkProps = SinkProps(volume: Option<U32>, muted: Option<bool>)

  const Unset := SinkProps(None, None)

  /** What one property of a Props object means: nothing (an unknown key), a
      volume or mute reading, or an error for a known key of the wrong kind
      or a channel-volume array whose length is not two. */
  function Interpret(p: Property): (r: Result<Option<Event>>)
    ensures p.key != PROP_CHANNEL_VOLUMES && p.key != PROP_MUTE ==> r == Ok(None)
    ensures p.key == PROP_CHANNEL_VOLUMES ==>
              (r.Ok? <==> p.value.FloatArray? && |p.value.floats| == 2) && (r.Ok? ==> r.value.Some? && r.value.value.Volume?)
    ensures p.key == PROP_MUTE ==>
              (r.Ok? <==> p.value.Bool?) && (r.Ok? ==> r.value == Some(Mute(p.value.b)))
  {
    if p.key == PROP_CHANNEL_VOLUMES then
      match p.value
      case FloatArray(floats) =>
        if |floats| == 2 then Ok(Some(Volume(IngestVolume(floats[0], floats[1]))))
        else Err(ChannelVolumesNotTwo)
      case _ => Err(ChannelVolumesNotFloatArray)
    else if p.key == PROP_MUTE then
      match p.value
      case Bool(muted) => Ok(Some(Mute(muted)))
      case _ => Err(MuteNotBool)
    else Ok(None)
  }

  predicate Malformed(p: Property) { Interpret(p).Err? }

  /** A reading overwrites its own field. */
  function Apply(acc: SinkProps, e: Event): SinkProps {
    match e
    case Volume(v) => acc.(volume := Some(v))
    case Mute(m) => acc.(muted := Some(m))
  }

  function Step(acc: SinkProps, p: Property): Result<SinkProps> {
    match Interpret(p)
    case Err(e) => Err(e)
    case Ok(None) => Ok(acc)
    case Ok(Some(e)) => Ok(Apply(acc, e))
  }

  /** The loop of `try_from`, from the accumulated fields `acc` on. */
  function DecodeFrom(ps: seq<Property>, acc: SinkProps): Result<SinkProps>
    decreases |ps|
  {
    if ps == [] then Ok(acc)
    else match Step(acc, ps[0])
      case Err(e) => Err(e)
      case Ok(next) => DecodeFrom(ps[1..], next)
  }

  /** `SinkProps::try_from`, on the deserialized value. */
  function Decode(param: Value): (r: Result<SinkProps>)
    ensures !param.Object? ==> r == Err(PodNotObject)
  {
    match param
    case Object(_, _, properties) => DecodeFrom(properties, Unset)
    case _ => Err(PodNotObject)
  }

  method TryFrom(param: Value) returns (r: Result<SinkProps>)
    ensures r == Decode(param)
  {
    if !param.Object? {
      return Err(PodNotObject);
    }
    var properties := param.properties;
    var volume: Option<U32> := None;
    var muted: Option<bool> := None;
    for i := 0 to |properties|
      invariant DecodeFrom(properties, Unset) == DecodeFrom(properties[i..], SinkProps(volume, muted))
    {
      var prop := properties[i];
      assert properties[i..][0] == prop && properties[i..][1..] == properties[i + 1..];
      if prop.key == PROP_CHANNEL_VOLUMES {
        if prop.value.FloatArray? {
          var floats := prop.value.floats;
          if |floats| != 2 {
            return Err(ChannelVolumesNotTwo);
          }
          volume := Some(IngestVolume(floats[0], floats[1]));
        } else {
          return Err(ChannelVolumesNotFloatArray);
        }
      } else if prop.key == PROP_MUTE {
        if prop.value.Bool? {
          muted := Some(prop.value.b);
        } else {
          return Err(MuteNotBool);
        }
      }
    }
    assert properties[|properties|..] == [];
    return Ok(SinkProps(volume, muted));
  }

  /** Decoding a concatenation decodes the second part from where the first stopped. */
  lemma {:induction false} DecodeFromAppend(a: seq<Property>, b: seq<Property>, acc: SinkProps)
    ensures DecodeFrom(a + b, acc) == match DecodeFrom(a, acc)
                                      case Ok(mid) => DecodeFrom(b, mid)
                                      case Err(e) => Err(e)
    decreases |a|
  {
    if a == [] {
      assert a + b == b;
    } else {
      assert (a + b)[0] == a[0] && (a + b)[1..] == a[1..] + b;
      match Step(acc, a[0])
      case Err(e) =>
      case Ok(next) => DecodeFromAppend(a[1..], b, next);
    }
  }

  /** Decoding succeeds exactly when no property is malformed. */
  lemma {:induction false} DecodeOkIff(ps: seq<Property>, acc: SinkProps)
    ensures DecodeFrom(ps, acc).Ok? <==> forall i :: 0 <= i < |ps| ==> !Malformed(ps[i])
    decreases |ps|
  {
    if ps != [] {
      match Step(acc, ps[0])
      case Err(e) =>
      case Ok(next) =>
        DecodeOkIff(ps[1..], next);
        assert forall i :: 1 <= i < |ps| ==> ps[i] == ps[1..][i - 1];
    }
  }

  /** The error reported is that of the first malformed property. */
  lemma {:induction false} DecodeFirstError(ps: seq<Property>, acc: SinkProps, i: nat)
    requires i < |ps| && Malformed(ps[i])
    requires forall j :: 0 <= j < i ==> !Malformed(ps[j])
    ensures DecodeFrom(ps, acc) == Err(Interpret(ps[i]).error)
    decreases i
  {
    if i > 0 {
      DecodeFirstError(ps[1..], Step(acc, ps[0]).value, i - 1);
    }
  }

  /** When decoding succeeds, the volume is the one of the last channel-volume
      property, and the fields no property sets keep their starting value. */
  lemma {:induction false} LastVolumeWins(ps: seq<Property>, acc: SinkProps, i: nat)
    requires DecodeFrom(ps, acc).Ok?
    requires i < |ps| && ps[i].key == PROP_CHANNEL_VOLUMES
    requires forall j :: i < j < |ps| ==> ps[j].key != PROP_CHANNEL_VOLUMES
    ensures ps[i].value.FloatArray? && |ps[i].value.floats| == 2
    ensures DecodeFrom(ps, acc).value.volume
            == Some(IngestVolume(ps[i].value.floats[0], ps[i].value.floats[1]))
    decreases |ps|
  {
    var next := Step(acc, ps[0]).value;
    if i > 0 {
      LastVolumeWins(ps[1..], next, i - 1);
    } else {
      NoKeyKeepsFields(ps[1..], next);
    }
  }

  lemma {:induction false} LastMuteWins(ps: seq<Property>, acc: SinkProps, i: nat)
    requires DecodeFrom(ps, acc).Ok?
    requires i < |ps| && ps[i].key == PROP_MUTE
    requires forall j :: i < j < |ps| ==> ps[j].key != PROP_MUTE
    ensures ps[i].value.Bool?
    ensures DecodeFrom(ps, acc).value.muted == Some(ps[i].value.b)
    decreases |ps|
  {
    var next := Step(acc, ps[0]).value;
    if i > 0 {
      LastMuteWins(ps[1..], next, i - 1);
    } else {
      NoKeyKeepsFields(ps[1..], next);
    }
  }

  lemma {:induction false} NoKeyKeepsFields(ps: seq<Property>, acc: SinkProps)
    requires DecodeFrom(ps, acc).Ok?
    ensures (forall j :: 0 <= j < |ps| ==> ps[j].key != PROP_CHANNEL_VOLUMES)
            ==> DecodeFrom(ps, acc).value.volume == acc.volume
    ensures (forall j :: 0 <= j < |ps| ==> ps[j].key != PROP_MUTE)
            ==> DecodeFrom(ps, acc).value.muted == acc.muted
    decreases |ps|
  {
    if ps != [] {
      var next := Step(acc, ps[0]).value;
      NoKeyKeepsFields(ps[1..], next);
      assert forall j :: 1 <= j < |ps| ==> ps[j] == ps[1..][j - 1];
    }
  }

  /** When a Props object decodes, a field whose key it does not contain is
      `None`. */
  lemma AbsentKeyIsNone(objectType: U32, id: U32, ps: seq<Property>)
    requires Decode(Object(objectType, id, ps)).Ok?
    ensures (forall j :: 0 <= j < |ps| ==> ps[j].key != PROP_CHANNEL_VOLUMES)
            ==> Decode(Object(objectType, id, ps)).value.volume == None
    ensures (forall j :: 0 <= j < |ps| ==> ps[j].key != PROP_MUTE)
            ==> Decode(Object(objectType, id, ps)).value.muted == None
  {
    NoKeyKeepsFields(ps, Unset);
  }

  /** A property with any other key can be added anywhere without effect. */
  lemma UnknownKeyIgnored(before: seq<Property>, p: Property, after: seq<Property>, acc: SinkProps)
    requires p.key != PROP_CHANNEL_VOLUMES && p.key != PROP_MUTE
    ensures DecodeFrom(before + [p] + after, acc) == DecodeFrom(before + after, acc)
  {
    DecodeFromAppend(before, [p] + after, acc);
    DecodeFromAppend(before, after, acc);
    assert before + [p] + after == before + ([p] + after);
    match DecodeFrom(before, acc)
    case Err(e) =>
    case Ok(mid) =>
      assert ([p] + after)[0] == p && ([p] + after)[1..] == after;
  }

  /** Swapping the two channel values of a channel-volume property never
      changes the outcome: only their mean is used. */
  lemma ChannelSwapInvariant(before: seq<Property>, left: real, right: real, after: seq<Property>, acc: SinkProps)
    ensures DecodeFrom(before + [Property(PROP_CHANNEL_VOLUMES, FloatArray([left, right]))] + after, acc)
         == DecodeFrom(before + [Property(PROP_CHANNEL_VOLUMES, FloatArray([right, left]))] + after, acc)
  {
    var p := Property(PROP_CHANNEL_VOLUMES, FloatArray([left, right]));
    var q := Property(PROP_CHANNEL_VOLUMES, FloatArray([right, left]));
    DecodeFromAppend(before, [p] + after, acc);
    DecodeFromAppend(before, [q] + after, acc);
    assert before + [p] + after == before + ([p] + after);
    assert before + [q] + after == before + ([q] + after);
    IngestSymmetric(left, right);
    match DecodeFrom(before, acc)
    case Err(e) =>
    case Ok(mid) =>
      assert ([p] + after)[0] == p && ([p] + after)[1..] == after;
      assert ([q] + after)[0] == q && ([q] + after)[1..] == after;
      assert Step(mid, p) == Step(mid, q);
  }
}
