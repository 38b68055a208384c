/** The already-deserialized SPA POD value tree that the parameter callbacks
    receive and that the command encoder builds, and the SPA constants the
    bridge uses (values from the SPA headers spa/param/param.h,
    spa/param/props.h, spa/param/route.h and spa/utils/type.h). */
module Spa {
  import opened Base

  /** `SPA_PARAM_Props` and `SPA_PARAM_Route` (also the `ParamType` values). */
  const PARAM_PROPS: U32 := 2
  const PARAM_ROUTE: U32 := 13

  /** Keys of a Props object. */
  const PROP_MUTE: U32 := 0x10004
  const PROP_CHANNEL_VOLUMES: U32 := 0x10008

  /** Keys of a Route object. */
  const PARAM_ROUTE_INDEX: U32 := 1
  const PARAM_ROUTE_DEVICE: U32 := 3
  const PARAM_ROUTE_PROPS: U32 := 10

  /** Object types (`SpaTypes::ObjectParamProps`, `SpaTypes::ObjectParamRoute`). */
  const TYPE_OBJECT_PROPS: U32 := 0x40002
  const TYPE_OBJECT_PARAM_ROUTE: U32 := 0x40009

  /** The value kinds the bridge reads or writes; floats are exact reals. */
  datatype Value =
    | Int(i: I32)
    | Bool(b: bool)
    | Float(f: real)
    | FloatArray(floats: seq<real>)
    | Object(objectType: U32, id: U32, properties: seq<Property>)

  /** One property of an object (its flags are always empty here). */
  datatype Property = Property(key: U32, value: Value)
}
