/**
 * Event kinds, payloads and the type-erased payload container.
 *
 * An event kind is a marker type `E` implementing the `Event` trait; its
 * associated `Data` type is the payload shape. In the model a kind carries
 * its payload shape, so one kind can never be bound to two shapes. A
 * `Box<dyn Any + Send>` holding a payload is an `AnyBox`: the payload plus the
 * runtime type tag that `downcast` compares against.
 */
module Events {

  newtype byte = x: int | 0 <= x < 0x100
  newtype u32 = x: int | 0 <= x < 0x1_0000_0000

  datatype Option<T> = None | Some(value: T)

  /** The field types that payloads in this repository are built from. */
  datatype FieldType = StringType | U32Type | BytesType

  datatype Field = Str(s: string) | U32(n: u32) | Bytes(b: seq<byte>)

  /**
   * A payload shape: the tuple `(T1, ..., Tn)` the `event!` declaration
   * generates; a one-element shape stands for the bare type `T1`.
   */
  type Shape = seq<FieldType>

  type Value = seq<Field>

  /** An event kind: the identity `TypeId::of::<E>()` together with `E::Data`. */
  datatype Kind = Kind(name: string, data: Shape)

  function FieldTypeOf(f: Field): FieldType
  {
    match f
    case Str(_) => StringType
    case U32(_) => U32Type
    case Bytes(_) => BytesType
  }

  /** The static type of a payload value. */
  function TypeOf(v: Value): Shape
  {
    seq(|v|, i requires 0 <= i < |v| => FieldTypeOf(v[i]))
  }

  /** `Box<dyn Any + Send>`: a value together with the type id of its type. */
  datatype AnyBox = AnyBox(typeId: Shape, contents: Value)

  /** `Box::new(v)` coerced to `Box<dyn Any + Send>`. */
  function Box(v: Value): AnyBox
  {
    AnyBox(TypeOf(v), v)
  }

  /** `Box<dyn Any>::downcast::<T>()`: succeeds exactly when the type ids agree. */
  function Downcast(b: AnyBox, expected: Shape): Option<Value>
  {
    if b.typeId == expected then Some(b.contents) else None
  }

  /**
   * Boxing and then downcasting to the value's own type gives the value back;
   * downcasting to any other type fails, and a successful downcast recovers a
   * value of the requested type.
   */
  lemma BoxDowncast(v: Value, expected: Shape)
    ensures Downcast(Box(v), expected).Some? <==> expected == TypeOf(v)
    ensures expected == TypeOf(v) ==> Downcast(Box(v), expected) == Some(v)
    ensures Downcast(Box(v), expected).Some? ==> TypeOf(Downcast(Box(v), expected).value) == expected
  {
  }
}
