/** Types shared by the models: optional values (nil pointers), 32-bit integers, bytes,
    and the object that carries user data. */
module GoTypes {

  datatype Option<+T> = None | Some(value: T)

  newtype byte = x: int | 0 <= x < 256
  type Bytes = seq<byte>

  const MAX_INT32 := 0x7fff_ffff
  const MIN_INT32 := -0x8000_0000

  type int32 = x: int | MIN_INT32 <= x <= MAX_INT32

  /** Two's-complement wrap-around, what int32 arithmetic and int32(x) do in Go. */
  function Wrap32(x: int): (r: int32)
    ensures MIN_INT32 <= x <= MAX_INT32 ==> r == x
    ensures MAX_INT32 < x <= MAX_INT32 + 0x1_0000_0000 ==> r == x - 0x1_0000_0000
  {
    (x + 0x8000_0000) % 0x1_0000_0000 - 0x8000_0000
  }

  /** Where the blob store keeps an object: yyyymmdd$workflowId/uuid. */
  datatype ObjectPath = ObjectPath(yyyymmdd: string, workflowId: string, uuid: nat)

  datatype EncodedObject = EncodedObject(
    encoding: Option<string>,
    data: Option<string>,
    extStoreId: Option<string>,
    extPath: Option<ObjectPath>)

  /** A message or an output: a pointer to an encoded object, possibly nil. */
  type Message = Option<EncodedObject>

  /** A data attribute, or a local of a state execution. */
  datatype KeyValue = KeyValue(key: Option<string>, value: Message)

  /** The next key of a range over a map: Go leaves the order open. */
  method AnyKey<K>(keys: set<K>) returns (k: K)
    requires keys != {}
    ensures k in keys
  {
    k :| k in keys;
  }
}
