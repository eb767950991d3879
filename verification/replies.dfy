/** The vocabulary shared by both reply builders: fixed-width integers,
    the multi-get item `ResponseValue`, the collection tags of the Redis
    builder, and the `Reply` calls a builder can be asked to emit.

    The bodies of the `Send*` methods are not part of this model, so a reply
    is recorded as the call that was made (with its arguments) rather than
    as the bytes it produces. */
module Replies {
  import opened Wrappers

  newtype u32 = x: int | 0 <= x < 0x1_0000_0000
  newtype u64 = x: int | 0 <= x < 0x1_0000_0000_0000_0000
  newtype i64 = x: int | -0x8000_0000_0000_0000 <= x < 0x8000_0000_0000_0000

  /** One retrieved item of a multi-get reply. `mcVer` is the CAS token,
      where 0 is a sentinel meaning "not requested, do not output it". */
  datatype ResponseValue = ResponseValue(key: string, value: string, mcVer: u64, mcFlag: u32)

  /** `std::optional<ResponseValue>`: None is "key not found". */
  type OptResp = Option<ResponseValue>

  /** A response value built with the default member initialisers. */
  function NewResponseValue(key: string, value: string): (r: ResponseValue)
    ensures r.key == key && r.value == value
    ensures EmittedVersion(r) == None
    ensures r.mcFlag == 0
  {
    ResponseValue(key, value, 0, 0)
  }

  /** The CAS token that the memcached grammar writes for `rv`, if any. */
  function EmittedVersion(rv: ResponseValue): (r: Option<u64>)
    ensures r.None? <==> rv.mcVer == 0
    ensures r.Some? ==> r.value == rv.mcVer && r.value != 0
  {
    if rv.mcVer == 0 then None else Some(rv.mcVer)
  }

  /** Stores an optional CAS token into `rv` using the 0 sentinel. */
  function WithVersion(rv: ResponseValue, ver: Option<u64>): (r: ResponseValue)
    ensures r.key == rv.key && r.value == rv.value && r.mcFlag == rv.mcFlag
  {
    rv.(mcVer := ver.GetOr(0))
  }

  /** The sentinel encoding is lossless for every token except 0. */
  lemma VersionRoundTrip(rv: ResponseValue, ver: Option<u64>)
    requires ver != Some(0)
    ensures EmittedVersion(WithVersion(rv, ver)) == ver
  {
  }

  /** A token of 0 cannot be requested: it reads back as "not requested". */
  lemma ZeroVersionIsSuppressed(rv: ResponseValue)
    ensures EmittedVersion(WithVersion(rv, Some(0))) == None
    ensures WithVersion(rv, Some(0)) == WithVersion(rv, None)
  {
  }

  /** `RedisReplyBuilder::CollectionType`. */
  datatype CollectionType = Array | Set | Map | Push

  /** A call of one of the builders' virtual `Send*` methods, with its
      arguments. */
  datatype Reply =
    | Error(message: string, errorType: string)
    | Stored
    | SetSkipped
    | MGetResponse(items: seq<OptResp>)
    | Long(n: i64)
    | SimpleString(text: string)
    | ProtocolError(text: string)
    | NullArray
    | EmptyArray
    | StartCollection(len: u32, collection: CollectionType)
}
