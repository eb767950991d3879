/** `RedisReplyBuilder`: the RESP builder. The header states the framing of
    its array calls in comments (`SendNullArray` sends `*-1`,
    `SendEmptyArray` sends `*0`, `StartArray` is
    `StartCollection(len, ARRAY)`); those are modelled here. Its other
    `Send*` bodies are not part of this model. */
module RedisBuilder {
  import opened Wrappers
  import Replies
  import opened SinkBuilder
  import opened RespFraming

  datatype RedisReplyBuilder = RedisReplyBuilder(base: Builder, isResp3: bool)

  /** Records one call on the shared builder state. */
  function Call(rb: RedisReplyBuilder, reply: Replies.Reply): (r: RedisReplyBuilder)
    ensures r.base.trace == rb.base.trace + [Sent(reply, rb.base.shouldAggregate)]
    ensures rb.base.SameButTrace(r.base)
    ensures r.isResp3 == rb.isResp3
  {
    rb.(base := Emit(rb.base, reply))
  }

  /** `StartCollection(len, type)`. */
  function StartCollection(rb: RedisReplyBuilder, len: Replies.u32, collection: Replies.CollectionType)
    : (r: RedisReplyBuilder)
    ensures r.base.trace == rb.base.trace
      + [Sent(Replies.StartCollection(len, collection), rb.base.shouldAggregate)]
    ensures rb.base.SameButTrace(r.base) && r.isResp3 == rb.isResp3
  {
    Call(rb, Replies.StartCollection(len, collection))
  }

  /** `StartArray(len)`: the same as `StartCollection(len, ARRAY)`. */
  function StartArray(rb: RedisReplyBuilder, len: Replies.u32): (r: RedisReplyBuilder)
    ensures r == StartCollection(rb, len, Replies.Array)
    ensures rb.base.SameButTrace(r.base) && r.isResp3 == rb.isResp3
  {
    StartCollection(rb, len, Replies.Array)
  }

  /** `SendNullArray()`. */
  function SendNullArray(rb: RedisReplyBuilder): (r: RedisReplyBuilder)
    ensures r.base.trace == rb.base.trace + [Sent(Replies.NullArray, rb.base.shouldAggregate)]
    ensures rb.base.SameButTrace(r.base) && r.isResp3 == rb.isResp3
  {
    Call(rb, Replies.NullArray)
  }

  /** `SendEmptyArray()`. */
  function SendEmptyArray(rb: RedisReplyBuilder): (r: RedisReplyBuilder)
    ensures r.base.trace == rb.base.trace + [Sent(Replies.EmptyArray, rb.base.shouldAggregate)]
    ensures rb.base.SameButTrace(r.base) && r.isResp3 == rb.isResp3
  {
    Call(rb, Replies.EmptyArray)
  }

  /** The RESP array header a call writes, for the calls whose framing the
      builder's comments document: the null array, the empty array, and an
      ARRAY collection start. None for every other call, including SET,
      MAP and PUSH collection starts, which under RESP2 also write array
      headers that this model does not represent. */
  function ArrayFrame(reply: Replies.Reply): (r: Option<string>)
    ensures r.Some? <==> (reply.NullArray? || reply.EmptyArray?
                          || (reply.StartCollection? && reply.collection == Replies.Array))
  {
    match reply
    case NullArray => Some(EncodeArrayHeader(NullLen))
    case EmptyArray => Some(EncodeArrayHeader(Len(0)))
    case StartCollection(len, Array) => Some(EncodeArrayHeader(Len(len as nat)))
    case _ => None
  }

  /** The last call recorded on a builder, read back as wire bytes. */
  function LastFrame(rb: RedisReplyBuilder): Option<string>
  {
    if rb.base.trace == [] then None
    else match rb.base.trace[|rb.base.trace| - 1]
      case Sent(reply, _) => ArrayFrame(reply)
      case _ => None
  }

  /** `SendNullArray` writes `*-1` and a line end, which reads back as the
      null array. */
  lemma SendNullArrayFrame(rb: RedisReplyBuilder)
    ensures LastFrame(SendNullArray(rb)) == Some("*-1\r\n")
    ensures DecodeArrayHeader("*-1\r\n") == Some(NullLen)
  {
    assert EncodeArrayHeader(NullLen) == "*-1\r\n";
    DecodeEncodeArrayHeader(NullLen);
  }

  /** `SendEmptyArray` writes `*0` and a line end: the same bytes as
      starting an array of length 0, read back as zero elements. */
  lemma SendEmptyArrayFrame(rb: RedisReplyBuilder)
    ensures LastFrame(SendEmptyArray(rb)) == Some("*0\r\n")
    ensures LastFrame(SendEmptyArray(rb)) == LastFrame(StartArray(rb, 0))
    ensures DecodeArrayHeader("*0\r\n") == Some(Len(0))
  {
    assert Decimal(0) == "0";
    assert EncodeArrayHeader(Len(0)) == "*0\r\n";
    DecodeEncodeArrayHeader(Len(0));
  }

  /** `StartArray(len)` writes a header that reads back as exactly `len`
      elements, and distinct lengths give distinct headers. */
  lemma StartArrayFrame(rb: RedisReplyBuilder, len: Replies.u32)
    ensures LastFrame(StartArray(rb, len)).Some?
    ensures DecodeArrayHeader(LastFrame(StartArray(rb, len)).value) == Some(Len(len as nat))
  {
    DecodeEncodeArrayHeader(Len(len as nat));
  }

  /** Among the documented array calls (null array, empty array, ARRAY
      collection start), the header identifies the call, except that the
      empty array and an array of length 0 share it. */
  lemma ArrayFramesDistinct(a: Replies.Reply, b: Replies.Reply)
    requires ArrayFrame(a).Some? && ArrayFrame(b).Some?
    requires ArrayFrame(a) == ArrayFrame(b)
    ensures a == b || {a, b} == {Replies.EmptyArray, Replies.StartCollection(0, Replies.Array)}
  {
    match a
    case NullArray => DecodeEncodeArrayHeader(NullLen);
    case EmptyArray => DecodeEncodeArrayHeader(Len(0));
    case StartCollection(len, _) => DecodeEncodeArrayHeader(Len(len as nat));
    match b
    case NullArray => DecodeEncodeArrayHeader(NullLen);
    case EmptyArray => DecodeEncodeArrayHeader(Len(0));
    case StartCollection(len, _) => DecodeEncodeArrayHeader(Len(len as nat));
  }
}
