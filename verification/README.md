# Reply builder state and aggregation guard (Dragonfly `facade`)

A Dafny model of the per-connection reply-builder core of Dragonfly's
`facade` layer, as declared in `src/facade/reply_builder.h`:

- the state record of `SinkReplyBuilder` (batch buffer, sticky error code,
  I/O counters, per-label error counts, and the three mode flags
  `should_batch_`, `should_aggregate_`, `has_replied_`), its inline
  accessors and `reset_io_stats`;
- the scoped `ReplyAggregator` guard, which starts aggregation on
  construction and stops it on destruction unless the builder was already
  aggregating, so that nested guards (a command inside MULTI/EXEC) collapse
  to one start/stop pair;
- the inline delegations and value conventions: `SendOk` is
  `SendSimpleString("OK")`, `ResponseValue::mc_ver == 0` means "do not
  output the CAS token", `MCReplyBuilder::SetNoreply`, and the array framing
  the Redis builder documents (`SendNullArray` sends `*-1`,
  `SendEmptyArray` sends `*0`, `StartArray(len)` is
  `StartCollection(len, ARRAY)`), encoded as RESP2 array headers
  (`*<len>\r\n`, `*-1\r\n`) per the Redis serialization protocol.

The state is an immutable datatype and every operation a pure function.
The bodies of the virtual `Send*` methods live in a file that is not part
of this model, so a call of one of them is recorded in the builder's
`trace` as the call made (`Event.Sent(reply, aggregated)`, where
`aggregated` is the value of `should_aggregate_` at the call) rather than
as bytes. `StartAggregate` and `StopAggregate` are likewise only declared
in the header; the model assumes, from the field name and from the guard's
test of `should_aggregate_`, that `StartAggregate` sets the flag and
`StopAggregate` clears it, and records each as a start or stop event
(any flush done by `StopAggregate` is represented by its stop event alone).

Nesting is modelled by a small program language, `Action = Send(reply) |
Guarded(body)`, where `Guarded(body)` is a block holding one
`ReplyAggregator`. `Aggregation.Run` executes such a program against the
builder's single boolean; `Aggregation.RefRun` is a reference semantics
with an explicit depth counter. The central theorem is that both issue the
same calls; the corollaries are the balance and transparency properties
listed below.

Files: `wrappers.dfy` (Option), `replies.dfy` (fixed-width integers,
`ResponseValue`, `CollectionType`, the `Reply` calls), `sink_builder.dfy`
(the builder state), `aggregator.dfy` (the guard and the two semantics),
`aggregation_properties.dfy` (balance theorems and an iterative
executor), `resp_framing.dfy` (RESP2 array headers), `mc_builder.dfy`,
`redis_builder.dfy`.

## Model

| member | source | states |
|---|---|---|
| Replies.NewResponseValue | src/facade/reply_builder.h:26-31 | a default-initialised response value keeps key and value, has flags 0 and emits no CAS token |
| Replies.EmittedVersion | src/facade/reply_builder.h:29 | the CAS token is output exactly when `mc_ver` is non-zero, and then it is `mc_ver` |
| Replies.VersionRoundTrip | src/facade/reply_builder.h:29 | storing any optional token other than 0 through the 0 sentinel and reading it back gives the same option |
| Replies.ZeroVersionIsSuppressed | src/facade/reply_builder.h:29 | a token of 0 is indistinguishable from "not requested" |
| SinkBuilder.ResetIoStats | src/facade/reply_builder.h:84-88 | after `reset_io_stats` the write count, byte count and error counts read back as zero / empty through the accessors, while the error code, batch buffer, all three mode flags and the call trace are unchanged |
| SinkBuilder.ResetIoStatsIdempotent | src/facade/reply_builder.h:84-88 | resetting twice equals resetting once |
| SinkBuilder.ResetIoStatsForgetsOnlyStats | src/facade/reply_builder.h:84-88 | two states differing only in their statistics are equal after a reset |
| SinkBuilder.Emit | src/facade/reply_builder.h:44-60 | a virtual `Send*` call is recorded as exactly that call, marked with the current aggregation mode (its other effects are not represented) |
| SinkBuilder.SendSimpleString | src/facade/reply_builder.h:54 | `SendSimpleString(str)` records one simple-string call with `str` (other effects not represented) |
| SinkBuilder.SendOk | src/facade/reply_builder.h:56-58 | `SendOk` is exactly one `SendSimpleString("OK")` call and does nothing besides that call |
| SinkBuilder.StartAggregate | src/facade/reply_builder.h:125 | (assumed) aggregation is on afterwards and one start event is recorded |
| SinkBuilder.StopAggregate | src/facade/reply_builder.h:126 | (assumed) aggregation is off afterwards and one stop event is recorded |
| Aggregation.Construct | src/facade/reply_builder.h:95-103 | constructed while aggregating: nested, and the builder is untouched (no `StartAggregate`); otherwise: non-nested, exactly one `StartAggregate`; aggregation is on either way |
| Aggregation.Destroy | src/facade/reply_builder.h:105-109 | a nested guard's destructor leaves the builder untouched; a non-nested one calls `StopAggregate` exactly once and aggregation is off |
| Aggregation.Run | src/facade/reply_builder.h:94-114 | running any block of replies and guards leaves `should_aggregate_` as it found it and only extends the call trace |
| Aggregation.RunGuarded | src/facade/reply_builder.h:94-114 | a scope holding one guard restores `should_aggregate_` to its value before the scope and only extends the call trace |
| Aggregation.RunMatchesDepthCounter | src/facade/reply_builder.h:96-108 | the boolean flag issues exactly the calls of a reference that counts nesting depth and starts/stops aggregation only on the 0-to-1 and 1-to-0 transitions, with each reply aggregated exactly when the depth is positive |
| Aggregation.GuardedMatchesDepthCounter | src/facade/reply_builder.h:96-108 | one guarded scope at depth d issues a start and a stop only when d is 0, and its body's calls as at depth d+1 |
| AggregationProperties.RefRunNested | src/facade/reply_builder.h:96-100 | below an active aggregation, no start or stop is ever issued and every reply is aggregated |
| AggregationProperties.RefRunTopLevel | src/facade/reply_builder.h:94-114 | from depth 0 the calls are well bracketed and contain exactly one start and one stop per top-level guard |
| AggregationProperties.GuardsBalance | src/facade/reply_builder.h:94-114 | any program run on a non-aggregating builder adds well-bracketed calls (start and stop alternate, each reply's mark matches the mode), exactly one start/stop pair per top-level guard however deeply guards nest, and ends non-aggregating |
| AggregationProperties.OutermostGuard | src/facade/reply_builder.h:94-114 | the outermost guard issues one start first and one stop last, with every reply in between, at any nesting depth, issued while aggregating |
| AggregationProperties.NestedGuardIsTransparent | src/facade/reply_builder.h:96-100 | a guard constructed while aggregating behaves exactly as if the scope held no guard, and every reply in it is aggregated |
| AggregationProperties.RunAppend | src/facade/reply_builder.h:94-114 | executing a block one more action further is executing that action on the result, and the guard count grows by one exactly for a guard |
| AggregationProperties.GuardedCounts | src/facade/reply_builder.h:98-108 | one guarded scope calls `StartAggregate` and `StopAggregate` once each when constructed on an idle builder and never when constructed while aggregating |
| AggregationProperties.StepCounts | src/facade/reply_builder.h:94-114 | one top-level action adds one start and one stop exactly when it is a guard on an idle builder, and none otherwise |
| AggregationProperties.ExecuteActions | src/facade/reply_builder.h:94-114 | an iterative executor that constructs and destroys a guard around each scope computes `Run`; the `StartAggregate` calls its guard constructors make and the `StopAggregate` calls its guard destructors make are exactly the start and stop events in the trace, equal in number: once per top-level guard from an idle builder, never from an aggregating one |
| McBuilder.SetNoreply | src/facade/reply_builder.h:165-167 | `SetNoreply(b)` makes the flag `b` and leaves the shared builder state unchanged |
| McBuilder.SetNoreplyLastWins | src/facade/reply_builder.h:165-167 | of two consecutive `SetNoreply` calls only the second matters |
| McBuilder.SetNoreplyUnchanged | src/facade/reply_builder.h:165-167 | setting the flag to its current value changes nothing |
| McBuilder.SetNoreplyCommutesWithReset | src/facade/reply_builder.h:84-88 | the no-reply flag is not a statistic: setting it commutes with `reset_io_stats`, which keeps it |
| RedisBuilder.StartCollection | src/facade/reply_builder.h:207 | records one collection start with its length and type (other effects not represented) |
| RedisBuilder.StartArray | src/facade/reply_builder.h:205 | `StartArray(len)` is `StartCollection(len, ARRAY)` |
| RedisBuilder.SendNullArray | src/facade/reply_builder.h:191 | records one null-array call (other effects not represented) |
| RedisBuilder.SendEmptyArray | src/facade/reply_builder.h:192 | records one empty-array call (other effects not represented) |
| RedisBuilder.ArrayFrame | src/facade/reply_builder.h:191-205 | gives the header of exactly the calls whose header the builder's comments document (null array, empty array, ARRAY collection start) |
| RedisBuilder.SendNullArrayFrame | src/facade/reply_builder.h:191 | `SendNullArray` writes `*-1\r\n`, which reads back as the null array |
| RedisBuilder.SendEmptyArrayFrame | src/facade/reply_builder.h:192 | `SendEmptyArray` writes `*0\r\n`, the same bytes as `StartArray(0)`, read back as zero elements |
| RedisBuilder.StartArrayFrame | src/facade/reply_builder.h:205 | `StartArray(len)` writes a header that reads back as exactly `len` elements |
| RedisBuilder.ArrayFramesDistinct | src/facade/reply_builder.h:191-205 | two documented array calls with the same header are the same call, except that the empty array and an array start of length 0 coincide |
| RespFraming.Decimal | src/facade/reply_builder.h:205 | the length numeral is non-empty, all digits, without leading zero, and one digit exactly for values below 10 |
| RespFraming.DecodeEncodeArrayHeader | src/facade/reply_builder.h:191-192 | every RESP2 array header decodes to the length it encodes |
| RespFraming.EncodeDecodeArrayHeader | src/facade/reply_builder.h:191-192 | every string the decoder accepts is the encoding of what it decodes to |

## Left out

- SinkBuilder.Emit: a `Send*` call is modelled as its trace entry only; its contract states the other fields unchanged, whereas the real call sets `has_replied_`, bumps the I/O counters on a sink write, appends to `batch_` in batch mode and may set the error code, none of which is represented.
- SinkBuilder.SendSimpleString: as for `Emit`, the trace entry is its only modelled effect; `has_replied_`, the counters, `batch_` and the error code are stated unchanged but are not in the real call.
- SinkBuilder.SendOk: inherits the frame of `SendSimpleString`; on the memcached builder the call is also subject to no-reply suppression, which is not modelled.
- RedisBuilder.StartCollection: the trace entry is its only modelled effect; `has_replied_`, the counters, `batch_` and the error code are stated unchanged but are not in the real call.
- RedisBuilder.SendNullArray: the trace entry (and the `*-1` header) is its only modelled effect; the other fields are stated unchanged but are not in the real call.
- RedisBuilder.SendEmptyArray: the trace entry (and the `*0` header) is its only modelled effect; the other fields are stated unchanged but are not in the real call.
- RedisBuilder.ArrayFrame: gives None for SET, MAP and PUSH collection starts; under RESP2 these degrade to array headers (`*len` for SET and PUSH, `*2len` for MAP) and under RESP3 use their own tokens, which the header does not document.
- McBuilder.SetNoreply: the flag is stored only; its suppression of memcached `Send*` replies happens in their bodies, which are not part of this model, so no operation of the model reads it.
- The `Send*` bodies of `MCReplyBuilder` and `RedisReplyBuilder` (`SendError` and its overloads, `SendStored`, `SendSetSkipped`, `SendMGetResponse`, `SendLong`, `SendSimpleString`, `SendProtocolError`, `SendNull`, `SendBulkString`, `SendSimpleStrArr`, `SendStringArr`, `SendScoredArray`, `SendClientError`, `SendNotFound`): they are not part of this model, so a call is recorded as the call made, not as bytes, and its effect on the counters, the batch buffer, `has_replied_` and the error code is not modelled.
- Error counting per type label: done inside `SendError`, whose body is not part of this model; `err_count_` is modelled only as state that `reset_io_stats` clears.
- `SetBatchMode`, `FlushBatch`, `CloseConnection`, `ExpectReply`, `HasReplied`, `MCReplyBuilder::NoReply`, `RedisReplyBuilder::SetResp3`: declared only; their bodies are not part of this model.
- `SendRaw`, `SendRawVec`, `Send` and the `::io::Sink`: I/O through an external sink.
- `SendDouble` and `FormatDouble`: floating-point formatting, with bodies not part of this model.
- `ReqSerializer`: a thin wrapper over the sink whose `SendCommand` body is not part of this model.
- The constructors of the three builders: their bodies are not part of this model, so no initial state is assumed (the header leaves the bit-field flags uninitialised); every property holds for every state.
- `GetError`, `io_write_cnt`, `io_write_bytes`, `err_count`: const accessors returning a field; they are member functions of the immutable state (`Builder.GetError` and so on), so "modifies no state" holds by construction, and they carry no contract of their own beyond their use in `SinkBuilder.ResetIoStats`.
- `StartCollection` framing for SET, MAP and PUSH, and every RESP2/RESP3 difference: only the ARRAY framing is documented by the header.
- `ReplyMode`: declared as a datatype; no behaviour of the builder uses it.
- The `StrSpan` / `WrappedStrSpan` variant plumbing, `absl::flat_hash_map` and `std::error_code` specifics: modelled as `map<string, nat>` and `Option<ErrorCode>` (None for a default error code).
- The counter widths (`size_t`, `uint64_t`): modelled as `nat`; the only operation on them in this model sets them to 0, so wrap-around never arises.
- The guard's `builder_` pointer: a guard is always paired with the builder value it was constructed on.
- Copying a guard: the model assumes a `ReplyAggregator` is never copied. The struct declares a destructor but keeps its implicit copy constructor, so a copy of a non-nested guard would issue a second `StopAggregate`; the copy deletions in the header belong to `SinkReplyBuilder`, not to the guard.
