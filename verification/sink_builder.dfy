/** The per-connection state of `SinkReplyBuilder`, its inline accessors and
    `reset_io_stats`, the `SendOk` delegation, and the aggregation switch that
    `ReplyAggregator` drives.

    The state is an immutable record; an operation returns the new record.
    Calls of the virtual `Send*` methods and of `StartAggregate` /
    `StopAggregate` are appended to `trace`, which stands for the sequence of
    calls the builder has received (the bytes they write are not modelled). */
module SinkBuilder {
  import opened Wrappers
  import opened Replies

  /** Reply filtering levels. Declared by the builder's header; no
      behaviour of the builder depends on it. */
  datatype ReplyMode = NoReplies | OnlyErrors | Full

  /** `std::error_code`: a value together with the name of its category. */
  datatype ErrorCode = ErrorCode(value: int, category: string)

  /** One entry of the call trace. `Sent` records a reply together with
      whether the builder was aggregating when it was issued. */
  datatype Event =
    | Sent(reply: Reply, aggregated: bool)
    | AggregateStarted
    | AggregateStopped

  /** The fields of `SinkReplyBuilder`. `ec` is None for a default
      (no-error) `std::error_code`. */
  datatype Builder = Builder(
    batch: string,
    ec: Option<ErrorCode>,
    ioWriteCnt: nat,
    ioWriteBytes: nat,
    errCount: map<string, nat>,
    shouldBatch: bool,
    shouldAggregate: bool,
    hasReplied: bool,
    trace: seq<Event>)
  {
    /** `GetError()`: the sticky error code. */
    function GetError(): Option<ErrorCode> { ec }

    /** `io_write_cnt()`. */
    function IoWriteCnt(): nat { ioWriteCnt }

    /** `io_write_bytes()`. */
    function IoWriteBytes(): nat { ioWriteBytes }

    /** `err_count()`: error replies per type label. */
    function ErrCount(): map<string, nat> { errCount }

    /** True when `other` differs from this state at most in its trace. */
    predicate SameButTrace(other: Builder)
    {
      other.(trace := trace) == this
    }
  }

  /** `reset_io_stats()`: clears both I/O counters and the error counts and
      keeps everything else. */
  function ResetIoStats(b: Builder): (r: Builder)
    ensures r.IoWriteCnt() == 0 && r.IoWriteBytes() == 0
    ensures r.ErrCount() == map[]
    ensures r.GetError() == b.GetError()
    ensures r.batch == b.batch
    ensures r.shouldBatch == b.shouldBatch
    ensures r.shouldAggregate == b.shouldAggregate
    ensures r.hasReplied == b.hasReplied
    ensures r.trace == b.trace
  {
    b.(ioWriteCnt := 0, ioWriteBytes := 0, errCount := map[])
  }

  /** Resetting twice is the same as resetting once. */
  lemma ResetIoStatsIdempotent(b: Builder)
    ensures ResetIoStats(ResetIoStats(b)) == ResetIoStats(b)
  {
  }

  /** Two states that agree on everything except the statistics are equal
      after a reset. */
  lemma ResetIoStatsForgetsOnlyStats(b1: Builder, b2: Builder)
    requires b1.(ioWriteCnt := b2.ioWriteCnt, ioWriteBytes := b2.ioWriteBytes, errCount := b2.errCount) == b2
    ensures ResetIoStats(b1) == ResetIoStats(b2)
  {
  }

  /** A call of one of the virtual `Send*` methods: the call is recorded
      together with the aggregation mode it was issued in. */
  function Emit(b: Builder, reply: Reply): (r: Builder)
    ensures r.trace == b.trace + [Sent(reply, b.shouldAggregate)]
    ensures b.SameButTrace(r)
  {
    b.(trace := b.trace + [Sent(reply, b.shouldAggregate)])
  }

  /** `SendSimpleString(str)`. */
  function SendSimpleString(b: Builder, text: string): (r: Builder)
    ensures r.trace == b.trace + [Sent(SimpleString(text), b.shouldAggregate)]
    ensures b.SameButTrace(r)
  {
    Emit(b, SimpleString(text))
  }

  /** `SendOk()`: exactly one `SendSimpleString("OK")` call, nothing else. */
  function SendOk(b: Builder): (r: Builder)
    ensures r == SendSimpleString(b, "OK")
    ensures r.trace == b.trace + [Sent(SimpleString("OK"), b.shouldAggregate)]
    ensures b.SameButTrace(r)
  {
    SendSimpleString(b, "OK")
  }

  /** `StartAggregate()`, whose body is not part of this model: it is taken
      to switch aggregation on and is recorded as a start event. */
  function StartAggregate(b: Builder): (r: Builder)
    ensures r.shouldAggregate
    ensures r.trace == b.trace + [AggregateStarted]
  {
    b.(shouldAggregate := true, trace := b.trace + [AggregateStarted])
  }

  /** `StopAggregate()`, whose body is not part of this model: it is taken
      to switch aggregation off; whatever it flushes is represented by the
      stop event alone. */
  function StopAggregate(b: Builder): (r: Builder)
    ensures !r.shouldAggregate
    ensures r.trace == b.trace + [AggregateStopped]
  {
    b.(shouldAggregate := false, trace := b.trace + [AggregateStopped])
  }
}
