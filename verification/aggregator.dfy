/** `SinkReplyBuilder::ReplyAggregator`, the scoped guard that brackets a
    block of replies with `StartAggregate` / `StopAggregate`.

    A guard's lifetime is modelled as a bracket around the actions executed
    while it is alive: `Construct` is its constructor, `Destroy` its
    destructor, and `RunGuarded` a block holding one guard. Because the
    builder only keeps a boolean, nested guards collapse to depth 1; the
    reference semantics `RefRun` counts the depth explicitly and the main
    theorem shows that both produce the same calls. */
module Aggregation {
  import opened Replies
  import opened SinkBuilder

  /** The guard's only state: whether it was constructed inside another
      aggregation (`is_nested_`, true unless the constructor started one). */
  datatype ReplyAggregator = ReplyAggregator(isNested: bool)

  /** The guard's constructor: starts aggregation only when the builder is
      not already aggregating, and is non-nested exactly when it did. */
  function Construct(b: Builder): (r: (ReplyAggregator, Builder))
    ensures b.shouldAggregate ==> r.0.isNested && r.1 == b
    ensures !b.shouldAggregate ==> !r.0.isNested && r.1 == StartAggregate(b)
    ensures r.1.shouldAggregate
  {
    if b.shouldAggregate then (ReplyAggregator(true), b)
    else (ReplyAggregator(false), StartAggregate(b))
  }

  /** The guard's destructor: stops aggregation only if this guard started
      it, and otherwise leaves the builder untouched. */
  function Destroy(g: ReplyAggregator, b: Builder): (r: Builder)
    ensures g.isNested ==> r == b
    ensures !g.isNested ==> r == StopAggregate(b)
    ensures !g.isNested ==> !r.shouldAggregate
  {
    if g.isNested then b else StopAggregate(b)
  }

  /** What a block of code does with the builder: issue a reply, or open a
      nested scope holding its own `ReplyAggregator`. */
  datatype Action = Send(reply: Reply) | Guarded(body: seq<Action>)

  /** Executes `acts` in order. */
  function Run(b: Builder, acts: seq<Action>): (r: Builder)
    ensures r.shouldAggregate == b.shouldAggregate
    ensures b.trace <= r.trace
    decreases acts, 0
  {
    if acts == [] then b
    else
      var b1 := match acts[0]
        case Send(reply) => Emit(b, reply)
        case Guarded(body) => RunGuarded(b, body);
      Run(b1, acts[1..])
  }

  /** Executes `body` inside a scope holding one `ReplyAggregator`: the
      guard is constructed, the body runs, and the guard is destroyed. */
  function RunGuarded(b: Builder, body: seq<Action>): (r: Builder)
    ensures r.shouldAggregate == b.shouldAggregate
    ensures b.trace <= r.trace
    decreases body, 1
  {
    var (g, b1) := Construct(b);
    var b2 := Run(b1, body);
    Destroy(g, b2)
  }

  /** Reference semantics with an explicit nesting counter: a start event
      when the depth goes from 0 to 1, a stop event when it returns to 0,
      and every reply marked aggregated exactly when the depth is positive. */
  function RefRun(acts: seq<Action>, depth: nat): seq<Event>
    decreases acts
  {
    if acts == [] then []
    else
      var first := match acts[0]
        case Send(reply) => [Sent(reply, depth > 0)]
        case Guarded(body) =>
          (if depth == 0 then [AggregateStarted] else [])
          + RefRun(body, depth + 1)
          + (if depth == 0 then [AggregateStopped] else []);
      first + RefRun(acts[1..], depth)
  }

  /** Nested guards collapse to depth 1: the boolean flag kept by the
      builder issues exactly the calls of the depth-counting reference. */
  lemma {:induction false} RunMatchesDepthCounter(b: Builder, acts: seq<Action>, depth: nat)
    requires b.shouldAggregate <==> depth > 0
    ensures Run(b, acts).trace == b.trace + RefRun(acts, depth)
    decreases acts, 0
  {
    if acts != [] {
      var rest := acts[1..];
      match acts[0]
      case Send(reply) =>
        var b1 := Emit(b, reply);
        RunMatchesDepthCounter(b1, rest, depth);
      case Guarded(body) =>
        var b1 := RunGuarded(b, body);
        GuardedMatchesDepthCounter(b, body, depth);
        RunMatchesDepthCounter(b1, rest, depth);
    }
  }

  /** The same correspondence for a single guarded scope. */
  lemma {:induction false} GuardedMatchesDepthCounter(b: Builder, body: seq<Action>, depth: nat)
    requires b.shouldAggregate <==> depth > 0
    ensures RunGuarded(b, body).trace == b.trace
      + (if depth == 0 then [AggregateStarted] else [])
      + RefRun(body, depth + 1)
      + (if depth == 0 then [AggregateStopped] else [])
    decreases body, 1
  {
    var (g, b1) := Construct(b);
    RunMatchesDepthCounter(b1, body, depth + 1);
  }
}
