/** What the collapse of nested guards means for the calls a builder
    receives: start and stop events alternate, one pair per outermost
    guard, and every reply inside a guard is issued while aggregating. */
module AggregationProperties {
  import opened Replies
  import opened SinkBuilder
  import opened Aggregation

  /** Number of `StartAggregate` calls in a trace. */
  function Starts(t: seq<Event>): nat
  {
    if t == [] then 0 else (if t[0].AggregateStarted? then 1 else 0) + Starts(t[1..])
  }

  /** Number of `StopAggregate` calls in a trace. */
  function Stops(t: seq<Event>): nat
  {
    if t == [] then 0 else (if t[0].AggregateStopped? then 1 else 0) + Stops(t[1..])
  }

  /** Every entry is a reply issued while aggregating. */
  predicate AllAggregated(t: seq<Event>)
  {
    forall i :: 0 <= i < |t| ==> t[i].Sent? && t[i].aggregated
  }

  /** Number of guarded scopes at the top level of `acts`. */
  function TopGuards(acts: seq<Action>): nat
  {
    if acts == [] then 0 else (if acts[0].Guarded? then 1 else 0) + TopGuards(acts[1..])
  }

  /** Read from an aggregation mode `open`, the trace starts and stops
      aggregation alternately (never starting twice or stopping when not
      started), each reply's mark agrees with the current mode, and the
      trace ends in mode `close`. */
  predicate Bracketed(t: seq<Event>, open: bool, close: bool)
  {
    if t == [] then open == close
    else match t[0]
      case AggregateStarted => !open && Bracketed(t[1..], true, close)
      case AggregateStopped => open && Bracketed(t[1..], false, close)
      case Sent(_, aggregated) => aggregated == open && Bracketed(t[1..], open, close)
  }

  lemma {:induction false} CountsAppend(a: seq<Event>, c: seq<Event>)
    ensures Starts(a + c) == Starts(a) + Starts(c)
    ensures Stops(a + c) == Stops(a) + Stops(c)
  {
    if a != [] {
      assert (a + c)[0] == a[0];
      assert (a + c)[1..] == a[1..] + c;
      CountsAppend(a[1..], c);
    } else {
      assert a + c == c;
    }
  }

  lemma {:induction false} BracketedAppend(a: seq<Event>, c: seq<Event>, x: bool, y: bool, z: bool)
    requires Bracketed(a, x, y) && Bracketed(c, y, z)
    ensures Bracketed(a + c, x, z)
  {
    if a != [] {
      assert (a + c)[0] == a[0];
      assert (a + c)[1..] == a[1..] + c;
      var m := if a[0].AggregateStarted? then true else if a[0].AggregateStopped? then false else x;
      BracketedAppend(a[1..], c, m, y, z);
    } else {
      assert a + c == c;
    }
  }

  /** A run of replies all issued while aggregating contains no start or
      stop and keeps aggregation on. */
  lemma {:induction false} AllAggregatedBracketed(t: seq<Event>)
    requires AllAggregated(t)
    ensures Bracketed(t, true, true)
    ensures Starts(t) == 0 && Stops(t) == 0
  {
    if t != [] {
      AllAggregatedBracketed(t[1..]);
    }
  }

  /** Inside an active aggregation the reference emits only aggregated
      replies: no start or stop at any depth below the outermost guard. */
  lemma {:induction false} RefRunNested(acts: seq<Action>, depth: nat)
    requires depth > 0
    ensures AllAggregated(RefRun(acts, depth))
    decreases acts
  {
    if acts != [] {
      RefRunNested(acts[1..], depth);
      match acts[0]
      case Send(_) =>
      case Guarded(body) =>
        RefRunNested(body, depth + 1);
        assert [] + RefRun(body, depth + 1) + [] == RefRun(body, depth + 1);
    }
  }

  /** From a non-aggregating state, the reference is well bracketed and
      issues exactly one start and one stop per top-level guard. */
  lemma {:induction false} RefRunTopLevel(acts: seq<Action>)
    ensures Bracketed(RefRun(acts, 0), false, false)
    ensures Starts(RefRun(acts, 0)) == TopGuards(acts)
    ensures Stops(RefRun(acts, 0)) == TopGuards(acts)
  {
    if acts != [] {
      var rest := RefRun(acts[1..], 0);
      RefRunTopLevel(acts[1..]);
      match acts[0]
      case Send(reply) =>
        var first := [Sent(reply, false)];
        assert Bracketed(first, false, false);
        BracketedAppend(first, rest, false, false, false);
        CountsAppend(first, rest);
      case Guarded(body) =>
        var inner := RefRun(body, 1);
        RefRunNested(body, 1);
        AllAggregatedBracketed(inner);
        var first := [AggregateStarted] + inner + [AggregateStopped];
        assert Bracketed([AggregateStopped], true, false);
        BracketedAppend(inner, [AggregateStopped], true, true, false);
        assert first == [AggregateStarted] + (inner + [AggregateStopped]);
        assert first[1..] == inner + [AggregateStopped];
        assert Bracketed(first, false, false);
        BracketedAppend(first, rest, false, false, false);
        CountsAppend([AggregateStarted], inner);
        CountsAppend([AggregateStarted] + inner, [AggregateStopped]);
        CountsAppend(first, rest);
    }
  }

  /** Any program run on a non-aggregating builder: the calls it adds are
      well bracketed, there is exactly one `StartAggregate` and one
      `StopAggregate` per top-level guard however deeply guards nest, and
      the builder ends non-aggregating. */
  lemma GuardsBalance(b: Builder, acts: seq<Action>)
    requires !b.shouldAggregate
    ensures var r := Run(b, acts);
      && !r.shouldAggregate
      && |b.trace| <= |r.trace|
      && Bracketed(r.trace[|b.trace|..], false, false)
      && Starts(r.trace[|b.trace|..]) == TopGuards(acts)
      && Stops(r.trace[|b.trace|..]) == TopGuards(acts)
  {
    RunMatchesDepthCounter(b, acts, 0);
    RefRunTopLevel(acts);
    var r := Run(b, acts);
    assert r.trace[|b.trace|..] == RefRun(acts, 0);
  }

  /** The outermost guard: exactly one `StartAggregate` first and one
      `StopAggregate` last, and every reply in between, however deeply
      nested, is issued while aggregation stays on. */
  lemma OutermostGuard(b: Builder, body: seq<Action>)
    requires !b.shouldAggregate
    ensures var r := RunGuarded(b, body);
      var e := r.trace[|b.trace|..];
      && !r.shouldAggregate
      && |e| >= 2
      && e[0] == AggregateStarted
      && e[|e| - 1] == AggregateStopped
      && AllAggregated(e[1..|e| - 1])
  {
    GuardedMatchesDepthCounter(b, body, 0);
    RefRunNested(body, 1);
    var r := RunGuarded(b, body);
    var e := r.trace[|b.trace|..];
    assert e == [AggregateStarted] + RefRun(body, 1) + [AggregateStopped];
    assert e[1..|e| - 1] == RefRun(body, 1);
  }

  /** A guard constructed while the builder is already aggregating is a
      pass-through: the scope behaves exactly as if it held no guard, and
      every reply in it is issued while aggregating. */
  lemma NestedGuardIsTransparent(b: Builder, body: seq<Action>)
    requires b.shouldAggregate
    ensures RunGuarded(b, body) == Run(b, body)
    ensures AllAggregated(Run(b, body).trace[|b.trace|..])
  {
    RunMatchesDepthCounter(b, body, 1);
    RefRunNested(body, 1);
    assert Run(b, body).trace[|b.trace|..] == RefRun(body, 1);
  }

  /** One top-level action. */
  function Step(b: Builder, a: Action): (r: Builder)
    ensures r.shouldAggregate == b.shouldAggregate
    ensures b.trace <= r.trace
  {
    match a
    case Send(reply) => Emit(b, reply)
    case Guarded(body) => RunGuarded(b, body)
  }

  lemma {:induction false} RunAppend(b: Builder, acts: seq<Action>, a: Action)
    ensures Run(b, acts + [a]) == Step(Run(b, acts), a)
    ensures TopGuards(acts + [a]) == TopGuards(acts) + (if a.Guarded? then 1 else 0)
    decreases acts
  {
    if acts == [] {
      assert acts + [a] == [a];
    } else {
      assert (acts + [a])[0] == acts[0];
      assert (acts + [a])[1..] == acts[1..] + [a];
      RunAppend(Step(b, acts[0]), acts[1..], a);
    }
  }

  /** The starts and stops added over two consecutive extensions of a
      trace add up. */
  lemma CountsSuffix(a: seq<Event>, c: seq<Event>, d: seq<Event>)
    requires a <= c && c <= d
    ensures Starts(d[|a|..]) == Starts(c[|a|..]) + Starts(d[|c|..])
    ensures Stops(d[|a|..]) == Stops(c[|a|..]) + Stops(d[|c|..])
  {
    assert d[|a|..] == c[|a|..] + d[|c|..];
    CountsAppend(c[|a|..], d[|c|..]);
  }

  /** A guarded scope calls `StartAggregate` and `StopAggregate` once each
      when constructed on an idle builder, and never otherwise. */
  lemma GuardedCounts(b: Builder, body: seq<Action>)
    ensures var e := RunGuarded(b, body).trace[|b.trace|..];
      && Starts(e) == (if b.shouldAggregate then 0 else 1)
      && Stops(e) == (if b.shouldAggregate then 0 else 1)
  {
    var e := RunGuarded(b, body).trace[|b.trace|..];
    if b.shouldAggregate {
      NestedGuardIsTransparent(b, body);
      AllAggregatedBracketed(e);
    } else {
      OutermostGuard(b, body);
      var inner := e[1..|e| - 1];
      AllAggregatedBracketed(inner);
      assert e == [AggregateStarted] + inner + [AggregateStopped];
      CountsAppend([AggregateStarted], inner);
      CountsAppend([AggregateStarted] + inner, [AggregateStopped]);
    }
  }

  /** One top-level action calls `StartAggregate` and `StopAggregate` once
      each if it is a guard constructed on an idle builder, and never
      otherwise. */
  lemma StepCounts(b: Builder, a: Action)
    ensures var e := Step(b, a).trace[|b.trace|..];
      && Starts(e) == (if a.Guarded? && !b.shouldAggregate then 1 else 0)
      && Stops(e) == (if a.Guarded? && !b.shouldAggregate then 1 else 0)
  {
    match a
    case Send(reply) =>
      assert Step(b, a).trace[|b.trace|..] == [Sent(reply, b.shouldAggregate)];
    case Guarded(body) =>
      GuardedCounts(b, body);
  }

  /** Executes `acts` one action at a time, constructing and destroying a
      `ReplyAggregator` around every guarded scope, and counts (in ghost
      state) the `StartAggregate` calls made by top-level guard
      constructors and the `StopAggregate` calls made by their destructors.
      These counts are exactly the start and stop events the run adds to
      the trace: one each per top-level guard when the builder starts
      idle, none when it is already aggregating. */
  method ExecuteActions(b: Builder, acts: seq<Action>)
    returns (r: Builder, ghost starts: nat, ghost stops: nat)
    ensures r == Run(b, acts)
    ensures r.shouldAggregate == b.shouldAggregate
    ensures b.trace <= r.trace
    ensures starts == Starts(r.trace[|b.trace|..])
    ensures stops == Stops(r.trace[|b.trace|..])
    ensures starts == stops
    ensures starts == (if b.shouldAggregate then 0 else TopGuards(acts))
  {
    r := b;
    starts, stops := 0, 0;
    for i := 0 to |acts|
      invariant r == Run(b, acts[..i])
      invariant r.shouldAggregate == b.shouldAggregate
      invariant b.trace <= r.trace
      invariant starts == Starts(r.trace[|b.trace|..])
      invariant stops == Stops(r.trace[|b.trace|..])
      invariant starts == stops
      invariant starts == (if b.shouldAggregate then 0 else TopGuards(acts[..i]))
    {
      var before := r;
      RunAppend(b, acts[..i], acts[i]);
      assert acts[..i + 1] == acts[..i] + [acts[i]];
      StepCounts(before, acts[i]);
      match acts[i] {
        case Send(reply) =>
          r := Emit(r, reply);
        case Guarded(body) =>
          var (g, entered) := Construct(r);
          if !g.isNested {
            starts := starts + 1;
          }
          var done := Run(entered, body);
          r := Destroy(g, done);
          if !g.isNested {
            stops := stops + 1;
          }
      }
      assert r == Step(before, acts[i]);
      CountsSuffix(b.trace, before.trace, r.trace);
    }
    assert acts[..|acts|] == acts;
  }
}
