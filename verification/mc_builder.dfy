/** `MCReplyBuilder`: the memcached text-protocol builder. Its `Send*`
    bodies are not part of this model; what remains is its extra state, the
    per-reply `noreply_` flag, and the inline `SetNoreply`. */
module McBuilder {
  import opened SinkBuilder

  datatype McReplyBuilder = McReplyBuilder(base: Builder, noreply: bool)

  /** `SetNoreply(noreply)`: sets the flag and touches nothing else. */
  function SetNoreply(m: McReplyBuilder, noreply: bool): (r: McReplyBuilder)
    ensures r.noreply == noreply
    ensures r.base == m.base
  {
    m.(noreply := noreply)
  }

  /** Only the last `SetNoreply` before a reply matters. */
  lemma SetNoreplyLastWins(m: McReplyBuilder, first: bool, second: bool)
    ensures SetNoreply(SetNoreply(m, first), second) == SetNoreply(m, second)
  {
  }

  /** Setting the flag to its current value is a no-op. */
  lemma SetNoreplyUnchanged(m: McReplyBuilder)
    ensures SetNoreply(m, m.noreply) == m
  {
  }

  /** The flag is not one of the statistics: `reset_io_stats` keeps it,
      and setting it neither restores nor disturbs a reset. */
  lemma SetNoreplyCommutesWithReset(m: McReplyBuilder, noreply: bool)
    ensures SetNoreply(m.(base := ResetIoStats(m.base)), noreply)
         == SetNoreply(m, noreply).(base := ResetIoStats(m.base))
    ensures SetNoreply(m.(base := ResetIoStats(m.base)), noreply).noreply == noreply
  {
  }
}
