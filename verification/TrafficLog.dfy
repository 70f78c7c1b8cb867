/**
 One traffic log, read by two queries: the one a request is checked with and the one that quotas are shown
 with sum the same rows.
 */
module TrafficLog {
  import opened Wrappers
  import opened Text
  import opened KeyTable
  import QuotaRun
  import ModelUsage

  function AsShown(row: LogRow): ModelUsage.Entry {
    ModelUsage.Entry(row.key, row.entry.model, row.entry.tokens, row.entry.at)
  }

  function AllShown(log: seq<LogRow>): (shown: seq<ModelUsage.Entry>)
    ensures |shown| == |log| && forall i :: 0 <= i < |log| ==> shown[i] == AsShown(log[i])
  {
    seq(|log|, i requires 0 <= i < |log| => AsShown(log[i]))
  }

  /** The usage of a model that quotas are annotated against is the one that the key's requests are checked
      against, row by row of one log. */
  lemma {:induction false} OneUsage(log: seq<LogRow>, key: Id, model: string, start: int)
    ensures ModelUsage.Enforced(AllShown(log), key, model, start) == QuotaRun.Usage(KeyLog(log, key), Some(model), start)
  {
    if log != [] {
      hide NoCase, AllShown;
      var front, last := log[..|log| - 1], log[|log| - 1];
      OneUsage(front, key, model, start);
      assert AllShown(log)[..|log| - 1] == AllShown(front);
      KeyLogAppend(front, last, key);
      assert front + [last] == log && KeyLog(front, key) + [] == KeyLog(front, key);
      hide KeyLog, QuotaRun.Usage;
      QuotaRun.UsageAppend(KeyLog(front, key), last.entry, Some(model), start);
    }
  }
}
