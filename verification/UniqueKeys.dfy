/** Unique keys over whole histories: a key admits one enqueue per TTL. */
module UniqueKeys {
  import opened Jobs
  import opened BrokerModel
  import opened CallPlacement

  datatype Win = Win(jobID: string, at: int, ttl: int)

  /** The latest enqueue that succeeded under `key`. */
  function Winner(h: seq<Stamped>, key: string): Option<Win> {
    if h == [] then None else
      var st := h[|h| - 1];
      if st.event.Inserted? && st.event.job.uniqueKey == key
      then Some(Win(st.event.job.id, st.now, EffectiveTTL(st.event.job)))
      else Winner(h[..|h| - 1], key)
  }

  /** The unique table remembers exactly the latest winner of every key. */
  lemma {:induction false} TableHoldsWinner(h: seq<Stamped>, key: string)
    requires key != ""
    ensures var s := After(EMPTY, h);
      match Winner(h, key)
      case None => key !in s.unique
      case Some(w) => key in s.unique && s.unique[key] == UniqueEntry(w.jobID, w.at + w.ttl)
  {
    if h == [] {
    } else {
      TableHoldsWinner(h[..|h| - 1], key);
    }
  }

  /** Two consecutive successful enqueues under one key are at least the first
      one's effective TTL apart (an hour if it set none). */
  lemma WinsSpaced(h: seq<Stamped>, i: nat)
    requires Legal(EMPTY, h) && i < |h|
    requires h[i].event.Inserted? && h[i].event.job.uniqueKey != ""
    ensures var w := Winner(h[..i], h[i].event.job.uniqueKey);
      w.Some? ==> h[i].now >= w.value.at + w.value.ttl
  {
    LegalPrefix(EMPTY, h, i);
    TableHoldsWinner(h[..i], h[i].event.job.uniqueKey);
  }

  /** An enqueue is refused as a duplicate exactly while the latest winner's TTL
      runs; the refusal names that winner and changes nothing. */
  lemma RefusalNamesWinner(h: seq<Stamped>, j: Job, newId: string, now: int)
    requires j.queue != "" && j.kind != "" && j.uniqueKey != "" && !After(EMPTY, h).closed
    ensures var s, w := After(EMPTY, h), Winner(h, j.uniqueKey);
      var refused := w.Some? && now < w.value.at + w.value.ttl;
      && (refused ==> EnqueueReply(s, j, now) == Duplicate(j.uniqueKey, w.value.jobID))
      && (refused ==> After(s, OnEnqueue(s, j, newId, now)) == s)
      && (!refused ==> EnqueueReply(s, j, now) == Ok)
  {
    TableHoldsWinner(h, j.uniqueKey);
  }
}
