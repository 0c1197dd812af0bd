/** From the bytes of the log to the jobs: the log reader (condor_job/log_processor.hpp) and the
    processing of entries (condor_job/log_processor.cpp) taken together. */
module LogToJobs {
  import opened Text
  import opened ClassAds
  import opened Grammar
  import opened RecordPrinter
  import opened LogReader
  import opened Events

  /** With a registry that stays as it is, and whatever reads a printed log arrives in, as long as none of
      them ends one byte behind the opening of a record: each registered job ends in the state of the last
      of the records about it, and with their attributes, the last one winning. */
  lemma LogReachesJobs<J>(registry: map<string, J>, jobs: map<J, Job>, front: string,
                          records: seq<LogRecord>, chunks: seq<string>, j: J)
    requires NoOpener(front) && LogPrintable(records)
    requires Flatten(chunks) == front + PrintLog(records)
    requires !Loses(chunks)
    requires j in jobs
    ensures var after := Replay(registry, jobs, Readable(Handed(Run("", 0, chunks).records)));
            var own := Own(registry, Readable(AdsOf(records)), j);
            && j in after
            && after[j].state == LastState(own, jobs[j].state)
            && forall name ::
                 Entry(after[j].attributes, name) == LastSetting(own, name, Entry(jobs[j].attributes, name))
  {
    hide *;
    ChunkIndependence(chunks);
    LogIsRead(front, records, 0);
    ReplayRefinement(registry, jobs, Readable(AdsOf(records)), j);
  }
}
