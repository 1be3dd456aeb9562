/** The vocabulary shared by the queue, the workers and the schedule. */
module Types {

  datatype Option<+T> = None | Some(value: T)

  /** Lifecycle of a captured meeting. */
  datatype RecordingStatus = Uploading | Processing | Ready | Failed

  /** A pipeline stage; `TranscribeSegment` is the live side channel. */
  datatype JobKind = Transcode | Diarize | Transcribe | Merge | Embed | Summarize | TranscribeSegment

  /** Queue state of a job. */
  datatype JobState = Queued | Running | Done | Failed

  /** The stages that must be done before `kind` may run. */
  function Predecessors(kind: JobKind): seq<JobKind> {
    match kind
    case Transcode => []
    case Diarize => [Transcode]
    case Transcribe => [Transcode]
    case Merge => [Diarize, Transcribe]
    case Embed => [Merge]
    case Summarize => [Merge]
    case TranscribeSegment => []
  }

  /** The stages to consider once `kind` finishes. */
  function Successors(kind: JobKind): seq<JobKind> {
    match kind
    case Transcode => [Diarize, Transcribe]
    case Diarize => [Merge]
    case Transcribe => [Merge]
    case Merge => [Embed, Summarize]
    case Embed => []
    case Summarize => []
    case TranscribeSegment => []
  }

  /** Only live transcription ignores the processing schedule. */
  predicate BypassesSchedule(kind: JobKind) {
    kind.TranscribeSegment?
  }

  /** The one kind that belongs to no pipeline: nothing comes before it and nothing after. */
  lemma BypassingIsAlone(k: JobKind)
    ensures BypassesSchedule(k) <==> Predecessors(k) == [] && Successors(k) == []
  {
  }

  /** The two edge lists describe one graph. */
  lemma EdgesAreConverse(k: JobKind, s: JobKind)
    ensures s in Successors(k) <==> k in Predecessors(s)
  {
  }
}
