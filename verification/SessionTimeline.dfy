/** The analysis plan of a session: one sub-chunk per video file, laid end to end. */
module SessionTimeline {
  import opened Outcomes
  import AnalysisResume
  import AnalysisRuns

  const DEFAULT_SECONDS := 60
  const MICROSECONDS := 1_000_000

  /** Times are in microseconds; the duration column is an integer or NULL. */
  datatype VideoFile = VideoFile(id: int, path: string, duration: Option<int>, startTime: int, endTime: int)

  datatype SubChunk = SubChunk(chunkIndex: int, subChunkIndex: nat, startOffset: int, duration: int, path: string)

  datatype PlanError = EmptyPath(id: int) | NoFiles

  /** `int(delta.total_seconds())`, which truncates toward zero. */
  function WholeSeconds(microseconds: int): int {
    if microseconds >= 0 then microseconds / MICROSECONDS else -(-microseconds / MICROSECONDS)
  }

  /** The probed duration, else the span between the time stamps, else a minute: never less than
      a second. */
  function ResolveDuration(file: VideoFile): (seconds: int)
    ensures seconds >= 1
    ensures file.duration.Some? && file.duration.value > 0 ==> seconds == file.duration.value
    ensures file.duration == None && file.endTime - file.startTime >= MICROSECONDS ==>
      seconds * MICROSECONDS <= file.endTime - file.startTime < (seconds + 1) * MICROSECONDS
    ensures file.duration == None && file.endTime - file.startTime < MICROSECONDS ==> seconds == 60
  {
    if file.duration.Some? && file.duration.value > 0 then file.duration.value
    else
      var span := WholeSeconds(file.endTime - file.startTime);
      if span > 0 then span else DEFAULT_SECONDS
  }

  function TotalSeconds(files: seq<VideoFile>): (seconds: int)
    ensures seconds >= |files|
  {
    if files == [] then 0 else TotalSeconds(files[..|files| - 1]) + ResolveDuration(files[|files| - 1])
  }

  function ChunkAt(files: seq<VideoFile>, i: nat): SubChunk
    requires i < |files|
  {
    SubChunk(0, i, TotalSeconds(files[..i]), ResolveDuration(files[i]), files[i].path)
  }

  lemma TotalStep(files: seq<VideoFile>, i: nat)
    requires i < |files|
    ensures TotalSeconds(files[..i + 1]) == TotalSeconds(files[..i]) + ResolveDuration(files[i])
  {
    hide ResolveDuration;
    assert files[..i + 1][..i] == files[..i];
  }

  method BuildFileSubChunks(files: seq<VideoFile>) returns (r: Result<seq<SubChunk>, PlanError>)
    ensures r.Ok? <==> files != [] && forall i :: 0 <= i < |files| ==> files[i].path != ""
    ensures r.Err? && r.error.NoFiles? <==> files == []
    ensures r.Err? && r.error.EmptyPath? ==>
      exists i :: 0 <= i < |files| && files[i].path == "" && files[i].id == r.error.id
        && forall j :: 0 <= j < i ==> files[j].path != ""
    ensures r.Ok? ==> IsPlan(files, r.value)
  {
    var chunks: seq<SubChunk> := [];
    var offset := 0;
    for i := 0 to |files|
      invariant |chunks| == i && offset == TotalSeconds(files[..i])
      invariant forall j :: 0 <= j < i ==> files[j].path != ""
      invariant forall j :: 0 <= j < i ==> chunks[j] == ChunkAt(files, j)
    {
      if files[i].path == "" {
        return Err(EmptyPath(files[i].id));
      }
      hide TotalSeconds, ResolveDuration;
      TotalStep(files, i);
      var duration := ResolveDuration(files[i]);
      chunks := chunks + [SubChunk(0, i, offset, duration, files[i].path)];
      offset := offset + duration;
    }
    if chunks == [] {
      return Err(NoFiles);
    }
    return Ok(chunks);
  }

  /** What `BuildFileSubChunks` returns for `files`: in order, each chunk starts where the files
      before it end. */
  predicate IsPlan(files: seq<VideoFile>, chunks: seq<SubChunk>) {
    |chunks| == |files| && forall i :: 0 <= i < |files| ==> chunks[i] == ChunkAt(files, i)
  }

  predicate Covers(chunk: SubChunk, second: int) {
    chunk.startOffset <= second < chunk.startOffset + chunk.duration
  }

  lemma {:induction false} OffsetsGrow(files: seq<VideoFile>, i: nat, j: nat)
    requires i < j <= |files|
    ensures TotalSeconds(files[..i]) + ResolveDuration(files[i]) <= TotalSeconds(files[..j])
    decreases j
  {
    assert files[..j][..j - 1] == files[..j - 1] && files[..j][j - 1] == files[j - 1];
    if i < j - 1 {
      OffsetsGrow(files, i, j - 1);
    }
  }

  lemma {:induction false} FindCover(files: seq<VideoFile>, chunks: seq<SubChunk>, second: int, n: nat) returns (k: nat)
    requires IsPlan(files, chunks) && n <= |files| && 0 <= second < TotalSeconds(files[..n])
    ensures k < n && Covers(chunks[k], second)
  {
    assert n > 0 && files[..n][..n - 1] == files[..n - 1];
    if TotalSeconds(files[..n - 1]) <= second {
      k := n - 1;
    } else {
      k := FindCover(files, chunks, second, n - 1);
    }
  }

  /** The sub-chunks are the files in their order, the first starts at zero, and each of the others
      where the one before it ends. */
  lemma ChunksAreFiles(files: seq<VideoFile>, chunks: seq<SubChunk>, i: nat)
    requires IsPlan(files, chunks) && i < |files|
    ensures i < |chunks| && chunks[i].path == files[i].path
    ensures chunks[i].chunkIndex == 0 && chunks[i].subChunkIndex == i
    ensures chunks[i].startOffset == if i == 0 then 0 else chunks[i - 1].startOffset + chunks[i - 1].duration
    ensures files[i].duration.Some? && files[i].duration.value > 0 ==> chunks[i].duration == files[i].duration.value
  {
    if i > 0 {
      TotalStep(files, i - 1);
    }
  }

  /** The sub-chunks tile the session: offsets increase strictly, every second of the session
      lies in exactly one of them, and no second outside lies in any. */
  lemma SubChunksTile(files: seq<VideoFile>, chunks: seq<SubChunk>, second: int)
    requires IsPlan(files, chunks)
    ensures forall i, j :: 0 <= i < j < |chunks| ==> chunks[i].startOffset < chunks[j].startOffset
    ensures forall i, j :: 0 <= i < j < |chunks| ==> !(Covers(chunks[i], second) && Covers(chunks[j], second))
    ensures (exists k :: 0 <= k < |chunks| && Covers(chunks[k], second)) <==> 0 <= second < TotalSeconds(files)
  {
    forall i, j | 0 <= i < j < |chunks|
      ensures chunks[i].startOffset + chunks[i].duration <= chunks[j].startOffset
    {
      OffsetsGrow(files, i, j);
    }
    assert files[..|files|] == files;
    if 0 <= second < TotalSeconds(files) {
      var k := FindCover(files, chunks, second, |files|);
    }
    forall k | 0 <= k < |chunks|
      ensures 0 <= chunks[k].startOffset && chunks[k].startOffset + chunks[k].duration <= TotalSeconds(files)
    {
      OffsetsGrow(files, k, |files|);
    }
  }

  /** A plan meets what the resumption results need of it: its items have distinct indices. */
  lemma PlanItemsAreDistinct(files: seq<VideoFile>, chunks: seq<SubChunk>, items: seq<AnalysisResume.Item>)
    requires IsPlan(files, chunks) && |items| == |chunks|
    requires forall i :: 0 <= i < |items| ==> items[i].index == chunks[i].subChunkIndex
    ensures AnalysisRuns.DistinctItems(items)
  {
  }
}
