/** The generated-scripts list page: which render jobs a refresh polls, and
    the status summary shown for a script's videos. */
module ScriptsList {
  import opened Common

  /** A render job as the list shows it; `createdAt` is the job's creation
      time in milliseconds. */
  datatype VideoSummary = VideoSummary(id: string, status: string, downloadUrl: Option<string>, createdAt: int)

  datatype ScriptSummary = ScriptSummary(id: string, title: string, renderedVideos: seq<VideoSummary>)

  /** The lowercased statuses of jobs still running. */
  const PendingStatuses: set<string> := {"processing", "pending", "created", "queued", "in_progress"}

  /** Whether a job is polled: its status, lowercased, is a running one. */
  predicate NeedsCheck(status: string) {
    LowerAscii(status) in PendingStatuses
  }

  /** The ids to poll, script by script and, within a script, job by job. */
  function PolledIds(scripts: seq<ScriptSummary>): seq<string> {
    if scripts == [] then []
    else PolledIds(scripts[..|scripts| - 1]) + PolledInScript(scripts[|scripts| - 1].renderedVideos)
  }

  function PolledInScript(videos: seq<VideoSummary>): seq<string> {
    if videos == [] then []
    else PolledInScript(videos[..|videos| - 1]) + (if NeedsCheck(videos[|videos| - 1].status) then [videos[|videos| - 1].id] else [])
  }

  /** `handleRefresh`'s selection: nested `forEach` loops pushing each running
      job's id. */
  method SelectVideosToCheck(scripts: seq<ScriptSummary>) returns (ids: seq<string>)
    ensures ids == PolledIds(scripts)
  {
    ids := [];
    var i := 0;
    while i < |scripts|
      invariant 0 <= i <= |scripts|
      invariant ids == PolledIds(scripts[..i])
    {
      var videos := scripts[i].renderedVideos;
      var j := 0;
      while j < |videos|
        invariant 0 <= j <= |videos|
        invariant ids == PolledIds(scripts[..i]) + PolledInScript(videos[..j])
      {
        if NeedsCheck(videos[j].status) {
          ids := ids + [videos[j].id];
        }
        assert videos[..j + 1][..j] == videos[..j];
        j := j + 1;
      }
      assert scripts[..i + 1][..i] == scripts[..i];
      assert videos[..j] == videos;
      i := i + 1;
    }
    assert scripts[..i] == scripts;
  }

  /** A script's polled ids are exactly its running jobs' ids. */
  lemma {:induction false} PolledInScriptExactly(videos: seq<VideoSummary>, id: string)
    ensures id in PolledInScript(videos) <==> exists v :: v in videos && v.id == id && NeedsCheck(v.status)
  {
    if videos != [] {
      var init := videos[..|videos| - 1];
      PolledInScriptExactly(init, id);
      assert videos == init + [videos[|videos| - 1]];
    }
  }

  /** A refresh polls exactly the running jobs of the listed scripts. */
  lemma {:induction false} PolledExactly(scripts: seq<ScriptSummary>, id: string)
    ensures id in PolledIds(scripts) <==>
      exists s, v :: s in scripts && v in s.renderedVideos && v.id == id && NeedsCheck(v.status)
  {
    if scripts != [] {
      var init, last := scripts[..|scripts| - 1], scripts[|scripts| - 1];
      PolledExactly(init, id);
      PolledInScriptExactly(last.renderedVideos, id);
      assert scripts == init + [last];
    }
  }

  /** Polling order follows the list order: the ids for two runs of scripts
      are the first run's followed by the second's. */
  lemma {:induction false} PolledIdsAppend(a: seq<ScriptSummary>, b: seq<ScriptSummary>)
    ensures PolledIds(a + b) == PolledIds(a) + PolledIds(b)
  {
    if b != [] {
      PolledIdsAppend(a, b[..|b| - 1]);
      assert (a + b)[..|a + b| - 1] == a + b[..|b| - 1];
    } else {
      assert a + b == a;
    }
  }

  /** Finished jobs, in any letter case, are never polled. */
  lemma FinishedNeverPolled(status: string)
    requires LowerAscii(status) == "completed" || LowerAscii(status) == "failed"
    ensures !NeedsCheck(status)
  {
  }

  /** The position of the latest job: the first of those with the greatest
      creation time, which a stable newest-first sort puts in front. */
  function LatestIndex(videos: seq<VideoSummary>): (i: nat)
    requires videos != []
    ensures i < |videos|
    ensures forall j :: 0 <= j < |videos| ==> videos[j].createdAt <= videos[i].createdAt
    ensures forall j :: 0 <= j < i ==> videos[j].createdAt < videos[i].createdAt
  {
    if |videos| == 1 then 0
    else
      var k := LatestIndex(videos[1..]) + 1;
      if videos[0].createdAt >= videos[k].createdAt then 0 else k
  }

  datatype StatusSummary = StatusSummary(count: nat, latest: VideoSummary)

  /** `getVideoStatus`: nothing for a missing or empty list; otherwise the
      number of jobs and the latest one. */
  function VideoStatus(videos: Option<seq<VideoSummary>>): (r: Option<StatusSummary>)
    ensures r.None? <==> videos.None? || videos.value == []
    ensures r.Some? ==> r.value.count == |videos.value| && r.value.latest in videos.value
    ensures r.Some? ==> forall v :: v in videos.value ==> v.createdAt <= r.value.latest.createdAt
  {
    if videos.None? || videos.value == [] then None
    else Some(StatusSummary(|videos.value|, videos.value[LatestIndex(videos.value)]))
  }
}
