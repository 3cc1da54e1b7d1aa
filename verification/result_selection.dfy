/** Per-camera result handling: picking the newest buffered frame, and the
    single-tag ambiguity filter. */
module ResultSelection {
  import opened CameraConstants
  import opened VisionTypes

  /** The index of the frame a stable newest-first sort puts at the front:
      a frame with the largest timestamp, and of those the earliest in the
      buffer. */
  function NewestIndex(batch: seq<PipelineResult>): (k: nat)
    requires |batch| > 0
    ensures k < |batch|
    ensures forall j :: 0 <= j < |batch| ==> batch[j].timestampSeconds <= batch[k].timestampSeconds
    ensures forall j :: 0 <= j < k ==> batch[j].timestampSeconds < batch[k].timestampSeconds
    decreases |batch|
  {
    if |batch| == 1 then 0
    else
      var k := NewestIndex(batch[..|batch| - 1]);
      if batch[|batch| - 1].timestampSeconds > batch[k].timestampSeconds then |batch| - 1 else k
  }

  /** The two ordering conditions pin down one frame: no other index meets
      them, so the choice does not depend on how the sort is carried out. */
  lemma NewestIsUnique(batch: seq<PipelineResult>, k: nat, k': nat)
    requires k < |batch| && k' < |batch|
    requires forall j :: 0 <= j < |batch| ==> batch[j].timestampSeconds <= batch[k].timestampSeconds
    requires forall j :: 0 <= j < k ==> batch[j].timestampSeconds < batch[k].timestampSeconds
    requires forall j :: 0 <= j < |batch| ==> batch[j].timestampSeconds <= batch[k'].timestampSeconds
    requires forall j :: 0 <= j < k' ==> batch[j].timestampSeconds < batch[k'].timestampSeconds
    ensures k == k'
  {
    var t, t' := batch[k].timestampSeconds, batch[k'].timestampSeconds;
    assert k < k' ==> t < t';
    assert k' < k ==> t' < t;
  }

  /** Index `k` is where a stable newest-first sort takes its head from:
      nothing in the batch is newer, and every frame before it is strictly
      older. */
  ghost predicate SortHeadAt(batch: seq<PipelineResult>, k: nat) {
    && k < |batch|
    && (forall j :: 0 <= j < |batch| ==> batch[j].timestampSeconds <= batch[k].timestampSeconds)
    && (forall j :: 0 <= j < k ==> batch[j].timestampSeconds < batch[k].timestampSeconds)
  }

  /** `r` is the frame a stable newest-first sort of `batch` puts in front:
      of the newest frames, the one that arrived first. */
  ghost predicate IsSortHead(batch: seq<PipelineResult>, r: PipelineResult) {
    exists k: nat :: SortHeadAt(batch, k) && batch[k] == r
  }

  /** The sort head is a single frame: two frames that both qualify are the
      same frame. */
  lemma SortHeadDetermined(batch: seq<PipelineResult>, r: PipelineResult, r': PipelineResult)
    requires IsSortHead(batch, r) && IsSortHead(batch, r')
    ensures r == r'
  {
    var k: nat :| SortHeadAt(batch, k) && batch[k] == r;
    var k': nat :| SortHeadAt(batch, k') && batch[k'] == r';
    NewestIsUnique(batch, k, k');
  }

  /** A camera's current result after draining its unread frames: the head
      of the stable newest-first sort if any arrived, otherwise the result it
      already held. */
  function Drain(previous: PipelineResult, unread: seq<PipelineResult>): (r: PipelineResult)
    ensures |unread| == 0 ==> r == previous
    ensures |unread| > 0 ==> r in unread
    ensures |unread| > 0 ==> forall j :: 0 <= j < |unread| ==> unread[j].timestampSeconds <= r.timestampSeconds
    ensures |unread| > 0 ==> IsSortHead(unread, r)
  {
    if |unread| == 0 then previous
    else
      var k := NewestIndex(unread);
      assert SortHeadAt(unread, k);
      unread[k]
  }

  /** Whether a camera's current result goes on to the pose estimator: it
      must have targets, and a lone target must not be more ambiguous than
      the threshold. */
  function PassesFilter(result: PipelineResult): (pass: bool)
    ensures !HasTargets(result) ==> !pass
    ensures |result.targets| >= 2 ==> pass
    ensures |result.targets| == 1 ==> (pass <==> BestTarget(result).poseAmbiguity <= MaximumAmbiguity)
  {
    HasTargets(result)
    && !(|result.targets| == 1 && BestTarget(result).poseAmbiguity > MaximumAmbiguity)
  }

  /** A lone tag at ambiguity 0.3 is dropped; one at exactly the threshold
      is kept; two tags pass however ambiguous they are. */
  lemma FilterExamples()
    ensures !PassesFilter(PipelineResult(1.0, [Target(7, 0.3)]))
    ensures PassesFilter(PipelineResult(1.0, [Target(7, 0.25)]))
    ensures PassesFilter(PipelineResult(1.0, [Target(7, 0.9), Target(8, 0.95)]))
  {
  }
}
