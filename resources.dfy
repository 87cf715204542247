/**
 * The resource manager panel (src/components/ResourceManager.jsx): probes
 * the sixteen files the page expects, shows how many exist and marks each
 * one, and offers the generated resource pack for download.
 *
 * The probes' outcomes are parameters, one per resource, in the order the
 * loop awaits them. The completion percentage is compared with 100 in
 * floating point; with 16 resources `(existing / 16) * 100` is exact, so
 * it is 100 exactly when every resource exists, which is what the model
 * compares.
 */
module Resources {
  import opened Common
  import Notifications
  import Placeholder

  datatype Kind = Image | Audio

  datatype Resource = Resource(path: string, name: string, kind: Kind)

  /** The files the page expects, in display order. */
  const RequiredResources := [
    Resource("/images/hero-bg.jpg", "首屏背景图片", Image),
    Resource("/music/bgm.mp3", "背景音乐", Audio),
    Resource("/images/timeline/meeting.jpg", "第一次见面", Image),
    Resource("/images/timeline/date1.jpg", "第一次约会1", Image),
    Resource("/images/timeline/date2.jpg", "第一次约会2", Image),
    Resource("/images/timeline/relationship.jpg", "确定关系", Image),
    Resource("/images/timeline/valentine.jpg", "情人节", Image),
    Resource("/images/timeline/travel1.jpg", "旅行1", Image),
    Resource("/images/timeline/travel2.jpg", "旅行2", Image),
    Resource("/images/timeline/travel3.jpg", "旅行3", Image),
    Resource("/images/gallery/photo1.jpg", "相册1", Image),
    Resource("/images/gallery/photo2.jpg", "相册2", Image),
    Resource("/images/gallery/photo3.jpg", "相册3", Image),
    Resource("/images/gallery/photo4.jpg", "相册4", Image),
    Resource("/images/gallery/photo5.jpg", "相册5", Image),
    Resource("/images/gallery/photo6.jpg", "相册6", Image)
  ]

  const TotalCount := |RequiredResources|

  ghost predicate DistinctPaths(rs: seq<Resource>) {
    forall i, j :: 0 <= i < j < |rs| ==> rs[i].path != rs[j].path
  }

  /** Sixteen resources, no path listed twice, only the music is audio. */
  lemma RequiredResourcesShape()
    ensures TotalCount == 16 && DistinctPaths(RequiredResources)
    ensures forall i :: 0 <= i < 16 ==> (RequiredResources[i].kind == Audio <==> i == 1)
  {
  }

  ghost function Paths(rs: seq<Resource>): set<string> {
    set i | 0 <= i < |rs| :: rs[i].path
  }

  /**
   * The `checkResources` loop: visits the resources in order and records
   * one boolean per path, false when the probe throws. A path listed
   * again later takes the later outcome.
   */
  method CollectStatus(rs: seq<Resource>, probes: seq<Placeholder.FetchOutcome>) returns (status: map<string, bool>)
    requires |probes| == |rs|
    ensures status.Keys == Paths(rs)
    ensures forall i :: 0 <= i < |rs| && (forall j :: i < j < |rs| ==> rs[j].path != rs[i].path) ==>
      status[rs[i].path] == Placeholder.CheckResourceExists(probes[i])
  {
    status := map[];
    var i := 0;
    while i < |rs|
      invariant 0 <= i <= |rs|
      invariant status.Keys == Paths(rs[..i])
      invariant forall k :: 0 <= k < i && (forall j :: k < j < i ==> rs[j].path != rs[k].path) ==>
        status[rs[k].path] == Placeholder.CheckResourceExists(probes[k])
    {
      var exists_ := Placeholder.CheckResourceExists(probes[i]);
      status := status[rs[i].path := exists_];
      assert Paths(rs[..i + 1]) == Paths(rs[..i]) + {rs[i].path} by {
        assert forall k :: 0 <= k < i ==> rs[..i + 1][k] == rs[..i][k];
      }
      i := i + 1;
    }
    assert rs[..i] == rs;
  }

  /** `Object.values(status).filter(Boolean).length` */
  function ExistingCount(status: map<string, bool>): (n: nat)
    ensures n <= |status.Keys|
  {
    var present := set p | p in status && status[p];
    assert present <= status.Keys;
    SubsetCard(present, status.Keys);
    |present|
  }

  lemma SubsetCard<T>(a: set<T>, b: set<T>)
    requires a <= b
    ensures |a| <= |b|
  {
    if a != {} {
      var x :| x in a;
      SubsetCard(a - {x}, b - {x});
    }
  }

  /** Every path the status records is a required one: the count never exceeds the total. */
  lemma CountBounded(status: map<string, bool>)
    requires status.Keys <= Paths(RequiredResources)
    ensures ExistingCount(status) <= TotalCount
  {
    SubsetCard(status.Keys, Paths(RequiredResources));
    PathsCard(RequiredResources);
  }

  lemma {:induction false} PathsCard(rs: seq<Resource>)
    ensures |Paths(rs)| <= |rs|
    decreases |rs|
  {
    if rs != [] {
      var init := rs[..|rs| - 1];
      PathsCard(init);
      assert Paths(rs) == Paths(init) + {rs[|rs| - 1].path} by {
        assert forall k :: 0 <= k < |rs| - 1 ==> init[k] == rs[k];
        forall p | p in Paths(rs)
          ensures p in Paths(init) + {rs[|rs| - 1].path}
        {
          var k :| 0 <= k < |rs| && rs[k].path == p;
          if k < |rs| - 1 {
            assert init[k].path == p;
          }
        }
      }
    }
  }

  /** "All resources ready" is shown exactly when every resource exists. */
  predicate AllReady(status: map<string, bool>) {
    ExistingCount(status) == TotalCount
  }

  /** The missing count shown otherwise. */
  function MissingCount(status: map<string, bool>): int {
    TotalCount - ExistingCount(status)
  }

  /** After a full check, all is ready exactly when every probe answered ok, and the missing count is never negative. */
  lemma AllReadyAfterCheck(status: map<string, bool>)
    requires status.Keys == Paths(RequiredResources)
    ensures AllReady(status) <==> forall p :: p in status ==> status[p]
    ensures MissingCount(status) >= 0
  {
    RequiredResourcesShape();
    PathsOfDistinct(RequiredResources);
    var present := set p | p in status && status[p];
    if forall p :: p in status ==> status[p] {
      assert present == status.Keys;
    } else {
      var q :| q in status && !status[q];
      assert present <= status.Keys - {q};
      SubsetCard(present, status.Keys - {q});
    }
  }

  lemma {:induction false} PathsOfDistinct(rs: seq<Resource>)
    requires DistinctPaths(rs)
    ensures |Paths(rs)| == |rs|
    decreases |rs|
  {
    if rs != [] {
      var init := rs[..|rs| - 1];
      PathsOfDistinct(init);
      assert Paths(rs) == Paths(init) + {rs[|rs| - 1].path} by {
        forall p | p in Paths(rs)
          ensures p in Paths(init) + {rs[|rs| - 1].path}
        {
          var k :| 0 <= k < |rs| && rs[k].path == p;
          if k < |rs| - 1 {
            assert init[k].path == p;
          }
        }
      }
      assert rs[|rs| - 1].path !in Paths(init);
    }
  }

  /** The mark beside a resource: a check only for a path recorded as existing; unchecked paths show the cross. */
  function Mark(status: map<string, bool>, path: string): (ok: bool)
    ensures path !in status ==> !ok
    ensures ok <==> path in status && status[path]
  {
    if path in status then status[path] else false
  }

  // ---------------------------------------------------------------------
  // generateExampleResources

  const GeneratedMessage := "示例资源包已生成并开始下载"
  const GenerationFailedPrefix := "资源生成失败: "

  /** What the generate button's async handler ends with: a notification, or a rejected promise. */
  datatype Settled = Notified(notice: Notifications.Request) | Rejected(error: string)

  function SuccessNotice(): (r: Notifications.Request)
    ensures r.kind == Some("success") && r.title == Some("资源生成成功") && r.duration == Some(5000)
  {
    Notifications.SuccessRequest(GeneratedMessage,
      Notifications.NoFields.(title := Some("资源生成成功"), duration := Some(5000)))
  }

  /**
   * AS WRITTEN: `failure` is the message of what `generateResourcePack` or
   * `download` threw, if anything. The catch block calls `showError`,
   * which this file never imports, so it throws a ReferenceError instead
   * of notifying; `finally` still runs and the promise rejects.
   */
  function GenerationAsWritten(failure: Option<string>): (r: Settled)
    ensures failure.None? ==> r == Notified(SuccessNotice())
    ensures failure.Some? ==> r == Rejected("ReferenceError: showError is not defined")
  {
    match failure
    case None => Notified(SuccessNotice())
    case Some(_) => Rejected("ReferenceError: showError is not defined")
  }

  /** Every failure of the pack goes unreported to the user. */
  lemma GenerationFailureUnreported(message: string)
    ensures GenerationAsWritten(Some(message)).Rejected?
  {
  }

  /** As evidently intended: a failure shows the error notification with the thrown message. */
  function IntendedGeneration(failure: Option<string>): (r: Settled)
    ensures r.Notified?
    ensures failure.None? ==> r.notice.kind == Some("success")
    ensures failure.Some? ==>
      (r.notice.kind == Some("error")
       && r.notice.message == Some(GenerationFailedPrefix + failure.value)
       && r.notice.duration == Some(Notifications.ErrorDuration))
  {
    match failure
    case None => Notified(SuccessNotice())
    case Some(m) => Notified(Notifications.ErrorRequest(GenerationFailedPrefix + m, Notifications.NoFields))
  }

  /** The panel's state. */
  class Panel {
    var isOpen: bool
    var status: map<string, bool>
    var isChecking: bool
    var isGenerating: bool

    constructor ()
      ensures !isOpen && status == map[] && !isChecking && !isGenerating
    {
      isOpen, status, isChecking, isGenerating := false, map[], false, false;
    }

    /** The settings button: toggles the panel; opening it starts a check. */
    method ToggleOpen()
      modifies this
      ensures isOpen == !old(isOpen)
      ensures isChecking == (old(isChecking) || isOpen)
      ensures status == old(status) && isGenerating == old(isGenerating)
    {
      isOpen := !isOpen;
      if isOpen {
        BeginCheck();
      }
    }

    /** The close button. */
    method Close()
      modifies this`isOpen
      ensures !isOpen
    {
      isOpen := false;
    }

    /** `checkResources` starts: the spinner is on. */
    method BeginCheck()
      modifies this`isChecking
      ensures isChecking
    {
      isChecking := true;
    }

    /** The probes have settled: the status table is replaced and the spinner is off. */
    method CompleteCheck(probes: seq<Placeholder.FetchOutcome>)
      requires |probes| == TotalCount
      modifies this`status, this`isChecking
      ensures !isChecking
      ensures status.Keys == Paths(RequiredResources)
      ensures forall i :: 0 <= i < TotalCount ==>
        status[RequiredResources[i].path] == Placeholder.CheckResourceExists(probes[i])
    {
      RequiredResourcesShape();
      status := CollectStatus(RequiredResources, probes);
      isChecking := false;
    }

    /** The generate button, with the catch block's notification as intended; `finally` clears the flag. */
    method GenerateExampleResources(failure: Option<string>) returns (settled: Settled)
      modifies this`isGenerating
      ensures !isGenerating
      ensures settled == IntendedGeneration(failure)
    {
      isGenerating := true;
      settled := IntendedGeneration(failure);
      isGenerating := false;
    }
  }
}
