/** What the dashboard (src/pages/Dashboard.tsx) derives from the two
    stores: the status counts, the authentication gate and each topic
    card's progress caption. Records have the shape of the learning store. */
module Dashboard {
  import opened Wrappers
  import opened Learning
  import Format

  datatype TopicCounts = TopicCounts(total: int, completed: int, inProgress: int, notStarted: int)

  /** `ps.filter(p => p.status === s).length`. */
  function CountStatus(ps: seq<Progress>, s: Status): (n: nat)
    ensures n <= |ps|
    ensures n == 0 <==> forall i :: 0 <= i < |ps| ==> ps[i].status != s
    ensures n == |ps| <==> forall i :: 0 <= i < |ps| ==> ps[i].status == s
    decreases |ps|
  {
    if ps == [] then 0
    else (if ps[0].status == s then 1 else 0) + CountStatus(ps[1..], s)
  }

  /** Every record has exactly one of the three statuses. */
  lemma {:induction false} StatusCountsPartition(ps: seq<Progress>)
    ensures CountStatus(ps, NotStarted) + CountStatus(ps, InProgress) + CountStatus(ps, Completed) == |ps|
    decreases |ps|
  {
    if ps != [] {
      StatusCountsPartition(ps[1..]);
    }
  }

  /** `getTopicCounts`. `notStarted` is the catalog size less the number of
      records, so the three counts never exceed the total, and reach it
      exactly when no record has status `not_started`. */
  function GetTopicCounts(topics: seq<Topic>, ps: seq<Progress>): (c: TopicCounts)
    ensures c.total == |topics| && c.notStarted == |topics| - |ps|
    ensures c.completed == CountStatus(ps, Completed) && c.inProgress == CountStatus(ps, InProgress)
    ensures c.completed + c.inProgress + c.notStarted <= c.total
    ensures c.completed + c.inProgress + c.notStarted == c.total
        <==> forall i :: 0 <= i < |ps| ==> ps[i].status != NotStarted
  {
    StatusCountsPartition(ps);
    TopicCounts(|topics|, CountStatus(ps, Completed), CountStatus(ps, InProgress), |topics| - |ps|)
  }

  datatype GateAction = Navigate(route: string) | LoadTopics

  /** The dashboard's effect: send a signed-out visitor to the login page,
      otherwise load the catalog. */
  function AuthGate(isAuthenticated: bool): (a: GateAction)
    ensures a.Navigate? <==> !isAuthenticated
    ensures a.Navigate? ==> a.route == "/login"
  {
    if isAuthenticated then LoadTopics else Navigate("/login")
  }

  const NotStartedLabel: string := "Not started"
  const CompleteSuffix: string := "% complete"

  /** The progress caption on a topic's card. */
  function ProgressLabel(ps: seq<Progress>, topicId: string): (caption: string)
    ensures FindProgress(ps, topicId).None? ==> caption == NotStartedLabel
    ensures FindProgress(ps, topicId).Some? ==>
      caption == Format.IntString(FindProgress(ps, topicId).value.percentComplete) + CompleteSuffix
  {
    match FindProgress(ps, topicId)
    case Some(p) => Format.IntString(p.percentComplete) + CompleteSuffix
    case None => NotStartedLabel
  }

  /** A card with a record never reads "Not started", and the number in its
      caption is the record's percentage. */
  lemma LabelShowsPercent(ps: seq<Progress>, topicId: string)
    requires FindProgress(ps, topicId).Some?
    ensures var caption := ProgressLabel(ps, topicId);
      && caption != NotStartedLabel
      && |caption| > |CompleteSuffix|
      && caption[|caption| - |CompleteSuffix|..] == CompleteSuffix
      && Format.IntValue(caption[..|caption| - |CompleteSuffix|]) == Some(FindProgress(ps, topicId).value.percentComplete)
  {
    var n := FindProgress(ps, topicId).value.percentComplete;
    var text := Format.IntString(n);
    var caption := ProgressLabel(ps, topicId);
    assert caption[..|caption| - |CompleteSuffix|] == text;
    assert caption[|caption| - |CompleteSuffix|..] == CompleteSuffix;
    assert caption[|caption| - 1] == 'e' && NotStartedLabel[|NotStartedLabel| - 1] == 'd';
    Format.IntStringRoundTrip(n);
  }
}
