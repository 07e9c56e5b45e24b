/** The learning store (src/hooks/useLearning.tsx): the topic catalog and
    the signed-in user's progress records, with first-match lookups and an
    upsert keyed by topic. `Math.random()` draws and `new Date()` readings
    are inputs; the user comes from the session store. */
module Learning {
  import opened Wrappers
  import Auth

  /** A `Date`, as milliseconds since 1970-01-01T00:00:00Z. */
  type Instant = int

  /** A `Math.random()` draw. */
  type Random = r: real | 0.0 <= r < 1.0

  datatype Difficulty = Beginner | Intermediate | Advanced

  datatype Status = NotStarted | InProgress | Completed

  datatype Topic = Topic(
    id: string,
    title: string,
    description: string,
    category: string,
    popularity: int,
    difficulty: Difficulty,
    createdAt: Instant,
    updatedAt: Instant)

  datatype Progress = Progress(
    userId: string,
    topicId: string,
    status: Status,
    percentComplete: int,
    lastAccessed: Instant,
    timeSpent: int)  // minutes

  /** `Partial<Progress>`: the fields an update carries. */
  datatype ProgressUpdate = ProgressUpdate(
    userId: Option<string>,
    topicId: Option<string>,
    status: Option<Status>,
    percentComplete: Option<int>,
    lastAccessed: Option<Instant>,
    timeSpent: Option<int>)

  const NoFields: ProgressUpdate := ProgressUpdate(None, None, None, None, None, None)

  // ---------------------------------------------------------------------
  // First-match lookups (`Array.prototype.find`)

  /** `i` is the first position whose topic has id `id`. */
  predicate IsFirstTopic(ts: seq<Topic>, id: string, i: int) {
    0 <= i < |ts| && ts[i].id == id && forall j :: 0 <= j < i ==> ts[j].id != id
  }

  /** `r` is what `ts.find(t => t.id === id)` gives. */
  ghost predicate TopicFound(ts: seq<Topic>, id: string, r: Option<Topic>) {
    && (r.None? <==> forall i :: 0 <= i < |ts| ==> ts[i].id != id)
    && (r.Some? ==> exists i :: IsFirstTopic(ts, id, i) && ts[i] == r.value)
  }

  function FindTopic(ts: seq<Topic>, id: string): (r: Option<Topic>)
    ensures TopicFound(ts, id, r)
    decreases |ts|
  {
    if ts == [] then None
    else if ts[0].id == id then
      assert IsFirstTopic(ts, id, 0);
      Some(ts[0])
    else
      var r := FindTopic(ts[1..], id);
      assert r.Some? ==> exists i :: IsFirstTopic(ts, id, i) && ts[i] == r.value by {
        if r.Some? {
          var i :| IsFirstTopic(ts[1..], id, i) && ts[1..][i] == r.value;
          assert IsFirstTopic(ts, id, i + 1);
        }
      }
      r
  }

  /** `i` is the first position whose record is for topic `topicId`. */
  predicate IsFirstProgress(ps: seq<Progress>, topicId: string, i: int) {
    0 <= i < |ps| && ps[i].topicId == topicId && forall j :: 0 <= j < i ==> ps[j].topicId != topicId
  }

  /** `r` is what `ps.find(p => p.topicId === topicId)` gives. */
  ghost predicate ProgressFound(ps: seq<Progress>, topicId: string, r: Option<Progress>) {
    && (r.None? <==> forall i :: 0 <= i < |ps| ==> ps[i].topicId != topicId)
    && (r.Some? ==> exists i :: IsFirstProgress(ps, topicId, i) && ps[i] == r.value)
  }

  function FindProgress(ps: seq<Progress>, topicId: string): (r: Option<Progress>)
    ensures ProgressFound(ps, topicId, r)
    decreases |ps|
  {
    if ps == [] then None
    else if ps[0].topicId == topicId then
      assert IsFirstProgress(ps, topicId, 0);
      Some(ps[0])
    else
      var r := FindProgress(ps[1..], topicId);
      assert r.Some? ==> exists i :: IsFirstProgress(ps, topicId, i) && ps[i] == r.value by {
        if r.Some? {
          var i :| IsFirstProgress(ps[1..], topicId, i) && ps[1..][i] == r.value;
          assert IsFirstProgress(ps, topicId, i + 1);
        }
      }
      r
  }

  /** Knowing the first matching position determines the lookup. */
  lemma FindProgressAt(ps: seq<Progress>, topicId: string, k: int)
    requires IsFirstProgress(ps, topicId, k)
    ensures FindProgress(ps, topicId) == Some(ps[k])
  {
    var r := FindProgress(ps, topicId);
    var i :| IsFirstProgress(ps, topicId, i) && ps[i] == r.value;
    assert i == k;
  }

  // ---------------------------------------------------------------------
  // The upsert

  /** At most one record per topic. */
  predicate AtMostOnePerTopic(ps: seq<Progress>) {
    forall i, j :: 0 <= i < j < |ps| ==> ps[i].topicId != ps[j].topicId
  }

  /** The update does not move a record to another topic. */
  predicate KeepsKey(u: ProgressUpdate, topicId: string) {
    u.topicId.None? || u.topicId == Some(topicId)
  }

  /** `{ ...p, ...update }`: each field the update carries replaces the record's. */
  function Overlay(p: Progress, u: ProgressUpdate): (r: Progress)
    ensures u.userId.Some? ==> r.userId == u.userId.value
    ensures u.topicId.Some? ==> r.topicId == u.topicId.value
    ensures u.status.Some? ==> r.status == u.status.value
    ensures u.percentComplete.Some? ==> r.percentComplete == u.percentComplete.value
    ensures u.lastAccessed.Some? ==> r.lastAccessed == u.lastAccessed.value
    ensures u.timeSpent.Some? ==> r.timeSpent == u.timeSpent.value
    ensures u.userId.None? ==> r.userId == p.userId
    ensures u.topicId.None? ==> r.topicId == p.topicId
    ensures u.status.None? ==> r.status == p.status
    ensures u.percentComplete.None? ==> r.percentComplete == p.percentComplete
    ensures u.lastAccessed.None? ==> r.lastAccessed == p.lastAccessed
    ensures u.timeSpent.None? ==> r.timeSpent == p.timeSpent
  {
    Progress(
      u.userId.GetOr(p.userId),
      u.topicId.GetOr(p.topicId),
      u.status.GetOr(p.status),
      u.percentComplete.GetOr(p.percentComplete),
      u.lastAccessed.GetOr(p.lastAccessed),
      u.timeSpent.GetOr(p.timeSpent))
  }

  lemma OverlayNoFields(p: Progress)
    ensures Overlay(p, NoFields) == p
  {
  }

  /** The record an update starts from when the topic has none yet. */
  function NewProgress(userId: string, topicId: string, now: Instant): (r: Progress)
    ensures r.userId == userId && r.topicId == topicId && r.lastAccessed == now
    ensures r.status == InProgress && r.percentComplete == 0 && r.timeSpent == 0
  {
    Progress(userId, topicId, InProgress, 0, now, 0)
  }

  /** An existing record after the update: overlaid, then stamped with `now`
      (the stamp wins over any `lastAccessed` in the update). */
  function Merged(p: Progress, u: ProgressUpdate, now: Instant): (r: Progress)
    ensures r.lastAccessed == now
    ensures r == Overlay(p, u.(lastAccessed := None)).(lastAccessed := now)
  {
    Overlay(p, u).(lastAccessed := now)
  }

  /** The body of the `setUserProgress` updater: merge into every record of
      the topic when there is one, otherwise append a fresh record with the
      update spread over the defaults. */
  function UpsertProgress(prev: seq<Progress>, userId: string, topicId: string, u: ProgressUpdate, now: Instant)
    : (r: seq<Progress>)
    ensures FindProgress(prev, topicId).Some? ==> |r| == |prev|
    ensures FindProgress(prev, topicId).Some? ==>
      forall i :: 0 <= i < |prev| ==>
        r[i] == (if prev[i].topicId == topicId then Merged(prev[i], u, now) else prev[i])
    ensures FindProgress(prev, topicId).None? ==> r == prev + [Overlay(NewProgress(userId, topicId, now), u)]
  {
    if FindProgress(prev, topicId).Some? then
      seq(|prev|, i requires 0 <= i < |prev| =>
        if prev[i].topicId == topicId then Merged(prev[i], u, now) else prev[i])
    else
      prev + [Overlay(NewProgress(userId, topicId, now), u)]
  }

  /** An upsert that keeps its key never creates a second record for a topic. */
  lemma UpsertKeepsAtMostOne(prev: seq<Progress>, userId: string, topicId: string, u: ProgressUpdate, now: Instant)
    requires AtMostOnePerTopic(prev) && KeepsKey(u, topicId)
    ensures AtMostOnePerTopic(UpsertProgress(prev, userId, topicId, u, now))
  {
    var r := UpsertProgress(prev, userId, topicId, u, now);
    if FindProgress(prev, topicId).Some? {
      assert forall i :: 0 <= i < |r| ==> r[i].topicId == prev[i].topicId;
    } else {
      assert forall i :: 0 <= i < |prev| ==> r[i] == prev[i];
    }
  }

  /** What the upsert leaves for the topic it was asked about. */
  function Upserted(prev: seq<Progress>, userId: string, topicId: string, u: ProgressUpdate, now: Instant): Progress {
    match FindProgress(prev, topicId)
    case Some(p) => Merged(p, u, now)
    case None => Overlay(NewProgress(userId, topicId, now), u)
  }

  /** Looking the topic up after the upsert finds the merged or the new record. */
  lemma FindAfterUpsert(prev: seq<Progress>, userId: string, topicId: string, u: ProgressUpdate, now: Instant)
    requires KeepsKey(u, topicId)
    ensures FindProgress(UpsertProgress(prev, userId, topicId, u, now), topicId)
         == Some(Upserted(prev, userId, topicId, u, now))
  {
    var r := UpsertProgress(prev, userId, topicId, u, now);
    match FindProgress(prev, topicId)
    case Some(p) =>
      var k :| IsFirstProgress(prev, topicId, k) && prev[k] == p;
      assert IsFirstProgress(r, topicId, k);
      FindProgressAt(r, topicId, k);
    case None =>
      assert IsFirstProgress(r, topicId, |prev|);
      FindProgressAt(r, topicId, |prev|);
  }

  /** Records of other topics keep answering their lookups unchanged. */
  lemma FindOtherAfterUpsert(prev: seq<Progress>, userId: string, topicId: string, u: ProgressUpdate, now: Instant, other: string)
    requires KeepsKey(u, topicId) && other != topicId
    ensures FindProgress(UpsertProgress(prev, userId, topicId, u, now), other) == FindProgress(prev, other)
  {
    var r := UpsertProgress(prev, userId, topicId, u, now);
    assert forall i :: 0 <= i < |prev| && prev[i].topicId == other ==> r[i] == prev[i];
    assert forall i :: 0 <= i < |prev| && prev[i].topicId != other ==> r[i].topicId != other;
    match FindProgress(prev, other)
    case Some(p) =>
      var k :| IsFirstProgress(prev, other, k) && prev[k] == p;
      assert IsFirstProgress(r, other, k);
      FindProgressAt(r, other, k);
    case None =>
      assert forall i :: 0 <= i < |r| ==> r[i].topicId != other;
  }

  /** Two upserts of the same topic in sequence leave one record for it:
      the list grows by at most one, and the lookup sees the second update. */
  lemma UpsertTwice(prev: seq<Progress>, userId: string, topicId: string, u1: ProgressUpdate, u2: ProgressUpdate, t1: Instant, t2: Instant)
    requires AtMostOnePerTopic(prev) && KeepsKey(u1, topicId) && KeepsKey(u2, topicId)
    ensures var r := UpsertProgress(UpsertProgress(prev, userId, topicId, u1, t1), userId, topicId, u2, t2);
      && AtMostOnePerTopic(r)
      && |r| == |prev| + (if FindProgress(prev, topicId).Some? then 0 else 1)
      && FindProgress(r, topicId) == Some(Merged(Upserted(prev, userId, topicId, u1, t1), u2, t2))
  {
    var r1 := UpsertProgress(prev, userId, topicId, u1, t1);
    UpsertKeepsAtMostOne(prev, userId, topicId, u1, t1);
    FindAfterUpsert(prev, userId, topicId, u1, t1);
    UpsertKeepsAtMostOne(r1, userId, topicId, u2, t2);
    FindAfterUpsert(r1, userId, topicId, u2, t2);
  }

  /** The key is spread from the update last, so an update naming another
      topic that already has a record makes two records for that topic. */
  lemma KeyOverrideDuplicates()
    ensures var prev := [Progress("u", "a", InProgress, 10, 0, 5), Progress("u", "b", InProgress, 20, 0, 5)];
      var u := NoFields.(topicId := Some("a"));
      && AtMostOnePerTopic(prev)
      && !AtMostOnePerTopic(UpsertProgress(prev, "u", "b", u, 1))
  {
    var prev := [Progress("u", "a", InProgress, 10, 0, 5), Progress("u", "b", InProgress, 20, 0, 5)];
    var u := NoFields.(topicId := Some("a"));
    var r := UpsertProgress(prev, "u", "b", u, 1);
    assert IsFirstProgress(prev, "b", 1);
    FindProgressAt(prev, "b", 1);
    assert r[0].topicId == "a" && r[1].topicId == "a";
  }

  // ---------------------------------------------------------------------
  // Mock data

  const MockTopics: seq<Topic> := [
    Topic("topic-1", "Introduction to Machine Learning",
      "Learn the fundamentals of machine learning algorithms and applications.",
      "Computer Science", 950, Beginner, 1672531200000, 1673308800000),
    Topic("topic-2", "Advanced Calculus",
      "Explore advanced calculus concepts including limits, derivatives, and integrals.",
      "Mathematics", 780, Advanced, 1676419200000, 1676851200000),
    Topic("topic-3", "Modern Physics",
      "Discover quantum mechanics, relativity, and other modern physics topics.",
      "Physics", 820, Intermediate, 1677628800000, 1678579200000),
    Topic("topic-4", "Web Development Fundamentals",
      "Learn HTML, CSS, and JavaScript to build interactive websites.",
      "Computer Science", 1050, Beginner, 1674172800000, 1675555200000),
    Topic("topic-5", "Data Visualization",
      "Create effective visual representations of data using modern tools.",
      "Data Science", 890, Intermediate, 1681084800000, 1682380800000)
  ]

  /** The mock catalog: five topics with distinct ids, each updated no
      earlier than it was created. */
  lemma MockCatalogShape()
    ensures |MockTopics| == 5
    ensures MockTopics[0].id == "topic-1" && MockTopics[1].id == "topic-2"
    ensures forall i, j :: 0 <= i < j < |MockTopics| ==> MockTopics[i].id != MockTopics[j].id
    ensures forall i :: 0 <= i < |MockTopics| ==> MockTopics[i].createdAt <= MockTopics[i].updatedAt
  {
  }

  /** `Math.floor(r * n)`: a random whole number below `n`. */
  function RandomBelow(r: Random, n: nat): (k: int)
    requires n > 0
    ensures 0 <= k < n
  {
    var x := r * (n as real);
    ScaledBelow(r, n as real);
    x.Floor
  }

  lemma ScaledBelow(r: real, m: real)
    requires 0.0 <= r < 1.0 && m > 0.0
    ensures 0.0 <= r * m < m
  {
    var d := 1.0 - r;
    assert d > 0.0;
    assert d * m > 0.0;
    assert m - r * m == d * m;
  }

  /** `Math.random() > 0.5 ? 'in_progress' : 'not_started'`. */
  function RandomStatus(r: Random): (s: Status)
    ensures s == InProgress <==> r > 0.5
    ensures s != Completed
  {
    if r > 0.5 then InProgress else NotStarted
  }

  /** The mock record for one topic, from three draws taken in the order the
      object literal evaluates them. */
  function MockRecord(userId: string, t: Topic, status: Random, percent: Random, time: Random, now: Instant): (r: Progress)
    ensures r.userId == userId && r.topicId == t.id && r.lastAccessed == now
    ensures r.status == InProgress <==> status > 0.5
    ensures r.status != Completed
    ensures 0 <= r.percentComplete < 100 && 0 <= r.timeSpent < 120
  {
    Progress(userId, t.id, RandomStatus(status), RandomBelow(percent, 100), now, RandomBelow(time, 120))
  }

  /** The progress `loadTopics` invents: one record for each of the first two
      mock topics, from six draws. */
  function MockProgress(userId: string, draws: seq<Random>, now: Instant): (r: seq<Progress>)
    requires |draws| == 6
    ensures |r| == 2 && AtMostOnePerTopic(r)
    ensures forall i :: 0 <= i < 2 ==>
      && r[i].userId == userId
      && r[i].topicId == MockTopics[i].id
      && r[i].lastAccessed == now
      && (r[i].status == InProgress || r[i].status == NotStarted)
      && 0 <= r[i].percentComplete <= 99
      && 0 <= r[i].timeSpent <= 119
  {
    [MockRecord(userId, MockTopics[0], draws[0], draws[1], draws[2], now),
     MockRecord(userId, MockTopics[1], draws[3], draws[4], draws[5], now)]
  }

  // ---------------------------------------------------------------------
  // The provider's state

  class LearningStore {
    var topics: seq<Topic>
    var userProgress: seq<Progress>

    /** Mounting the provider: nothing loaded. */
    constructor ()
      ensures topics == [] && userProgress == []
    {
      topics := [];
      userProgress := [];
    }

    /** `getTopicById`; before any load the catalog is empty and nothing is found. */
    function GetTopicById(id: string): (r: Option<Topic>)
      reads this
      ensures TopicFound(topics, id, r)
      ensures topics == [] ==> r == None
    {
      FindTopic(topics, id)
    }

    /** `getProgressForTopic`. */
    function GetProgressForTopic(topicId: string): (r: Option<Progress>)
      reads this
      ensures ProgressFound(userProgress, topicId, r)
    {
      FindProgress(userProgress, topicId)
    }

    /** `loadTopics`: the mock catalog, and for a signed-in user the mock progress. */
    method LoadTopics(user: Option<Auth.User>, draws: seq<Random>, now: Instant)
      requires |draws| == 6
      modifies this
      ensures topics == MockTopics
      ensures user.Some? ==> userProgress == MockProgress(user.value.id, draws, now)
      ensures user.None? ==> userProgress == old(userProgress)
    {
      topics := MockTopics;
      if user.Some? {
        userProgress := MockProgress(user.value.id, draws, now);
      }
    }

    /** The effect run whenever the signed-in user changes. */
    method UserChanged(user: Option<Auth.User>, draws: seq<Random>, now: Instant)
      requires |draws| == 6
      modifies this
      ensures user.Some? ==> topics == MockTopics && userProgress == MockProgress(user.value.id, draws, now)
      ensures user.None? ==> topics == [] && userProgress == []
    {
      if user.Some? {
        LoadTopics(user, draws, now);
      } else {
        topics := [];
        userProgress := [];
      }
    }

    /** `updateProgress`: nothing without a user; otherwise the upsert. */
    method UpdateProgress(user: Option<Auth.User>, topicId: string, update: ProgressUpdate, now: Instant)
      modifies this
      ensures topics == old(topics)
      ensures user.None? ==> userProgress == old(userProgress)
      ensures user.Some? ==> userProgress == UpsertProgress(old(userProgress), user.value.id, topicId, update, now)
      ensures user.Some? && KeepsKey(update, topicId) ==>
        GetProgressForTopic(topicId) == Some(Upserted(old(userProgress), user.value.id, topicId, update, now))
      ensures AtMostOnePerTopic(old(userProgress)) && KeepsKey(update, topicId) ==> AtMostOnePerTopic(userProgress)
    {
      if user.None? {
        return;
      }
      var prev := userProgress;
      userProgress := UpsertProgress(prev, user.value.id, topicId, update, now);
      if KeepsKey(update, topicId) {
        FindAfterUpsert(prev, user.value.id, topicId, update, now);
        if AtMostOnePerTopic(prev) {
          UpsertKeepsAtMostOne(prev, user.value.id, topicId, update, now);
        }
      }
    }
  }
}
