/** What the topic page (src/pages/TopicDetail.tsx) decides: where to
    redirect, the mock section list, the update its first visit and its
    "start learning" button send, and the button's caption. */
module TopicDetail {
  import opened Wrappers
  import opened Learning
  import Format
  import Auth

  datatype SectionType = Text | Video | Quiz | Exercise

  /** Which mock paragraph a section's content is, and the topic title it
      mentions; `Prose` gives its exact wording. */
  datatype Paragraph =
    | Introduction(topicTitle: string)
    | CoreConcepts(topicTitle: string)
    | PracticalApplication
    | AdvancedTechniques(topicTitle: string)
    | KnowledgeCheck

  datatype ContentSection = ContentSection(id: string, title: string, kind: SectionType, content: Paragraph, duration: nat)

  /** The "Estimated Time" the page shows, in minutes. */
  const EstimatedMinutes: nat := 75

  function TotalDuration(ss: seq<ContentSection>): nat
    decreases |ss|
  {
    if ss == [] then 0 else ss[0].duration + TotalDuration(ss[1..])
  }

  /** The sections the page invents for a topic; their durations add up to
      the estimate shown beside them. */
  function MockSections(title: string): (ss: seq<ContentSection>)
    ensures |ss| == 5
    ensures ss[0].duration == 10 && ss[1].duration == 15 && ss[2].duration == 20
    ensures ss[3].duration == 18 && ss[4].duration == 12
    ensures ss[0].kind == Text && ss[1].kind == Text && ss[2].kind == Exercise
    ensures ss[3].kind == Video && ss[4].kind == Quiz
    ensures TotalDuration(ss) == EstimatedMinutes
  {
    var ss := [
      ContentSection("s1", "Introduction to " + title, Text, Introduction(title), 10),
      ContentSection("s2", "Core Concepts", Text, CoreConcepts(title), 15),
      ContentSection("s3", "Practical Application", Exercise, PracticalApplication, 20),
      ContentSection("s4", "Advanced Techniques", Video, AdvancedTechniques(title), 18),
      ContentSection("s5", "Knowledge Check", Quiz, KnowledgeCheck, 12)];
    assert TotalDuration(ss[4..]) == 12;
    assert TotalDuration(ss[3..]) == 30 by { assert ss[3..][1..] == ss[4..]; }
    assert TotalDuration(ss[2..]) == 50 by { assert ss[2..][1..] == ss[3..]; }
    assert TotalDuration(ss[1..]) == 65 by { assert ss[1..][1..] == ss[2..]; }
    ss
  }

  const IntroductionLead: string := "This comprehensive introduction will guide you through the fundamental concepts of "
  const IntroductionTail: string := ". We'll explore the key principles and applications that make this subject relevant in today's world."
  const CoreConceptsLead: string := "In this section, we'll dive deeper into the essential frameworks and methodologies that form the backbone of "
  const CoreConceptsTail: string := ". You'll gain a solid understanding of how these concepts interrelate and build upon each other."
  const PracticalApplicationText: string := "Now it's time to apply what you've learned. This hands-on exercise will challenge you to solve real-world problems using the knowledge you've gained so far."
  const AdvancedTechniquesLead: string := "Watch this comprehensive video tutorial that demonstrates advanced techniques in "
  const AdvancedTechniquesTail: string := ". These methods will help you tackle complex challenges more effectively."
  const KnowledgeCheckText: string := "Test your understanding with this quiz covering the key concepts we've explored. This will help reinforce your learning and identify any areas that might need additional review."

  lemma PrefixOfJoin(lead: string, middle: string, tail: string)
    ensures lead + middle <= lead + middle + tail
  {
  }

  /** The text of a mock paragraph: the three that name the topic do so,
      lower-cased, right after their opening words. */
  function Prose(p: Paragraph): (text: string)
    ensures p.Introduction? ==> IntroductionLead + Format.AsciiLower(p.topicTitle) <= text
    ensures p.CoreConcepts? ==> CoreConceptsLead + Format.AsciiLower(p.topicTitle) <= text
    ensures p.AdvancedTechniques? ==> AdvancedTechniquesLead + Format.AsciiLower(p.topicTitle) <= text
  {
    match p
    case Introduction(t) =>
      PrefixOfJoin(IntroductionLead, Format.AsciiLower(t), IntroductionTail);
      IntroductionLead + Format.AsciiLower(t) + IntroductionTail
    case CoreConcepts(t) =>
      PrefixOfJoin(CoreConceptsLead, Format.AsciiLower(t), CoreConceptsTail);
      CoreConceptsLead + Format.AsciiLower(t) + CoreConceptsTail
    case PracticalApplication => PracticalApplicationText
    case AdvancedTechniques(t) =>
      PrefixOfJoin(AdvancedTechniquesLead, Format.AsciiLower(t), AdvancedTechniquesTail);
      AdvancedTechniquesLead + Format.AsciiLower(t) + AdvancedTechniquesTail
    case KnowledgeCheck => KnowledgeCheckText
  }

  /** `topicId ? getTopicById(topicId) : undefined`: a missing or empty id
      (both falsy) finds no topic. */
  function PageTopic(topics: seq<Topic>, topicId: Option<string>): (t: Option<Topic>)
    ensures (topicId.None? || topicId.value == "") ==> t.None?
    ensures topicId.Some? && topicId.value != "" ==> TopicFound(topics, topicId.value, t)
  {
    if topicId.Some? && topicId.value != "" then FindTopic(topics, topicId.value) else None
  }

  /** `topicId ? getProgressForTopic(topicId) : undefined`. */
  function PageProgress(ps: seq<Progress>, topicId: Option<string>): (p: Option<Progress>)
    ensures (topicId.None? || topicId.value == "") ==> p.None?
    ensures topicId.Some? && topicId.value != "" ==> ProgressFound(ps, topicId.value, p)
  {
    if topicId.Some? && topicId.value != "" then FindProgress(ps, topicId.value) else None
  }

  datatype PageAction = Navigate(route: string) | ShowTopic(topic: Topic)

  /** The page's effect: a signed-out visitor goes to the login page whatever
      the topic; a signed-in one whose topic is unknown goes to the dashboard. */
  function MountAction(isAuthenticated: bool, topic: Option<Topic>): (a: PageAction)
    ensures !isAuthenticated ==> a == Navigate("/login")
    ensures isAuthenticated && topic.None? ==> a == Navigate("/dashboard")
    ensures isAuthenticated && topic.Some? ==> a == ShowTopic(topic.value)
  {
    if !isAuthenticated then Navigate("/login")
    else if topic.None? then Navigate("/dashboard")
    else ShowTopic(topic.value)
  }

  /** The update a first visit sends once the sections are in. */
  const InitialUpdate: ProgressUpdate :=
    NoFields.(status := Some(InProgress), percentComplete := Some(0), timeSpent := Some(0))

  /** `x || d` on a number that may be missing: 0 counts as missing too. */
  function OrDefault(x: Option<int>, d: int): (r: int)
    ensures x.Some? && x.value != 0 ==> r == x.value
    ensures (x.None? || x.value == 0) ==> r == d
  {
    if x.Some? && x.value != 0 then x.value else d
  }

  function PercentOf(p: Option<Progress>): Option<int> {
    if p.Some? then Some(p.value.percentComplete) else None
  }

  function TimeOf(p: Option<Progress>): Option<int> {
    if p.Some? then Some(p.value.timeSpent) else None
  }

  /** The update `startLearning` sends: in progress, the percentage kept
      unless it is missing or 0 (then 5), five more minutes. */
  function StartLearningUpdate(progress: Option<Progress>): (u: ProgressUpdate)
    ensures u.status == Some(InProgress)
    ensures u.userId.None? && u.topicId.None? && u.lastAccessed.None?
    ensures progress.Some? && progress.value.percentComplete != 0 ==> u.percentComplete == Some(progress.value.percentComplete)
    ensures (progress.None? || progress.value.percentComplete == 0) ==> u.percentComplete == Some(5)
    ensures u.timeSpent == Some((if progress.Some? then progress.value.timeSpent else 0) + 5)
  {
    NoFields.(
      status := Some(InProgress),
      percentComplete := Some(OrDefault(PercentOf(progress), 5)),
      timeSpent := Some(OrDefault(TimeOf(progress), 0) + 5))
  }

  /** `startLearning`: nothing without a topic, else the update for its id. */
  function StartLearning(topic: Option<Topic>, progress: Option<Progress>): (r: Option<(string, ProgressUpdate)>)
    ensures r.None? <==> topic.None?
    ensures r.Some? ==> r.value == (topic.value.id, StartLearningUpdate(progress))
  {
    if topic.Some? then Some((topic.value.id, StartLearningUpdate(progress))) else None
  }

  const ContinueCaption: string := "Continue Learning"
  const StartCaption: string := "Start Learning"

  /** `progress?.percentComplete ? 'Continue Learning' : 'Start Learning'`. */
  function ButtonCaption(progress: Option<Progress>): (c: string)
    ensures c == ContinueCaption <==> progress.Some? && progress.value.percentComplete != 0
    ensures c != ContinueCaption ==> c == StartCaption
  {
    if progress.Some? && progress.value.percentComplete != 0 then ContinueCaption else StartCaption
  }

  /** `Math.floor(Math.random() * 200) + 50` active learners. */
  function ActiveLearners(r: Random): (n: int)
    ensures 50 <= n <= 249
  {
    RandomBelow(r, 200) + 50
  }

  /** The first-visit update repeats the defaults of a new record and keeps
      the topic's key, so it adds nothing a new record lacks. */
  lemma InitialUpdateIsDefaults(userId: string, topicId: string, now: Instant)
    ensures KeepsKey(InitialUpdate, topicId)
    ensures Overlay(NewProgress(userId, topicId, now), InitialUpdate) == NewProgress(userId, topicId, now)
  {
  }

  /** A first visit leaves exactly the documented default record. */
  lemma FirstVisitRecord(prev: seq<Progress>, userId: string, topicId: string, now: Instant)
    requires FindProgress(prev, topicId).None?
    ensures FindProgress(UpsertProgress(prev, userId, topicId, InitialUpdate, now), topicId)
         == Some(Progress(userId, topicId, InProgress, 0, now, 0))
  {
    FindAfterUpsert(prev, userId, topicId, InitialUpdate, now);
  }

  /** After "start learning" the topic's record is in progress, has five
      more minutes, a nonzero percentage, and the button reads "Continue Learning". */
  lemma StartLearningRecord(prev: seq<Progress>, userId: string, topicId: string, now: Instant)
    ensures var p := FindProgress(prev, topicId);
      var q := FindProgress(UpsertProgress(prev, userId, topicId, StartLearningUpdate(p), now), topicId);
      && q.Some?
      && q.value.status == InProgress
      && q.value.timeSpent == (if p.Some? then p.value.timeSpent else 0) + 5
      && q.value.percentComplete == OrDefault(PercentOf(p), 5)
      && q.value.percentComplete != 0
      && q.value.lastAccessed == now
      && ButtonCaption(q) == ContinueCaption
  {
    var p := FindProgress(prev, topicId);
    FindAfterUpsert(prev, userId, topicId, StartLearningUpdate(p), now);
  }

  /** The page's own state: the loaded sections and its loading flag. */
  class TopicPage {
    var sections: seq<ContentSection>
    var isLoading: bool

    constructor ()
      ensures sections == [] && isLoading
    {
      sections := [];
      isLoading := true;
    }

    /** The effect up to the timer: redirect, or start loading. */
    method Mount(isAuthenticated: bool, topic: Option<Topic>) returns (a: PageAction)
      modifies this
      ensures a == MountAction(isAuthenticated, topic)
      ensures sections == old(sections)
      ensures isLoading == (if a.ShowTopic? then true else old(isLoading))
    {
      a := MountAction(isAuthenticated, topic);
      if a.ShowTopic? {
        isLoading := true;
      }
    }

    /** The timer callback: the sections are in, and a first visit records
        initial progress through the store. */
    method SectionsReady(topic: Topic, progress: Option<Progress>, store: LearningStore, user: Option<Auth.User>, now: Instant)
      modifies this, store
      ensures sections == MockSections(topic.title) && !isLoading
      ensures store.topics == old(store.topics)
      ensures progress.Some? || user.None? ==> store.userProgress == old(store.userProgress)
      ensures progress.None? && user.Some? ==>
        store.userProgress == UpsertProgress(old(store.userProgress), user.value.id, topic.id, InitialUpdate, now)
    {
      sections := MockSections(topic.title);
      isLoading := false;
      if progress.None? {
        store.UpdateProgress(user, topic.id, InitialUpdate, now);
      }
    }

    /** The button's handler. */
    method StartLearningClicked(topic: Option<Topic>, progress: Option<Progress>, store: LearningStore, user: Option<Auth.User>, now: Instant)
      modifies store
      ensures store.topics == old(store.topics)
      ensures topic.None? || user.None? ==> store.userProgress == old(store.userProgress)
      ensures topic.Some? && user.Some? ==>
        store.userProgress == UpsertProgress(old(store.userProgress), user.value.id, topic.value.id, StartLearningUpdate(progress), now)
    {
      var send := StartLearning(topic, progress);
      if send.Some? {
        store.UpdateProgress(user, send.value.0, send.value.1, now);
      }
    }
  }
}
