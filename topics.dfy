/** The tutoring-topic catalogue: a constant list of topics, a lookup by id
    and the system-prompt formatter used when a topic is chosen. */
module Topics {
  import opened Js

  datatype SkillLevel = Beginner | Intermediate | Advanced

  /** One entry of the catalogue. The presentation-only emoji is not part
      of this model. */
  datatype TutoringTopic = TutoringTopic(
    id: string,
    name: string,
    description: string,
    systemPrompt: string,
    learningObjectives: seq<string>,
    skillLevel: SkillLevel)

  /** The catalogue in source order. Each system prompt is represented by its
      opening sentence; the lookup and the formatter treat it as an opaque
      string. */
  const TutoringTopics: seq<TutoringTopic> := [
    TutoringTopic(
      "react", "React Development",
      "Learn React components, hooks, and state management",
      "You are an expert React tutor helping a student master React development.",
      ["Understanding components and props",
       "Working with hooks (useState, useEffect)",
       "Managing state and side effects"],
      Beginner),
    TutoringTopic(
      "javascript", "JavaScript Fundamentals",
      "Master core JavaScript concepts and modern ES6+ features",
      "You are an expert JavaScript tutor helping a student master JavaScript fundamentals.",
      ["Variables, data types, and operators",
       "Functions and scope",
       "Arrays and objects",
       "Async JavaScript and promises"],
      Beginner),
    TutoringTopic(
      "python", "Python Programming",
      "Learn Python from basics to advanced concepts",
      "You are an experienced Python tutor helping students learn Python programming.",
      ["Python syntax and data types",
       "Functions and modules",
       "Object-oriented programming",
       "File handling and exceptions"],
      Beginner),
    TutoringTopic(
      "math", "Mathematics",
      "Algebra, calculus, and problem-solving techniques",
      "You are a patient and skilled mathematics tutor helping a student understand mathematical concepts.",
      ["Algebraic equations and functions",
       "Calculus fundamentals",
       "Problem-solving strategies",
       "Mathematical reasoning"],
      Intermediate),
    TutoringTopic(
      "english", "English Language",
      "Grammar, writing, and communication skills",
      "You are an enthusiastic English language tutor helping students improve their English skills.",
      ["Grammar and sentence structure",
       "Writing techniques",
       "Vocabulary building",
       "Reading comprehension"],
      Intermediate),
    TutoringTopic(
      "data-science", "Data Science",
      "Statistics, data analysis, and machine learning basics",
      "You are an expert data science tutor helping students understand data science concepts.",
      ["Statistical concepts",
       "Data cleaning and preparation",
       "Exploratory data analysis",
       "Machine learning fundamentals"],
      Advanced)
  ]

  /** No two entries of `topics` share an id. */
  ghost predicate DistinctIds(topics: seq<TutoringTopic>)
  {
    forall i, j :: 0 <= i < j < |topics| ==> topics[i].id != topics[j].id
  }

  /** `topics[k]` is the first entry whose id is `id`. */
  ghost predicate IsFirstMatch(topics: seq<TutoringTopic>, id: string, k: int)
  {
    0 <= k < |topics| && topics[k].id == id &&
    forall j :: 0 <= j < k ==> topics[j].id != id
  }

  /** `topics.find(topic => topic.id === id)`: the first entry with that id,
      or `None` when there is none. */
  function Find(topics: seq<TutoringTopic>, id: string): (r: Option<TutoringTopic>)
    ensures r.None? <==> forall t :: t in topics ==> t.id != id
    ensures r.Some? ==> r.value in topics && r.value.id == id
  {
    if topics == [] then None
    else if topics[0].id == id then Some(topics[0])
    else
      assert forall t :: t in topics ==> t == topics[0] || t in topics[1..];
      Find(topics[1..], id)
  }

  /** A successful lookup answers with the FIRST matching entry in list
      order. */
  lemma {:induction false} FindReturnsFirst(topics: seq<TutoringTopic>, id: string)
    requires Find(topics, id).Some?
    ensures exists k :: IsFirstMatch(topics, id, k) && topics[k] == Find(topics, id).value
  {
    if topics[0].id == id {
      assert IsFirstMatch(topics, id, 0);
    } else {
      FindReturnsFirst(topics[1..], id);
      var k :| IsFirstMatch(topics[1..], id, k) && topics[1..][k] == Find(topics[1..], id).value;
      assert IsFirstMatch(topics, id, k + 1);
    }
  }

  /** `getTopicById`: lookup in the constant catalogue. It answers with the
      catalogue's entry for the id, which is unique, and fails exactly when
      no entry has it. */
  function GetTopicById(id: string): (r: Option<TutoringTopic>)
    ensures forall t :: r == Some(t) <==> (t in TutoringTopics && t.id == id)
    ensures r.None? <==> forall u :: u in TutoringTopics ==> u.id != id
  {
    CatalogueIdsDistinct();
    FindUniqueAll(TutoringTopics, id);
    Find(TutoringTopics, id)
  }

  /** The catalogue's ids are pairwise distinct. */
  lemma CatalogueIdsDistinct()
    ensures DistinctIds(TutoringTopics)
  {
  }

  /** The catalogue holds exactly the six topics of the source, with their
      ids and skill levels in source order. That every skill level is one of
      the three is guaranteed by the type `SkillLevel`, as by the source's
      union type; the clause saying so only documents it. */
  lemma CatalogueShape()
    ensures |TutoringTopics| == 6
    ensures forall t :: t in TutoringTopics ==>
      t.skillLevel == Beginner || t.skillLevel == Intermediate || t.skillLevel == Advanced
    ensures [TutoringTopics[0].id, TutoringTopics[1].id, TutoringTopics[2].id,
             TutoringTopics[3].id, TutoringTopics[4].id, TutoringTopics[5].id]
         == ["react", "javascript", "python", "math", "english", "data-science"]
    ensures [TutoringTopics[0].skillLevel, TutoringTopics[1].skillLevel, TutoringTopics[2].skillLevel,
             TutoringTopics[3].skillLevel, TutoringTopics[4].skillLevel, TutoringTopics[5].skillLevel]
         == [Beginner, Beginner, Beginner, Intermediate, Intermediate, Advanced]
  {
  }

  /** With distinct ids, a lookup succeeds with `t` exactly when `t` is the
      catalogue's entry for that id: the answer is unique. */
  lemma {:induction false} FindUnique(topics: seq<TutoringTopic>, id: string, t: TutoringTopic)
    requires DistinctIds(topics)
    ensures Find(topics, id) == Some(t) <==> (t in topics && t.id == id)
  {
    if t in topics && t.id == id {
      var r := Find(topics, id);
      FindReturnsFirst(topics, id);
      var k :| IsFirstMatch(topics, id, k) && topics[k] == r.value;
      var i :| 0 <= i < |topics| && topics[i] == t;
      assert topics[i].id == id;
      assert k == i;
    }
  }

  /** `FindUnique` for every candidate entry at once. */
  lemma FindUniqueAll(topics: seq<TutoringTopic>, id: string)
    requires DistinctIds(topics)
    ensures forall t :: Find(topics, id) == Some(t) <==> (t in topics && t.id == id)
  {
    forall t {
      FindUnique(topics, id, t);
    }
  }

  /** The separator `formatTutorPrompt` puts between the prompt and the
      extra context. */
  const ContextHeader: string := "\n\nAdditional Context:\n"

  /** `formatTutorPrompt`: the topic's system prompt, followed by the header
      and the custom context when that context is non-empty. */
  function FormatTutorPrompt(topic: TutoringTopic, customContext: Option<string>): (prompt: string)
    ensures !IsSet(customContext) ==> prompt == topic.systemPrompt
    ensures IsSet(customContext) ==>
      |prompt| == |topic.systemPrompt| + |ContextHeader| + |customContext.value|
    ensures prompt[..|topic.systemPrompt|] == topic.systemPrompt
  {
    var prompt := topic.systemPrompt;
    if IsSet(customContext) then prompt + ContextHeader + customContext.value else prompt
  }

  /** The inverse of formatting: from a formatted prompt of a known topic,
      the custom context is recovered as what follows the prompt and the
      header; with no context nothing follows the prompt. */
  lemma FormatTutorPromptRecoversContext(topic: TutoringTopic, customContext: Option<string>)
    ensures var p := FormatTutorPrompt(topic, customContext);
      var n := |topic.systemPrompt|;
      if IsSet(customContext) then
        p[n..n + |ContextHeader|] == ContextHeader && p[n + |ContextHeader|..] == customContext.value
      else |p| == n
  {
    if IsSet(customContext) {
      var p := FormatTutorPrompt(topic, customContext);
      var n := |topic.systemPrompt|;
      assert p == topic.systemPrompt + ContextHeader + customContext.value;
      assert p[n..n + |ContextHeader|] == ContextHeader;
      assert p[n + |ContextHeader|..] == customContext.value;
    }
  }
}
