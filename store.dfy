/**
 * The session store (`useStore`): the questionnaire answers, the chat
 * transcript and the two completion flags, with the six actions that
 * change them.
 */
module Store {
  import opened Wrappers
  import opened Text

  /** A profile value: a single-select token or the list chosen in a multi-select question. */
  datatype Answer = Single(value: string) | Multi(values: seq<string>)

  /** `quizResponses`: field id to value; a missing key is JavaScript's `undefined`. */
  type Profile = map<string, Answer>

  datatype Kind = SingleSelect | MultiSelect

  /** The eighteen fields the store declares, with the kind of value each starts with. */
  const Fields: map<string, Kind> := map[
    "fundingStage" := SingleSelect, "teamSize" := SingleSelect,
    "industry" := SingleSelect, "startupStage" := SingleSelect,
    "currentChallenges" := MultiSelect, "growthMetrics" := MultiSelect,
    "timeConsumingTasks" := MultiSelect,
    "techStack" := SingleSelect, "devResources" := SingleSelect,
    "currentTools" := MultiSelect, "dataAvailability" := MultiSelect,
    "aiExperience" := SingleSelect, "aiInvestmentReadiness" := SingleSelect,
    "implementationTimeframe" := SingleSelect,
    "aiPriorities" := MultiSelect, "aiCapabilities" := MultiSelect,
    "successMetrics" := MultiSelect, "concernsBarriers" := MultiSelect
  ]

  datatype Role = User | Assistant

  datatype Message = Message(role: Role, content: string)

  /** An answer of the kind the field was declared with. */
  predicate FitsKind(kind: Kind, a: Answer) {
    a.Single? <==> kind == SingleSelect
  }

  /** A profile with exactly the declared fields, each holding a value of its kind. */
  predicate WellShaped(p: Profile) {
    p.Keys == Fields.Keys && forall f :: f in p ==> FitsKind(Fields[f], p[f])
  }

  /** The store's initial answers: `''` for single-select fields, `[]` for multi-select ones. */
  function DefaultProfile(): (p: Profile)
    ensures WellShaped(p)
    ensures forall f :: f in p ==> p[f] == Single("") || p[f] == Multi([])
  {
    map f | f in Fields :: if Fields[f] == SingleSelect then Single("") else Multi([])
  }

  /** `quizResponses[key]`, `None` standing for `undefined`. */
  function Get(p: Profile, key: string): (r: Option<Answer>)
    ensures r.Some? <==> key in p
    ensures r.Some? ==> r.value == p[key]
  {
    if key in p then Some(p[key]) else None
  }

  /** How a profile value prints inside a JavaScript template literal (`String(v)`). */
  function Interpolate(v: Option<Answer>): (r: string)
    ensures v.None? ==> r == "undefined"
    ensures v.Some? && v.value.Single? ==> r == v.value.value
    ensures v.Some? && v.value.Multi? ==> r == Join(v.value.values, ",")
  {
    match v
    case None => "undefined"
    case Some(Single(s)) => s
    case Some(Multi(xs)) => Join(xs, ",")
  }

  /** Replacing one field keeps the profile well shaped when the value has that field's kind. */
  lemma SetFieldKeepsShape(p: Profile, f: string, a: Answer)
    requires WellShaped(p) && f in Fields && FitsKind(Fields[f], a)
    ensures WellShaped(p[f := a])
  {
  }

  /** Two appends in a row add the pair in order. */
  lemma AppendPair<T>(h: seq<T>, a: T, b: T)
    ensures h + [a] + [b] == h + [a, b]
  {
  }

  /** The mutable store. */
  class Session {
    var quizResponses: Profile
    var chatHistory: seq<Message>
    var quizCompleted: bool
    var initialResponseGenerated: bool

    /** The state the store is created in. */
    ghost predicate IsInitial()
      reads this
    {
      && quizResponses == DefaultProfile()
      && chatHistory == []
      && !quizCompleted
      && !initialResponseGenerated
    }

    constructor ()
      ensures IsInitial()
    {
      quizResponses := DefaultProfile();
      chatHistory := [];
      quizCompleted := false;
      initialResponseGenerated := false;
    }

    /** `setQuizResponse(question, answer)`: the field is replaced wholesale, nothing else changes. */
    method SetQuizResponse(question: string, answer: Answer)
      modifies this
      ensures quizResponses == old(quizResponses)[question := answer]
      ensures forall f :: f != question ==> Get(quizResponses, f) == Get(old(quizResponses), f)
      ensures chatHistory == old(chatHistory)
      ensures quizCompleted == old(quizCompleted)
      ensures initialResponseGenerated == old(initialResponseGenerated)
    {
      quizResponses := quizResponses[question := answer];
    }

    /** `completeQuiz()`: sets its flag, idempotently. */
    method CompleteQuiz()
      modifies this
      ensures quizCompleted
      ensures quizResponses == old(quizResponses) && chatHistory == old(chatHistory)
      ensures initialResponseGenerated == old(initialResponseGenerated)
    {
      quizCompleted := true;
    }

    /** `addChatMessage(message)`: the message goes at the end; earlier messages are untouched. */
    method AddChatMessage(message: Message)
      modifies this
      ensures chatHistory == old(chatHistory) + [message]
      ensures |chatHistory| == |old(chatHistory)| + 1
      ensures chatHistory[..|old(chatHistory)|] == old(chatHistory)
      ensures quizResponses == old(quizResponses)
      ensures quizCompleted == old(quizCompleted)
      ensures initialResponseGenerated == old(initialResponseGenerated)
    {
      chatHistory := chatHistory + [message];
    }

    /**
     * `setInitialResponseGenerated()`: sets its flag, idempotently. The action
     * takes no parameter, so the argument callers pass to it has no effect.
     */
    method SetInitialResponseGenerated()
      modifies this
      ensures initialResponseGenerated
      ensures quizResponses == old(quizResponses) && chatHistory == old(chatHistory)
      ensures quizCompleted == old(quizCompleted)
    {
      initialResponseGenerated := true;
    }

    /** `resetChat()`: empties the transcript and clears `initialResponseGenerated`. */
    method ResetChat()
      modifies this
      ensures chatHistory == [] && !initialResponseGenerated
      ensures quizResponses == old(quizResponses)
      ensures quizCompleted == old(quizCompleted)
    {
      chatHistory := [];
      initialResponseGenerated := false;
    }

    /** `resetQuiz()`: restores every answer's default and clears both flags. */
    method ResetQuiz()
      modifies this
      ensures quizResponses == DefaultProfile()
      ensures !quizCompleted && !initialResponseGenerated
      ensures chatHistory == old(chatHistory)
    {
      quizCompleted := false;
      initialResponseGenerated := false;
      quizResponses := DefaultProfile();
    }
  }
}
