/**
 * The questionnaire controller (`components/Quiz.js`): the catalog reduced to
 * ids, kinds and selection limits, (section, question) navigation, the
 * progress count, the multi-select toggle, the completion sequence that seeds
 * the transcript, and its offline fallback reply.
 */
module Quiz {
  import opened Wrappers
  import opened Text
  import opened Store
  import opened Ai

  /** A question as the controller sees it: its profile field, whether it is multi-select, and its selection limit. */
  datatype Question = Question(id: string, multiSelect: bool, maxSelections: Option<nat>)

  function SingleQ(id: string): Question { Question(id, false, None) }

  function MultiQ(id: string, max: Option<nat>): Question { Question(id, true, max) }

  /** `quizSections`, in order. */
  const Sections: seq<seq<Question>> := [
    [SingleQ("fundingStage"), SingleQ("teamSize"), SingleQ("industry"), SingleQ("startupStage")],
    [MultiQ("currentChallenges", Some(3)), MultiQ("growthMetrics", Some(3)), MultiQ("timeConsumingTasks", Some(3))],
    [SingleQ("techStack"), SingleQ("devResources"), MultiQ("currentTools", None), MultiQ("dataAvailability", None)],
    [SingleQ("aiExperience"), SingleQ("aiInvestmentReadiness"), SingleQ("implementationTimeframe")],
    [MultiQ("aiPriorities", Some(3)), MultiQ("aiCapabilities", Some(3)), MultiQ("successMetrics", Some(3)),
     MultiQ("concernsBarriers", None)]
  ]

  /** The option values of the `industry` question. */
  const IndustryOptions: seq<string> := [
    "fintech", "healthtech", "ecommerce", "saas", "marketplace", "ai",
    "hardware", "consumer", "edtech", "cleantech", "other"
  ]

  /** Every question of the catalog writes a field the store declares, with that field's kind. */
  lemma CatalogMatchesStore()
    ensures forall s, q :: 0 <= s < |Sections| && 0 <= q < |Sections[s]| ==>
      Sections[s][q].id in Fields
      && (Sections[s][q].multiSelect <==> Fields[Sections[s][q].id] == MultiSelect)
  {
  }

  /** The answer a question writes (a single-select option or a pending list) keeps the profile in the store's shape. */
  lemma AnswerKeepsShape(p: Profile, s: nat, q: nat, a: Answer)
    requires WellShaped(p)
    requires s < |Sections| && q < |Sections[s]|
    requires a.Multi? <==> Sections[s][q].multiSelect
    ensures WellShaped(p[Sections[s][q].id := a])
  {
    CatalogMatchesStore();
    SetFieldKeepsShape(p, Sections[s][q].id, a);
  }

  // Multi-select toggle

  /** No value occurs twice. */
  predicate NoDup(xs: seq<string>) {
    forall i, j :: 0 <= i < j < |xs| ==> xs[i] != xs[j]
  }

  /** `filter(item => item !== answer)`. */
  function Without(xs: seq<string>, a: string): (r: seq<string>)
    ensures forall x :: x in r <==> x in xs && x != a
    ensures |r| <= |xs|
    ensures a in xs ==> |r| < |xs|
  {
    if xs == [] then []
    else if xs[0] == a then Without(xs[1..], a)
    else [xs[0]] + Without(xs[1..], a)
  }

  lemma {:induction false} WithoutKeepsNoDup(xs: seq<string>, a: string)
    requires NoDup(xs)
    ensures NoDup(Without(xs, a))
    ensures a in xs ==> |Without(xs, a)| == |xs| - 1
    decreases |xs|
  {
    if xs != [] {
      assert NoDup(xs[1..]) by {
        forall i, j | 0 <= i < j < |xs[1..]| ensures xs[1..][i] != xs[1..][j] {
          assert xs[1..][i] == xs[i + 1] && xs[1..][j] == xs[j + 1];
        }
      }
      WithoutKeepsNoDup(xs[1..], a);
      assert xs[0] !in xs[1..] by {
        forall k | 0 <= k < |xs[1..]| ensures xs[1..][k] != xs[0] {
          assert xs[1..][k] == xs[k + 1];
        }
      }
      if a in xs && xs[0] != a {
        assert a in xs[1..] by {
          var k :| 0 <= k < |xs| && xs[k] == a;
          assert k != 0 && xs[1..][k - 1] == a;
        }
      }
      if xs[0] == a {
        WithoutAbsent(xs[1..], a);
      }
    }
  }

  /** The filter works element by element, so the kept values stay in their order. */
  lemma {:induction false} WithoutConcat(xs: seq<string>, ys: seq<string>, a: string)
    ensures Without(xs + ys, a) == Without(xs, a) + Without(ys, a)
    decreases |xs|
  {
    if xs == [] {
      assert [] + ys == ys;
    } else {
      assert (xs + ys)[0] == xs[0];
      assert (xs + ys)[1..] == xs[1..] + ys;
      WithoutConcat(xs[1..], ys, a);
    }
  }

  /** In a list without duplicates, removing a value cuts out exactly its one position. */
  lemma WithoutAt(xs: seq<string>, a: string, i: nat)
    requires NoDup(xs) && i < |xs| && xs[i] == a
    ensures Without(xs, a) == xs[..i] + xs[i + 1..]
  {
    assert xs == xs[..i] + [a] + xs[i + 1..];
    assert a !in xs[..i] by {
      forall k | 0 <= k < i ensures xs[..i][k] != a {
        assert xs[..i][k] == xs[k];
      }
    }
    var after := xs[i + 1..];
    assert a !in after by {
      forall k | 0 <= k < |after| ensures after[k] != a {
        assert after[k] == xs[i + 1 + k];
      }
    }
    WithoutConcat(xs[..i] + [a], xs[i + 1..], a);
    WithoutConcat(xs[..i], [a], a);
    WithoutAbsent(xs[..i], a);
    WithoutAbsent(xs[i + 1..], a);
    assert Without([a], a) == Without([a][1..], a);
  }

  /** When the value is absent, the filter leaves the list as it is. */
  lemma {:induction false} WithoutAbsent(xs: seq<string>, a: string)
    requires a !in xs
    ensures Without(xs, a) == xs
    decreases |xs|
  {
    if xs != [] {
      assert a !in xs[1..] by {
        forall k | 0 <= k < |xs[1..]| ensures xs[1..][k] != a {
          assert xs[1..][k] == xs[k + 1];
        }
      }
      WithoutAbsent(xs[1..], a);
      assert [xs[0]] + xs[1..] == xs;
    }
  }

  /** The filter runs past an appended element other than the value. */
  lemma {:induction false} WithoutAppend(xs: seq<string>, a: string)
    requires a !in xs
    ensures Without(xs + [a], a) == xs
    decreases |xs|
  {
    if xs == [] {
      assert Without([a], a) == Without([a][1..], a);
    } else {
      assert (xs + [a])[0] == xs[0];
      assert (xs + [a])[1..] == xs[1..] + [a];
      assert a !in xs[1..] by {
        forall k | 0 <= k < |xs[1..]| ensures xs[1..][k] != a {
          assert xs[1..][k] == xs[k + 1];
        }
      }
      WithoutAppend(xs[1..], a);
      assert [xs[0]] + xs[1..] == xs;
    }
  }

  /** A falsy `maxSelections` (absent or 0) sets no limit. */
  predicate Unlimited(max: Option<nat>) {
    max.None? || max.value == 0
  }

  /** The pending list after `handleMultiSelect(answer)`. */
  function Toggle(current: seq<string>, answer: string, max: Option<nat>): (r: seq<string>)
    ensures answer in current ==> answer !in r
    ensures answer !in current ==> answer in r && r[|r| - 1] == answer
  {
    if answer in current then Without(current, answer)
    else if Unlimited(max) || |current| < max.value then current + [answer]
    else current[1..] + [answer]
  }

  /** Toggling a pending value removes it and keeps every other pending value. */
  lemma ToggleRemoves(current: seq<string>, answer: string, max: Option<nat>)
    requires answer in current
    ensures answer !in Toggle(current, answer, max)
    ensures forall x :: x != answer ==> (x in Toggle(current, answer, max) <==> x in current)
    ensures NoDup(current) ==> |Toggle(current, answer, max)| == |current| - 1
    ensures NoDup(current) ==> forall i :: 0 <= i < |current| && current[i] == answer ==>
      Toggle(current, answer, max) == current[..i] + current[i + 1..]
  {
    if NoDup(current) {
      WithoutKeepsNoDup(current, answer);
      forall i | 0 <= i < |current| && current[i] == answer
        ensures Toggle(current, answer, max) == current[..i] + current[i + 1..]
      {
        WithoutAt(current, answer, i);
      }
    }
  }

  /** Below the limit, or without one, a new value goes at the end. */
  lemma ToggleAppends(current: seq<string>, answer: string, max: Option<nat>)
    requires answer !in current
    requires Unlimited(max) || |current| < max.value
    ensures Toggle(current, answer, max) == current + [answer]
  {
  }

  /** At the limit a new value evicts the oldest pending one. */
  lemma ToggleEvicts(current: seq<string>, answer: string, max: nat)
    requires answer !in current
    requires 0 < max <= |current|
    ensures Toggle(current, answer, Some(max)) == current[1..] + [answer]
    ensures |Toggle(current, answer, Some(max))| == |current|
  {
  }

  /** With a limit of 3, `[a, b, c]` and `d` give `[b, c, d]`. */
  lemma ToggleEvictsExample()
    ensures Toggle(["a", "b", "c"], "d", Some(3)) == ["b", "c", "d"]
  {
    assert "d" !in ["a", "b", "c"];
  }

  /** Every toggle keeps the pending list free of duplicates and within its limit. */
  lemma ToggleKeepsSelection(current: seq<string>, answer: string, max: Option<nat>)
    requires NoDup(current)
    ensures NoDup(Toggle(current, answer, max))
    ensures !Unlimited(max) && |current| <= max.value ==> |Toggle(current, answer, max)| <= max.value
  {
    var r := Toggle(current, answer, max);
    if answer in current {
      WithoutKeepsNoDup(current, answer);
    } else if Unlimited(max) || |current| < max.value {
      forall i, j | 0 <= i < j < |r| ensures r[i] != r[j] {
        if j == |current| {
          assert r[i] == current[i];
        } else {
          assert r[i] == current[i] && r[j] == current[j];
        }
      }
    } else {
      forall i, j | 0 <= i < j < |r| ensures r[i] != r[j] {
        if j == |current| - 1 {
          assert r[i] == current[i + 1];
        } else {
          assert r[i] == current[i + 1] && r[j] == current[j + 1];
        }
      }
    }
  }

  /** Below the limit, toggling the same value twice restores the pending list. */
  lemma ToggleTwiceRestores(current: seq<string>, answer: string, max: Option<nat>)
    requires answer !in current
    requires Unlimited(max) || |current| < max.value
    ensures Toggle(Toggle(current, answer, max), answer, max) == current
  {
    WithoutAppend(current, answer);
  }

  // Navigation and progress

  datatype Position = Position(section: nat, question: nat)

  /** `quizSections[currentSection].questions[currentQuestion]` exists. */
  predicate InBounds(p: Position) {
    p.section < |Sections| && p.question < |Sections[p.section]|
  }

  const First: Position := Position(0, 0)

  /** The last question of the last section. */
  predicate IsLast(p: Position) {
    p.section == |Sections| - 1 && p.question == |Sections[p.section]| - 1
  }

  /** Where `moveToNextQuestion` leaves the position; the last question stays put and completes the quiz instead. */
  function Next(p: Position): (r: Position)
    requires InBounds(p)
    ensures InBounds(r)
  {
    if p.question < |Sections[p.section]| - 1 then Position(p.section, p.question + 1)
    else if p.section < |Sections| - 1 then Position(p.section + 1, 0)
    else p
  }

  /** Where `moveToPreviousQuestion` leaves the position; the first question stays put. */
  function Previous(p: Position): (r: Position)
    requires InBounds(p)
    ensures InBounds(r)
  {
    if p.question > 0 then Position(p.section, p.question - 1)
    else if p.section > 0 then Position(p.section - 1, |Sections[p.section - 1]| - 1)
    else p
  }

  /** `Previous` undoes `Next` everywhere except at the last question. */
  lemma PreviousUndoesNext(p: Position)
    requires InBounds(p) && !IsLast(p)
    ensures Previous(Next(p)) == p
  {
  }

  /** `Next` undoes `Previous` everywhere except at the first question. */
  lemma NextUndoesPrevious(p: Position)
    requires InBounds(p) && p != First
    ensures Next(Previous(p)) == p
  {
  }

  /** `Next` stays put exactly at the last question, `Previous` exactly at the first. */
  lemma FixedPoints(p: Position)
    requires InBounds(p)
    ensures Next(p) == p <==> IsLast(p)
    ensures Previous(p) == p <==> p == First
  {
  }

  /** The number of questions in the sections before section `n`: every section holds three or four. */
  function QuestionsBefore(n: nat): (r: nat)
    requires n <= |Sections|
    ensures 3 * n <= r <= 4 * n
  {
    if n == 0 then 0 else QuestionsBefore(n - 1) + |Sections[n - 1]|
  }

  /** `totalQuestions`: the sum of the section lengths, eighteen. */
  function TotalQuestions(): (r: nat)
    ensures r == 18
  {
    SectionSums();
    QuestionsBefore(|Sections|)
  }

  /**
   * `completedQuestions`: questions of earlier sections plus the index within
   * the current one, so an in-bounds position counts inside its own section's range.
   */
  function Progress(p: Position): (r: nat)
    requires p.section <= |Sections|
    ensures QuestionsBefore(p.section) <= r
    ensures InBounds(p) ==> r < QuestionsBefore(p.section + 1)
  {
    QuestionsBefore(p.section) + p.question
  }

  lemma SectionSums()
    ensures QuestionsBefore(1) == 4 && QuestionsBefore(2) == 7 && QuestionsBefore(3) == 11
    ensures QuestionsBefore(4) == 14 && QuestionsBefore(5) == 18
  {
    assert QuestionsBefore(0) == 0;
    assert QuestionsBefore(1) == 4;
    assert QuestionsBefore(2) == 7;
    assert QuestionsBefore(3) == 11;
    assert QuestionsBefore(4) == 14;
  }

  /** Progress lies in `[0, total - 1]` and reaches `total - 1` exactly at the last question. */
  lemma ProgressBounds(p: Position)
    requires InBounds(p)
    ensures Progress(p) <= TotalQuestions() - 1
    ensures Progress(p) == TotalQuestions() - 1 <==> IsLast(p)
  {
    SectionSums();
  }

  /** Distinct positions show distinct progress. */
  lemma ProgressDistinguishes(p: Position, p': Position)
    requires InBounds(p) && InBounds(p')
    requires Progress(p) == Progress(p')
    ensures p == p'
  {
    SectionSums();
  }

  /** `Next` adds one to the progress, `Previous` subtracts one, except where they stay put. */
  lemma StepsMoveProgressByOne(p: Position)
    requires InBounds(p)
    ensures !IsLast(p) ==> Progress(Next(p)) == Progress(p) + 1
    ensures p != First ==> Progress(Previous(p)) == Progress(p) - 1
  {
  }

  /** The progress loop: adds up the lengths of the earlier sections, then the question index. */
  method CompletedQuestions(p: Position) returns (completed: nat)
    requires p.section <= |Sections|
    ensures completed == Progress(p)
  {
    completed := 0;
    for i := 0 to p.section
      invariant completed == QuestionsBefore(i)
    {
      completed := completed + |Sections[i]|;
    }
    completed := completed + p.question;
  }

  // Completion

  const WelcomeText: string := "Thanks for completing the quiz! I'm analyzing your startup profile..."

  const KickoffPrompt: string :=
    "Based on my startup profile, what are the top 3 areas where AI could help me, and what specific tools would you recommend?"

  /** `list[k] || fallback` after the destructuring default `= []`: a missing, short or empty entry gives the fallback. */
  function Pick(v: Option<Answer>, k: nat, fallback: string): (r: string)
    ensures |fallback| > 0 ==> |r| > 0
    ensures v.None? ==> r == fallback
    ensures v.Some? && v.value.Multi? ==>
      (if k < |v.value.values| && v.value.values[k] != "" then r == v.value.values[k] else r == fallback)
  {
    match v
    case None => fallback
    case Some(Multi(xs)) => if k < |xs| && xs[k] != "" then xs[k] else fallback
    case Some(Single(s)) => if k < |s| then [s[k]] else fallback
  }

  /** `generateFallbackResponse`: the three recommendation headings come from the profile or their defaults. */
  function FallbackResponse(p: Profile): (r: string)
    ensures |r| > 0
  {
    FallbackLead(p)
    + Recommendations(
        Pick(Get(p, "aiPriorities"), 0, "Process Automation"),
        Pick(Get(p, "aiPriorities"), 1, "Customer Engagement"),
        Pick(Get(p, "currentChallenges"), 0, "Data Analysis"))
  }

  /** The opening of the fallback: it starts with the funding stage and names the industry. */
  function FallbackLead(p: Profile): (r: string)
    ensures StartsWith(r, "Based on your " + Interpolate(Get(p, "fundingStage")))
    ensures Contains(r, " startup in the " + Interpolate(Get(p, "industry")) + " industry")
  {
    var opening := "Based on your " + Interpolate(Get(p, "fundingStage"));
    var named := " startup in the " + Interpolate(Get(p, "industry")) + " industry";
    var close := " at the " + Interpolate(Get(p, "startupStage")) + " stage, here are my initial recommendations:\n\n";
    StartsWithConcat(opening, named + close);
    ContainsInfix("", named, close);
    assert "" + named + close == named + close;
    ContainsInSuffix(opening, named + close, named);
    opening + (named + close)
  }

  /** The three numbered recommendations; each heading is in the text. Grouped so that each heading is a subterm. */
  function Recommendations(first: string, second: string, third: string): (r: string)
    ensures Contains(r, first) && Contains(r, second) && Contains(r, third)
  {
    var tail3 := third + DataAdvice;
    var tail2 := second + (EngagementAdvice + tail3);
    var tail1 := first + (AutomationAdvice + tail2);
    ContainsHead(third, DataAdvice);
    ContainsInSuffix(EngagementAdvice, tail3, third);
    ContainsHead(second, EngagementAdvice + tail3);
    ContainsInSuffix(second, EngagementAdvice + tail3, third);
    ContainsInSuffix(AutomationAdvice, tail2, second);
    ContainsInSuffix(AutomationAdvice, tail2, third);
    ContainsHead(first, AutomationAdvice + tail2);
    ContainsInSuffix(first, AutomationAdvice + tail2, second);
    ContainsInSuffix(first, AutomationAdvice + tail2, third);
    ContainsInSuffix("1. **", tail1, first);
    ContainsInSuffix("1. **", tail1, second);
    ContainsInSuffix("1. **", tail1, third);
    "1. **" + tail1
  }

  const AutomationAdvice: string :=
    "**: Consider tools like Zapier, Make (formerly Integromat), or n8n to automate repetitive tasks and workflows.\n\n2. **"

  const EngagementAdvice: string :=
    "**: Look into AI chatbots like Intercom or Drift to improve customer support while saving time.\n\n3. **"

  const DataAdvice: string :=
    "**: Tools like Obviously AI or Akkio can help you leverage your data without requiring a data science team.\n\nWhat specific area would you like to explore first?"

  lemma ContainsHead(t: string, rest: string)
    ensures Contains(t + rest, t)
  {
    assert IsAt(t, t, 0);
    AtMeansContains(t, t, 0);
    ContainsInPrefix(t, rest, t);
  }

  /** The fallback names the three headings it picked. */
  lemma FallbackShowsHeadings(p: Profile)
    ensures Contains(FallbackResponse(p), Pick(Get(p, "aiPriorities"), 0, "Process Automation"))
    ensures Contains(FallbackResponse(p), Pick(Get(p, "aiPriorities"), 1, "Customer Engagement"))
    ensures Contains(FallbackResponse(p), Pick(Get(p, "currentChallenges"), 0, "Data Analysis"))
  {
    var a := Pick(Get(p, "aiPriorities"), 0, "Process Automation");
    var b := Pick(Get(p, "aiPriorities"), 1, "Customer Engagement");
    var c := Pick(Get(p, "currentChallenges"), 0, "Data Analysis");
    var lead := FallbackLead(p);
    ContainsInSuffix(lead, Recommendations(a, b, c), a);
    ContainsInSuffix(lead, Recommendations(a, b, c), b);
    ContainsInSuffix(lead, Recommendations(a, b, c), c);
  }

  /** For the store's initial answers every heading is its default. */
  lemma FallbackDefaultsOnFreshProfile()
    ensures Pick(Get(DefaultProfile(), "aiPriorities"), 0, "Process Automation") == "Process Automation"
    ensures Pick(Get(DefaultProfile(), "aiPriorities"), 1, "Customer Engagement") == "Customer Engagement"
    ensures Pick(Get(DefaultProfile(), "currentChallenges"), 0, "Data Analysis") == "Data Analysis"
  {
    var d := DefaultProfile();
    assert "aiPriorities" in Fields && Fields["aiPriorities"] == MultiSelect;
    assert "currentChallenges" in Fields && Fields["currentChallenges"] == MultiSelect;
    assert d["aiPriorities"] == Multi([]);
    assert d["currentChallenges"] == Multi([]);
  }

  /** The reply the completion appends: the model's answer, or the fallback when the call threw. */
  function CompletionReply(prompt: string, seen: Profile, t: Transport): (r: string)
    ensures |r| > 0
  {
    match Resolve(prompt, seen, t)
    case Success(s) => s
    case Failure(_) => FallbackResponse(seen)
  }

  /** The three messages the completion appends, in order. */
  function CompletionMessages(seen: Profile, t: Transport): (r: seq<Message>)
    ensures |r| == 3
    ensures r[0] == Message(Assistant, WelcomeText) && r[1] == Message(User, KickoffPrompt)
    ensures r[2] == Message(Assistant, CompletionReply(KickoffPrompt, seen, t))
  {
    [Message(Assistant, WelcomeText), Message(User, KickoffPrompt), Message(Assistant, CompletionReply(KickoffPrompt, seen, t))]
  }

  /** For the store's profiles a failed transport gives the fallback... */
  lemma CompletionFallbackOnFailure(prompt: string, seen: Profile, t: Transport)
    requires WellShaped(seen)
    requires t.NetworkError? || !IsOkStatus(t.status) || t.body.NotJson?
    ensures CompletionReply(prompt, seen, t) == FallbackResponse(seen)
  {
    ThrowsOnlyOnTransportFailure(prompt, seen, t);
  }

  /** ...and any decoded 2xx body gives the model's reply, never the fallback. */
  lemma CompletionUsesModelReply(prompt: string, seen: Profile, status: int, j: Json)
    requires WellShaped(seen) && IsOkStatus(status)
    ensures Resolve(prompt, seen, Response(status, ParsedJson(j))).Success?
    ensures CompletionReply(prompt, seen, Response(status, ParsedJson(j))) == Resolve(prompt, seen, Response(status, ParsedJson(j))).value
  {
    ThrowsOnlyOnTransportFailure(prompt, seen, Response(status, ParsedJson(j)));
  }

  lemma AppendThree<T>(h: seq<T>, a: T, b: T, c: T)
    ensures h + [a] + [b] + [c] == h + [a, b, c]
  {
  }

  /**
   * The component's state: the position, the pending multi-select lists, and
   * the store it writes to.
   */
  class Controller {
    const session: Session
    var section: nat
    var question: nat
    var selections: map<string, seq<string>>

    /**
     * The position points at a question, no pending list repeats a value, and
     * the store's answers keep the store's shape.
     */
    ghost predicate Valid()
      reads this, session
    {
      InBounds(At()) && PendingNoDup() && WellShaped(session.quizResponses)
    }

    /** No pending list repeats a value. */
    ghost predicate PendingNoDup()
      reads this
    {
      forall id :: id in selections ==> NoDup(selections[id])
    }

    function At(): Position
      reads this
    {
      Position(section, question)
    }

    function Current(): Question
      reads this
      requires InBounds(At())
    {
      Sections[section][question]
    }

    /** `selections[id] || []`: a question not yet touched has nothing pending. */
    function Pending(id: string): (r: seq<string>)
      reads this
      ensures id !in selections ==> r == []
      ensures PendingNoDup() ==> NoDup(r)
    {
      if id in selections then selections[id] else []
    }

    constructor(session: Session)
      requires WellShaped(session.quizResponses)
      ensures this.session == session
      ensures At() == First && selections == map[]
      ensures Valid()
    {
      this.session := session;
      section := 0;
      question := 0;
      selections := map[];
    }

    /** `handleMultiSelect`: only the current question's pending list changes, by one toggle. */
    method HandleMultiSelect(answer: string)
      requires Valid()
      modifies this
      ensures Valid()
      ensures At() == old(At())
      ensures selections == old(selections)[Current().id := Toggle(old(Pending(Current().id)), answer, Current().maxSelections)]
    {
      var q := Current();
      var updated := Toggle(Pending(q.id), answer, q.maxSelections);
      ToggleKeepsSelection(Pending(q.id), answer, q.maxSelections);
      selections := selections[q.id := updated];
    }

    /**
     * `handleQuizCompletion`: the welcome, the kickoff question and the reply
     * to it go to the transcript, then both flags are set. `seen` is the
     * profile the component rendered with.
     */
    method HandleQuizCompletion(seen: Profile, t: Transport)
      modifies session
      ensures session.chatHistory == old(session.chatHistory) + CompletionMessages(seen, t)
      ensures session.initialResponseGenerated && session.quizCompleted
      ensures session.quizResponses == old(session.quizResponses)
    {
      ghost var before := session.chatHistory;
      var welcome := Message(Assistant, WelcomeText);
      var kickoff := Message(User, KickoffPrompt);
      session.AddChatMessage(welcome);
      session.AddChatMessage(kickoff);
      var reply := Message(Assistant, CompletionReply(KickoffPrompt, seen, t));
      session.AddChatMessage(reply);
      session.SetInitialResponseGenerated();
      session.CompleteQuiz();
      AppendThree(before, welcome, kickoff, reply);
    }

    /** `moveToNextQuestion`: steps forward, or at the last question runs the completion. */
    method MoveToNext(seen: Profile, t: Transport)
      requires Valid()
      modifies this, session
      ensures Valid()
      ensures At() == Next(old(At()))
      ensures selections == old(selections)
      ensures session.quizResponses == old(session.quizResponses)
      ensures !IsLast(old(At())) ==>
        session.chatHistory == old(session.chatHistory)
        && session.quizCompleted == old(session.quizCompleted)
        && session.initialResponseGenerated == old(session.initialResponseGenerated)
      ensures IsLast(old(At())) ==>
        session.chatHistory == old(session.chatHistory) + CompletionMessages(seen, t)
        && session.quizCompleted && session.initialResponseGenerated
    {
      if question < |Sections[section]| - 1 {
        question := question + 1;
      } else if section < |Sections| - 1 {
        section := section + 1;
        question := 0;
      } else {
        HandleQuizCompletion(seen, t);
      }
    }

    /** `moveToPreviousQuestion`: steps back; nothing else changes. */
    method MoveToPrevious()
      requires Valid()
      modifies this
      ensures Valid()
      ensures At() == Previous(old(At()))
      ensures selections == old(selections)
    {
      if question > 0 {
        question := question - 1;
      } else if section > 0 {
        section := section - 1;
        question := |Sections[section]| - 1;
      }
    }

    /**
     * `handleSingleSelect`: writes the option to the current field and moves
     * on. A completion triggered here sees the profile from before the write.
     */
    method HandleSingleSelect(answer: string, t: Transport)
      requires Valid() && !Current().multiSelect
      modifies this, session
      ensures Valid()
      ensures At() == Next(old(At()))
      ensures selections == old(selections)
      ensures session.quizResponses == old(session.quizResponses)[old(Current()).id := Single(answer)]
      ensures !IsLast(old(At())) ==>
        session.chatHistory == old(session.chatHistory)
        && session.quizCompleted == old(session.quizCompleted)
        && session.initialResponseGenerated == old(session.initialResponseGenerated)
      ensures IsLast(old(At())) ==>
        session.chatHistory == old(session.chatHistory) + CompletionMessages(old(session.quizResponses), t)
        && session.quizCompleted && session.initialResponseGenerated
    {
      var seen := session.quizResponses;
      AnswerKeepsShape(seen, section, question, Single(answer));
      session.SetQuizResponse(Current().id, Single(answer));
      MoveToNext(seen, t);
    }

    /**
     * `submitMultiSelect`: writes the pending list wholesale to the current
     * field and moves on. A completion triggered here sees the profile from
     * before the write.
     */
    method SubmitMultiSelect(t: Transport)
      requires Valid() && Current().multiSelect
      modifies this, session
      ensures Valid()
      ensures At() == Next(old(At()))
      ensures selections == old(selections)
      ensures session.quizResponses == old(session.quizResponses)[old(Current()).id := Multi(old(Pending(Current().id)))]
      ensures !IsLast(old(At())) ==>
        session.chatHistory == old(session.chatHistory)
        && session.quizCompleted == old(session.quizCompleted)
        && session.initialResponseGenerated == old(session.initialResponseGenerated)
      ensures IsLast(old(At())) ==>
        session.chatHistory == old(session.chatHistory) + CompletionMessages(old(session.quizResponses), t)
        && session.quizCompleted && session.initialResponseGenerated
    {
      var seen := session.quizResponses;
      AnswerKeepsShape(seen, section, question, Multi(Pending(Current().id)));
      session.SetQuizResponse(Current().id, Multi(Pending(Current().id)));
      MoveToNext(seen, t);
    }
  }
}
