/**
 * The chat panel: the offline reply generator `getMockResponse` and the send
 * step `handleSendMessage`.
 */
module Chat {
  import opened Wrappers
  import opened Text
  import opened Store
  import opened Ai
  import Quiz

  /** One entry of `industryTools`: an industry key and its tools, in listed order. */
  datatype Bucket = Bucket(key: string, tools: seq<string>)

  /** One entry of the word tables `complexityLevel` and `scaleDescription`. */
  datatype Entry = Entry(key: string, word: string)

  const OtherTools: seq<string> := ["Project Management AI", "Document Processing", "Meeting Assistants"]

  const RetailTools: seq<string> := ["Inventory AI", "Customer Behavior Analytics", "Pricing Optimization AI"]

  /** `industryTools`, in the order `for…in` visits its keys. */
  const IndustryTools: seq<Bucket> := [
    Bucket("retail", RetailTools),
    Bucket("healthcare", ["Medical Image Analysis", "Patient Data Management", "Healthcare Chatbots"]),
    Bucket("finance", ["Fraud Detection AI", "Algorithmic Trading", "Risk Assessment Tools"]),
    Bucket("technology", ["Code Completion Tools", "DevOps AI", "Testing Automation"]),
    Bucket("education", ["Learning Management AI", "Student Performance Analytics", "Content Generation"]),
    Bucket("manufacturing", ["Predictive Maintenance", "Supply Chain Optimization", "Quality Control AI"]),
    Bucket("other", OtherTools)
  ]

  const ComplexityLevel: seq<Entry> := [
    Entry("none", "beginner-friendly"),
    Entry("beginner", "easy-to-use"),
    Entry("intermediate", "powerful"),
    Entry("advanced", "sophisticated")
  ]

  const ScaleDescription: seq<Entry> := [
    Entry("small", "cost-effective"),
    Entry("medium", "scalable"),
    Entry("large", "enterprise-grade")
  ]

  /** `table[key]` on a word table. */
  function LookupWord(table: seq<Entry>, key: string): (r: Option<string>)
    ensures r.None? <==> forall k :: 0 <= k < |table| ==> table[k].key != key
    ensures r.Some? ==> Entry(key, r.value) in table
  {
    if table == [] then None
    else if table[0].key == key then Some(table[0].word)
    else
      var r := LookupWord(table[1..], key);
      assert forall k :: 1 <= k < |table| ==> table[k] == table[1..][k - 1];
      r
  }

  /** `${table[v]}`: the property named by the value's string form; a missing one prints `undefined`. */
  function Word(table: seq<Entry>, v: Option<Answer>): (r: string)
    ensures LookupWord(table, Interpolate(v)).None? ==> r == "undefined"
    ensures LookupWord(table, Interpolate(v)).Some? ==> Entry(Interpolate(v), r) in table
  {
    match LookupWord(table, Interpolate(v))
    case Some(w) => w
    case None => "undefined"
  }

  /** `industryTools[key]`. */
  function LookupTools(table: seq<Bucket>, key: string): (r: Option<seq<string>>)
    ensures r.None? <==> forall k :: 0 <= k < |table| ==> table[k].key != key
    ensures r.Some? ==> Bucket(key, r.value) in table
    ensures forall k :: 0 <= k < |table| && table[k].key == key && (forall i :: 0 <= i < k ==> table[i].key != key) ==>
      r == Some(table[k].tools)
  {
    if table == [] then None
    else if table[0].key == key then Some(table[0].tools)
    else
      var r := LookupTools(table[1..], key);
      assert forall k :: 1 <= k < |table| ==> table[k] == table[1..][k - 1];
      r
  }

  /** `industryTools[industry] || industryTools.other`. */
  function ToolsFor(industry: Option<Answer>): (r: seq<string>)
    ensures (forall k :: 0 <= k < |IndustryTools| ==> IndustryTools[k].key != Interpolate(industry)) ==> r == OtherTools
    ensures forall k :: 0 <= k < |IndustryTools| && IndustryTools[k].key == Interpolate(industry) ==> r == IndustryTools[k].tools
  {
    KeysDistinct();
    match LookupTools(IndustryTools, Interpolate(industry))
    case Some(ts) => ts
    case None => OtherTools
  }

  /** No two buckets share a key. */
  lemma KeysDistinct()
    ensures forall i, k :: 0 <= i < k < |IndustryTools| ==> IndustryTools[i].key != IndustryTools[k].key
  {
  }

  /** The message asks for a recommendation: its lower-cased form contains `recommend` or `suggest`. */
  predicate AsksForRecommendation(message: string) {
    Contains(Lower(message), "recommend") || Contains(Lower(message), "suggest")
  }

  /** A tool of the table, by bucket and position. */
  datatype Hit = Hit(bucket: nat, tool: nat)

  /** Tool `t` of bucket `b` exists and its lower-cased name occurs in the lower-cased message. */
  predicate Mentions(lowered: string, table: seq<Bucket>, b: nat, t: nat) {
    b < |table| && t < |table[b].tools| && Contains(lowered, Lower(table[b].tools[t]))
  }

  /** Position `(b, t)` comes no earlier than `(b0, t0)` in table order. */
  predicate NotBefore(b: nat, t: nat, b0: nat, t0: nat) {
    b > b0 || (b == b0 && t >= t0)
  }

  /**
   * The `for…in` / `for…of` search of `getMockResponse` from bucket `b`, tool `t` on:
   * the first tool, in table order, whose name the message contains.
   */
  function FindTool(lowered: string, table: seq<Bucket>, b: nat, t: nat): (r: Option<Hit>)
    decreases |table| - b, if b < |table| then |table[b].tools| - t else 0
    ensures r.Some? ==> Mentions(lowered, table, r.value.bucket, r.value.tool)
    ensures r.Some? ==> NotBefore(r.value.bucket, r.value.tool, b, t)
    ensures r.Some? ==> forall b', t' ::
      NotBefore(b', t', b, t) && !NotBefore(b', t', r.value.bucket, r.value.tool) ==> !Mentions(lowered, table, b', t')
    ensures r.None? ==> forall b', t' :: NotBefore(b', t', b, t) ==> !Mentions(lowered, table, b', t')
  {
    if b >= |table| then None
    else if t >= |table[b].tools| then FindTool(lowered, table, b + 1, 0)
    else if Contains(lowered, Lower(table[b].tools[t])) then Some(Hit(b, t))
    else FindTool(lowered, table, b, t + 1)
  }

  /** `industry === ind ? 'your industry' : ind`: the own bucket is `your industry`, another is named by its key. */
  function Designation(industry: Option<Answer>, key: string): (r: string)
    ensures industry == Some(Single(key)) ==> r == "your industry"
    ensures industry != Some(Single(key)) ==> r == key
  {
    if industry == Some(Single(key)) then "your industry" else key
  }

  // The templates are grouped so that the pieces the lemmas talk about are subterms.

  /** The recommendation sentence: it opens with `Based on your ` and carries the industry's tools joined by `", "`. */
  function RecommendReply(p: Profile): (r: string)
    ensures |r| > 0
    ensures StartsWith(r, "Based on your ")
    ensures Contains(r, Join(ToolsFor(Get(p, "industry")), ", "))
  {
    var joined := Join(ToolsFor(Get(p, "industry")), ", ");
    var body := RecommendLead(p) + joined + RecommendClose;
    StartsWithConcat("Based on your ", body);
    ContainsInfix(RecommendLead(p), joined, RecommendClose);
    ContainsInSuffix("Based on your ", body, joined);
    "Based on your " + body
  }

  function RecommendLead(p: Profile): string {
    var experience := Get(p, "aiExperience");
    Word(ScaleDescription, Get(p, "businessSize")) + " " + Interpolate(Get(p, "industry"))
    + " business and " + Interpolate(experience) + " experience level, I recommend these "
    + Word(ComplexityLevel, experience) + " AI tools: "
  }

  const RecommendClose: string := ". Would you like more details about any of these?"

  /** The reply about one tool: it opens with the tool's name and says whose industry the tool is designed for. */
  function ToolReply(p: Profile, key: string, tool: string): (r: string)
    ensures |r| > 0
    ensures StartsWith(r, tool)
    ensures Contains(r, DesignedFor(Get(p, "industry"), key))
  {
    var pre := " is a " + Word(ComplexityLevel, Get(p, "aiExperience"));
    var designed := DesignedFor(Get(p, "industry"), key);
    var post := " It's particularly " + Word(ScaleDescription, Get(p, "businessSize"))
       + " for your business size. Would you like to know more about implementation or pricing?";
    StartsWithConcat(tool, pre + designed + post);
    ContainsInfix(pre, designed, post);
    ContainsInSuffix(tool, pre + designed + post, designed);
    tool + (pre + designed + post)
  }

  function DesignedFor(industry: Option<Answer>, key: string): string {
    " solution designed for " + Designation(industry, key) + " businesses."
  }

  /** The general reply: it opens with `As a ` and names the profile's industry. */
  function DefaultReply(p: Profile): (r: string)
    ensures |r| > 0
    ensures StartsWith(r, "As a ")
    ensures Contains(r, " " + Interpolate(Get(p, "industry")) + " businesses")
  {
    var lead := Word(ComplexityLevel, Get(p, "aiExperience")) + " AI assistant for "
      + Word(ScaleDescription, Get(p, "businessSize"));
    var named := " " + Interpolate(Get(p, "industry")) + " businesses";
    var close := ", I can help you find the right AI tools. What specific task or challenge are you looking to address with AI?";
    StartsWithConcat("As a ", lead + named + close);
    ContainsInfix(lead, named, close);
    ContainsInSuffix("As a ", lead + named + close, named);
    "As a " + (lead + named + close)
  }

  /** The tool the message names, if it asks about one. */
  function NamedTool(message: string): Option<Hit> {
    FindTool(Lower(message), IndustryTools, 0, 0)
  }

  /**
   * `getMockResponse(message, quizResponses)`: three templates, tried in a
   * fixed order; the function is total and never returns an empty string.
   */
  function MockResponse(message: string, p: Profile): (r: string)
    ensures |r| > 0
  {
    if AsksForRecommendation(message) then RecommendReply(p)
    else match NamedTool(message)
      case Some(h) => ToolReply(p, IndustryTools[h.bucket].key, IndustryTools[h.bucket].tools[h.tool])
      case None => DefaultReply(p)
  }

  /**
   * A request for recommendations lists the tools of the profile's industry
   * bucket (or of `other`), joined by `", "`, whatever tool names the message
   * also contains.
   */
  lemma RecommendListsTools(message: string, p: Profile, k: nat)
    requires AsksForRecommendation(message)
    requires k < |ToolsFor(Get(p, "industry"))|
    ensures StartsWith(MockResponse(message, p), "Based on your ")
    ensures Contains(MockResponse(message, p), Join(ToolsFor(Get(p, "industry")), ", "))
    ensures Contains(MockResponse(message, p), ToolsFor(Get(p, "industry"))[k])
  {
    var tools := ToolsFor(Get(p, "industry"));
    var joined := Join(tools, ", ");
    JoinContains(tools, ", ", k);
    ContainsTrans(MockResponse(message, p), joined, tools[k]);
  }

  /**
   * Otherwise, when the message names a tool, the reply is about the first
   * tool in table order whose name it contains (case-insensitively), and says
   * `your industry` for the user's own bucket and the bucket's key for another.
   */
  lemma ToolQuestionNamesFirstTool(message: string, p: Profile)
    requires !AsksForRecommendation(message) && NamedTool(message).Some?
    ensures var h := NamedTool(message).value;
      && Mentions(Lower(message), IndustryTools, h.bucket, h.tool)
      && (forall b, t :: !NotBefore(b, t, h.bucket, h.tool) ==> !Mentions(Lower(message), IndustryTools, b, t))
      && StartsWith(MockResponse(message, p), IndustryTools[h.bucket].tools[h.tool])
      && Contains(MockResponse(message, p), DesignedFor(Get(p, "industry"), IndustryTools[h.bucket].key))
  {
  }

  /** The reply says `your industry` exactly when the matched bucket's key is the profile's industry. */
  lemma YourIndustryIffOwnBucket(industry: Option<Answer>, b: nat)
    requires b < |IndustryTools|
    ensures Designation(industry, IndustryTools[b].key) == "your industry" <==> industry == Some(Single(IndustryTools[b].key))
  {
  }

  /** A message that neither asks for recommendations nor names a tool gets the general reply. */
  lemma GeneralReplyOtherwise(message: string, p: Profile)
    requires !AsksForRecommendation(message)
    requires forall b, t :: !Mentions(Lower(message), IndustryTools, b, t)
    ensures MockResponse(message, p) == DefaultReply(p)
    ensures StartsWith(MockResponse(message, p), "As a ")
  {
    assert NamedTool(message).None?;
  }

  /**
   * With the industry set to `retail`, "Can you suggest something?" lists
   * the three retail tools.
   */
  lemma RetailSuggestion(p: Profile)
    requires Get(p, "industry") == Some(Single("retail"))
    ensures forall k :: 0 <= k < |RetailTools| ==> Contains(MockResponse("Can you suggest something?", p), RetailTools[k])
  {
    var m := "Can you suggest something?";
    assert Lower(m)[8..15] == "suggest";
    AtMeansContains(Lower(m), "suggest", 8);
    assert ToolsFor(Get(p, "industry")) == RetailTools;
    forall k | 0 <= k < |RetailTools|
      ensures Contains(MockResponse(m, p), RetailTools[k])
    {
      RecommendListsTools(m, p, k);
    }
  }

  /** An industry that is no table key gets the `other` bucket: a recommendation lists every `other` tool. */
  lemma UnknownIndustryRecommendsOther(message: string, p: Profile)
    requires AsksForRecommendation(message)
    requires forall b :: 0 <= b < |IndustryTools| ==> IndustryTools[b].key != Interpolate(Get(p, "industry"))
    ensures forall k :: 0 <= k < |OtherTools| ==> Contains(MockResponse(message, p), OtherTools[k])
  {
    assert ToolsFor(Get(p, "industry")) == OtherTools;
    forall k | 0 <= k < |OtherTools|
      ensures Contains(MockResponse(message, p), OtherTools[k])
    {
      RecommendListsTools(message, p, k);
    }
  }

  /**
   * `businessSize` is not a field the store declares, so for every profile of
   * the store's shape the scale word is the missed lookup `undefined`.
   */
  lemma ScaleWordIsUndefined(p: Profile)
    requires WellShaped(p)
    ensures Get(p, "businessSize").None?
    ensures Word(ScaleDescription, Get(p, "businessSize")) == "undefined"
  {
    assert "businessSize" !in Fields;
  }

  /** The assistant's answer in the chat: the call's result, or `getMockResponse` when the call threw. */
  function ChatReply(input: string, p: Profile, t: Transport): (r: string)
    ensures |r| > 0
  {
    match Resolve(input, p, t)
    case Success(s) => s
    case Failure(_) => MockResponse(input, p)
  }

  /** The offline reply is used only when the call threw: never for a 2xx JSON response over a store-shaped profile. */
  lemma ChatFallbackOnlyOnFailure(input: string, p: Profile, t: Transport)
    requires WellShaped(p)
    ensures t.Response? && IsOkStatus(t.status) && t.body.ParsedJson? ==>
      Resolve(input, p, t).Success? && ChatReply(input, p, t) == Resolve(input, p, t).value
    ensures t.NetworkError? || !IsOkStatus(t.status) || t.body.NotJson? ==> ChatReply(input, p, t) == MockResponse(input, p)
  {
    ThrowsOnlyOnTransportFailure(input, p, t);
  }

  /**
   * `handleSendMessage`: white-space-only input appends nothing; otherwise the
   * user's raw input and then one assistant reply go to the end of the transcript.
   */
  method SendMessage(session: Session, input: string, t: Transport)
    modifies session
    ensures IsBlank(input) ==> session.chatHistory == old(session.chatHistory)
    ensures !IsBlank(input) ==>
      session.chatHistory == old(session.chatHistory) + [Message(User, input), Message(Assistant, ChatReply(input, old(session.quizResponses), t))]
    ensures session.quizResponses == old(session.quizResponses)
    ensures session.quizCompleted == old(session.quizCompleted)
    ensures session.initialResponseGenerated == old(session.initialResponseGenerated)
  {
    if IsBlank(input) {
      return;
    }
    var content := ChatReply(input, session.quizResponses, t);
    ghost var before := session.chatHistory;
    session.AddChatMessage(Message(User, input));
    session.AddChatMessage(Message(Assistant, content));
    AppendPair(before, Message(User, input), Message(Assistant, content));
  }

  /**
   * The questionnaire's industry values and the table's keys share only
   * `other`, so every industry the questionnaire can record gets the `other`
   * bucket.
   */
  lemma QuizIndustriesUseOther(k: nat)
    requires k < |Quiz.IndustryOptions|
    ensures forall b :: 0 <= b < |IndustryTools| && IndustryTools[b].key == Quiz.IndustryOptions[k] ==>
      Quiz.IndustryOptions[k] == "other"
    ensures ToolsFor(Some(Single(Quiz.IndustryOptions[k]))) == OtherTools
  {
    var v := Quiz.IndustryOptions[k];
    if v == "other" {
      assert IndustryTools[6].key == v;
      var ts := LookupTools(IndustryTools, v).value;
      var b :| 0 <= b < |IndustryTools| && IndustryTools[b] == Bucket(v, ts);
      assert b == 6;
    } else {
      assert forall b :: 0 <= b < |IndustryTools| ==> IndustryTools[b].key != v;
    }
  }
}
