/**
 * `getHuggingFaceResponse`: builds the prompt from the profile, interprets
 * the inference endpoint's reply and cleans the generated text. The request
 * itself is an input (`Transport`): what came back, or that nothing did.
 */
module Ai {
  import opened Wrappers
  import opened Text
  import opened Store

  /** A decoded JSON value. */
  datatype Json =
    | JNull
    | JBool(b: bool)
    | JNumber(n: real)
    | JString(s: string)
    | JArray(items: seq<Json>)
    | JObject(fields: map<string, Json>)

  /** What `response.json()` produced: a value, or a rejection because the body is not JSON. */
  datatype Body = ParsedJson(json: Json) | NotJson

  /** The outcome of the `fetch`: it rejected, or a response with a status and a body. */
  datatype Transport = NetworkError | Response(status: int, body: Body)

  /** Why the call throws to its caller. */
  datatype Failure =
    | ListFieldNotArray(field: string)  // `.join` on a list field that holds a string: a TypeError
    | NetworkFailure
    | HttpStatus(status: int)
    | BodyNotJson

  /** `response.ok`. */
  predicate IsOkStatus(status: int) {
    200 <= status <= 299
  }

  // ---------------------------------------------------------------- prompt

  /** One line of the profile block: its name, the field it shows, and whether the field is joined as a list. */
  datatype PromptLine = PromptLine(name: string, field: string, isList: bool)

  const ProfileLines: seq<PromptLine> := [
    PromptLine("Funding stage", "fundingStage", false),
    PromptLine("Team size", "teamSize", false),
    PromptLine("Industry vertical", "industry", false),
    PromptLine("Product stage", "startupStage", false),
    PromptLine("Current challenges", "currentChallenges", true),
    PromptLine("Key growth metrics", "growthMetrics", true),
    PromptLine("Time-consuming tasks", "timeConsumingTasks", true),
    PromptLine("Tech stack maturity", "techStack", false),
    PromptLine("Development resources", "devResources", false),
    PromptLine("Current tools", "currentTools", true),
    PromptLine("Available data", "dataAvailability", true),
    PromptLine("AI experience", "aiExperience", false),
    PromptLine("AI budget", "aiInvestmentReadiness", false),
    PromptLine("Implementation timeframe", "implementationTimeframe", false),
    PromptLine("AI priority areas", "aiPriorities", true),
    PromptLine("Desired AI capabilities", "aiCapabilities", true),
    PromptLine("Success metrics", "successMetrics", true),
    PromptLine("Concerns/barriers", "concernsBarriers", true)
  ]

  /** Start-of-sequence and start-of-instruction markers. */
  const PromptOpen: string := "<s>[INST]"

  const PromptHead: string := PromptOpen + HeadText

  const HeadText: string :=
    " You are an AI assistant for OnWave AI, a platform that helps startups find and implement the right AI tools to accelerate their growth and efficiency.\n"
    + "  \n"
    + "  DETAILED STARTUP PROFILE:\n"

  const PromptInstructions: string :=
    "  \n"
    + "  Based on this startup profile, provide specific, actionable advice on:\n"
    + "  1. WHERE in their startup they should implement AI (specific functions, processes, or product features)\n"
    + "  2. WHAT specific AI tools or solutions would be most beneficial given their stage, resources, and goals\n"
    + "  3. HOW they should approach implementation considering their technical capabilities and funding stage\n"
    + "  \n"
    + "  "

  const UserMessageLabel: string := "User message: "

  const PromptTail: string := TailText + (InstEnd + SeqEnd)

  const TailText: string :=
    "\n"
    + "  \n"
    + "  Be specific, practical, and tailored to their unique situation as a startup. Focus on high-impact, cost-effective solutions that align with their growth stage and priorities. Recommend actual AI tools by name when possible. "

  /** End-of-instruction marker. */
  const InstEnd: string := "[/INST]"

  /** End-of-sequence marker. */
  const SeqEnd: string := "</s>"

  /** `${v || 'Unknown'}`: a missing or empty value reads `Unknown`. */
  function RenderSingle(v: Option<Answer>): (r: string)
    ensures v.None? || v == Some(Single("")) ==> r == "Unknown"
    ensures v.Some? && v.value.Single? && v.value.value != "" ==> r == v.value.value
    ensures v.Some? && v.value.Multi? ==> r == Join(v.value.values, ",")
  {
    match v
    case None => "Unknown"
    case Some(Single(s)) => if s == "" then "Unknown" else s
    // an array is truthy, even when empty, and prints as its ","-join
    case Some(Multi(xs)) => Join(xs, ",")
  }

  /**
   * `${(v = []).join(', ') || 'Not specified'}`: a missing list defaults to
   * `[]`; an empty join reads `Not specified`; a string has no `join` and throws.
   */
  function RenderList(v: Option<Answer>): (r: Option<string>)
    ensures r.None? <==> v.Some? && v.value.Single?
    ensures v.None? || v == Some(Multi([])) ==> r == Some("Not specified")
    ensures v.Some? && v.value.Multi? ==>
      r == Some(if Join(v.value.values, ", ") == "" then "Not specified" else Join(v.value.values, ", "))
  {
    match v
    case None => Some("Not specified")
    case Some(Single(_)) => None
    case Some(Multi(xs)) => var j := Join(xs, ", "); Some(if j == "" then "Not specified" else j)
  }

  /** The value a prompt line shows for its field, or the failure its rendering throws. */
  function LineValue(line: PromptLine, p: Profile): (r: Result<string, Failure>)
    ensures r.Failure? <==> Throws(line, p)
    ensures r.Failure? ==> r.error == ListFieldNotArray(line.field)
    ensures r.Success? && !line.isList ==> r.value == RenderSingle(Get(p, line.field))
    ensures r.Success? && line.isList ==> RenderList(Get(p, line.field)) == Some(r.value)
  {
    if line.isList then
      match RenderList(Get(p, line.field))
      case Some(s) => Success(s)
      case None => Failure(ListFieldNotArray(line.field))
    else Success(RenderSingle(Get(p, line.field)))
  }

  /** A line whose rendering throws: a list line over a field that holds a string. */
  predicate Throws(line: PromptLine, p: Profile) {
    line.isList && line.field in p && p[line.field].Single?
  }

  /** `  - <name>: <value>` and a line break. */
  function LineText(name: string, value: string): string {
    "  - " + name + ": " + value + "\n"
  }

  /** The profile block, line by line; the first line that throws ends it. */
  function ProfileBlock(lines: seq<PromptLine>, p: Profile): (r: Result<string, Failure>)
    ensures r.Failure? <==> exists k :: 0 <= k < |lines| && Throws(lines[k], p)
    ensures r.Failure? ==>
      exists k :: 0 <= k < |lines| && Throws(lines[k], p) && r.error == ListFieldNotArray(lines[k].field)
        && forall k' :: 0 <= k' < k ==> !Throws(lines[k'], p)
  {
    if lines == [] then Success("")
    else
      match LineValue(lines[0], p)
      case Failure(e) => Failure(e)
      case Success(v) =>
        match ProfileBlock(lines[1..], p)
        case Failure(e) =>
          assert forall k :: 1 <= k < |lines| ==> lines[k] == lines[1..][k - 1];
          var k :| 0 <= k < |lines[1..]| && Throws(lines[1..][k], p)
            && e == ListFieldNotArray(lines[1..][k].field) && forall k' :: 0 <= k' < k ==> !Throws(lines[1..][k'], p);
          assert Throws(lines[k + 1], p) && forall k' :: 0 <= k' < k + 1 ==> !Throws(lines[k'], p);
          Failure(e)
        case Success(rest) => Success(LineText(lines[0].name, v) + rest)
  }

  /**
   * The prompt template of `getHuggingFaceResponse` around a rendered profile
   * block: the head and the block come first, the labelled message and the
   * tail come last.
   */
  function Assemble(block: string, message: string): (r: string)
    ensures StartsWith(r, PromptHead + block)
    ensures EndsWith(r, UserMessageLabel + message + PromptTail)
  {
    TemplateEnds(PromptHead, block, PromptInstructions, UserMessageLabel + message, PromptTail);
    PromptHead + (block + (PromptInstructions + (UserMessageLabel + message) + PromptTail))
  }

  /** The layout of the template over any five pieces. */
  lemma TemplateEnds(head: string, block: string, middle: string, lbl: string, tail: string)
    ensures StartsWith(head + (block + (middle + lbl + tail)), head + block)
    ensures EndsWith(head + (block + (middle + lbl + tail)), lbl + tail)
  {
    var r := head + (block + (middle + lbl + tail));
    assert r == (head + block) + (middle + lbl + tail);
    StartsWithConcat(head + block, middle + lbl + tail);
    assert r == (head + block + middle) + (lbl + tail);
    EndsWithConcat(head + block + middle, lbl + tail);
  }

  /** The prompt, or the failure building it throws. */
  function BuildPrompt(message: string, p: Profile): (r: Result<string, Failure>)
    ensures r.Failure? <==> exists k :: 0 <= k < |ProfileLines| && Throws(ProfileLines[k], p)
    ensures r.Failure? ==>
      exists k :: 0 <= k < |ProfileLines| && Throws(ProfileLines[k], p) && r.error == ListFieldNotArray(ProfileLines[k].field)
        && forall k' :: 0 <= k' < k ==> !Throws(ProfileLines[k'], p)
    ensures r.Success? ==> r.value == Assemble(ProfileBlock(ProfileLines, p).value, message)
  {
    match ProfileBlock(ProfileLines, p)
    case Failure(e) => Failure(e)
    case Success(block) => Success(Assemble(block, message))
  }

  /** The profile lines read exactly the fields the store declares, each with that field's kind. */
  lemma ProfileLinesMatchStore()
    ensures forall k :: 0 <= k < |ProfileLines| ==>
      ProfileLines[k].field in Fields && (ProfileLines[k].isList <==> Fields[ProfileLines[k].field] == MultiSelect)
    ensures forall f :: f in Fields ==> exists k :: 0 <= k < |ProfileLines| && ProfileLines[k].field == f
  {
    forall f | f in Fields
      ensures exists k :: 0 <= k < |ProfileLines| && ProfileLines[k].field == f
    {
      var k := LineOf(f);
      assert ProfileLines[k].field == f;
    }
  }

  /** The index of the profile line that shows a declared field. */
  function LineOf(f: string): (k: nat)
    requires f in Fields
    ensures k < |ProfileLines| && ProfileLines[k].field == f
  {
    if f == "fundingStage" then 0 else if f == "teamSize" then 1
    else if f == "industry" then 2 else if f == "startupStage" then 3
    else if f == "currentChallenges" then 4 else if f == "growthMetrics" then 5
    else if f == "timeConsumingTasks" then 6 else if f == "techStack" then 7
    else if f == "devResources" then 8 else if f == "currentTools" then 9
    else if f == "dataAvailability" then 10 else if f == "aiExperience" then 11
    else if f == "aiInvestmentReadiness" then 12 else if f == "implementationTimeframe" then 13
    else if f == "aiPriorities" then 14 else if f == "aiCapabilities" then 15
    else if f == "successMetrics" then 16 else 17
  }

  /** Over a well-shaped profile the prompt always builds: no line throws. */
  lemma PromptBuildsForStoreProfiles(message: string, p: Profile)
    requires WellShaped(p)
    ensures BuildPrompt(message, p).Success?
  {
    ProfileLinesMatchStore();
  }

  /** The prompt opens with `<s>[INST]`, carries the message verbatim after `User message: `, and ends with `[/INST]</s>`. */
  lemma PromptFrame(block: string, message: string)
    ensures StartsWith(Assemble(block, message), PromptOpen)
    ensures Contains(Assemble(block, message), UserMessageLabel + message)
    ensures EndsWith(Assemble(block, message), InstEnd + SeqEnd)
  {
    var instructions := PromptInstructions + (UserMessageLabel + message) + PromptTail;
    ContainsInfix(PromptInstructions, UserMessageLabel + message, PromptTail);
    ContainsInSuffix(block, instructions, UserMessageLabel + message);
    ContainsInSuffix(PromptHead, block + instructions, UserMessageLabel + message);
    StartsWithConcat(PromptOpen, HeadText);
    StartsWithExtend(PromptHead, block + instructions, PromptOpen);
    EndsWithConcat(TailText, InstEnd + SeqEnd);
    EndsWithExtend(PromptInstructions + (UserMessageLabel + message), PromptTail, InstEnd + SeqEnd);
    EndsWithExtend(block, instructions, InstEnd + SeqEnd);
    EndsWithExtend(PromptHead, block + instructions, InstEnd + SeqEnd);
  }

  /** A block that builds is its first line followed by the block of the remaining lines. */
  lemma BlockStep(lines: seq<PromptLine>, p: Profile)
    requires ProfileBlock(lines, p).Success? && lines != []
    ensures LineValue(lines[0], p).Success? && ProfileBlock(lines[1..], p).Success?
    ensures ProfileBlock(lines, p).value ==
      LineText(lines[0].name, LineValue(lines[0], p).value) + ProfileBlock(lines[1..], p).value
  {
  }

  /** Every profile line appears in the prompt, rendered with `Unknown` / `Not specified` for missing values. */
  lemma {:induction false} BlockShowsLine(lines: seq<PromptLine>, p: Profile, k: nat)
    requires ProfileBlock(lines, p).Success? && k < |lines|
    ensures LineValue(lines[k], p).Success?
    ensures Contains(ProfileBlock(lines, p).value, LineText(lines[k].name, LineValue(lines[k], p).value))
  {
    BlockStep(lines, p);
    var first := LineText(lines[0].name, LineValue(lines[0], p).value);
    var rest := ProfileBlock(lines[1..], p).value;
    if k == 0 {
      ContainsInfix("", first, rest);
      assert "" + first + rest == first + rest;
    } else {
      BlockShowsLine(lines[1..], p, k - 1);
      assert lines[1..][k - 1] == lines[k];
      ContainsInSuffix(first, rest, LineText(lines[k].name, LineValue(lines[k], p).value));
    }
  }

  /** Each of the eighteen profile lines is in the prompt. */
  lemma PromptShowsField(message: string, p: Profile, k: nat)
    requires BuildPrompt(message, p).Success? && k < |ProfileLines|
    ensures LineValue(ProfileLines[k], p).Success?
    ensures Contains(BuildPrompt(message, p).value, LineText(ProfileLines[k].name, LineValue(ProfileLines[k], p).value))
  {
    var block := ProfileBlock(ProfileLines, p).value;
    BlockShowsLine(ProfileLines, p, k);
    var t := LineText(ProfileLines[k].name, LineValue(ProfileLines[k], p).value);
    var instructions := PromptInstructions + (UserMessageLabel + message) + PromptTail;
    ContainsInPrefix(block, instructions, t);
    ContainsInSuffix(PromptHead, block + instructions, t);
  }

  // ---------------------------------------------------------------- response shapes

  /** The five response shapes the code accepts, in the order it tries them. */
  datatype ShapeKind = GeneratedText | ArrayOfStrings | ArrayOfGenerated | TextField | OutputField

  /** Which shape matched and the text it carries. */
  datatype Extracted = Extracted(kind: ShapeKind, text: string)

  /** `typeof j[key] === 'string'`, with the string. */
  function StringField(j: Json, key: string): (r: Option<string>)
    ensures r.Some? <==> j.JObject? && key in j.fields && j.fields[key].JString?
    ensures r.Some? ==> r.value == j.fields[key].s
  {
    if j.JObject? && key in j.fields && j.fields[key].JString? then Some(j.fields[key].s) else None
  }

  /**
   * The `if … else if` chain that picks `extractedText`: what it picks is what
   * the matched shape decodes to, and it picks nothing exactly when no shape
   * decodes the body.
   */
  function Sniff(j: Json): (r: Option<Extracted>)
    ensures r.Some? ==> r.value.kind in Priority && Decode(r.value.kind, j) == Some(r.value.text)
    ensures r.None? <==> forall k :: 0 <= k < |Priority| ==> Decode(Priority[k], j).None?
  {
    if StringField(j, "generated_text").Some? then
      Some(Extracted(GeneratedText, StringField(j, "generated_text").value))
    else if j.JArray? && |j.items| > 0 then
      if j.items[0].JString? then Some(Extracted(ArrayOfStrings, j.items[0].s))
      else if StringField(j.items[0], "generated_text").Some? then
        Some(Extracted(ArrayOfGenerated, StringField(j.items[0], "generated_text").value))
      else None
    else if StringField(j, "text").Some? then Some(Extracted(TextField, StringField(j, "text").value))
    else if StringField(j, "output").Some? then Some(Extracted(OutputField, StringField(j, "output").value))
    else None
  }

  /** One decoder per accepted shape. */
  function Decode(kind: ShapeKind, j: Json): Option<string> {
    match kind
    case GeneratedText => StringField(j, "generated_text")
    case ArrayOfStrings =>
      if j.JArray? && |j.items| > 0 && j.items[0].JString? then Some(j.items[0].s) else None
    case ArrayOfGenerated =>
      if j.JArray? && |j.items| > 0 then StringField(j.items[0], "generated_text") else None
    case TextField => StringField(j, "text")
    case OutputField => StringField(j, "output")
  }

  /** The priority order of the accepted shapes. */
  const Priority: seq<ShapeKind> := [GeneratedText, ArrayOfStrings, ArrayOfGenerated, TextField, OutputField]

  /** The first decoder in `kinds` that accepts `j`. */
  function FirstDecoded(kinds: seq<ShapeKind>, j: Json): (r: Option<Extracted>)
    ensures r.Some? ==> r.value.kind in kinds && Decode(r.value.kind, j) == Some(r.value.text)
    ensures r.Some? ==>
      exists i :: 0 <= i < |kinds| && kinds[i] == r.value.kind && forall k :: 0 <= k < i ==> Decode(kinds[k], j).None?
    ensures r.None? <==> forall k :: 0 <= k < |kinds| ==> Decode(kinds[k], j).None?
  {
    if kinds == [] then None
    else match Decode(kinds[0], j)
      case Some(t) => Some(Extracted(kinds[0], t))
      case None =>
        var r := FirstDecoded(kinds[1..], j);
        assert forall k :: 1 <= k < |kinds| ==> kinds[k] == kinds[1..][k - 1];
        if r.Some? then
          var i :| 0 <= i < |kinds[1..]| && kinds[1..][i] == r.value.kind
            && forall k :: 0 <= k < i ==> Decode(kinds[1..][k], j).None?;
          assert kinds[i + 1] == r.value.kind;
          r
        else r
  }

  /**
   * The nested tests that pick `extractedText` try the five decoders in priority order and
   * take the first that matches; in particular a non-empty array whose first
   * element matches neither array shape yields nothing, and `text` / `output`
   * are then never looked at.
   */
  lemma SniffFollowsPriority(j: Json)
    ensures Sniff(j) == FirstDecoded(Priority, j)
  {
    var p1 := [ArrayOfStrings, ArrayOfGenerated, TextField, OutputField];
    var p2 := [ArrayOfGenerated, TextField, OutputField];
    var p3 := [TextField, OutputField];
    var p4 := [OutputField];
    assert Priority[1..] == p1;
    assert p1[1..] == p2;
    assert p2[1..] == p3;
    assert p3[1..] == p4;
    assert p4[1..] == [];
    FirstDecodedStep(Priority, j);
    FirstDecodedStep(p1, j);
    FirstDecodedStep(p2, j);
    FirstDecodedStep(p3, j);
    FirstDecodedStep(p4, j);
  }

  lemma FirstDecodedStep(kinds: seq<ShapeKind>, j: Json)
    requires kinds != []
    ensures FirstDecoded(kinds, j) ==
      if Decode(kinds[0], j).Some? then Some(Extracted(kinds[0], Decode(kinds[0], j).value))
      else FirstDecoded(kinds[1..], j)
  {
  }

  /** `extractedText`: the text of the first shape that matched, `""` when none did. */
  function ExtractedText(j: Json): (r: string)
    ensures (forall k :: 0 <= k < |Priority| ==> Decode(Priority[k], j).None?) ==> r == ""
    ensures r != "" ==> exists k :: 0 <= k < |Priority| && Decode(Priority[k], j) == Some(r)
    ensures FirstDecoded(Priority, j).Some? ==> r == FirstDecoded(Priority, j).value.text
  {
    SniffFollowsPriority(j);
    match Sniff(j)
    case Some(e) => e.text
    case None => ""
  }

  /** A non-empty array whose first element is neither a string nor an object with a string `generated_text` gives no text. */
  lemma OddArrayGivesNoText(items: seq<Json>)
    requires |items| > 0 && !items[0].JString? && StringField(items[0], "generated_text").None?
    ensures ExtractedText(JArray(items)) == ""
  {
  }

  // ---------------------------------------------------------------- cleanup

  /** The cleanup of `getHuggingFaceResponse`: cut at `[/INST]`, else strip a leading prompt, else keep the text as it is. */
  function Clean(x: string, prompt: string): (r: string)
    ensures Contains(x, InstEnd) ==> r == [] || (!IsSpace(r[0]) && !IsSpace(r[|r| - 1]))
    ensures !Contains(x, InstEnd) && StartsWith(x, prompt) ==> r == Trim(x[|prompt|..])
    ensures !Contains(x, InstEnd) && !StartsWith(x, prompt) ==> r == x
  {
    if Contains(x, InstEnd) then Trim(ReplaceFirst(SecondPiece(x, InstEnd), SeqEnd, ""))
    else if StartsWith(x, prompt) then Trim(x[|prompt|..])
    else x
  }

  const Apology: string := "I couldn't generate a proper response. Please try asking a different question."

  /** What a successful call returns for a decoded body: the cleaned text, or the apology when there is none. */
  function Reply(prompt: string, j: Json): (r: string)
    ensures |r| > 0
    ensures ExtractedText(j) == "" ==> r == Apology
    ensures ExtractedText(j) != "" && Clean(ExtractedText(j), prompt) == "" ==> r == Apology
    ensures ExtractedText(j) != "" && Clean(ExtractedText(j), prompt) != "" ==> r == Clean(ExtractedText(j), prompt)
  {
    var x := ExtractedText(j);
    if x == "" then Apology
    else
      var c := Clean(x, prompt);
      if c == "" then Apology else c
  }

  /**
   * `getHuggingFaceResponse(message, quizResponses)` for a given outcome of the
   * request: the reply text, or the failure it throws to its caller.
   */
  function Resolve(message: string, p: Profile, t: Transport): (r: Result<string, Failure>)
    ensures r.Failure? <==>
      BuildPrompt(message, p).Failure? || t.NetworkError? || !IsOkStatus(t.status) || t.body.NotJson?
    ensures r.Success? ==> |r.value| > 0
    ensures r.Success? ==>
      t.Response? && t.body.ParsedJson? && r.value == Reply(BuildPrompt(message, p).value, t.body.json)
    ensures r.Failure? ==>
      r.error == (if BuildPrompt(message, p).Failure? then BuildPrompt(message, p).error
                  else if t.NetworkError? then NetworkFailure
                  else if !IsOkStatus(t.status) then HttpStatus(t.status)
                  else BodyNotJson)
  {
    match BuildPrompt(message, p)
    case Failure(e) => Failure(e)
    case Success(prompt) =>
      match t
      case NetworkError => Failure(NetworkFailure)
      case Response(status, body) =>
        if !IsOkStatus(status) then Failure(HttpStatus(status))
        else match body
          case NotJson => Failure(BodyNotJson)
          case ParsedJson(j) => Success(Reply(prompt, j))
  }

  /** For the store's profiles only a network error, a non-2xx status or a body that is not JSON throws. */
  lemma ThrowsOnlyOnTransportFailure(message: string, p: Profile, t: Transport)
    requires WellShaped(p)
    ensures Resolve(message, p, t).Failure? <==> t.NetworkError? || !IsOkStatus(t.status) || t.body.NotJson?
  {
    PromptBuildsForStoreProfiles(message, p);
  }

  /** A decoded body of no accepted shape is not a failure: the call returns the apology. */
  lemma UnrecognisedShapeGivesApology(message: string, p: Profile, status: int, j: Json)
    requires WellShaped(p) && IsOkStatus(status)
    requires forall k :: 0 <= k < |Priority| ==> Decode(Priority[k], j).None?
    ensures Resolve(message, p, Response(status, ParsedJson(j))) == Success(Apology)
  {
    PromptBuildsForStoreProfiles(message, p);
    SniffFollowsPriority(j);
  }

  /**
   * The prompt-prefix branch of `Clean` is never taken for a prompt this module
   * builds: a text that starts with it already contains `[/INST]`.
   */
  lemma PrefixStripUnreachable(message: string, p: Profile, x: string)
    requires BuildPrompt(message, p).Success?
    requires StartsWith(x, BuildPrompt(message, p).value)
    ensures Contains(x, InstEnd)
  {
    PromptFrame(ProfileBlock(ProfileLines, p).value, message);
    PrefixKeepsEnding(x, BuildPrompt(message, p).value, InstEnd, SeqEnd);
  }

  /** The segment after the first `[/INST]` runs up to the second one. */
  lemma {:induction false} PieceUpToSecondMarker(pre: string, body: string, post: string)
    requires !Contains(pre, InstEnd) && !Contains(body, InstEnd)
    ensures Contains(pre + InstEnd + (body + InstEnd + post), InstEnd)
    ensures SecondPiece(pre + InstEnd + (body + InstEnd + post), InstEnd) == body
  {
    var x := pre + InstEnd + (body + InstEnd + post);
    FirstOccurrenceAfter(pre, InstEnd, body + InstEnd + post);
    ContainsInfix(pre, InstEnd, body + InstEnd + post);
    assert x[|pre| + |InstEnd|..] == body + InstEnd + post;
    FirstOccurrenceAfter(body, InstEnd, post);
  }

  /** Whenever the text holds `[/INST]`, the cleanup is the trimmed piece after the first marker with its first `</s>` removed. */
  lemma CleanAtMarker(x: string, prompt: string)
    requires Contains(x, InstEnd)
    ensures Clean(x, prompt) == Trim(ReplaceFirst(SecondPiece(x, InstEnd), SeqEnd, ""))
  {
  }

  /**
   * The usual reply of the endpoint echoes the prompt, which ends in
   * `[/INST]</s>`, and then appends the answer: with no `[/INST]` in the echoed
   * part before the marker or in the answer, the cleanup gives the trimmed answer.
   */
  lemma {:induction false} EchoCleanup(pre: string, answer: string, prompt: string)
    requires !Contains(pre, InstEnd) && !Contains(answer, InstEnd)
    ensures Clean(pre + InstEnd + (SeqEnd + answer), prompt) == Trim(answer)
  {
    var x := pre + InstEnd + (SeqEnd + answer);
    FirstOccurrenceAfter(pre, InstEnd, SeqEnd + answer);
    ContainsInfix(pre, InstEnd, SeqEnd + answer);
    assert x[|pre| + |InstEnd|..] == SeqEnd + answer;
    NoOccurrenceBefore(SeqEnd, answer, InstEnd);
    assert SecondPiece(x, InstEnd) == SeqEnd + answer;
    ContainsInfix("", SeqEnd, answer);
    assert "" + SeqEnd + answer == SeqEnd + answer;
    assert IndexOf(SeqEnd + answer, SeqEnd) == Some(0);
    assert ReplaceFirst(SeqEnd + answer, SeqEnd, "") == answer;
  }

  /**
   * Marker cleanup: a reply `pre + "[/INST]" + body + "</s>"`, with neither
   * marker inside `pre` or `body`, cleans to `body` without its surrounding white space.
   */
  lemma {:induction false} MarkerCleanup(pre: string, body: string, prompt: string)
    requires !Contains(pre, InstEnd) && !Contains(body, InstEnd) && !Contains(body, SeqEnd)
    ensures Clean(pre + InstEnd + (body + SeqEnd), prompt) == Trim(body)
  {
    var x := pre + InstEnd + (body + SeqEnd);
    FirstOccurrenceAfter(pre, InstEnd, body + SeqEnd);
    ContainsInfix(pre, InstEnd, body + SeqEnd);
    var rest := x[|pre| + |InstEnd|..];
    assert rest == body + SeqEnd;
    NoOccurrenceAcross(body, SeqEnd, InstEnd);
    assert SecondPiece(x, InstEnd) == body + SeqEnd;
    FirstOccurrenceAfter(body, SeqEnd, "");
    assert body + SeqEnd + "" == body + SeqEnd;
    assert ReplaceFirst(body + SeqEnd, SeqEnd, "") == (body + SeqEnd)[..|body|] + "" + (body + SeqEnd)[|body| + |SeqEnd|..];
    assert ReplaceFirst(body + SeqEnd, SeqEnd, "") == body;
  }
}
