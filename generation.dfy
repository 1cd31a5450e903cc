/** `generate_music_vibe`: the prompt template, the request sent to the model
    service, and how each way the call can end becomes either the parsed vibe
    or a failure message carrying one of two fixed prefixes. The service and
    the JSON parser are not modelled; they are passed in as functions. */
module Generation {
  import opened Wrappers
  import opened Vibe

  /** The template before the description; it ends with the opening quote. */
  const PromptHead :=
    "Given the following description of a person, suggest:\n" +
    "1. Mood\n" +
    "2. Music genre\n" +
    "3. Energy level (low, medium, high)\n" +
    "4. Aesthetic keywords (3-5)\n" +
    "5. A matching artist or song\n" +
    "\n" +
    "Description: \""

  /** The template after the description; it starts with the closing quote. */
  const PromptTail :=
    "\"\n" +
    "\n" +
    "Please respond with a JSON object in this exact format:\n" +
    "{\n" +
    "    \"mood\": \"string\",\n" +
    "    \"genre\": \"string\", \n" +
    "    \"energy_level\": \"string\",\n" +
    "    \"aesthetic_keywords\": [\"string1\", \"string2\", \"string3\"],\n" +
    "    \"suggested_music\": \"string\"\n" +
    "}"

  const SystemInstruction :=
    "You are a music expert who can analyze personality descriptions and suggest matching music vibes. Always respond with valid JSON."
  const ModelName := "gemini-1.5-flash"
  const JsonMimeType := "application/json"

  const NoContent := "No content received from AI response"
  const ParsePrefix := "Failed to parse AI response: "
  const GeneratePrefix := "Failed to generate music vibe: "

  /** What is sent to the service: the model, the JSON response mode, the
      system instruction and the user prompt. */
  datatype Request = Request(model: string, responseMimeType: string, systemInstruction: string, prompt: string)

  /** How the service call ends: it raises (network, credentials, blocked
      content, ...) with a message, or it answers with a text that may be None. */
  datatype Reply = Raised(error: string) | Answered(text: Option<string>)

  /** What `json.loads` makes of a text: an object, or a decode error with its diagnostic. */
  datatype Parse = Parsed(vibe: VibeData) | DecodeError(diagnostic: string)

  /** The two handlers a failure can reach, with the diagnostic each receives. */
  datatype Fault = ParseFault(diagnostic: string) | GenerateFault(diagnostic: string)

  /** The description placed verbatim between the quotes of the fixed template. */
  function Prompt(description: string): (p: string)
    ensures |p| == |PromptHead| + |description| + |PromptTail|
    ensures p[..|PromptHead|] == PromptHead
    ensures p[|PromptHead|..|PromptHead| + |description|] == description
    ensures p[|PromptHead| + |description|..] == PromptTail
  {
    PromptHead + description + PromptTail
  }

  /** Reads the description back out of a prompt; None when the text does not
      have the template around it. */
  function DescriptionOf(prompt: string): (d: Option<string>)
    ensures d.Some? ==> Prompt(d.value) == prompt
  {
    if |PromptHead| + |PromptTail| <= |prompt|
       && prompt[..|PromptHead|] == PromptHead
       && prompt[|prompt| - |PromptTail|..] == PromptTail
    then
      var d := prompt[|PromptHead|..|prompt| - |PromptTail|];
      assert prompt == PromptHead + d + PromptTail by {
        assert prompt == prompt[..|PromptHead|] + d + prompt[|prompt| - |PromptTail|..];
      }
      Some(d)
    else None
  }

  /** Every prompt gives back its description, so distinct descriptions give distinct prompts. */
  lemma PromptRoundTrip(description: string)
    ensures DescriptionOf(Prompt(description)) == Some(description)
  {
  }

  lemma PromptInjective(a: string, b: string)
    ensures Prompt(a) == Prompt(b) ==> a == b
  {
    PromptRoundTrip(a);
    PromptRoundTrip(b);
  }

  /** The request for a description: always the same model, JSON mode and
      system instruction; only the prompt depends on the description. */
  function BuildRequest(description: string): (r: Request)
    ensures r.model == ModelName && r.responseMimeType == JsonMimeType
    ensures r.systemInstruction == SystemInstruction
    ensures DescriptionOf(r.prompt) == Some(description)
  {
    PromptRoundTrip(description);
    Request(ModelName, JsonMimeType, SystemInstruction, Prompt(description))
  }

  /** The user-facing message of a failure: the handler's prefix, then the diagnostic. */
  function Message(f: Fault): (m: string) {
    match f
    case ParseFault(d) => ParsePrefix + d
    case GenerateFault(d) => GeneratePrefix + d
  }

  /** Which handler a failure message came from, and the diagnostic it carried. */
  function ReadMessage(m: string): (f: Option<Fault>)
    ensures f.Some? ==> Message(f.value) == m
  {
    if ParsePrefix <= m then Some(ParseFault(m[|ParsePrefix|..]))
    else if GeneratePrefix <= m then Some(GenerateFault(m[|GeneratePrefix|..]))
    else None
  }

  /** The two prefixes are told apart, so the handler and the diagnostic can
      always be read back from a message. */
  lemma MessageRoundTrip(f: Fault)
    ensures ReadMessage(Message(f)) == Some(f)
  {
    var m := Message(f);
    match f
    case ParseFault(d) =>
      assert m[|ParsePrefix|..] == d;
    case GenerateFault(d) =>
      assert m[10] == 'g' != ParsePrefix[10];
      assert m[|GeneratePrefix|..] == d;
  }

  /** How one call ends, before it is turned into a message. A None text raises
      inside the `try`, so the generic handler re-wraps it; a decode error is
      caught by the parse handler; an error raised by the service call itself
      goes to the generic handler. A parsed object is returned as it is, with
      no check of its fields. */
  function Outcome(reply: Reply, loads: string -> Parse): (r: Result<VibeData, Fault>)
    ensures r.Success? <==> reply.Answered? && reply.text.Some? && loads(reply.text.value).Parsed?
    ensures r.Success? ==> r.value == loads(reply.text.value).vibe
    ensures (r.Failure? && r.error.ParseFault?) <==> reply.Answered? && reply.text.Some? && loads(reply.text.value).DecodeError?
    ensures r.Failure? && r.error.ParseFault? ==> r.error.diagnostic == loads(reply.text.value).diagnostic
    ensures reply == Answered(None) ==> r == Failure(GenerateFault(NoContent))
    ensures reply.Raised? ==> r == Failure(GenerateFault(reply.error))
  {
    match reply
    case Raised(e) => Failure(GenerateFault(e))
    case Answered(None) => Failure(GenerateFault(NoContent))
    case Answered(Some(content)) =>
      match loads(content)
      case Parsed(vibe) => Success(vibe)
      case DecodeError(diag) => Failure(ParseFault(diag))
  }

  /** `generate_music_vibe`: the service is asked once, with the request built
      from the description; the result is the vibe, or the exception message
      the caller shows, from which the handler and diagnostic can be read back. */
  function GenerateMusicVibe(description: string, service: Request -> Reply, loads: string -> Parse): (r: Result<VibeData, string>)
    ensures var o := Outcome(service(BuildRequest(description)), loads);
      && (r.Success? <==> o.Success?)
      && (r.Success? ==> r.value == o.value)
      && (r.Failure? ==> ReadMessage(r.error) == Some(o.error))
  {
    match Outcome(service(BuildRequest(description)), loads)
    case Success(vibe) => Success(vibe)
    case Failure(f) =>
      MessageRoundTrip(f);
      Failure(Message(f))
  }

  /** A None reply is reported through the generic handler with the fixed
      "no content" text, never as a parse failure. */
  lemma NoContentMessage(description: string, service: Request -> Reply, loads: string -> Parse)
    requires service(BuildRequest(description)) == Answered(None)
    ensures GenerateMusicVibe(description, service, loads)
         == Failure(GeneratePrefix + NoContent)
  {
  }

  /** Every failure message starts with exactly one of the two prefixes: no raw
      diagnostic reaches the user unwrapped. */
  lemma FailureAlwaysPrefixed(description: string, service: Request -> Reply, loads: string -> Parse)
    ensures GenerateMusicVibe(description, service, loads).Failure? ==>
      (ParsePrefix <= GenerateMusicVibe(description, service, loads).error)
      != (GeneratePrefix <= GenerateMusicVibe(description, service, loads).error)
  {
    var r := GenerateMusicVibe(description, service, loads);
    if r.Failure? {
      var m := r.error;
      assert ParsePrefix[10] != GeneratePrefix[10];
      if ParsePrefix <= m {
        assert m[10] == ParsePrefix[10];
      }
    }
  }
}
