/**
 * The `/analyze` endpoint (backend/food.py) as a pure decision: from the uploaded request,
 * the start-up configuration and the outcomes of the three foreign calls (PIL's image
 * decoder, the provider's generation call, `json.loads`) to the status code and JSON body.
 */
module Analyze {

  import opened Wrappers
  import opened Text
  import opened Startup

  /** A JSON value as `json.loads` returns it; numbers keep Python's int/float distinction. */
  datatype Json =
    | JNull
    | JBool(b: bool)
    | JInt(i: int)
    | JFloat(literal: string)
    | JString(s: string)
    | JArray(items: seq<Json>)
    | JObject(members: map<string, Json>)

  /** The name of the Python type `json.loads` produces for a value. */
  function PyTypeName(v: Json): string {
    match v
    case JNull => "NoneType"
    case JBool(_) => "bool"
    case JInt(_) => "int"
    case JFloat(_) => "float"
    case JString(_) => "str"
    case JArray(_) => "list"
    case JObject(_) => "dict"
  }

  /** One uploaded file of a multipart request; the filename may be missing. */
  datatype FilePart = FilePart(filename: Option<string>, content: seq<bv8>)

  /** The request's uploaded files, by form-field name. */
  datatype Request = Request(files: map<string, FilePart>)

  /** A foreign call that either returns or raises an exception whose text is `message`. */
  datatype Attempt<T> = Done(value: T) | Raised(message: string)

  /** A decoded image, opaque to the gateway. */
  datatype Image = Image(handle: nat)

  /**
   * The outcome of `json.loads`: a value, a `JSONDecodeError`, or any other exception it
   * raised (such as a `RecursionError` on deeply nested input) with its text.
   */
  datatype Parsed = Loaded(value: Json) | DecodeError | LoadFailed(message: string)

  /** The foreign capabilities the main path calls. */
  datatype Services = Services(
    openImage: seq<bv8> -> Attempt<Image>,
    generate: (string, string, Image) -> Attempt<string>,  // model name, prompt, image to response text
    loads: string -> Parsed)

  /** An HTTP reply: status code and JSON object body. */
  datatype Reply = Reply(status: int, body: map<string, Json>)

  const NoImageUploaded := "No image file uploaded."
  const NoFileSelected := "No file selected."
  const NoKeyError := "Image analysis is currently unavailable. Please configure GEMINI_API_KEY in the environment."
  const NoKeyAdvice := "Demo analysis - Please add your Gemini API key to enable AI analysis"
  const NoModelError := "No valid Gemini vision model is initialized. Please check /models endpoint."
  const NoModelAdvice := "Demo analysis - Model initialization failed"
  const DemoFood := "Demo Food Item"
  const DemoFreshness := "Fresh"
  const NotValidJson := "AI response was not valid JSON."
  const UnexpectedPrefix := "Unexpected error during analysis: "
  const Unknown := "Unknown"

  /** The fixed instruction sent with every image. */
  const Prompt := "Analyze this food image. Respond ONLY with a single JSON object, no extra text. "
    + "The JSON should contain: "
    + "'food_type' (string), "
    + "'freshness' (e.g., 'Fresh', 'Stale', 'Expired'), "
    + "and 'deliverability' ('Deliverable' or 'Non-deliverable' with a reason). "
    + "Example: {\"food_type\":\"Apple\",\"freshness\":\"Fresh\",\"deliverability\":\"Deliverable - Looks clean and ripe.\"}"

  /** The three fields of an analysis result. */
  const ResultFields: set<string> := {"food_type", "freshness", "advice"}

  /** The key of the model's JSON object that feeds each result field. */
  function SourceKey(field: string): string {
    if field == "advice" then "deliverability" else field
  }

  function ErrorReply(status: int, message: string): Reply {
    Reply(status, map["error" := JString(message)])
  }

  /** The canned 200 reply given when real analysis cannot be done. */
  function DemoReply(error: string, advice: string): Reply {
    Reply(200, map[
      "error" := JString(error),
      "food_type" := JString(DemoFood),
      "freshness" := JString(DemoFreshness),
      "advice" := JString(advice)])
  }

  /** The text of the `AttributeError` raised by calling `get` on a parsed value that is not a `dict`. */
  function NoGetMessage(v: Json): string {
    "'" + PyTypeName(v) + "' object has no attribute 'get'"
  }

  predicate AdviceIs(reply: Reply, advice: string) {
    "advice" in reply.body && reply.body["advice"] == JString(advice)
  }

  /** Both upload checks pass: an `image` field whose filename is neither missing nor empty. */
  predicate UploadOk(req: Request) {
    "image" in req.files && Truthy(req.files["image"].filename)
  }

  /**
   * The provider's reply text made ready for `json.loads`: stripped of surrounding whitespace,
   * then every "```json" deleted, then every "```" deleted.
   */
  function Clean(text: string): (cleaned: string)
    ensures !Contains(cleaned, Fence) && !Contains(cleaned, JsonFence)
  {
    var unfenced := DeleteAll(Strip(text), JsonFence);
    NoFenceLeft(unfenced);
    NoJsonFenceWithoutFence(DeleteAll(unfenced, Fence));
    DeleteAll(unfenced, Fence)
  }

  /** Every "```json" starts with "```", so text without the latter has neither. */
  lemma NoJsonFenceWithoutFence(t: string)
    requires !Contains(t, Fence)
    ensures !Contains(t, JsonFence)
  {
  }

  /**
   * A fenced JSON block whose body has no backtick cleans to the body between its two newlines.
   */
  lemma CleanFencedBlock(body: string)
    requires '`' !in body
    ensures Clean(JsonFence + "\n" + body + "\n" + Fence) == "\n" + body + "\n"
  {
    var inner := "\n" + body + "\n";
    var text := JsonFence + inner + Fence;
    assert JsonFence + "\n" + body + "\n" + Fence == text;
    NewlinesKeepTickFree(body);
    calc {
      Clean(text);
      DeleteAll(DeleteAll(Strip(text), JsonFence), Fence);
      { assert text[0] == '`' && text[|text| - 1] == '`'; StripUnpadded(text); }
      DeleteAll(DeleteAll(text, JsonFence), Fence);
      { assert text == JsonFence + (inner + Fence); DeleteAllLeading(JsonFence, inner + Fence); }
      DeleteAll(DeleteAll(inner + Fence, JsonFence), Fence);
      { DeleteAllPrefix(inner, Fence, JsonFence); assert DeleteAll(Fence, JsonFence) == Fence; }
      DeleteAll(inner + Fence, Fence);
      { DeleteAllPrefix(inner, Fence, Fence); DeleteAllLeading(Fence, []); assert Fence + [] == Fence; }
      inner + [];
      inner;
    }
  }

  lemma NewlinesKeepTickFree(body: string)
    requires '`' !in body
    ensures forall i :: 0 <= i < |"\n" + body + "\n"| ==> ("\n" + body + "\n")[i] != '`'
  {
  }

  /**
   * Stripping happens before the fences are deleted, so whitespace they uncover stays:
   * "```json" + c + "```" cleans to c for any whitespace character c, and cleaning that
   * again gives the empty string, so cleaning is not idempotent.
   */
  lemma CleanKeepsUncoveredSpace(c: char)
    requires IsSpace(c)
    ensures Clean(JsonFence + [c] + Fence) == [c]
    ensures Clean(Clean(JsonFence + [c] + Fence)) == []
  {
    CleanFencedSpace(c);
    CleanOfSpace(c);
  }

  /** A whitespace character between the two fences is what cleaning leaves. */
  lemma CleanFencedSpace(c: char)
    requires IsSpace(c)
    ensures Clean(JsonFence + [c] + Fence) == [c]
  {
    var text := JsonFence + [c] + Fence;
    calc {
      Clean(text);
      DeleteAll(DeleteAll(Strip(text), JsonFence), Fence);
      { assert text[0] == '`' && text[|text| - 1] == '`'; StripUnpadded(text); }
      DeleteAll(DeleteAll(text, JsonFence), Fence);
      { assert text == JsonFence + ([c] + Fence); DeleteAllLeading(JsonFence, [c] + Fence); }
      DeleteAll(DeleteAll([c] + Fence, JsonFence), Fence);
      { assert DeleteAll([c] + Fence, JsonFence) == [c] + Fence; }
      DeleteAll([c] + Fence, Fence);
      { DeleteAllPrefix([c], Fence, Fence); DeleteAllLeading(Fence, []); assert Fence + [] == Fence; }
      [c] + [];
      [c];
    }
  }

  /** A lone whitespace character cleans to nothing. */
  lemma CleanOfSpace(c: char)
    requires IsSpace(c)
    ensures Clean([c]) == []
  {
    calc {
      Clean([c]);
      DeleteAll(DeleteAll(Strip([c]), JsonFence), Fence);
      { StripUnique([c], [], 1); }
      DeleteAll(DeleteAll([], JsonFence), Fence);
      [];
    }
  }

  /** Python's `obj.get(key, "Unknown")`. */
  function GetOrUnknown(obj: map<string, Json>, key: string): Json {
    if key in obj then obj[key] else JString(Unknown)
  }

  /** The result fields copied from the model's JSON object. */
  function MapFields(obj: map<string, Json>): (fields: map<string, Json>)
    ensures fields.Keys == ResultFields
    // each field is copied from its own source key when that key is present ...
    ensures forall f :: f in fields && SourceKey(f) in obj ==> fields[f] == obj[SourceKey(f)]
    // ... and is "Unknown" when it is absent, whatever the other keys hold
    ensures forall f :: f in fields && SourceKey(f) !in obj ==> fields[f] == JString(Unknown)
  {
    map[
      "food_type" := GetOrUnknown(obj, "food_type"),
      "freshness" := GetOrUnknown(obj, "freshness"),
      "advice" := GetOrUnknown(obj, "deliverability")]
  }

  /** Keys other than the three source keys have no effect on the result. */
  lemma MapFieldsIgnoresOtherKeys(obj: map<string, Json>, k: string, v: Json)
    requires k != "food_type" && k != "freshness" && k != "deliverability"
    ensures MapFields(obj[k := v]) == MapFields(obj)
  {
  }

  /** Dropping one source key resets its own field to "Unknown" and leaves the other two alone. */
  lemma MapFieldsDefaultsIndependently(obj: map<string, Json>, f: string)
    requires f in ResultFields
    ensures MapFields(obj - {SourceKey(f)}) == MapFields(obj)[f := JString(Unknown)]
  {
  }

  /** The main path ran to a parsed value: the image decoded and the provider answered. */
  predicate ReachedParser(content: seq<bv8>, model: string, env: Services) {
    && env.openImage(content).Done?
    && env.generate(model, Prompt, env.openImage(content).value).Done?
  }

  /** What `json.loads` made of the cleaned provider text, once the parser was reached. */
  function ParserOutcome(content: seq<bv8>, model: string, env: Services): Parsed
    requires ReachedParser(content, model, env)
  {
    env.loads(Clean(env.generate(model, Prompt, env.openImage(content).value).value))
  }

  /**
   * The `try` block: decode, generate, clean, parse, map. A parse failure is a 500 with its
   * own message; every other failure (decoding, the provider call, any other exception from
   * the parser, a parsed value that is not an object and so has no `get`) is a 500 carrying
   * the exception's text.
   */
  function MainPath(content: seq<bv8>, model: string, env: Services): (reply: Reply)
    ensures reply.status == 200 || reply.status == 500
    ensures reply.status == 200 <==>
      ReachedParser(content, model, env) && ParserOutcome(content, model, env).Loaded?
      && ParserOutcome(content, model, env).value.JObject?
    ensures reply.status == 200 ==> reply.body == MapFields(ParserOutcome(content, model, env).value.members)
    ensures reply.status == 500 ==> reply.body.Keys == {"error"}
    ensures reply == ErrorReply(500, NotValidJson) <==>
      ReachedParser(content, model, env) && ParserOutcome(content, model, env) == DecodeError
    // the catch-all 500 carries the text of whichever exception was raised
    ensures env.openImage(content).Raised? ==>
      reply == ErrorReply(500, UnexpectedPrefix + env.openImage(content).message)
    ensures env.openImage(content).Done? && env.generate(model, Prompt, env.openImage(content).value).Raised? ==>
      reply == ErrorReply(500, UnexpectedPrefix + env.generate(model, Prompt, env.openImage(content).value).message)
    ensures ReachedParser(content, model, env) && ParserOutcome(content, model, env).LoadFailed? ==>
      reply == ErrorReply(500, UnexpectedPrefix + ParserOutcome(content, model, env).message)
    ensures (&& ReachedParser(content, model, env)
             && ParserOutcome(content, model, env).Loaded?
             && !ParserOutcome(content, model, env).value.JObject?) ==>
      reply == ErrorReply(500, UnexpectedPrefix + NoGetMessage(ParserOutcome(content, model, env).value))
  {
    match env.openImage(content)
    case Raised(e) => UnexpectedOutcome(e)
    case Done(image) =>
      match env.generate(model, Prompt, image)
      case Raised(e) => UnexpectedOutcome(e)
      case Done(text) =>
        match env.loads(Clean(text))
        case DecodeError => ErrorReply(500, NotValidJson)
        case LoadFailed(e) => UnexpectedOutcome(e)
        case Loaded(JObject(obj)) => Reply(200, MapFields(obj))
        case Loaded(v) => UnexpectedOutcome(NoGetMessage(v))
  }

  /**
   * The catch-all reply: `str(e)` of the caught exception after a fixed prefix, which can never
   * be mistaken for the parse-failure reply.
   */
  function UnexpectedOutcome(message: string): (reply: Reply)
    ensures reply == ErrorReply(500, UnexpectedPrefix + message)
    ensures reply.status == 500 && reply.body.Keys == {"error"}
    ensures reply != ErrorReply(500, NotValidJson)
  {
    var reply := ErrorReply(500, UnexpectedPrefix + message);
    assert (UnexpectedPrefix + message)[0] != NotValidJson[0];
    reply
  }

  /** The `/analyze` handler: the ordered validation ladder, then the main path. */
  function Analyze(req: Request, cfg: Config, env: Services): (reply: Reply)
    // 1. no `image` field: 400, and nothing later is consulted
    ensures "image" !in req.files ==> reply == ErrorReply(400, NoImageUploaded)
    // 2. an `image` field without a filename: 400
    ensures "image" in req.files && !Truthy(req.files["image"].filename) ==> reply == ErrorReply(400, NoFileSelected)
    // 400 is given exactly for a failed upload check
    ensures reply.status == 400 <==> !UploadOk(req)
    // 3. no key: the demo reply advising to add one
    ensures UploadOk(req) && !Truthy(cfg.apiKey) ==> reply == DemoReply(NoKeyError, NoKeyAdvice)
    // 4. a key but no model: the demo reply reporting the failed initialisation
    ensures UploadOk(req) && Truthy(cfg.apiKey) && cfg.model.None? ==> reply == DemoReply(NoModelError, NoModelAdvice)
    // all four checks passed: the main path on the uploaded bytes with the selected model
    ensures UploadOk(req) && Truthy(cfg.apiKey) && cfg.model.Some? ==>
      reply == MainPath(req.files["image"].content, cfg.model.value, env)
    // a 200 reply carries an `error` key exactly when configuration is missing
    ensures reply.status == 200 && "error" in reply.body <==> UploadOk(req) && (!Truthy(cfg.apiKey) || cfg.model.None?)
    // the model-failure advice never appears without a key
    ensures AdviceIs(reply, NoModelAdvice) ==> Truthy(cfg.apiKey)
    // every 200 reply has all three result fields
    ensures reply.status == 200 ==> ResultFields <= reply.body.Keys
    // a 500 reply only comes from the main path, and carries only an error
    ensures reply.status == 500 ==> UploadOk(req) && Truthy(cfg.apiKey) && cfg.model.Some? && reply.body.Keys == {"error"}
    ensures reply.status in {200, 400, 500}
  {
    if "image" !in req.files then ErrorReply(400, NoImageUploaded)
    else if !Truthy(req.files["image"].filename) then ErrorReply(400, NoFileSelected)
    else if !Truthy(cfg.apiKey) then DemoReply(NoKeyError, NoKeyAdvice)
    else if cfg.model.None? then DemoReply(NoModelError, NoModelAdvice)
    else
      var reply := MainPath(req.files["image"].content, cfg.model.value, env);
      assert reply.status == 200 ==> reply.body.Keys == ResultFields;
      reply
  }

  /** The reply text of a well-behaved model, fenced as a JSON code block. */
  const AppleReply := AppleFood + AppleFreshness + AppleDeliverability
  const AppleFood := "{\"food_type\":\"Apple\","
  const AppleFreshness := "\"freshness\":\"Fresh\","
  const AppleDeliverability := "\"deliverability\":\"Deliverable - ripe\"}"

  /**
   * End to end: a fenced JSON reply from the provider, which the parser reads as the expected
   * object, becomes a 200 reply with the object's fields, `deliverability` becoming `advice`.
   */
  lemma FencedReplyIsMapped(req: Request, cfg: Config, env: Services, image: Image)
    requires UploadOk(req) && Truthy(cfg.apiKey) && cfg.model.Some?
    requires env.openImage(req.files["image"].content) == Done(image)
    requires env.generate(cfg.model.value, Prompt, image) == Done(JsonFence + "\n" + AppleReply + "\n" + Fence)
    requires env.loads("\n" + AppleReply + "\n") == Loaded(JObject(AppleObject))
    ensures Analyze(req, cfg, env) == Reply(200, AppleFields)
  {
    var text := JsonFence + "\n" + AppleReply + "\n" + Fence;
    AppleReplyTickFree();
    CleanFencedBlock(AppleReply);
    MainPathMapsObject(req.files["image"].content, cfg.model.value, env, image, text, AppleObject);
    AppleFieldsMapped();
  }

  lemma MainPathMapsObject(content: seq<bv8>, model: string, env: Services, image: Image, text: string,
                           obj: map<string, Json>)
    requires env.openImage(content) == Done(image)
    requires env.generate(model, Prompt, image) == Done(text)
    requires env.loads(Clean(text)) == Loaded(JObject(obj))
    ensures MainPath(content, model, env) == Reply(200, MapFields(obj))
  {
  }

  lemma AppleFieldsMapped()
    ensures MapFields(AppleObject) == AppleFields
  {
  }

  lemma AppleReplyTickFree()
    ensures '`' !in AppleReply
  {
  }

  const AppleObject := map[
    "food_type" := JString("Apple"),
    "freshness" := JString("Fresh"),
    "deliverability" := JString("Deliverable - ripe")]

  const AppleFields := map[
    "food_type" := JString("Apple"),
    "freshness" := JString("Fresh"),
    "advice" := JString("Deliverable - ripe")]

}
