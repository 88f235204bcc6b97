/**
 * src/utils/openai.ts: the extraction client. The prompt builder is a function;
 * `analyzeText` is a method over abstract collaborators — the environment the key
 * is read from, the completion endpoint (`fetch`) and `JSON.parse` — that
 * follows the source's early throws.
 */
module OpenAI {
  import opened Wrappers
  import opened Types
  import JsText

  const ApiKeyMissing := "APIキーが設定されていません"
  const RequestFailed := "APIリクエストに失敗しました"
  const ParseFailed := "APIからの応答の解析に失敗しました"

  /** The prompt up to the input text; it ends with the line `テキスト:`. */
  const TextLead := "以下のテキストから、指定された形式で情報を抽出してください。\n\nテキスト:\n"
  /** Between the input text and the field section; it ends with the line `必要な情報:`. */
  const FieldsLead := "\n\n必要な情報:\n"
  /** The output format and the formatting rules after the field section. */
  const FormatRules := "\n\n以下の形式でJSONを返してください：\n{\n  \"fields\": {\n    \"フィールド名\": \"抽出した値\"\n  },\n  \"memo\": \"元のテキスト\"\n}\n\n注意事項：\n- 日付は \"YYYY-MM-DD\" 形式で返してください\n- 数値は文字列ではなく数値として返してください\n- 真偽値は true/false として返してください\n- 抽出できない値は null として返してください"

  /**
   * src/utils/api.ts `getApiKey`: the configured key, where an unset or empty
   * variable counts as no key.
   */
  function ApiKey(env: Option<string>): (key: Option<string>)
    ensures key.Some? <==> env.Some? && env.value != ""
    ensures key.Some? ==> key.value == env.value
  {
    if env.Some? && env.value != "" then env else None
  }

  /** One line of the field section: `- name (type)`; the description is not used. */
  function FieldLine(f: Field): (line: string)
    ensures |line| > 2 + |f.name|
    ensures line[..2] == "- " && line[2..2 + |f.name|] == f.name
    ensures line[2 + |f.name|..] == " (" + TypeName(f.dtype) + ")"
    ensures '\n' !in f.name ==> '\n' !in line
  {
    var line := "- " + f.name + " (" + TypeName(f.dtype) + ")";
    assert line == "- " + (f.name + (" (" + TypeName(f.dtype) + ")"));
    assert '\n' !in TypeName(f.dtype);
    line
  }

  /** `structure.map(field => `- ${field.name} (${field.type})`)` */
  function FieldLines(structure: seq<Field>): (lines: seq<string>)
    ensures |lines| == |structure|
    ensures forall i :: 0 <= i < |structure| ==> lines[i] == FieldLine(structure[i])
  {
    if structure == [] then [] else [FieldLine(structure[0])] + FieldLines(structure[1..])
  }

  /**
   * The field section: the field lines joined by newlines, so that it splits back
   * into exactly one `- name (type)` line per field, in schema order, when no name
   * contains a newline.
   */
  function FieldsDescription(structure: seq<Field>): (section: string)
    ensures structure == [] ==> section == ""
    ensures structure != [] && (forall i :: 0 <= i < |structure| ==> '\n' !in structure[i].name) ==>
      var lines := JsText.Split(section, '\n');
      |lines| == |structure| &&
      forall i :: 0 <= i < |structure| ==> lines[i] == "- " + structure[i].name + " (" + TypeName(structure[i].dtype) + ")"
  {
    FieldSectionLines(structure);
    JsText.Join(FieldLines(structure), '\n')
  }

  lemma FieldSectionLines(structure: seq<Field>)
    ensures structure != [] && (forall i :: 0 <= i < |structure| ==> '\n' !in structure[i].name) ==>
      JsText.Split(JsText.Join(FieldLines(structure), '\n'), '\n') == FieldLines(structure)
  {
    if structure != [] && (forall i :: 0 <= i < |structure| ==> '\n' !in structure[i].name) {
      JsText.SplitJoin(FieldLines(structure), '\n');
    }
  }

  /**
   * createPrompt: the lead ending in the line `テキスト:`, the input text verbatim,
   * the lead ending in the line `必要な情報:`, the field section, then the fixed
   * format rules.
   */
  function CreatePrompt(text: string, structure: seq<Field>): (prompt: string)
    ensures var n := |TextLead| + |text| + |FieldsLead|;
      var m := n + |FieldsDescription(structure)|;
      m <= |prompt| &&
      prompt[..|TextLead|] == TextLead &&
      prompt[|TextLead|..|TextLead| + |text|] == text &&
      prompt[|TextLead| + |text|..n] == FieldsLead &&
      prompt[n..m] == FieldsDescription(structure) &&
      prompt[m..] == FormatRules
  {
    SlicesOfConcat(TextLead, text, FieldsLead, FieldsDescription(structure), FormatRules);
    TextLead + text + FieldsLead + FieldsDescription(structure) + FormatRules
  }

  lemma SlicesOfConcat(a: string, b: string, c: string, d: string, e: string)
    ensures var p := a + b + c + d + e;
      |p| == |a| + |b| + |c| + |d| + |e| &&
      p[..|a|] == a && p[|a|..|a| + |b|] == b && p[|a| + |b|..|a| + |b| + |c|] == c &&
      p[|a| + |b| + |c|..|a| + |b| + |c| + |d|] == d && p[|a| + |b| + |c| + |d|..] == e
  {
  }

  /** Two schemas with the same names and types in the same order give the same prompt: descriptions are ignored. */
  lemma PromptIgnoresDescriptions(text: string, s1: seq<Field>, s2: seq<Field>)
    requires |s1| == |s2|
    requires forall i :: 0 <= i < |s1| ==> s1[i].name == s2[i].name && s1[i].dtype == s2[i].dtype
    ensures CreatePrompt(text, s1) == CreatePrompt(text, s2)
  {
    assert FieldLines(s1) == FieldLines(s2);
  }

  /** What the model sends: the bearer key and the user prompt (the rest of the request body is fixed). */
  datatype Request = Request(apiKey: string, prompt: string)

  /**
   * The body of a non-OK response: not JSON, the JSON `null` (whose `.error`
   * cannot be read), or a JSON object with an optional string `error.message`.
   */
  datatype ErrorBody = ErrorNotJson | ErrorNull | ErrorJson(message: Option<string>)

  /**
   * The body of an OK response: not JSON; JSON whose `choices[0].message` cannot
   * be reached (`null`, `{}`, a first choice without `message`, ...); or a
   * `choices` array whose first choice has a `message`, each `content` being a
   * string or `null` (`None`). `Completion([])` is `choices: []`.
   */
  datatype CompletionBody = CompletionNotJson | CompletionMalformed | Completion(contents: seq<Option<string>>)

  datatype HttpResponse = NotOk(error: ErrorBody) | Ok(body: CompletionBody)

  /**
   * How `analyzeText` fails: an `Error` it throws with its message, or what it
   * lets through — a rejected `fetch`, a body `response.json()` cannot read, and
   * the TypeError of reading a property of `null` or `undefined` in the body.
   */
  datatype AnalyzeError = Thrown(message: string) | NetworkFailure | BodyNotJson | PropertyOfNothing

  /** `JSON.parse` converts its argument to a string first: a `null` content is parsed as `"null"`. */
  function ParsedText(content: Option<string>): string
  {
    if content.Some? then content.value else "null"
  }

  /**
   * analyzeText. `env` is the key variable, `respond` the endpoint (`None` where
   * `fetch` rejects) and `parse` is `JSON.parse` (`None` where it throws).
   * `sent` is the request issued, if any.
   */
  method AnalyzeText<V>(text: string, structure: seq<Field>, env: Option<string>,
                        respond: Request -> Option<HttpResponse>, parse: string -> Option<V>)
    returns (outcome: Result<V, AnalyzeError>, sent: Option<Request>)
    ensures ApiKey(env).None? ==> sent == None && outcome == Failure(Thrown(ApiKeyMissing))
    ensures ApiKey(env).Some? ==> sent == Some(Request(env.value, CreatePrompt(text, structure)))
    ensures sent.Some? && respond(sent.value).None? ==> outcome == Failure(NetworkFailure)
    ensures sent.Some? && respond(sent.value) == Some(NotOk(ErrorNotJson)) ==> outcome == Failure(BodyNotJson)
    ensures sent.Some? && respond(sent.value) == Some(NotOk(ErrorNull)) ==> outcome == Failure(PropertyOfNothing)
    ensures sent.Some? && respond(sent.value).Some? && respond(sent.value).value.NotOk? && respond(sent.value).value.error.ErrorJson? ==>
      var message := respond(sent.value).value.error.message;
      outcome == Failure(Thrown(if message.Some? && message.value != "" then message.value else RequestFailed))
    ensures sent.Some? && respond(sent.value) == Some(Ok(CompletionNotJson)) ==> outcome == Failure(BodyNotJson)
    ensures sent.Some? && respond(sent.value) == Some(Ok(CompletionMalformed)) ==> outcome == Failure(PropertyOfNothing)
    ensures sent.Some? && respond(sent.value) == Some(Ok(Completion([]))) ==> outcome == Failure(PropertyOfNothing)
    ensures (sent.Some? && respond(sent.value).Some? && respond(sent.value).value.Ok? &&
             respond(sent.value).value.body.Completion? && respond(sent.value).value.body.contents != []) ==>
      var parsed := parse(ParsedText(respond(sent.value).value.body.contents[0]));
      outcome == if parsed.Some? then Success(parsed.value) else Failure(Thrown(ParseFailed))
  {
    var apiKey := ApiKey(env);
    if apiKey.None? {
      return Failure(Thrown(ApiKeyMissing)), None;
    }
    var prompt := CreatePrompt(text, structure);
    var request := Request(apiKey.value, prompt);
    sent := Some(request);
    var response := respond(request);
    if response.None? {
      return Failure(NetworkFailure), sent;
    }
    if response.value.NotOk? {
      match response.value.error
      case ErrorNotJson =>
        return Failure(BodyNotJson), sent;
      case ErrorNull =>
        return Failure(PropertyOfNothing), sent;
      case ErrorJson(message) =>
        var text := if message.Some? && message.value != "" then message.value else RequestFailed;
        return Failure(Thrown(text)), sent;
    }
    match response.value.body
    case CompletionNotJson =>
      return Failure(BodyNotJson), sent;
    case CompletionMalformed =>
      return Failure(PropertyOfNothing), sent;
    case Completion(contents) =>
      if contents == [] {
        return Failure(PropertyOfNothing), sent;
      }
      var parsed := parse(ParsedText(contents[0]));
      if parsed.None? {
        return Failure(Thrown(ParseFailed)), sent;
      }
      outcome := Success(parsed.value);
  }
}
