/**
 * The rule-drafting endpoint (src/app/api/ai/route.ts). The request's
 * `prompt`, the server's API key, the outcome of the chat-completion call and
 * `JSON.parse` are all parameters; what the model decides is which answer the
 * endpoint gives, and which part of the completion text reaches the parser.
 */
module AiRoute {
  import opened Wrappers
  import opened Records
  import opened Text

  /** A drafted rule as the parser hands it over: any field may be missing, none is checked. */
  datatype AiRule = AiRule(
    name: Option<string>,
    description: Option<string>,
    kind: Option<string>,
    status: Option<string>,
    priority: Option<string>,
    conditions: Option<seq<string>>,
    actions: Option<seq<string>>)

  /** How the call to the completion service ended: the first choice's message content, or a thrown error. */
  datatype Completion = Completion(content: Option<string>) | ContactFailed(error: string)

  /** The JSON answer; `RuleReply` is sent with status 200. */
  datatype AiResponse =
    | RuleReply(rule: AiRule)
    | ErrorReply(status: nat, message: string, raw: Option<string>, error: Option<string>)

  /** `content.match(/\{[\s\S]*\}/)`: from the first '{' to the last '}', when a '}' follows that '{'. */
  function ExtractBlock(content: string): (block: Option<string>)
    ensures block.None? <==> !exists i, j :: 0 <= i < j < |content| && content[i] == '{' && content[j] == '}'
    ensures block.Some? ==> exists i, j :: (0 <= i < j < |content| && content[i] == '{' && content[j] == '}'
                                           && (forall k :: 0 <= k < i ==> content[k] != '{')
                                           && (forall k :: j < k < |content| ==> content[k] != '}')
                                           && block.value == content[i..j + 1])
  {
    match (FirstIndexOf(content, '{'), LastIndexOf(content, '}'))
    case (Some(i), Some(j)) =>
      assert forall k :: 0 <= k < i ==> content[k] != '{' by {
        forall k | 0 <= k < i ensures content[k] != '{' {
          assert content[k] == content[..i][k];
        }
      }
      assert forall k :: j < k < |content| ==> content[k] != '}' by {
        forall k | j < k < |content| ensures content[k] != '}' {
          assert content[k] == content[j + 1..][k - j - 1];
        }
      }
      if i < j then Some(content[i..j + 1]) else None
    case (None, _) => None
    case (_, None) => None
  }

  /** The block is a piece of the content that opens with '{' and closes with '}'. */
  lemma BlockShape(content: string)
    requires ExtractBlock(content).Some?
    ensures var b := ExtractBlock(content).value;
      && |b| >= 2 && b[0] == '{' && b[|b| - 1] == '}'
      && exists i, j :: 0 <= i <= j <= |content| && content[i..j] == b
  {
    var b := ExtractBlock(content).value;
    var i, j :| 0 <= i < j < |content| && content[i] == '{' && content[j] == '}' && b == content[i..j + 1];
    assert content[i..j + 1] == b;
  }

  /** `POST /api/ai` with `JSON.parse` as `parse` (None when it throws). */
  function HandleAiPost(prompt: Cell, apiKey: Option<string>, completion: Completion, parse: string -> Option<AiRule>): (resp: AiResponse)
    ensures !(prompt.Str? && prompt.s != "") ==> resp == ErrorReply(400, "No prompt provided.", None, None)
    ensures prompt.Str? && prompt.s != "" && !Filled(apiKey) ==> resp == ErrorReply(500, "OpenAI API key not set.", None, None)
    ensures resp.ErrorReply? && resp.status == 400 <==> !(prompt.Str? && prompt.s != "")
    ensures prompt.Str? && prompt.s != "" && Filled(apiKey) && completion.ContactFailed? ==>
      resp == ErrorReply(500, "Failed to contact OpenAI.", None, Some(completion.error))
    ensures resp.RuleReply? ==> completion.Completion? && Filled(completion.content)
    ensures resp.RuleReply? ==> exists b :: ExtractBlock(completion.content.value) == Some(b) && parse(b) == Some(resp.rule)
  {
    if !(prompt.Str? && prompt.s != "") then ErrorReply(400, "No prompt provided.", None, None)
    else if !Filled(apiKey) then ErrorReply(500, "OpenAI API key not set.", None, None)
    else match completion
      case ContactFailed(e) => ErrorReply(500, "Failed to contact OpenAI.", None, Some(e))
      case Completion(content) =>
        if !Filled(content) then ErrorReply(500, "AI did not return a valid rule.", content, None)
        else match ExtractBlock(content.value)
          case None => ErrorReply(500, "AI did not return a valid rule.", content, None)
          case Some(b) =>
            match parse(b)
            case None => ErrorReply(500, "Failed to parse AI response.", content, None)
            case Some(rule) => RuleReply(rule)
  }

  /** Without a key the answer is fixed before the completion service is consulted: its outcome and the parser do not matter. */
  lemma KeyGuardPrecedesCall(prompt: Cell, apiKey: Option<string>, c1: Completion, c2: Completion,
                             p1: string -> Option<AiRule>, p2: string -> Option<AiRule>)
    requires !Filled(apiKey)
    ensures HandleAiPost(prompt, apiKey, c1, p1) == HandleAiPost(prompt, apiKey, c2, p2)
    ensures HandleAiPost(prompt, apiKey, c1, p1).ErrorReply?
  {
  }

  /** Content without a '{' followed later by a '}' (or no content at all) yields no rule, whatever the parser does. */
  lemma NoBlockNoRule(prompt: Cell, apiKey: Option<string>, content: Option<string>, parse: string -> Option<AiRule>)
    requires prompt.Str? && prompt.s != "" && Filled(apiKey)
    requires content.Some? ==> forall i, j :: 0 <= i < j < |content.value| && content.value[i] == '{' ==> content.value[j] != '}'
    ensures HandleAiPost(prompt, apiKey, Completion(content), parse) == ErrorReply(500, "AI did not return a valid rule.", content, None)
  {
  }

  /** A block the parser rejects gives 500 'Failed to parse AI response.' with the raw content attached. */
  lemma ParseFailureCarriesRaw(prompt: Cell, apiKey: Option<string>, content: string, parse: string -> Option<AiRule>)
    requires prompt.Str? && prompt.s != "" && Filled(apiKey)
    requires ExtractBlock(content).Some? && parse(ExtractBlock(content).value).None?
    ensures HandleAiPost(prompt, apiKey, Completion(Some(content)), parse) == ErrorReply(500, "Failed to parse AI response.", Some(content), None)
  {
    BlockShape(content);
  }

  /** A parsed block is answered as it stands: no field is checked or filled in. */
  lemma ParsedRuleReturnedAsIs(prompt: Cell, apiKey: Option<string>, content: string, parse: string -> Option<AiRule>)
    requires prompt.Str? && prompt.s != "" && Filled(apiKey)
    requires ExtractBlock(content).Some? && parse(ExtractBlock(content).value).Some?
    ensures HandleAiPost(prompt, apiKey, Completion(Some(content)), parse) == RuleReply(parse(ExtractBlock(content).value).value)
  {
    BlockShape(content);
  }

  /** Only the extracted block reaches the parser: parsers that agree on brace-delimited text give the same answer. */
  lemma OnlyBlocksReachParser(prompt: Cell, apiKey: Option<string>, completion: Completion,
                              p1: string -> Option<AiRule>, p2: string -> Option<AiRule>)
    requires forall s :: |s| >= 2 && s[0] == '{' && s[|s| - 1] == '}' ==> p1(s) == p2(s)
    ensures HandleAiPost(prompt, apiKey, completion, p1) == HandleAiPost(prompt, apiKey, completion, p2)
  {
    if completion.Completion? && completion.content.Some? && ExtractBlock(completion.content.value).Some? {
      BlockShape(completion.content.value);
    }
  }
}
