/** `MiniMaxClient.generate_completion`: build a Messages API request, send it, keep the text
    of the blocks of type "text" joined by line breaks, and wrap every failure in an exception
    with a fixed prefix. The SDK call itself is a parameter of the model (`remote`). */
module LlmService {
  import opened Wrappers

  /** A content block of the reply: visible text, reasoning, or any other kind. */
  datatype Block = TextBlock(text: string) | ThinkingBlock(thinking: string) | OtherBlock(kind: string)

  /** What the SDK call gives: the reply's blocks, an `anthropic.APIError`, or any other exception. */
  datatype Reply = Content(blocks: seq<Block>) | ApiError(message: string) | ClientFailure(message: string)

  datatype Part = TextPart(text: string)
  datatype ChatMessage = ChatMessage(role: string, content: seq<Part>)
  datatype Request = Request(model: string, maxTokens: int, system: string, messages: seq<ChatMessage>)

  const DefaultSystemPrompt: string := "You are a helpful assistant."
  const DefaultMaxTokens: int := 2000
  const EmptyResponse: string := "Empty response from LLM"

  /** `system_prompt if system_prompt else "You are a helpful assistant."`: None and the empty
      string are both falsy. */
  function SystemPrompt(given: Option<string>): (r: string)
    ensures r != ""
    ensures given.Some? && given.value != "" ==> r == given.value
    ensures given.None? || given.value == "" ==> r == DefaultSystemPrompt
  {
    if given.Some? && given.value != "" then given.value else DefaultSystemPrompt
  }

  /** The request: one user message whose single text part is the prompt. */
  function BuildRequest(model: string, prompt: string, system: Option<string>, maxTokens: int): (r: Request)
    ensures |r.messages| == 1 && r.messages[0].role == "user" && r.messages[0].content == [TextPart(prompt)]
    ensures r.system == SystemPrompt(system) && r.model == model && r.maxTokens == maxTokens
  {
    Request(model, maxTokens, SystemPrompt(system), [ChatMessage("user", [TextPart(prompt)])])
  }

  /** The `text` of the "text" blocks, in reply order. */
  function TextsOf(blocks: seq<Block>): seq<string>
  {
    if blocks == [] then []
    else (if blocks[0].TextBlock? then [blocks[0].text] else []) + TextsOf(blocks[1..])
  }

  /** The `thinking` of the "thinking" blocks, in reply order. */
  function ThinkingOf(blocks: seq<Block>): seq<string>
  {
    if blocks == [] then []
    else (if blocks[0].ThinkingBlock? then [blocks[0].thinking] else []) + ThinkingOf(blocks[1..])
  }

  lemma {:induction false} TextsOfSnoc(blocks: seq<Block>, b: Block)
    ensures TextsOf(blocks + [b]) == TextsOf(blocks) + (if b.TextBlock? then [b.text] else [])
    ensures ThinkingOf(blocks + [b]) == ThinkingOf(blocks) + (if b.ThinkingBlock? then [b.thinking] else [])
  {
    if blocks == [] {
      assert [b][1..] == [];
    } else {
      assert (blocks + [b])[1..] == blocks[1..] + [b];
      TextsOfSnoc(blocks[1..], b);
    }
  }

  /** Every text block contributes its text, and nothing else contributes. */
  lemma {:induction false} TextsOfSelects(blocks: seq<Block>)
    ensures forall t :: t in TextsOf(blocks) <==> exists i :: 0 <= i < |blocks| && blocks[i] == TextBlock(t)
  {
    if blocks != [] {
      TextsOfSelects(blocks[1..]);
      forall t ensures t in TextsOf(blocks) <==> exists i :: 0 <= i < |blocks| && blocks[i] == TextBlock(t) {
        if t in TextsOf(blocks[1..]) {
          var j :| 0 <= j < |blocks[1..]| && blocks[1..][j] == TextBlock(t);
          assert blocks[j + 1] == TextBlock(t);
        }
        if exists i :: 0 <= i < |blocks| && blocks[i] == TextBlock(t) {
          var i :| 0 <= i < |blocks| && blocks[i] == TextBlock(t);
          if i > 0 {
            assert blocks[1..][i - 1] == TextBlock(t);
          }
        }
      }
    }
  }

  /** `sep.join(parts)`. */
  function Join(parts: seq<string>, sep: string): string
  {
    if parts == [] then ""
    else if |parts| == 1 then parts[0]
    else parts[0] + sep + Join(parts[1..], sep)
  }

  /** A join is empty exactly when there is nothing to join, or one empty part: two empty
      text blocks already give "\n". */
  lemma {:induction false} JoinEmpty(parts: seq<string>, sep: string)
    requires sep != ""
    ensures Join(parts, sep) == "" <==> parts == [] || parts == [""]
  {
    if |parts| > 1 {
      assert |Join(parts, sep)| >= |sep|;
    }
  }

  /** `s.split(c)`, Python's split on one character. */
  function Split(s: string, c: char): (r: seq<string>)
    ensures r != []
    decreases |s|
  {
    if c !in s then [s]
    else
      var i := FirstIndex(s, c);
      [s[..i]] + Split(s[i + 1..], c)
  }

  function FirstIndex(s: string, c: char): (i: nat)
    requires c in s
    ensures i < |s| && s[i] == c && c !in s[..i]
  {
    if s[0] == c then 0 else 1 + FirstIndex(s[1..], c)
  }

  /** Splitting undoes joining when no part contains the separator. */
  lemma {:induction false} SplitJoin(parts: seq<string>, c: char)
    requires parts != []
    requires forall p :: p in parts ==> c !in p
    ensures Split(Join(parts, [c]), c) == parts
  {
    if |parts| > 1 {
      var rest := Join(parts[1..], [c]);
      var s := parts[0] + [c] + rest;
      assert Join(parts, [c]) == s;
      assert s[|parts[0]|] == c;
      assert s[..|parts[0]|] == parts[0];
      assert parts[0] in parts;
      FirstIndexAt(s, c, |parts[0]|);
      assert s[|parts[0]| + 1..] == rest;
      assert c in s;
      assert Split(s, c) == [parts[0]] + Split(rest, c);
      assert forall p :: p in parts[1..] ==> p in parts;
      SplitJoin(parts[1..], c);
      assert parts == [parts[0]] + parts[1..];
    } else {
      assert Join(parts, [c]) == parts[0];
      assert parts[0] in parts;
    }
  }

  lemma {:induction false} FirstIndexAt(s: string, c: char, i: nat)
    requires i < |s| && s[i] == c && c !in s[..i]
    ensures FirstIndex(s, c) == i
  {
    if i > 0 {
      assert s[0] == s[..i][0];
      var u := s[1..][..i - 1];
      forall j | 0 <= j < |u| ensures u[j] != c {
        assert u[j] == s[..i][j + 1];
      }
      FirstIndexAt(s[1..], c, i - 1);
    }
  }

  /** What `generate_completion` returns or raises for a reply. */
  function Completion(reply: Reply): (r: Result<string, string>)
    ensures r.Ok? ==> r.value != ""
    ensures r.Ok? <==> reply.Content? && TextsOf(reply.blocks) != [] && TextsOf(reply.blocks) != [""]
    ensures r.Ok? ==> r.value == Join(TextsOf(reply.blocks), "\n")
    ensures reply.ApiError? ==> r == Err("MiniMax API error: " + reply.message)
    ensures reply.ClientFailure? ==> r == Err("Failed to generate completion: " + reply.message)
    ensures reply.Content? && r.Err? ==> r.error == "Failed to generate completion: " + EmptyResponse
  {
    match reply
    case Content(blocks) =>
      JoinEmpty(TextsOf(blocks), "\n");
      var result := Join(TextsOf(blocks), "\n");
      if result == "" then Err("Failed to generate completion: " + EmptyResponse) else Ok(result)
    case ApiError(m) => Err("MiniMax API error: " + m)
    case ClientFailure(m) => Err("Failed to generate completion: " + m)
  }

  /** The client: the SDK handle is the `remote` parameter of each call; the model name is
      fixed at construction. */
  class MiniMaxClient {
    const model: string

    constructor (model: string)
      ensures this.model == model
    {
      this.model := model;
    }

    method GenerateCompletion(remote: Request -> Reply, prompt: string,
                              systemPrompt: Option<string> := None,
                              maxTokens: int := DefaultMaxTokens)
      returns (r: Result<string, string>)
      ensures r == Completion(remote(BuildRequest(model, prompt, systemPrompt, maxTokens)))
    {
      var request := BuildRequest(model, prompt, systemPrompt, maxTokens);
      var reply := remote(request);
      match reply {
        case ApiError(m) =>
          return Err("MiniMax API error: " + m);
        case ClientFailure(m) =>
          return Err("Failed to generate completion: " + m);
        case Content(blocks) =>
          var textContent: seq<string> := [];
          var thinkingContent: seq<string> := [];
          for i := 0 to |blocks|
            invariant textContent == TextsOf(blocks[..i])
            invariant thinkingContent == ThinkingOf(blocks[..i])
          {
            TextsOfSnoc(blocks[..i], blocks[i]);
            assert blocks[..i + 1] == blocks[..i] + [blocks[i]];
            match blocks[i] {
              case ThinkingBlock(t) => thinkingContent := thinkingContent + [t];
              case TextBlock(t) => textContent := textContent + [t];
              case OtherBlock(_) =>
            }
          }
          assert blocks[..|blocks|] == blocks;
          var result := Join(textContent, "\n");
          if result == "" {
            return Err("Failed to generate completion: " + EmptyResponse);
          }
          return Ok(result);
      }
    }
  }
}
