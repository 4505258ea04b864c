/**
 * The completion proxy: the three procedures of the chat router. Each one
 * builds a request for the external completion service and projects the
 * service's answer onto what the page receives. The service itself is a
 * parameter (`complete`): it may fail (`None`) or answer with any response.
 */
module ChatRouter {
  import opened ChatTypes

  const CompletionModel: string := "gpt-3.5-turbo"

  /** The persona instruction prepended to every request. */
  const ConfigPrompt: string :=
    "I want you to act as a virtual version of me. " +
    "Your name is Virtual Vince. Here you have a little information about me: [ " +
    "I am a fullstack developer working with Laravel, Vue and other Javascript languages. " +
    "I love coding and cycling. ] " +
    "You are polite and reply in Markdown format. Any link that you use should be a Markdown URL. " +
    "Your first message should be an introduciton of yourself (like: 'Hey I am virtual Vince!'), continue a normal conversation asking for the name of the user." +
    "You should keep your messages short and to the point. After about 3000 tokens, you should end the conversation and supply the user with a link to 'https://vincentdorian.me/contact'."

  /** The token budget of the opening greeting. */
  const WelcomeMaxTokens: nat := 100

  /** The text the stub procedure puts before the question it echoes. */
  const ExamplePrefix: string := "Answer to your question: "

  /** The system message every request starts with. */
  const SystemPrompt: Message := Message(ConfigPrompt, System)

  /** A message as the page sends it, before input validation. */
  datatype WireMessage = WireMessage(role: string, content: string)

  /** What goes to the completion service. */
  datatype CompletionRequest = CompletionRequest(model: string, messages: seq<Message>, maxTokens: Option<nat>)

  /** The parts of the service's answer that the proxy reads; each may be absent. */
  datatype Choice = Choice(message: Option<Message>)
  datatype Usage = Usage(totalTokens: int)
  datatype CompletionResponse = CompletionResponse(choices: seq<Choice>, usage: Option<Usage>)

  /** What `send` and `welcome` return to the page: both fields optional. */
  datatype Output = Output(message: Option<Message>, totalTokens: Option<int>)

  /** Why a procedure call fails: rejected input, or the service call threw. */
  datatype Failure = BadRequest | UpstreamError

  datatype Result<+T> = Ok(value: T) | Err(error: Failure)

  /** The role names the `send` input schema admits. */
  predicate AllowedRole(name: string)
  {
    name == "user" || name == "assistant"
  }

  /** The role enum of the `send` input schema. */
  function ParseChatRole(name: string): (r: Option<Role>)
    ensures r.Some? <==> AllowedRole(name)
    ensures r.Some? ==> RoleName(r.value) == name && r.value != System
  {
    if name == "user" then Some(User)
    else if name == "assistant" then Some(Assistant)
    else None
  }

  /**
   * Validation of the `send` input: every message must carry an admitted
   * role; the contents are taken as they are.
   */
  function Validate(input: seq<WireMessage>): (r: Option<seq<Message>>)
    ensures r.Some? <==> forall i | 0 <= i < |input| :: AllowedRole(input[i].role)
    ensures r.Some? ==> |r.value| == |input|
    ensures r.Some? ==> forall i | 0 <= i < |input| ::
              r.value[i].content == input[i].content && RoleName(r.value[i].role) == input[i].role
    ensures r.Some? ==> forall i | 0 <= i < |input| :: r.value[i].role != System
  {
    if input == [] then Some([])
    else
      match ParseChatRole(input[0].role)
      case None => None
      case Some(role) =>
        match Validate(input[1..])
        case None => None
        case Some(rest) => Some([Message(input[0].content, role)] + rest)
  }

  /** How the page's messages travel to the proxy. */
  function Encode(m: Message): WireMessage
  {
    WireMessage(RoleName(m.role), m.content)
  }

  function EncodeAll(ms: seq<Message>): (ws: seq<WireMessage>)
    ensures |ws| == |ms|
    ensures forall i | 0 <= i < |ms| :: ws[i] == Encode(ms[i])
  {
    seq(|ms|, i requires 0 <= i < |ms| => Encode(ms[i]))
  }

  /** The request `send` makes: the system prompt, then the history in order. */
  function SendRequest(history: seq<Message>): (req: CompletionRequest)
    ensures |req.messages| == |history| + 1
    ensures req.messages[0] == SystemPrompt && req.messages[1..] == history
    ensures req.model == CompletionModel && req.maxTokens == None
  {
    CompletionRequest(CompletionModel, [SystemPrompt] + history, None)
  }

  /** The request `welcome` makes: the system prompt alone, with a 100-token budget. */
  function WelcomeRequest(): (req: CompletionRequest)
    ensures req.messages == [SystemPrompt]
    ensures req.maxTokens == Some(100)
    ensures req.model == CompletionModel
  {
    CompletionRequest(CompletionModel, [SystemPrompt], Some(WelcomeMaxTokens))
  }

  /** The answer's first choice's message and its total token usage, each when present. */
  function Project(resp: CompletionResponse): (out: Output)
    ensures out.message.Some? <==> |resp.choices| > 0 && resp.choices[0].message.Some?
    ensures out.message.Some? ==> out.message == resp.choices[0].message
    ensures out.totalTokens.Some? <==> resp.usage.Some?
    ensures out.totalTokens.Some? ==> out.totalTokens.value == resp.usage.value.totalTokens
  {
    Output(
      if |resp.choices| > 0 then resp.choices[0].message else None,
      match resp.usage
      case Some(u) => Some(u.totalTokens)
      case None => None)
  }

  /** The `send` procedure. */
  function Send(complete: CompletionRequest -> Option<CompletionResponse>, input: seq<WireMessage>): (r: Result<Output>)
    ensures r == Err(BadRequest) <==> Validate(input).None?
    ensures r == Err(UpstreamError) <==>
              Validate(input).Some? && complete(SendRequest(Validate(input).value)).None?
    ensures r.Ok? ==> r.value == Project(complete(SendRequest(Validate(input).value)).value)
  {
    match Validate(input)
    case None => Err(BadRequest)
    case Some(history) =>
      match complete(SendRequest(history))
      case None => Err(UpstreamError)
      case Some(resp) => Ok(Project(resp))
  }

  /** The `welcome` procedure: its input is empty. */
  function Welcome(complete: CompletionRequest -> Option<CompletionResponse>): (r: Result<Output>)
    ensures r.Err? <==> complete(WelcomeRequest()).None?
    ensures r.Err? ==> r.error == UpstreamError
    ensures r.Ok? ==> r.value == Project(complete(WelcomeRequest()).value)
  {
    match complete(WelcomeRequest())
    case None => Err(UpstreamError)
    case Some(resp) => Ok(Project(resp))
  }

  /**
   * The `example` stub: whatever the role, it answers as the assistant with
   * the question echoed after a fixed prefix (the delay is not modelled).
   */
  function Example(input: WireMessage): (m: Message)
    ensures m.role == Assistant
    ensures |m.content| == |ExamplePrefix| + |input.content|
    ensures m.content[..|ExamplePrefix|] == ExamplePrefix
    ensures m.content[|ExamplePrefix|..] == input.content
  {
    Message(ExamplePrefix + input.content, Assistant)
  }
}
