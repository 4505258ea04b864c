/**
 * The chat page's conversation store, as values: the state the page and its
 * form keep, one function per event that changes it, and the predicates the
 * rendering reads. The class `ChatSession.Session` performs these events in
 * place and is proved against the functions here.
 */
module ChatPage {
  import opened ChatTypes
  import ChatRouter

  const MaxLength: nat := 200
  const MinLength: nat := 10
  /** The form is rendered only while the token count is below this. */
  const TokenCutoff: int := 500

  /**
   * One transcript entry. A reply's message is pushed after a type cast
   * only, so an absent message is pushed as `undefined` (`None`).
   */
  type Entry = Option<Message>

  /** The alerts a rejected submit raises. */
  datatype Alert = TooShort | TooLong | WaitForReply

  /**
   * The page's state (`messages`, `processing`, `tokenCount`) together with
   * the form's (`message`, `isTyping`, the typing timer) and the work the
   * page has scheduled: 750 ms delays not yet fired, and the proxy calls not
   * yet answered, each with the list its callback will push the reply onto.
   * `typingTimer` numbers the typing timers; the one with the current number
   * is the only one not cancelled.
   */
  datatype Store = Store(
    messages: seq<Entry>,
    processing: bool,
    tokenCount: Option<int>,
    message: string,
    isTyping: bool,
    typingTimer: nat,
    pendingDelays: nat,
    inFlight: seq<seq<Entry>>)

  /** The state when the page mounts: nothing shown, waiting for the greeting. */
  const InitialStore: Store := Store([], true, Some(0), "", false, 0, 0, [])

  // ---------------------------------------------------------------------
  // What the rendering reads

  /** The send button is disabled outside [MinLength, MaxLength]. */
  predicate SubmitDisabled(message: string)
    ensures !SubmitDisabled(message) <==> MinLength <= |message| <= MaxLength
  {
    |message| > MaxLength || |message| < MinLength
  }

  /** The input form is rendered while the token count is a number below the cutoff. */
  predicate FormVisible(tokenCount: Option<int>)
    ensures FormVisible(tokenCount) ==> tokenCount.Some? && tokenCount.value < TokenCutoff
    ensures tokenCount.Some? && tokenCount.value < TokenCutoff ==> FormVisible(tokenCount)
  {
    match tokenCount
    case Some(n) => n < TokenCutoff
    case None => false
  }

  /**
   * The transcript ends in a "typing" bubble while a reply is awaited; it
   * shows exactly when a submit would be refused with "wait".
   */
  predicate PlaceholderShown(s: Store)
    ensures PlaceholderShown(s) <==> WaitForReply in RejectionAlerts(s.message, s.processing)
  {
    s.processing
  }

  /**
   * The transcript holds an absent message. Rendering reads the role of
   * every entry, so the page's render throws from this state on.
   */
  predicate RenderThrows(s: Store)
  {
    None in s.messages
  }

  predicate IsLineBreak(c: char)
  {
    c == '\r' || c == '\n'
  }

  /** The pieces of `s` between line-break characters, in order. */
  function Segments(s: string): (r: seq<string>)
    ensures |r| >= 1
    ensures forall i, j | 0 <= i < |r| && 0 <= j < |r[i]| :: !IsLineBreak(r[i][j])
    decreases |s|
  {
    if s == [] then [[]]
    else
      var rest := Segments(s[1..]);
      if IsLineBreak(s[0]) then [[]] + rest
      else [[s[0]] + rest[0]] + rest[1..]
  }

  /** The textarea's row count: the number of lines, but never fewer than three. */
  function Rows(message: string): (rows: nat)
    ensures rows >= 3 && rows >= |Segments(message)|
    ensures rows == 3 || rows == |Segments(message)|
  {
    if |Segments(message)| > 3 then |Segments(message)| else 3
  }

  // ---------------------------------------------------------------------
  // Events

  /** The submit guard: strictly longer than the minimum, within the maximum, not busy. */
  predicate Accepts(message: string, processing: bool)
    ensures Accepts(message, processing) ==> !SubmitDisabled(message) && !processing
    ensures !SubmitDisabled(message) && !processing && !Accepts(message, processing) ==> |message| == MinLength
  {
    |message| > MinLength && |message| <= MaxLength && !processing
  }

  /** The alerts of a rejected submit, in the order they are raised. */
  function RejectionAlerts(message: string, processing: bool): (alerts: seq<Alert>)
    ensures TooShort in alerts <==> |message| < MinLength
    ensures TooLong in alerts <==> |message| > MaxLength
    ensures WaitForReply in alerts <==> processing
    ensures alerts == [] <==> MinLength <= |message| <= MaxLength && !processing
    ensures |alerts| <= 2 && (processing ==> alerts[|alerts| - 1] == WaitForReply)
  {
    (if |message| < MinLength then [TooShort] else []) +
    (if |message| > MaxLength then [TooLong] else []) +
    (if processing then [WaitForReply] else [])
  }

  /** A submit's effect: the new state, the alerts raised and the list sent to `send`. */
  datatype SubmitOutcome = SubmitOutcome(store: Store, alerts: seq<Alert>, sent: Option<seq<Entry>>)

  /**
   * Submitting the form: an accepted message is appended at once, the input
   * is cleared, a 750 ms delay is scheduled and the extended list is sent.
   */
  function Submit(s: Store): (o: SubmitOutcome)
    ensures o.sent.Some? <==> MinLength < |s.message| <= MaxLength && !s.processing
    ensures o.sent.None? ==> o.store == s && o.alerts == RejectionAlerts(s.message, s.processing)
    ensures o.sent.Some? ==>
      && |o.store.messages| == |s.messages| + 1
      && o.store.messages[..|s.messages|] == s.messages
      && o.store.messages[|s.messages|] == Some(Message(s.message, User))
      && o.sent == Some(o.store.messages) && o.alerts == []
      && o.store.inFlight == s.inFlight + [o.store.messages]
      && o.store.message == "" && !o.store.isTyping
      && o.store.processing == s.processing && o.store.tokenCount == s.tokenCount
      && o.store.typingTimer == s.typingTimer && o.store.pendingDelays == s.pendingDelays + 1
  {
    if Accepts(s.message, s.processing) then
      var list := s.messages + [Some(Message(s.message, User))];
      var s' := s.(messages := list, message := "", isTyping := false,
                   pendingDelays := s.pendingDelays + 1, inFlight := s.inFlight + [list]);
      SubmitOutcome(s', [], Some(list))
    else
      SubmitOutcome(s, RejectionAlerts(s.message, s.processing), None)
  }

  /** One scheduled 750 ms delay fires: the page shows that it is busy. */
  function DelayElapsed(s: Store): (t: Store)
    requires s.pendingDelays > 0
    ensures t.processing && t.pendingDelays == s.pendingDelays - 1
    ensures t.messages == s.messages && t.inFlight == s.inFlight && t.tokenCount == s.tokenCount
    ensures t.message == s.message && t.isTyping == s.isTyping && t.typingTimer == s.typingTimer
  {
    s.(processing := true, pendingDelays := s.pendingDelays - 1)
  }

  /** `s` without its element at index `k`. */
  function RemoveAt<T>(s: seq<T>, k: nat): (r: seq<T>)
    requires k < |s|
    ensures |r| == |s| - 1
    ensures forall i | 0 <= i < |r| :: r[i] == if i < k then s[i] else s[i + 1]
  {
    s[..k] + s[k + 1..]
  }

  /**
   * Proxy call `k` settles. A rejected call (`None`) runs no callback. A
   * resolved one pushes the reply onto the list the call captured, shows that
   * list, overwrites the token count and clears `processing`. When the new
   * token count hides the form, the form is unmounted and comes back empty.
   */
  function Reply(s: Store, k: nat, reply: Option<ChatRouter.Output>): (t: Store)
    requires k < |s.inFlight|
    ensures t.inFlight == RemoveAt(s.inFlight, k)
    ensures t.pendingDelays == s.pendingDelays && t.typingTimer == s.typingTimer
    ensures reply.None? ==> t == s.(inFlight := RemoveAt(s.inFlight, k))
    ensures reply.Some? ==>
      && t.messages == s.inFlight[k] + [reply.value.message]
      && t.tokenCount == reply.value.totalTokens
      && !t.processing
    ensures reply.Some? && FormVisible(t.tokenCount) ==> t.message == s.message && t.isTyping == s.isTyping
    ensures !FormVisible(t.tokenCount) && reply.Some? ==> t.message == "" && !t.isTyping
  {
    var rest := RemoveAt(s.inFlight, k);
    match reply
    case None => s.(inFlight := rest)
    case Some(out) =>
      var s' := s.(messages := s.inFlight[k] + [out.message], tokenCount := out.totalTokens,
                   processing := false, inFlight := rest);
      if FormVisible(s'.tokenCount) then s' else s'.(message := "", isTyping := false)
  }

  /** A keystroke: new text, typing shown, the typing timer restarted. */
  function Input(s: Store, text: string): (t: Store)
    ensures t.message == text && t.isTyping && t.typingTimer > s.typingTimer
    ensures t.messages == s.messages && t.processing == s.processing && t.tokenCount == s.tokenCount
    ensures t.inFlight == s.inFlight && t.pendingDelays == s.pendingDelays
  {
    s.(message := text, isTyping := true, typingTimer := s.typingTimer + 1)
  }

  /** Typing timer `timer` fires; only the most recent one was not cancelled. */
  function TypingTimerFires(s: Store, timer: nat): (t: Store)
    ensures timer != s.typingTimer ==> t == s
    ensures timer == s.typingTimer ==> !t.isTyping && t.(isTyping := s.isTyping) == s
  {
    if timer == s.typingTimer then s.(isTyping := false) else s
  }

  /** The greeting arrives: it becomes the whole transcript and the page is idle. */
  function WelcomeLoaded(s: Store, data: ChatRouter.Output): (t: Store)
    ensures t.messages == [data.message] && !t.processing
    ensures t.tokenCount == s.tokenCount && t.inFlight == s.inFlight && t.pendingDelays == s.pendingDelays
    ensures t.message == s.message && t.isTyping == s.isTyping && t.typingTimer == s.typingTimer
  {
    s.(messages := [data.message], processing := false)
  }

  // ---------------------------------------------------------------------
  // Runs of events

  datatype Event =
    | SubmitPressed
    | DelayFired
    | ReplySettled(call: nat, reply: Option<ChatRouter.Output>)
    | Typed(text: string)
    | TypingTimerFired(timer: nat)
    | WelcomeArrived(data: ChatRouter.Output)

  /**
   * When an event can happen: the form's events only while it is rendered,
   * a timer or a call only once it was started.
   */
  predicate Enabled(s: Store, e: Event)
  {
    match e
    case SubmitPressed => FormVisible(s.tokenCount)
    case DelayFired => s.pendingDelays > 0
    case ReplySettled(k, _) => k < |s.inFlight|
    case Typed(_) => FormVisible(s.tokenCount)
    case TypingTimerFired(t) => 1 <= t <= s.typingTimer
    case WelcomeArrived(_) => true
  }

  function Step(s: Store, e: Event): Store
    requires Enabled(s, e)
  {
    match e
    case SubmitPressed => Submit(s).store
    case DelayFired => DelayElapsed(s)
    case ReplySettled(k, reply) => Reply(s, k, reply)
    case Typed(text) => Input(s, text)
    case TypingTimerFired(t) => TypingTimerFires(s, t)
    case WelcomeArrived(data) => WelcomeLoaded(s, data)
  }

  /** The state after `events`, or `None` if one of them could not happen. */
  function Run(s: Store, events: seq<Event>): Option<Store>
    decreases |events|
  {
    if events == [] then Some(s)
    else if Enabled(s, events[0]) then Run(Step(s, events[0]), events[1..])
    else None
  }

  /** An entry the user's form produced: a user message that passed the length guard. */
  predicate IsSubmittedEntry(e: Entry)
  {
    e.Some? && e.value.role == User && MinLength < |e.value.content| <= MaxLength
  }

  /**
   * What every reachable state keeps: each pending call's list ends with the
   * user message that started it, and a hidden form holds no text.
   */
  predicate Inv(s: Store)
  {
    && (forall k | 0 <= k < |s.inFlight| ::
          |s.inFlight[k]| > 0 && IsSubmittedEntry(s.inFlight[k][|s.inFlight[k]| - 1]))
    && (!FormVisible(s.tokenCount) ==> s.message == "" && !s.isTyping)
  }
}
