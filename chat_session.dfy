/**
 * The chat page as the object it is: its state hooks and the form's are
 * fields, and each event handler updates them in place. Every method is
 * proved to do what the matching function of `ChatPage` says, and to keep
 * `ChatPage.Inv`.
 */
module ChatSession {
  import opened ChatTypes
  import ChatRouter
  import opened ChatPage
  import opened ChatPageProps

  class Session {
    var messages: seq<Entry>
    var processing: bool
    var tokenCount: Option<int>
    var message: string
    var isTyping: bool
    var typingTimer: nat
    var pendingDelays: nat
    var inFlight: seq<seq<Entry>>

    /** The session's state as a value. */
    function State(): Store
      reads this
    {
      Store(messages, processing, tokenCount, message, isTyping, typingTimer, pendingDelays, inFlight)
    }

    /** Mounting the page: empty transcript, busy until the greeting, no tokens used. */
    constructor ()
      ensures State() == InitialStore && Inv(State())
    {
      messages := [];
      tokenCount := Some(0);
      processing := true;
      message := "";
      isTyping := false;
      typingTimer := 0;
      pendingDelays := 0;
      inFlight := [];
    }

    /**
     * The form is submitted (button or Enter key). A rejected message raises
     * its alerts and changes nothing; an accepted one is pushed onto the
     * shared list, the input is cleared, the 750 ms delay is scheduled and
     * the list is sent to the proxy.
     */
    method Submit() returns (alerts: seq<Alert>, sent: Option<seq<Entry>>)
      requires Inv(State()) && FormVisible(tokenCount)
      modifies this
      ensures SubmitOutcome(State(), alerts, sent) == ChatPage.Submit(old(State()))
      ensures Inv(State())
    {
      SubmitPreservesInv(State());
      var list := messages;
      if |message| > MinLength && |message| <= MaxLength && !processing {
        list := list + [Some(Message(message, User))];
        messages := list;
      } else {
        alerts := [];
        if |message| < MinLength {
          alerts := alerts + [TooShort];
        }
        if |message| > MaxLength {
          alerts := alerts + [TooLong];
        }
        if processing {
          alerts := alerts + [WaitForReply];
        }
        sent := None;
        return;
      }
      message := "";
      isTyping := false;
      pendingDelays := pendingDelays + 1;
      inFlight := inFlight + [list];
      alerts, sent := [], Some(list);
    }

    /** A scheduled 750 ms delay fires. */
    method DelayElapsed()
      requires Inv(State()) && pendingDelays > 0
      modifies this
      ensures State() == ChatPage.DelayElapsed(old(State()))
      ensures Inv(State())
    {
      pendingDelays := pendingDelays - 1;
      processing := true;
    }

    /**
     * Proxy call `k` settles: on resolution its callback pushes the reply onto
     * the list the call captured and publishes it; on rejection nothing runs.
     */
    method Reply(k: nat, reply: Option<ChatRouter.Output>)
      requires Inv(State()) && k < |inFlight|
      modifies this
      ensures State() == ChatPage.Reply(old(State()), k, reply)
      ensures Inv(State())
    {
      ReplyPreservesInv(State(), k, reply);
      var list := inFlight[k];
      inFlight := inFlight[..k] + inFlight[k + 1..];
      if reply.Some? {
        list := list + [reply.value.message];
        tokenCount := reply.value.totalTokens;
        messages := list;
        processing := false;
        if !FormVisible(tokenCount) {
          // the form unmounts; when it comes back its own state starts afresh
          message := "";
          isTyping := false;
        }
      }
    }

    /** A keystroke: the text is taken, typing is shown, the typing timer restarts. */
    method Input(text: string)
      requires Inv(State()) && FormVisible(tokenCount)
      modifies this
      ensures State() == ChatPage.Input(old(State()), text)
      ensures Inv(State())
    {
      message := text;
      isTyping := true;
      typingTimer := typingTimer + 1;
    }

    /** Typing timer `timer` fires; a cancelled one has no effect. */
    method TypingTimerFires(timer: nat)
      requires Inv(State()) && 1 <= timer <= typingTimer
      modifies this
      ensures State() == ChatPage.TypingTimerFires(old(State()), timer)
      ensures Inv(State())
    {
      if timer == typingTimer {
        isTyping := false;
      }
    }

    /** The greeting arrives and becomes the transcript. */
    method WelcomeLoaded(data: ChatRouter.Output)
      requires Inv(State())
      modifies this
      ensures State() == ChatPage.WelcomeLoaded(old(State()), data)
      ensures Inv(State())
    {
      messages := [data.message];
      processing := false;
    }
  }

  /**
   * One conversation on a freshly mounted page: the greeting arrives, the
   * user types a message of acceptable length and submits it, the 750 ms
   * delay fires and the reply arrives. The transcript is the greeting, the
   * user's message and the reply, and the page ends idle.
   */
  method OneRound(greeting: ChatRouter.Output, text: string, reply: ChatRouter.Output)
    returns (transcript: seq<Entry>, busy: bool, tokens: Option<int>)
    requires MinLength < |text| <= MaxLength
    ensures transcript == [greeting.message, Some(Message(text, User)), reply.message]
    ensures !busy && tokens == reply.totalTokens
  {
    var page := new Session();
    page.WelcomeLoaded(greeting);
    page.Input(text);
    ghost var before := page.State();
    assert Accepts(before.message, before.processing) && before.messages == [greeting.message];
    var alerts, sent := page.Submit();
    assert sent == Some(before.messages + [Some(Message(text, User))]);
    page.DelayElapsed();
    page.Reply(0, Some(reply));
    transcript, busy, tokens := page.messages, page.processing, page.tokenCount;
  }

  /**
   * A message of length 10 on an idle page: the button is enabled, yet the
   * submit is refused without any alert and the transcript stays as it was.
   */
  method SilentRejection(greeting: ChatRouter.Output, text: string)
    returns (buttonDisabled: bool, alerts: seq<Alert>, transcript: seq<Entry>)
    requires |text| == MinLength
    ensures !buttonDisabled && alerts == [] && transcript == [greeting.message]
  {
    var page := new Session();
    page.WelcomeLoaded(greeting);
    page.Input(text);
    buttonDisabled := SubmitDisabled(page.message);
    var sent;
    alerts, sent := page.Submit();
    transcript := page.messages;
  }
}
