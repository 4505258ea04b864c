/** What the conversation store promises, proved about the functions of `ChatPage`. */
module ChatPageProps {
  import opened ChatTypes
  import ChatRouter
  import opened ChatPage

  // ---------------------------------------------------------------------
  // The textarea's rows

  /** The number of line-break characters in `s`. */
  function BreakCount(s: string): nat
  {
    if s == [] then 0 else (if IsLineBreak(s[0]) then 1 else 0) + BreakCount(s[1..])
  }

  /** `s` with its line-break characters taken out. */
  function WithoutBreaks(s: string): string
  {
    if s == [] then [] else (if IsLineBreak(s[0]) then [] else [s[0]]) + WithoutBreaks(s[1..])
  }

  function Concat(pieces: seq<string>): string
  {
    if pieces == [] then [] else pieces[0] + Concat(pieces[1..])
  }

  /** Splitting yields one more piece than there are line breaks. */
  lemma {:induction false} SegmentsCount(s: string)
    ensures |Segments(s)| == BreakCount(s) + 1
    decreases |s|
  {
    if s != [] {
      SegmentsCount(s[1..]);
    }
  }

  /** Splitting loses nothing but the line breaks themselves. */
  lemma {:induction false} SegmentsJoin(s: string)
    ensures Concat(Segments(s)) == WithoutBreaks(s)
    decreases |s|
  {
    if s != [] {
      var rest := Segments(s[1..]);
      SegmentsJoin(s[1..]);
      if IsLineBreak(s[0]) {
        assert Segments(s) == [[]] + rest;
        assert ([[]] + rest)[1..] == rest;
      } else {
        assert Segments(s) == [[s[0]] + rest[0]] + rest[1..];
        assert ([[s[0]] + rest[0]] + rest[1..])[1..] == rest[1..];
        assert Concat(rest) == rest[0] + Concat(rest[1..]);
      }
    }
  }

  /** A text without line breaks is a single piece. */
  lemma {:induction false} SegmentsOfLine(x: string)
    requires forall i | 0 <= i < |x| :: !IsLineBreak(x[i])
    ensures Segments(x) == [x]
    decreases |x|
  {
    if x != [] {
      SegmentsOfLine(x[1..]);
      assert [x[0]] + x[1..] == x;
    }
  }

  /** A line break splits the text exactly where it stands. */
  lemma {:induction false} SegmentsSplitAtBreak(x: string, c: char, y: string)
    requires IsLineBreak(c)
    ensures Segments(x + [c] + y) == Segments(x) + Segments(y)
    decreases |x|
  {
    var z := x + [c] + y;
    if x == [] {
      assert z == [c] + y && z[1..] == y;
    } else {
      assert z[0] == x[0] && z[1..] == x[1..] + [c] + y;
      SegmentsSplitAtBreak(x[1..], c, y);
      var rest, ys := Segments(x[1..]), Segments(y);
      if IsLineBreak(x[0]) {
        calc {
          Segments(z);
          [[]] + (rest + ys);
          ([[]] + rest) + ys;
          Segments(x) + ys;
        }
      } else {
        assert (rest + ys)[0] == rest[0];
        assert (rest + ys)[1..] == rest[1..] + ys;
        calc {
          Segments(z);
          [[x[0]] + rest[0]] + (rest[1..] + ys);
          ([[x[0]] + rest[0]] + rest[1..]) + ys;
          Segments(x) + ys;
        }
      }
    }
  }

  /** The textarea shows max(3, number of lines) rows. */
  lemma RowsCount(message: string)
    ensures Rows(message) >= 3
    ensures Rows(message) == if BreakCount(message) + 1 > 3 then BreakCount(message) + 1 else 3
  {
    SegmentsCount(message);
  }


  // ---------------------------------------------------------------------
  // Submitting

  /**
   * A rejected submit alerts "too short" iff length < 10, "too long" iff
   * length > 200 and "wait" iff busy, in that order; it alerts nothing
   * exactly when the message has length 10 and the page is idle.
   */
  lemma RejectionAlertsExact(s: Store)
    requires Submit(s).sent.None?
    ensures TooShort in Submit(s).alerts <==> |s.message| < 10
    ensures TooLong in Submit(s).alerts <==> |s.message| > 200
    ensures WaitForReply in Submit(s).alerts <==> s.processing
    ensures Submit(s).alerts == [] <==> |s.message| == 10 && !s.processing
    ensures |Submit(s).alerts| <= 2
    ensures |Submit(s).alerts| > 0 ==> Submit(s).alerts[|Submit(s).alerts| - 1] == WaitForReply || !s.processing
  {
  }

  /**
   * The busy flag never disables the button: a busy page with a message of
   * 10 to 200 characters shows it enabled, and pressing it only alerts "wait".
   */
  lemma BusyButtonStaysEnabled(s: Store)
    requires s.processing && MinLength <= |s.message| <= MaxLength
    ensures !SubmitDisabled(s.message)
    ensures Submit(s).sent.None? && Submit(s).alerts == [WaitForReply]
  {
  }

  // ---------------------------------------------------------------------
  // Replies and the delay

  /**
   * A full round: an accepted submit followed by the reply to that call grows
   * the transcript by exactly two entries, the user's message and then the
   * reply, and leaves the page idle with the reply's token count.
   */
  lemma RoundAppendsTwo(s: Store, out: ChatRouter.Output)
    requires Accepts(s.message, s.processing)
    ensures var t := Reply(Submit(s).store, |s.inFlight|, Some(out));
      && t.messages == s.messages + [Some(Message(s.message, User)), out.message]
      && |t.messages| == |s.messages| + 2
      && !t.processing
      && t.tokenCount == out.totalTokens
      && t.inFlight == s.inFlight
  {
  }

  /**
   * The 750 ms delay is not cancelled by the reply: when it fires after the
   * reply, the page is left showing that it is busy.
   */
  lemma DelayAfterReplyLeavesBusy(s: Store, out: ChatRouter.Output)
    requires Accepts(s.message, s.processing)
    ensures var t := Reply(Submit(s).store, |s.inFlight|, Some(out));
      t.pendingDelays > 0 && DelayElapsed(t).processing && PlaceholderShown(DelayElapsed(t))
  {
  }

  /**
   * A resolved reply without a message, or a greeting without one, leaves an
   * absent entry in the transcript, so the next render throws.
   */
  lemma AbsentMessageBreaksRender(s: Store, k: nat, out: ChatRouter.Output)
    requires k < |s.inFlight| && out.message.None?
    ensures RenderThrows(Reply(s, k, Some(out)))
    ensures RenderThrows(WelcomeLoaded(s, out))
  {
  }

  /**
   * Once the page is busy with no call pending (a call was rejected after
   * its delay fired), no sequence of events without a greeting makes it idle
   * again, and every submit is refused with "wait".
   */
  lemma {:induction false} NoRecoveryWithoutReply(s: Store, events: seq<Event>)
    requires s.processing && s.inFlight == []
    requires forall i | 0 <= i < |events| :: !events[i].WelcomeArrived?
    requires Run(s, events).Some?
    ensures Run(s, events).value.processing && Run(s, events).value.inFlight == []
    ensures WaitForReply in Submit(Run(s, events).value).alerts
    decreases |events|
  {
    if events != [] {
      var t := Step(s, events[0]);
      assert t.processing && t.inFlight == [];
      assert forall i | 0 <= i < |events[1..]| :: !events[1..][i].WelcomeArrived? by {
        forall i | 0 <= i < |events[1..]| ensures !events[1..][i].WelcomeArrived? {
          assert events[1..][i] == events[i + 1];
        }
      }
      NoRecoveryWithoutReply(t, events[1..]);
    }
  }

  /**
   * Two calls can be in flight: the busy flag is set only when the delay
   * fires, so a second message submitted before that is accepted too.
   */
  lemma TwoCallsInFlight(s: Store, second: string)
    requires Accepts(s.message, s.processing) && FormVisible(s.tokenCount)
    requires MinLength < |second| <= MaxLength
    ensures var t := Submit(Input(Submit(s).store, second));
      t.sent.Some? && |t.store.inFlight| == |s.inFlight| + 2
  {
  }

  /**
   * The first of two pending calls shows, when it resolves, the list it
   * captured: the reply takes the place of the second user message, which
   * vanishes from the transcript.
   */
  lemma FirstReplyDropsSecondMessage(s: Store, second: string, out: ChatRouter.Output)
    requires Accepts(s.message, s.processing) && FormVisible(s.tokenCount)
    requires MinLength < |second| <= MaxLength
    ensures var t := Submit(Input(Submit(s).store, second)).store;
      var u := Reply(t, |s.inFlight|, Some(out));
      && t.messages == s.messages + [Some(Message(s.message, User)), Some(Message(second, User))]
      && u.messages == s.messages + [Some(Message(s.message, User)), out.message]
      && |u.messages| == |t.messages|
  {
  }

  // ---------------------------------------------------------------------
  // Typing indicator

  /** A keystroke shows typing; only the timer of the latest keystroke clears it. */
  lemma OnlyLatestTimerClearsTyping(s: Store, first: string, second: string)
    ensures Input(s, first).message == first && Input(s, first).isTyping
    ensures var t := Input(Input(s, first), second);
      && t.message == second
      && TypingTimerFires(t, Input(s, first).typingTimer).isTyping
      && !TypingTimerFires(t, t.typingTimer).isTyping
  {
  }

  // ---------------------------------------------------------------------
  // Mounting and the greeting

  /**
   * Before the greeting arrives nothing is shown, the page is busy, the
   * input is empty so the button is disabled, and a submit by the Enter key
   * is refused with "too short" and "wait"; the greeting becomes the whole transcript,
   * frees the page and leaves the token count at 0, so the form stays visible.
   */
  lemma WelcomeOpensConversation(data: ChatRouter.Output)
    ensures InitialStore.messages == [] && PlaceholderShown(InitialStore)
    ensures InitialStore.tokenCount == Some(0) && FormVisible(InitialStore.tokenCount)
    ensures SubmitDisabled(InitialStore.message)
    ensures Submit(InitialStore).alerts == [TooShort, WaitForReply] && Submit(InitialStore).sent.None?
    ensures var t := WelcomeLoaded(InitialStore, data);
      t.messages == [data.message] && !t.processing && t.tokenCount == Some(0)
  {
  }

  // ---------------------------------------------------------------------
  // The invariant

  lemma InitialInv()
    ensures Inv(InitialStore)
  {
  }

  lemma SubmitPreservesInv(s: Store)
    requires Inv(s)
    ensures Inv(Submit(s).store)
  {
  }

  lemma ReplyPreservesInv(s: Store, k: nat, reply: Option<ChatRouter.Output>)
    requires Inv(s) && k < |s.inFlight|
    ensures Inv(Reply(s, k, reply))
  {
  }

  /** Every event keeps the invariant. */
  lemma StepPreservesInv(s: Store, e: Event)
    requires Inv(s) && Enabled(s, e)
    ensures Inv(Step(s, e))
  {
    match e
    case SubmitPressed => SubmitPreservesInv(s);
    case ReplySettled(k, reply) => ReplyPreservesInv(s, k, reply);
    case _ =>
  }

  /** Every run of events from a state with the invariant keeps it. */
  lemma {:induction false} RunPreservesInv(s: Store, events: seq<Event>)
    requires Inv(s) && Run(s, events).Some?
    ensures Inv(Run(s, events).value)
    decreases |events|
  {
    if events != [] {
      StepPreservesInv(s, events[0]);
      RunPreservesInv(Step(s, events[0]), events[1..]);
    }
  }

  /** Each pending call's list ends with the user message that started it, in every reachable state. */
  lemma PendingCallsEndWithUserMessage(events: seq<Event>, k: nat)
    requires Run(InitialStore, events).Some?
    requires k < |Run(InitialStore, events).value.inFlight|
    ensures var l := Run(InitialStore, events).value.inFlight[k];
      |l| > 0 && l[|l| - 1].Some? && l[|l| - 1].value.role == User
      && 10 < |l[|l| - 1].value.content| <= 200
  {
    InitialInv();
    RunPreservesInv(InitialStore, events);
  }
}
