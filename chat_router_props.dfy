/** What the completion proxy promises, proved about the functions of `ChatRouter`. */
module ChatRouterProps {
  import opened ChatTypes
  import opened ChatRouter

  /** Parsing a role name undoes naming it, for the two roles the schema admits. */
  lemma ParseChatRoleRoundTrip(r: Role)
    ensures ParseChatRole(RoleName(r)) == (if r == System then None else Some(r))
  {
  }

  /**
   * A history the page sends passes validation unchanged exactly when none
   * of its messages has the system role.
   */
  lemma {:induction false} ValidateEncoded(ms: seq<Message>)
    ensures (forall i | 0 <= i < |ms| :: ms[i].role != System) ==> Validate(EncodeAll(ms)) == Some(ms)
    ensures (exists i | 0 <= i < |ms| :: ms[i].role == System) ==> Validate(EncodeAll(ms)) == None
    decreases |ms|
  {
    var ws := EncodeAll(ms);
    if ms != [] {
      ValidateEncoded(ms[1..]);
      assert EncodeAll(ms[1..]) == ws[1..];
      ParseChatRoleRoundTrip(ms[0].role);
      if forall i | 0 <= i < |ms| :: ms[i].role != System {
        assert ms == [ms[0]] + ms[1..];
      } else {
        var i :| 0 <= i < |ms| && ms[i].role == System;
        assert !AllowedRole(ws[i].role);
      }
    }
  }

  /**
   * `send` forwards a valid history in full: the service sees the system
   * prompt followed by the history, and the page gets the projection of the
   * service's answer.
   */
  lemma SendForwardsHistory(complete: CompletionRequest -> Option<CompletionResponse>, ms: seq<Message>)
    requires forall i | 0 <= i < |ms| :: ms[i].role != System
    ensures Send(complete, EncodeAll(ms)) ==
              match complete(CompletionRequest(CompletionModel, [SystemPrompt] + ms, None))
              case None => Err(UpstreamError)
              case Some(resp) => Ok(Project(resp))
  {
    ValidateEncoded(ms);
  }

  /** A history holding a system message is refused before the service is called. */
  lemma SendRejectsSystemRole(complete: CompletionRequest -> Option<CompletionResponse>, ms: seq<Message>, i: nat)
    requires i < |ms| && ms[i].role == System
    ensures Send(complete, EncodeAll(ms)) == Err(BadRequest)
  {
  }

  /**
   * The projection of a well-formed answer is its first choice's message and
   * its total; an answer without choices or usage projects to absent fields.
   */
  lemma ProjectCases(m: Option<Message>, rest: seq<Choice>, total: int)
    ensures Project(CompletionResponse([Choice(m)] + rest, Some(Usage(total)))) == Output(m, Some(total))
    ensures Project(CompletionResponse([], None)) == Output(None, None)
  {
  }

  /** The greeting request differs from any `send` request only in its token budget and empty history. */
  lemma WelcomeIsSendOfNothing()
    ensures WelcomeRequest() == SendRequest([]).(maxTokens := Some(WelcomeMaxTokens))
  {
  }
}
