/** The header's "Restart Quiz" button. */
module Header {
  import opened Store

  /** `handleReset`: `resetQuiz()` then `resetChat()` brings the store back to its initial state from any state. */
  method Restart(session: Session)
    modifies session
    ensures session.IsInitial()
  {
    session.ResetQuiz();
    session.ResetChat();
  }
}
