/** The AI provider fallback chain shared by the backend gateway and the standalone
    service: providers are tried in a fixed order and the first acceptable reply wins;
    when none is acceptable the reply is the safe-mode sentinel. */
module Providers {

  /** What one provider call gives: its completion text, or a thrown error
      (a missing API key, a network or HTTP failure, a timeout). */
  datatype Outcome = Ok(text: string) | Fail

  datatype Provider = DeepSeek | Gemini | OpenRouter

  const SafeModeSentinel := "__SAFE_MODE__"

  /** Whether the chain stops at this outcome; the standalone service also treats an
      empty completion as a failure. */
  predicate Accepted(o: Outcome, emptyFails: bool) {
    o.Ok? && (!emptyFails || o.text != "")
  }

  /** The reply of a chain over the attempts made, in order. */
  function Chain(attempts: seq<Outcome>, emptyFails: bool): (r: string)
    ensures (forall i :: 0 <= i < |attempts| ==> !Accepted(attempts[i], emptyFails)) ==> r == SafeModeSentinel
    ensures forall i ::
      (0 <= i < |attempts| && Accepted(attempts[i], emptyFails)
       && (forall k :: 0 <= k < i ==> !Accepted(attempts[k], emptyFails)))
      ==> r == attempts[i].text
  {
    if |attempts| == 0 then SafeModeSentinel
    else if Accepted(attempts[0], emptyFails) then attempts[0].text
    else
      var r := Chain(attempts[1..], emptyFails);
      assert forall i :: 1 <= i < |attempts| ==> attempts[i] == attempts[1..][i - 1];
      r
  }

  /** The reply is the sentinel or the text of one of the attempts. */
  lemma {:induction false} ChainReplyOrigin(attempts: seq<Outcome>, emptyFails: bool)
    ensures Chain(attempts, emptyFails) == SafeModeSentinel
      || exists i :: 0 <= i < |attempts| && Accepted(attempts[i], emptyFails)
           && Chain(attempts, emptyFails) == attempts[i].text
  {
    if |attempts| > 0 && !Accepted(attempts[0], emptyFails) {
      ChainReplyOrigin(attempts[1..], emptyFails);
      if Chain(attempts[1..], emptyFails) != SafeModeSentinel {
        var i :| 0 <= i < |attempts[1..]| && Accepted(attempts[1..][i], emptyFails)
          && Chain(attempts[1..], emptyFails) == attempts[1..][i].text;
        assert attempts[i + 1] == attempts[1..][i];
      }
    }
  }

  /** When empty completions count as failures the reply is never empty. */
  lemma ChainNeverEmpty(attempts: seq<Outcome>)
    ensures Chain(attempts, true) != ""
  {
    ChainReplyOrigin(attempts, true);
  }
}
