/** The two fallbacks the clients and the server build around a call that
    may raise: a certificate retry around `fetch_url` or an HTTP GET, with a
    different trigger in each of three places, and the switch to the
    default text-generation model. */
module Retry {
  import opened Python
  import opened Text
  import opened Oracle

  // ---------------------------------------------------------------------
  // Certificate retry

  /** research_assistant/client.py: retry when `str(e)` names a
      certificate failure. */
  predicate CertificateMessage(f: Fault)
  {
    Contains(f.message, "CERTIFICATE_VERIFY_FAILED") || Contains(f.message, "self-signed certificate")
  }

  /** research_assistant/sk_client.py: retry whatever was raised. */
  predicate AnyFault(f: Fault)
  {
    f.kind == SslError || f.kind == OtherError
  }

  /** research_assistant/server.py: retry on `ssl.SSLError` only. */
  predicate SslFault(f: Fault)
  {
    f.kind == SslError
  }

  /** What the next remote call will produce. */
  function NextRemote(w: World): (r: Remote)
    ensures |w.remote| == 0 ==> r == Failed(Silence)
  {
    if |w.remote| > 0 then w.remote[0] else Failed(Silence)
  }

  /** The first call raises something `retry` accepts. */
  predicate Retries(w: World, retry: Fault -> bool)
  {
    NextRemote(w).Failed? && retry(NextRemote(w).fault)
  }

  /** The reply an attempt ends with: the first, or the second when the
      first raised something `retry` accepts. */
  function Delivered(w: World, retry: Fault -> bool): Remote
  {
    if Retries(w, retry) then (if |w.remote| > 1 then w.remote[1] else Failed(Silence))
    else NextRemote(w)
  }

  /** `first`, and when it raises something `retry` accepts, `second` once;
      the result of the last call made is the result. */
  function Attempt(w: World, first: Call, second: Call, retry: Fault -> bool): (s: Step<Remote>)
    requires !first.Generate? && !second.Generate?
    ensures s.world.replies == w.replies
    ensures !Retries(w, retry) ==> s.value == NextRemote(w) && s.world.trace == w.trace + [first]
    ensures Retries(w, retry) ==>
              && s.world.trace == w.trace + [first, second]
              && s.value == (if |w.remote| > 1 then w.remote[1] else Failed(Silence))
    ensures s.world.remote == w.remote[Min(|w.remote|, |s.world.trace| - |w.trace|)..]
  {
    var one := Remotely(w, first);
    if one.value.Failed? && retry(one.value.fault) then
      var two := Remotely(one.world, second);
      assert two.world.trace == w.trace + [first, second];
      two
    else
      one
  }

  /** Whatever the policy, a fetch costs at most two calls. */
  lemma AttemptCalls(w: World, first: Call, second: Call, retry: Fault -> bool)
    requires !first.Generate? && !second.Generate?
    ensures var s := Attempt(w, first, second, retry);
      && w.trace <= s.world.trace
      && 1 <= |s.world.trace| - |w.trace| <= 2
      && s.world.trace[|w.trace|] == first
  {
  }

  /** Every exception the certificate check or the SSL check accepts, the
      catch-all accepts too. */
  lemma PoliciesNest(f: Fault)
    ensures CertificateMessage(f) ==> AnyFault(f)
    ensures SslFault(f) ==> AnyFault(f)
  {
  }

  /** The message check and the class check disagree both ways: a
      certificate failure reported through another exception class is
      retried by the client and not by the server, and an `ssl.SSLError`
      whose text names no certificate is retried by the server only. */
  lemma PoliciesDisagree()
    ensures var wrapped := Fault(OtherError, "[SSL: " + "CERTIFICATE_VERIFY_FAILED" + "] certificate verify failed");
      CertificateMessage(wrapped) && !SslFault(wrapped) && AnyFault(wrapped)
    ensures var bare := Fault(SslError, "EOF occurred");
      !CertificateMessage(bare) && SslFault(bare) && AnyFault(bare)
  {
    OccursBetween("[SSL: ", "CERTIFICATE_VERIFY_FAILED", "] certificate verify failed");
  }

  // ---------------------------------------------------------------------
  // Switching to the default model

  /** Generate with `preferred`; when that raises and `preferred` is not the
      default model, once more with the default.  None when no attempt
      produced text. */
  function WithFallback(w: World, preferred: string, prompt: string): (s: Step<Option<string>>)
    ensures |w.replies| > 0 && w.replies[0].Said? ==>
              s == Step(Some(w.replies[0].text), Ask(w, preferred, prompt).world)
    ensures !(|w.replies| > 0 && w.replies[0].Said?) && preferred == DefaultModel ==>
              s.value == None && s.world.trace == w.trace + [Generate(preferred, prompt)]
    ensures !(|w.replies| > 0 && w.replies[0].Said?) && preferred != DefaultModel ==>
              && s.world.trace == w.trace + [Generate(preferred, prompt), Generate(DefaultModel, prompt)]
              && (s.value.Some? <==> |w.replies| > 1 && w.replies[1].Said?)
              && (s.value.Some? ==> s.value.value == w.replies[1].text)
  {
    var first := AskText(w, preferred, prompt);
    match first.value
    case Done(text) => Step(Some(text), first.world)
    case Raised(_) =>
      if preferred != DefaultModel then
        var second := AskText(first.world, DefaultModel, prompt);
        match second.value
        case Done(text) => Step(Some(text), second.world)
        case Raised(_) => Step(None, second.world)
      else
        Step(None, first.world)
  }

  /** The default model is never asked twice in a row, and no chain makes
      more than two generations. */
  lemma FallbackCalls(w: World, preferred: string, prompt: string)
    ensures var s := WithFallback(w, preferred, prompt);
      && w.trace <= s.world.trace
      && 1 <= |s.world.trace| - |w.trace| <= 2
      && (|s.world.trace| - |w.trace| == 2 ==> preferred != DefaultModel && s.world.trace[|w.trace| + 1] == Generate(DefaultModel, prompt))
  {
  }
}
