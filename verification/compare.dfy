/**
 * The two SDK clients side by side, set to the same retry count and the
 * same pause (seconds in Python, nanoseconds in Go): on the same answers
 * from the network they make the same attempts and pause for the same
 * time, and they agree on which calls succeed and which end in a transport
 * failure, unless Python's `time.sleep` refuses the delay. They differ in
 * what they hand back (see the two client modules).
 */
module ClientComparison {
  import opened Common
  import Py = PyClient
  import Go = GoClient

  /** The same network answer as each client library reports it (statuses below 600). */
  predicate SameAnswer(p: Py.Attempt, g: Go.Attempt) {
    || (p.Transport? && g.NetError?)
    || (p.Resp? && g.Response? && p.status == g.status && p.status < 600)
  }

  /** The Python client's ApiError for an exhausted transport failure. */
  predicate PyNetworkFailure(o: Py.Outcome) {
    o.Raised? && o.error.status == 0 && o.error.code == JStr("NETWORK_ERROR")
  }

  /** Go's sleeps are Python's, read in nanoseconds instead of seconds. */
  predicate InNanoseconds(py: seq<int>, go: seq<int>) {
    |go| == |py| && forall j :: 0 <= j < |py| ==> go[j] == Go.Second * py[j]
  }

  /** The backoff of a delay given in nanoseconds is the backoff in seconds, scaled. */
  lemma ScaledBackoff(retryDelay: int, k: nat)
    ensures (retryDelay * Go.Second) * (k + 1) == Go.Second * (retryDelay * (k + 1))
  {
  }

  /**
   * Both clients set to the same pause (`retryDelay` seconds in Python, as
   * many seconds' worth of nanoseconds in Go), from any attempt k on. The
   * two loops agree until Python's `time.sleep` refuses a delay (a negative
   * one, or one too long to convert), which Go's `time.Sleep` does not:
   * Python never makes more attempts than Go, and makes fewer exactly when
   * a sleep was refused, which cannot happen when every sleep fits.
   * Otherwise both make the same attempts with the same pauses; one
   * returns a response exactly when the other does, and Python raises
   * NETWORK_ERROR exactly when Go returns its wrapped generic error.
   */
  lemma {:induction false} SameAttemptsAndDelays(retries: int, retryDelay: int, pn: seq<Py.Attempt>,
                                                 gn: seq<Go.Attempt>, k: nat, lastErr: Option<string>,
                                                 pslept: seq<int>, gslept: seq<int>)
    requires |pn| == |gn| > retries && k <= retries
    requires forall i :: 0 <= i < |pn| ==> SameAnswer(pn[i], gn[i])
    requires InNanoseconds(pslept, gslept)
    ensures var pt, gt := Py.Run(retries, retryDelay, pn, k, pslept),
                 Go.Run(retries, retryDelay * Go.Second, gn, k, lastErr, gslept);
      && pt.attempts <= gt.attempts
      && (Py.SleepRefused(pt.outcome) <==> pt.attempts < gt.attempts)
      && (0 <= retryDelay && retryDelay * retries <= Py.MAX_SLEEP ==> !Py.SleepRefused(pt.outcome))
      && (!Py.SleepRefused(pt.outcome) ==>
            && pt.attempts == gt.attempts
            && InNanoseconds(pt.delays, gt.delays)
            && (pt.outcome.Returned? <==> gt.outcome.Succeeded?)
            && (PyNetworkFailure(pt.outcome) <==> gt.outcome.Wrapped?))
    decreases retries - k
  {
    assert SameAnswer(pn[k], gn[k]);
    var ps := Py.Decide(retries, retryDelay, k, pn[k]);
    var gs := Go.Decide(retries, retryDelay * Go.Second, k, gn[k]);
    assert Py.WantsSleep(retries, k, pn[k]) <==> gs.Retry?;
    if k < retries && retryDelay >= 0 {
      Py.BackoffGrows(retryDelay, k + 1, retries);
    }
    var err := if gn[k].NetError? then Some(gn[k].msg) else lastErr;
    if ps.Retry? {
      ScaledBackoff(retryDelay, k);
      assert InNanoseconds(pslept + [ps.delay], gslept + [gs.delay]);
      SameAttemptsAndDelays(retries, retryDelay, pn, gn, k + 1, err, pslept + [ps.delay], gslept + [gs.delay]);
    } else if gs.Retry? {
      Go.RunBounds(retries, retryDelay * Go.Second, gn, k + 1, err, gslept + [gs.delay]);
    } else if pn[k].Resp? && !Py.RequestsOk(pn[k].status) {
      var o := Py.ErrorFromBody(pn[k].status, pn[k].parsed);
      assert o.Raised? ==> o.error.status != 0;
    }
  }

  /**
   * A retry delay `time.sleep` refuses and a 503 first answer: Python
   * raises after one attempt (ValueError for a negative delay that
   * converts, OverflowError for one that does not), while Go asks for the
   * same delay in nanoseconds and tries again.
   */
  lemma RefusedSleepDiverges(retries: int, retryDelay: int, pn: seq<Py.Attempt>, gn: seq<Go.Attempt>)
    requires retries >= 1 && !(0 <= retryDelay <= Py.MAX_SLEEP) && |pn| == |gn| > retries
    requires pn[0].Resp? && pn[0].status == 503 && gn[0].Response? && gn[0].status == 503
    ensures var pt := Py.Run(retries, retryDelay, pn, 0, []);
      && pt.attempts == 1 && pt.delays == []
      && (pt.outcome == Py.RaisedValueError <==> -Py.MAX_SLEEP <= retryDelay < 0)
      && (pt.outcome == Py.RaisedOverflowError <==> !Py.SleepFits(retryDelay))
    ensures var g := Go.Run(retries, retryDelay * Go.Second, gn, 0, None, []);
      g.attempts >= 2 && |g.delays| >= 1 && g.delays[0] == retryDelay * Go.Second
  {
    var d := retryDelay * Go.Second;
    assert Go.Decide(retries, d, 0, gn[0]) == Go.Retry(d);
    assert [] + [d] == [d];
    assert Go.Run(retries, d, gn, 0, None, []) == Go.Run(retries, d, gn, 1, None, [d]);
    Go.RunBounds(retries, d, gn, 1, None, [d]);
  }
}
