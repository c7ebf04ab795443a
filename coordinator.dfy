/** The pipeline coordinator `obDynatrace`: checks the configuration, pulls
    payloads from the batcher one at a time, attempts to send each one,
    counts the UTF-16 code units (`string.Length`) of every payload
    acknowledged with 200 OK, and aborts the whole run on the first payload
    that is not.

    The HTTP send is an oracle `send(i, payload)`: the outcome of the
    `i`-th send attempt of the run. */
module DynatraceCoordinator {
  import opened Int32
  import opened DynatraceBatcher
  import Utf16

  /** `HttpStatusCode.OK`: the only status counted as delivered. */
  const HttpOk: int := 200

  /** What one call of the sender produces. */
  datatype SendOutcome =
    | Responded(status: int, reason: string)  // a response arrived, with its status code and reason phrase
    | TransportError                           // the send threw an HttpRequestException
    | OtherError                               // anything else thrown inside the try block

  /** The exception wrapped inside the "is the service running?" exception. */
  datatype Cause =
    | BadStatus(status: int, reason: string)   // the HttpRequestException thrown for a non-OK status
    | Transport                                // the sender's own HttpRequestException

  /** The exception that escapes the run. */
  datatype Failure =
    | ServiceNotRunning(cause: Cause)          // "Sending to Dynatrace. Is Dynatrace service running?"
    | Unplanned                                // "Sending to Dynatrace. Unplanned exception."

  datatype RunResult = Success(bytesSent: int) | Failed(failure: Failure)

  /** The result of a run together with the payloads whose send was
      attempted, in order (an attempt that failed while the request was being
      built is included). */
  datatype Outcome = Outcome(result: RunResult, sent: seq<string>)

  predicate Delivered(o: SendOutcome) {
    o.Responded? && o.status == HttpOk
  }

  /** How an undelivered outcome surfaces: both a non-OK status and a
      transport failure are HttpRequestExceptions and get the same
      "service running?" wrapper; everything else is "unplanned". */
  function Classify(o: SendOutcome): (f: Failure)
    requires !Delivered(o)
    ensures f.ServiceNotRunning? <==> !o.OtherError?
    ensures o.Responded? ==> f.cause == BadStatus(o.status, o.reason)
    ensures o.TransportError? ==> f == ServiceNotRunning(Transport)
  {
    match o
    case Responded(status, reason) => ServiceNotRunning(BadStatus(status, reason))
    case TransportError => ServiceNotRunning(Transport)
    case OtherError => Unplanned
  }

  /** The index of the first payload, at or after `from`, whose send is not
      delivered; `|ps|` when there is none. */
  function FirstFailure(ps: seq<string>, send: (nat, string) -> SendOutcome, from: nat): (n: nat)
    requires from <= |ps|
    ensures from <= n <= |ps|
    ensures forall i :: from <= i < n ==> Delivered(send(i, ps[i]))
    ensures n < |ps| ==> !Delivered(send(n, ps[n]))
    decreases |ps| - from
  {
    if from == |ps| || !Delivered(send(from, ps[from])) then from
    else FirstFailure(ps, send, from + 1)
  }

  /** The sum of `string.Length` over a sequence of payloads. */
  function TotalLength(ps: seq<string>): nat
  {
    if ps == [] then 0 else Utf16.Length(ps[0]) + TotalLength(ps[1..])
  }

  /** What a run of the coordinator does: the result and the payloads whose
      send it attempts. */
  function Run<M>(dynatraceUrl: string, dynatraceApiToken: string, groups: seq<seq<M>>,
                  serialize: M -> string, send: (nat, string) -> SendOutcome): Outcome
  {
    if |dynatraceUrl| == 0 || |dynatraceApiToken| == 0 then Outcome(Success(0), [])
    else
      var ps := Payloads(serialize, groups);
      var n := FirstFailure(ps, send, 0);
      if n == |ps| then Outcome(Success(ToInt32(TotalLength(ps))), ps)
      else Outcome(Failed(Classify(send(n, ps[n]))), ps[..n + 1])
  }

  lemma {:induction false} TotalLengthSnoc(ps: seq<string>, p: string)
    ensures TotalLength(ps + [p]) == TotalLength(ps) + Utf16.Length(p)
  {
    if ps == [] {
      assert [] + [p] == [p];
      assert [p][1..] == [];
    } else {
      assert (ps + [p])[0] == ps[0];
      assert (ps + [p])[1..] == ps[1..] + [p];
      TotalLengthSnoc(ps[1..], p);
    }
  }

  /** One `bytesSent += transmission.Length` keeps the counter equal to the
      wrapped total of the payloads counted so far. */
  lemma CountStep(counted: seq<string>, transmission: string)
    ensures ToInt32(ToInt32(TotalLength(counted)) + Utf16.Length(transmission))
            == ToInt32(TotalLength(counted + [transmission]))
  {
    TotalLengthSnoc(counted, transmission);
    AddWrapped(TotalLength(counted), Utf16.Length(transmission));
  }

  /** The first failure is the one index before which every send is
      delivered and at which the send is not. */
  lemma FirstFailureAt(ps: seq<string>, send: (nat, string) -> SendOutcome, k: nat)
    requires k <= |ps|
    requires forall i :: 0 <= i < k ==> Delivered(send(i, ps[i]))
    requires k < |ps| ==> !Delivered(send(k, ps[k]))
    ensures FirstFailure(ps, send, 0) == k
  {
  }

  /** A configured run whose first undelivered payload is `k` (or `|ps|`
      when all are delivered) ends as `Run` says for that index. */
  lemma RunStopsAt<M>(dynatraceUrl: string, dynatraceApiToken: string, groups: seq<seq<M>>,
                      serialize: M -> string, send: (nat, string) -> SendOutcome, k: nat)
    requires dynatraceUrl != "" && dynatraceApiToken != ""
    requires k <= |Payloads(serialize, groups)|
    requires forall i :: 0 <= i < k ==> Delivered(send(i, Payloads(serialize, groups)[i]))
    requires k < |Payloads(serialize, groups)| ==> !Delivered(send(k, Payloads(serialize, groups)[k]))
    ensures var ps := Payloads(serialize, groups);
            Run(dynatraceUrl, dynatraceApiToken, groups, serialize, send)
            == if k == |ps| then Outcome(Success(ToInt32(TotalLength(ps))), ps)
               else Outcome(Failed(Classify(send(k, ps[k]))), ps[..k + 1])
  {
  }

  /** With the URL or the API token empty, nothing is sent and the run
      reports zero bytes. */
  lemma RunConfigMissing<M>(dynatraceUrl: string, dynatraceApiToken: string, groups: seq<seq<M>>,
                            serialize: M -> string, send: (nat, string) -> SendOutcome)
    requires dynatraceUrl == "" || dynatraceApiToken == ""
    ensures Run(dynatraceUrl, dynatraceApiToken, groups, serialize, send) == Outcome(Success(0), [])
  {
  }

  /** When every send is answered with 200 OK, every group's payload is sent
      in order and the result is the (wrapped) total of their lengths, which
      is exact while the total fits an `int`. */
  lemma RunAllDelivered<M>(dynatraceUrl: string, dynatraceApiToken: string, groups: seq<seq<M>>,
                           serialize: M -> string, send: (nat, string) -> SendOutcome)
    requires dynatraceUrl != "" && dynatraceApiToken != ""
    requires forall i :: 0 <= i < |groups| ==> Delivered(send(i, Concat(serialize, groups[i])))
    ensures var r := Run(dynatraceUrl, dynatraceApiToken, groups, serialize, send);
            && |r.sent| == |groups|
            && (forall i :: 0 <= i < |groups| ==> r.sent[i] == Concat(serialize, groups[i]))
            && r.result == Success(ToInt32(TotalLength(r.sent)))
            && (TotalLength(r.sent) < TwoTo31 ==> r.result.bytesSent == TotalLength(r.sent))
  {
    var ps := Payloads(serialize, groups);
    PayloadsAt(serialize, groups);
    FirstFailureAt(ps, send, |ps|);
  }

  /** When payload `i` is the first whose send is not answered with 200 OK,
      the run fails with that send's classification, payloads `0..i` have
      been sent in order and no later payload is sent. */
  lemma RunAbortsAtFirstFailure<M>(dynatraceUrl: string, dynatraceApiToken: string, groups: seq<seq<M>>,
                                   serialize: M -> string, send: (nat, string) -> SendOutcome, i: nat)
    requires dynatraceUrl != "" && dynatraceApiToken != ""
    requires i < |groups|
    requires forall j :: 0 <= j < i ==> Delivered(send(j, Concat(serialize, groups[j])))
    requires !Delivered(send(i, Concat(serialize, groups[i])))
    ensures var r := Run(dynatraceUrl, dynatraceApiToken, groups, serialize, send);
            && r.result == Failed(Classify(send(i, Concat(serialize, groups[i]))))
            && |r.sent| == i + 1
            && (forall j :: 0 <= j <= i ==> r.sent[j] == Concat(serialize, groups[j]))
  {
    var ps := Payloads(serialize, groups);
    PayloadsAt(serialize, groups);
    FirstFailureAt(ps, send, i);
  }

  /** Whatever the oracle answers, the payloads sent are a prefix of the
      batcher's output, every one but the last was delivered, and the run
      fails exactly when the last one sent was not; a successful run counts
      the wrapped total of exactly the payloads sent. */
  lemma RunShape<M>(dynatraceUrl: string, dynatraceApiToken: string, groups: seq<seq<M>>,
                    serialize: M -> string, send: (nat, string) -> SendOutcome)
    ensures var r := Run(dynatraceUrl, dynatraceApiToken, groups, serialize, send);
            && |r.sent| <= |groups|
            && (forall j :: 0 <= j < |r.sent| ==> r.sent[j] == Concat(serialize, groups[j]))
            && (forall j :: 0 <= j < |r.sent| - 1 ==> Delivered(send(j, r.sent[j])))
            && (r.result.Failed? <==>
                  |r.sent| > 0 && !Delivered(send(|r.sent| - 1, r.sent[|r.sent| - 1])))
            && (r.result.Failed? ==> r.result.failure == Classify(send(|r.sent| - 1, r.sent[|r.sent| - 1])))
            && (r.result.Success? ==> r.result.bytesSent == ToInt32(TotalLength(r.sent)))
  {
    PayloadsAt(serialize, groups);
  }

  /** Two groups whose payloads have a `string.Length` of 120 and 340, both
      accepted: the run reports 460. */
  lemma ByteAccountingScenario<M>(dynatraceUrl: string, dynatraceApiToken: string, groups: seq<seq<M>>,
                                  serialize: M -> string, send: (nat, string) -> SendOutcome)
    requires dynatraceUrl != "" && dynatraceApiToken != ""
    requires |groups| == 2
    requires Utf16.Length(Concat(serialize, groups[0])) == 120 && Utf16.Length(Concat(serialize, groups[1])) == 340
    requires Delivered(send(0, Concat(serialize, groups[0]))) && Delivered(send(1, Concat(serialize, groups[1])))
    ensures Run(dynatraceUrl, dynatraceApiToken, groups, serialize, send).result == Success(460)
  {
    RunAllDelivered(dynatraceUrl, dynatraceApiToken, groups, serialize, send);
    var sent := Run(dynatraceUrl, dynatraceApiToken, groups, serialize, send).sent;
    assert sent[1..][1..] == [];
    assert TotalLength(sent[1..]) == 340;
    assert TotalLength(sent) == 460;
  }

  /** Three groups, the second payload answered with a non-OK status: the
      first two payloads are sent, the third never is, and the run fails
      with the "service running?" wrapper around that status. */
  lemma AbortOnRejectionScenario<M>(dynatraceUrl: string, dynatraceApiToken: string, groups: seq<seq<M>>,
                                    serialize: M -> string, send: (nat, string) -> SendOutcome,
                                    status: int, reason: string)
    requires dynatraceUrl != "" && dynatraceApiToken != ""
    requires |groups| == 3
    requires Delivered(send(0, Concat(serialize, groups[0])))
    requires send(1, Concat(serialize, groups[1])) == Responded(status, reason) && status != HttpOk
    ensures var r := Run(dynatraceUrl, dynatraceApiToken, groups, serialize, send);
            && r.sent == [Concat(serialize, groups[0]), Concat(serialize, groups[1])]
            && r.result == Failed(ServiceNotRunning(BadStatus(status, reason)))
  {
    RunAbortsAtFirstFailure(dynatraceUrl, dynatraceApiToken, groups, serialize, send, 1);
  }

  /** The coordinator. `maxTransmissionSize` is the batcher's capacity hint. */
  method ObDynatrace<M>(dynatraceUrl: string, dynatraceApiToken: string, groups: seq<seq<M>>,
                        serialize: M -> string, maxTransmissionSize: nat,
                        send: (nat, string) -> SendOutcome)
    returns (result: RunResult, sent: seq<string>)
    ensures Outcome(result, sent) == Run(dynatraceUrl, dynatraceApiToken, groups, serialize, send)
  {
    sent := [];
    if |dynatraceUrl| == 0 || |dynatraceApiToken| == 0 {
      return Success(0), sent;
    }
    ghost var ps := Payloads(serialize, groups);
    PayloadsAt(serialize, groups);
    var bytesSent := 0;
    var k := 0;
    while k < |groups|
      invariant k <= |groups|
      invariant forall i :: 0 <= i < k ==> Delivered(send(i, ps[i]))
      invariant sent == ps[..k]
      invariant bytesSent == ToInt32(TotalLength(sent))
    {
      var transmission := BatchGroup(serialize, groups[k], maxTransmissionSize);
      assert ps[..k + 1] == sent + [transmission];
      ghost var before := sent;
      sent := sent + [transmission];
      var response := send(k, transmission);
      if !Delivered(response) {
        RunStopsAt(dynatraceUrl, dynatraceApiToken, groups, serialize, send, k);
      }
      match response {
        case Responded(status, reason) =>
          if status != HttpOk {
            return Failed(ServiceNotRunning(BadStatus(status, reason))), sent;
          }
        case TransportError =>
          return Failed(ServiceNotRunning(Transport)), sent;
        case OtherError =>
          return Failed(Unplanned), sent;
      }
      assert Delivered(send(k, ps[k]));
      CountStep(before, transmission);
      bytesSent := ToInt32(bytesSent + Utf16.Length(transmission));
      k := k + 1;
    }
    RunStopsAt(dynatraceUrl, dynatraceApiToken, groups, serialize, send, k);
    assert sent == ps;
    return Success(bytesSent), sent;
  }
}
