/** extensions/depprober/depprober.go: one probe cycle over a set of
    dependencies, run sequentially. Each prober's checker is called once per
    cycle; what it answers, and when, is an input of the cycle (a timeout is
    an error answer like any other). */
module DepProber {
  import opened Wrappers
  import opened HealthState

  /** What a Check returned: nil, or an error. */
  datatype CheckResult = NoError | Error(reason: string)

  /** A Checker implementation (a CheckerFunc or any other), known only by name. */
  datatype Checker = CheckerFunc(name: string) {

    /** CheckerFunc.Check: the adapter adds nothing; the answer of the wrapped
        function (nil or an error) is the check's answer. */
    function Check(answer: CheckResult): (r: CheckResult)
      ensures r == answer
    {
      answer
    }
  }

  /** Go's `Probe` struct; a nil Checker is allowed. */
  datatype Probe = Probe(ID: string, AffectedStatuses: seq<Statuskey>, Checker: Option<Checker>) {

    /** ServiceID */
    function ServiceID(): (id: string)
      ensures id == ID
    {
      ID
    }

    /** AffectsStatuses */
    function AffectsStatuses(): (statuses: seq<Statuskey>)
      ensures statuses == AffectedStatuses
    {
      AffectedStatuses
    }

    /** Check: success without a checker, otherwise the checker's answer. */
    function Check(answer: CheckResult): (r: CheckResult)
      ensures Checker.None? ==> r == NoError
      ensures Checker.Some? ==> r == answer
    {
      if Checker.None? then NoError else Checker.value.Check(answer)
    }
  }

  /** One call of a prober's checker in a cycle: its answer and the time it returned. */
  datatype CheckRun = CheckRun(answer: CheckResult, asOf: string)

  /** Go's `DependencyStatus`; `AsOf` is the already formatted time. */
  datatype DependencyStatus = DependencyStatus(
    ServiceID: string,
    Status: string,
    AffectedStatuses: seq<Statuskey>,
    AsOf: string)

  /** The status one prober's goroutine sends after its Check. */
  function Outcome(p: Probe, run: CheckRun): (hc: DependencyStatus)
    ensures hc.ServiceID == p.ID && hc.AffectedStatuses == p.AffectedStatuses && hc.AsOf == run.asOf
    ensures hc.Status == HealthOK <==> p.Check(run.answer) == NoError
    ensures hc.Status == HealthNotOK <==> p.Check(run.answer) != NoError
  {
    var hc := DependencyStatus(p.ServiceID(), HealthOK, p.AffectsStatuses(), run.asOf);
    if p.Check(run.answer).Error? then hc.(Status := HealthNotOK) else hc
  }

  /** The statuses of all probers, in prober order. */
  function Outcomes(probers: seq<Probe>, runs: seq<CheckRun>): (all: seq<DependencyStatus>)
    requires |runs| == |probers|
    ensures |all| == |probers|
  {
    seq(|probers|, i requires 0 <= i < |probers| => Outcome(probers[i], runs[i]))
  }

  /** Receiving one element from a channel's pending elements. */
  lemma TakeOut<T>(pending: seq<T>, k: nat)
    requires k < |pending|
    ensures multiset(pending) == multiset(pending[..k] + pending[k + 1..]) + multiset{pending[k]}
  {
    assert pending == pending[..k] + [pending[k]] + pending[k + 1..];
  }

  /** ProbeDependencies: exactly one status per prober, in the order the
      goroutines happen to deliver them (any order). */
  method ProbeDependencies(probers: seq<Probe>, runs: seq<CheckRun>) returns (list: seq<DependencyStatus>)
    requires |runs| == |probers|
    ensures |list| == |probers|
    ensures multiset(list) == multiset(Outcomes(probers, runs))
  {
    var total := |probers|;
    // The goroutines: each one puts its prober's status into the buffered channel.
    var statuses: seq<DependencyStatus> := [];
    for i := 0 to total
      invariant |statuses| == i
      invariant forall j :: 0 <= j < i ==> statuses[j] == Outcome(probers[j], runs[j])
    {
      statuses := statuses + [Outcome(probers[i], runs[i])];
    }
    assert statuses == Outcomes(probers, runs);
    // The receiving loop: whichever status is in the channel may come next.
    list := [];
    while |list| < total
      invariant |list| + |statuses| == total
      invariant multiset(list) + multiset(statuses) == multiset(Outcomes(probers, runs))
      decreases |statuses|
    {
      var k :| 0 <= k < |statuses|;
      var h := statuses[k];
      TakeOut(statuses, k);
      list := list + [h];
      statuses := statuses[..k] + statuses[k + 1..];
    }
  }

  /** What the receiving loop of ProbeDependencies, as written, ends with. */
  datatype Collected = Received(list: seq<DependencyStatus>) | BlocksForever

  /** The receiving loop as written: `for h := range statuses` receives before
      it compares the length with the total, and the channel is closed only
      after the loop. With no probers nothing is ever sent, so the first
      receive never completes. */
  method CollectAsWritten(total: nat, statuses: seq<DependencyStatus>) returns (r: Collected)
    requires |statuses| == total
    ensures r == BlocksForever <==> total == 0
    ensures r.Received? ==> multiset(r.list) == multiset(statuses)
  {
    var list: seq<DependencyStatus> := [];
    var channel := statuses;
    while channel != []
      invariant |list| + |channel| == total
      invariant multiset(list) + multiset(channel) == multiset(statuses)
      invariant |list| < total || (total == 0 && list == [])
      decreases |channel|
    {
      var k :| 0 <= k < |channel|;
      var h := channel[k];
      TakeOut(channel, k);
      list := list + [h];
      channel := channel[..k] + channel[k + 1..];
      if |list| >= total {
        return Received(list);
      }
    }
    // The next receive waits on a channel that is empty, open and sent to by no one.
    return BlocksForever;
  }

  /** Every outcome that affects `signal` is healthy (the AND a cycle computes). */
  function AllOK(outcomes: seq<DependencyStatus>, signal: Statuskey): bool
  {
    if outcomes == [] then true
    else
      var hc := outcomes[|outcomes| - 1];
      AllOK(outcomes[..|outcomes| - 1], signal) && (signal in hc.AffectedStatuses ==> IsHealthOK(hc.Status))
  }

  /** AllOK is the AND over every contributing outcome. */
  lemma {:induction false} AllOKIff(outcomes: seq<DependencyStatus>, signal: Statuskey)
    ensures AllOK(outcomes, signal) <==>
            forall hc :: hc in outcomes && signal in hc.AffectedStatuses ==> IsHealthOK(hc.Status)
  {
    if outcomes != [] {
      var init := outcomes[..|outcomes| - 1];
      AllOKIff(init, signal);
      assert outcomes == init + [outcomes[|outcomes| - 1]];
    }
  }

  /** The derived signal does not depend on the order in which outcomes arrive. */
  lemma AllOKOrderIndependent(a: seq<DependencyStatus>, b: seq<DependencyStatus>, signal: Statuskey)
    requires multiset(a) == multiset(b)
    ensures AllOK(a, signal) == AllOK(b, signal)
  {
    AllOKIff(a, signal);
    AllOKIff(b, signal);
    forall hc | hc in a ensures hc in b {
      assert hc in multiset(a);
    }
    forall hc | hc in b ensures hc in a {
      assert hc in multiset(b);
    }
  }

  /** A single failing outcome that affects `signal` makes it unhealthy,
      however many other contributors succeed. */
  lemma OneFailureDominates(outcomes: seq<DependencyStatus>, i: nat, signal: Statuskey)
    requires i < |outcomes|
    requires signal in outcomes[i].AffectedStatuses && !IsHealthOK(outcomes[i].Status)
    ensures !AllOK(outcomes, signal)
  {
    AllOKIff(outcomes, signal);
  }

  /** A signal that no outcome affects comes out healthy (also with no outcomes). */
  lemma UnaffectedSignalIsHealthy(outcomes: seq<DependencyStatus>, signal: Statuskey)
    requires forall i :: 0 <= i < |outcomes| ==> signal !in outcomes[i].AffectedStatuses
    ensures AllOK(outcomes, signal)
  {
    AllOKIff(outcomes, signal);
  }

  /** Some prober that affects `signal` failed its check in this cycle. */
  ghost predicate SomeAffectingFails(probers: seq<Probe>, runs: seq<CheckRun>, signal: Statuskey)
    requires |runs| == |probers|
  {
    exists i :: 0 <= i < |probers| && signal in probers[i].AffectedStatuses && probers[i].Check(runs[i].answer) != NoError
  }

  /** The cycle's verdict on a signal, in terms of the probers. */
  lemma CycleVerdict(probers: seq<Probe>, runs: seq<CheckRun>, signal: Statuskey)
    requires |runs| == |probers|
    ensures !AllOK(Outcomes(probers, runs), signal) <==> SomeAffectingFails(probers, runs, signal)
  {
    var all := Outcomes(probers, runs);
    AllOKIff(all, signal);
    if SomeAffectingFails(probers, runs, signal) {
      var i :| 0 <= i < |probers| && signal in probers[i].AffectedStatuses && probers[i].Check(runs[i].answer) != NoError;
      assert all[i] in all;
    }
    if !AllOK(all, signal) {
      var hc :| hc in all && signal in hc.AffectedStatuses && !IsHealthOK(hc.Status);
      var i :| 0 <= i < |all| && all[i] == hc;
      assert signal in probers[i].AffectedStatuses;
    }
  }

  /** The diagnostic one outcome is recorded with: "<status>: <time>". */
  function OutcomeMessage(hc: DependencyStatus): string
  {
    hc.Status + ": " + hc.AsOf
  }

  /** The diagnostics after each outcome is recorded in turn. */
  function Recorded(payload: map<string, string>, outcomes: seq<DependencyStatus>): map<string, string>
  {
    if outcomes == [] then payload
    else
      var hc := outcomes[|outcomes| - 1];
      Recorded(payload, outcomes[..|outcomes| - 1])[hc.ServiceID := OutcomeMessage(hc)]
  }

  /** Recording outcomes adds their IDs to the keys and touches no other key. */
  lemma {:induction false} RecordedKeys(payload: map<string, string>, outcomes: seq<DependencyStatus>, key: string)
    ensures key in Recorded(payload, outcomes) <==>
            key in payload || exists i :: 0 <= i < |outcomes| && outcomes[i].ServiceID == key
    ensures (forall i :: 0 <= i < |outcomes| ==> outcomes[i].ServiceID != key) && key in payload ==>
            Recorded(payload, outcomes)[key] == payload[key]
  {
    if outcomes != [] {
      var init := outcomes[..|outcomes| - 1];
      RecordedKeys(payload, init, key);
      if exists i :: 0 <= i < |init| && init[i].ServiceID == key {
        var i :| 0 <= i < |init| && init[i].ServiceID == key;
        assert outcomes[i].ServiceID == key;
      }
    }
  }

  /** An outcome whose ID no other outcome shares leaves its own message. */
  lemma {:induction false} RecordedUnique(payload: map<string, string>, outcomes: seq<DependencyStatus>, i: nat)
    requires i < |outcomes|
    requires forall j :: 0 <= j < |outcomes| && j != i ==> outcomes[j].ServiceID != outcomes[i].ServiceID
    ensures outcomes[i].ServiceID in Recorded(payload, outcomes)
    ensures Recorded(payload, outcomes)[outcomes[i].ServiceID] == OutcomeMessage(outcomes[i])
  {
    var n := |outcomes| - 1;
    if i < n {
      RecordedUnique(payload, outcomes[..n], i);
    }
  }

  /** The calls a listener receives when a cycle reports its three signals. */
  function CycleNotifications(l: Option<ListenerId>, notStarted: bool, notReady: bool, notLive: bool): seq<Notification>
  {
    Notify(l, StatusStartup, notStarted) + Notify(l, StatusReady, notReady) + Notify(l, StatusLive, notLive)
  }

  /** The clock readings of the three setter calls that end a cycle, one each. */
  datatype SetterTimes = SetterTimes(startup: string, ready: string, live: string)

  /** The diagnostics after a cycle: the outcomes in arrival order, then the three signals. */
  function CyclePayload(payload: map<string, string>, outcomes: seq<DependencyStatus>,
                        notStarted: bool, notReady: bool, notLive: bool, at: SetterTimes): map<string, string>
  {
    SignalsPayload(Recorded(payload, outcomes), notStarted, notReady, notLive, at)
  }

  /** The diagnostics after the three setter calls that end a cycle. */
  function SignalsPayload(payload: map<string, string>, notStarted: bool, notReady: bool, notLive: bool,
                          at: SetterTimes): map<string, string>
  {
    payload
      [ProbeKey(StatusStartup) := StatusMessage(notStarted, at.startup)]
      [ProbeKey(StatusReady) := StatusMessage(notReady, at.ready)]
      [ProbeKey(StatusLive) := StatusMessage(notLive, at.live)]
  }

  /** The inner loop of probe: an outcome ANDs its health into each signal
      it affects and leaves the other signals as they are. */
  method ApplyOutcome(hc: DependencyStatus, startupIn: bool, readyIn: bool, liveIn: bool)
    returns (startupOK: bool, readyOK: bool, liveOK: bool)
    ensures startupOK == (startupIn && (StatusStartup in hc.AffectedStatuses ==> IsHealthOK(hc.Status)))
    ensures readyOK == (readyIn && (StatusReady in hc.AffectedStatuses ==> IsHealthOK(hc.Status)))
    ensures liveOK == (liveIn && (StatusLive in hc.AffectedStatuses ==> IsHealthOK(hc.Status)))
  {
    startupOK, readyOK, liveOK := startupIn, readyIn, liveIn;
    var ok := IsHealthOK(hc.Status);
    for j := 0 to |hc.AffectedStatuses|
      invariant startupOK == (startupIn && (StatusStartup in hc.AffectedStatuses[..j] ==> ok))
      invariant readyOK == (readyIn && (StatusReady in hc.AffectedStatuses[..j] ==> ok))
      invariant liveOK == (liveIn && (StatusLive in hc.AffectedStatuses[..j] ==> ok))
    {
      assert hc.AffectedStatuses[..j + 1] == hc.AffectedStatuses[..j] + [hc.AffectedStatuses[j]];
      var afStatus := hc.AffectedStatuses[j];
      if afStatus == StatusStartup {
        startupOK := startupOK && ok;
      } else if afStatus == StatusReady {
        readyOK := readyOK && ok;
      } else if afStatus == StatusLive {
        liveOK := liveOK && ok;
      }
    }
    assert hc.AffectedStatuses[..|hc.AffectedStatuses|] == hc.AffectedStatuses;
  }

  /** The loop of probe: records each outcome's diagnostic, in arrival
      order, and ANDs the outcomes per signal. */
  method RecordOutcomes(h: Handle, outcomes: seq<DependencyStatus>)
    returns (startupOK: bool, readyOK: bool, liveOK: bool)
    modifies h.Repr()
    ensures startupOK == AllOK(outcomes, StatusStartup)
    ensures readyOK == AllOK(outcomes, StatusReady)
    ensures liveOK == AllOK(outcomes, StatusLive)
    ensures h.Ref? ==> h.pr.msgPayload == Recorded(old(h.pr.msgPayload), outcomes)
    ensures h.Ref? ==> h.pr.notStarted == old(h.pr.notStarted) && h.pr.notReady == old(h.pr.notReady)
    ensures h.Ref? ==> h.pr.notLive == old(h.pr.notLive)
    ensures h.Ref? ==> h.pr.changeListener == old(h.pr.changeListener) && h.pr.notified == old(h.pr.notified)
  {
    startupOK, readyOK, liveOK := true, true, true;
    for i := 0 to |outcomes|
      invariant startupOK == AllOK(outcomes[..i], StatusStartup)
      invariant readyOK == AllOK(outcomes[..i], StatusReady)
      invariant liveOK == AllOK(outcomes[..i], StatusLive)
      invariant h.Ref? ==> h.pr.msgPayload == Recorded(old(h.pr.msgPayload), outcomes[..i])
      invariant h.Ref? ==> h.pr.notStarted == old(h.pr.notStarted) && h.pr.notReady == old(h.pr.notReady)
      invariant h.Ref? ==> h.pr.notLive == old(h.pr.notLive)
      invariant h.Ref? ==> h.pr.changeListener == old(h.pr.changeListener) && h.pr.notified == old(h.pr.notified)
    {
      var hc := outcomes[i];
      h.AppendHealthResponse(hc.ServiceID, hc.Status + ": " + hc.AsOf);
      startupOK, readyOK, liveOK := ApplyOutcome(hc, startupOK, readyOK, liveOK);
      assert outcomes[..i + 1][..i] == outcomes[..i];
    }
    assert outcomes[..|outcomes|] == outcomes;
  }

  /** The end of probe: sets startup, ready and live, in that order. */
  method ReportSignals(h: Handle, notStarted: bool, notReady: bool, notLive: bool, at: SetterTimes)
    modifies h.Repr()
    ensures h.Ref? ==> h.pr.notStarted == notStarted && h.pr.notReady == notReady && h.pr.notLive == notLive
    ensures h.Ref? ==> h.pr.msgPayload == SignalsPayload(old(h.pr.msgPayload), notStarted, notReady, notLive, at)
    ensures h.Ref? ==> h.pr.changeListener == old(h.pr.changeListener)
    ensures h.Ref? ==>
      h.pr.notified == old(h.pr.notified) + CycleNotifications(h.pr.changeListener, notStarted, notReady, notLive)
  {
    h.SetNotStarted(notStarted, at.startup);
    h.SetNotReady(notReady, at.ready);
    h.SetNotLive(notLive, at.live);
  }

  /** probe: records every outcome, ANDs the outcomes per signal, then sets
      startup, ready and live, in that order. `outcomes` is the arrival order
      the cycle happened to see. With zero probers this uses the corrected
      ProbeDependencies and sets all three signals healthy; Go's probe would
      block forever inside ProbeDependencies there, which only Start's guard
      keeps out of reach. */
  method RunProbeCycle(h: Handle, probers: seq<Probe>, runs: seq<CheckRun>, at: SetterTimes)
    returns (outcomes: seq<DependencyStatus>)
    requires |runs| == |probers|
    modifies h.Repr()
    ensures multiset(outcomes) == multiset(Outcomes(probers, runs))
    ensures h.Ref? ==> h.pr.notStarted == !AllOK(Outcomes(probers, runs), StatusStartup)
    ensures h.Ref? ==> h.pr.notReady == !AllOK(Outcomes(probers, runs), StatusReady)
    ensures h.Ref? ==> h.pr.notLive == !AllOK(Outcomes(probers, runs), StatusLive)
    ensures h.Ref? ==> (h.pr.notStarted <==> SomeAffectingFails(probers, runs, StatusStartup))
    ensures h.Ref? ==> (h.pr.notReady <==> SomeAffectingFails(probers, runs, StatusReady))
    ensures h.Ref? ==> (h.pr.notLive <==> SomeAffectingFails(probers, runs, StatusLive))
    ensures h.Ref? ==>
      h.pr.msgPayload == CyclePayload(old(h.pr.msgPayload), outcomes, h.pr.notStarted, h.pr.notReady, h.pr.notLive, at)
    ensures h.Ref? ==> h.pr.changeListener == old(h.pr.changeListener)
    ensures h.Ref? ==>
      h.pr.notified == old(h.pr.notified) + CycleNotifications(h.pr.changeListener, h.pr.notStarted, h.pr.notReady, h.pr.notLive)
  {
    outcomes := ProbeDependencies(probers, runs);
    var startupOK, readyOK, liveOK := RecordOutcomes(h, outcomes);
    ReportSignals(h, !startupOK, !readyOK, !liveOK, at);
    AllOKOrderIndependent(outcomes, Outcomes(probers, runs), StatusStartup);
    AllOKOrderIndependent(outcomes, Outcomes(probers, runs), StatusReady);
    AllOKOrderIndependent(outcomes, Outcomes(probers, runs), StatusLive);
    CycleVerdict(probers, runs, StatusStartup);
    CycleVerdict(probers, runs, StatusReady);
    CycleVerdict(probers, runs, StatusLive);
  }

  /** The handle Start returns to stop the periodic cycles (a time.Ticker). */
  datatype Ticker = Ticker(period: nat)

  /** Start: with no probers, nothing is started and the state is left as it
      is; otherwise a ticker is created (time.NewTicker demands a positive
      period) and returned. The first cycle, which Go runs in a goroutine that
      may still be running when Start returns, is run here before returning;
      the later, periodic cycles are not modelled. `outcomes` is the arrival
      order that first cycle saw. */
  method Start(delay: int, h: Handle, probers: seq<Probe>, runs: seq<CheckRun>, at: SetterTimes)
    returns (stopper: Option<Ticker>, ghost outcomes: seq<DependencyStatus>)
    requires |runs| == |probers|
    requires |probers| > 0 ==> delay > 0
    modifies h.Repr()
    ensures stopper == None <==> |probers| == 0
    ensures |probers| == 0 && h.Ref? ==>
      && h.pr.notStarted == old(h.pr.notStarted) && h.pr.notReady == old(h.pr.notReady) && h.pr.notLive == old(h.pr.notLive)
      && h.pr.msgPayload == old(h.pr.msgPayload)
      && h.pr.changeListener == old(h.pr.changeListener) && h.pr.notified == old(h.pr.notified)
    ensures |probers| > 0 && h.Ref? ==>
      && (h.pr.notStarted <==> SomeAffectingFails(probers, runs, StatusStartup))
      && (h.pr.notReady <==> SomeAffectingFails(probers, runs, StatusReady))
      && (h.pr.notLive <==> SomeAffectingFails(probers, runs, StatusLive))
    ensures |probers| > 0 ==> multiset(outcomes) == multiset(Outcomes(probers, runs))
    ensures |probers| > 0 && h.Ref? ==>
      && h.pr.msgPayload == CyclePayload(old(h.pr.msgPayload), outcomes, h.pr.notStarted, h.pr.notReady, h.pr.notLive, at)
      && h.pr.changeListener == old(h.pr.changeListener)
      && h.pr.notified == old(h.pr.notified) + CycleNotifications(h.pr.changeListener, h.pr.notStarted, h.pr.notReady, h.pr.notLive)
  {
    if |probers| == 0 {
      return None, [];
    }
    outcomes := RunProbeCycle(h, probers, runs, at);
    return Some(Ticker(delay)), outcomes;
  }
}
