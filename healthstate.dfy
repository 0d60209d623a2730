/** The health-state store of proberesponder.go: three "not ok" flags (startup,
    ready, live), a map of diagnostic messages and an optional change listener,
    reached through a handle that may be nil. */
module HealthState {
  import opened Wrappers
  import Strings

  /** The name of a composite signal (Go's `Statuskey`, a string type, so an
      affected-status list may also hold names that are none of the three). */
  type Statuskey = string

  const StatusStartup: Statuskey := "startup"
  const StatusReady: Statuskey := "ready"
  const StatusLive: Statuskey := "live"

  /** The three composite signals, in the order a probe cycle reports them. */
  const Signals: seq<Statuskey> := [StatusStartup, StatusReady, StatusLive]

  /** Go's `healthstatus`: the text that says whether something is healthy. */
  type HealthStatus = string

  const HealthOK: HealthStatus := "OK"
  const HealthNotOK: HealthStatus := "NOT OK"

  /** healthstatus.Equal */
  predicate Equal(hs: HealthStatus, s: HealthStatus)
  {
    s == hs
  }

  /** IsHealthOK: the status text is the healthy one. */
  predicate IsHealthOK(s: string)
  {
    Equal(HealthOK, s)
  }

  lemma IsHealthOKExactly(s: string)
    ensures IsHealthOK(s) <==> s == "OK"
    ensures IsHealthOK(HealthOK) && !IsHealthOK(HealthNotOK)
    ensures StatusStartup == "startup" && StatusReady == "ready" && StatusLive == "live"
  {
  }

  /** The status text a "not ok" flag value is reported with. */
  function HealthText(notOk: bool): (hs: HealthStatus)
    ensures IsHealthOK(hs) <==> !notOk
  {
    if notOk then HealthNotOK else HealthOK
  }

  /** A diagnostic message "<OK|NOT OK>: <timestamp>". */
  function StatusMessage(notOk: bool, at: string): string
  {
    HealthText(notOk) + ": " + at
  }

  /** The diagnostics key under which a signal change is recorded. */
  function ProbeKey(status: Statuskey): string
  {
    "probe->" + status
  }

  /** Reads a diagnostic message back: the flag value and the timestamp. */
  function ParseStatusMessage(msg: string): Option<(bool, string)>
  {
    if Strings.HasPrefix(msg, "NOT OK: ") then Some((true, msg[8..]))
    else if Strings.HasPrefix(msg, "OK: ") then Some((false, msg[4..]))
    else None
  }

  /** A message states its flag and timestamp unambiguously. */
  lemma StatusMessageRoundTrip(notOk: bool, at: string)
    ensures ParseStatusMessage(StatusMessage(notOk, at)) == Some((notOk, at))
    ensures Strings.HasPrefix(StatusMessage(notOk, at), "NOT OK: ") <==> notOk
  {
    var msg := StatusMessage(notOk, at);
    if notOk {
      assert msg == "NOT OK: " + at;
      assert msg[..8] == "NOT OK: ";
    } else {
      assert msg == "OK: " + at;
      assert msg[..4] == "OK: ";
      assert msg[0] != 'N';
    }
  }

  /** The three signal keys are distinct from one another. */
  lemma ProbeKeysDistinct()
    ensures ProbeKey(StatusStartup) != ProbeKey(StatusReady)
    ensures ProbeKey(StatusStartup) != ProbeKey(StatusLive)
    ensures ProbeKey(StatusReady) != ProbeKey(StatusLive)
  {
    assert ProbeKey(StatusStartup)[7] == 's';
    assert ProbeKey(StatusReady)[7] == 'r';
    assert ProbeKey(StatusLive)[7] == 'l';
  }

  /** The identity of a registered StatusChangeListener; the model records
      that, and with what, it is called, not what it does. */
  type ListenerId = nat

  /** One call of the listener: which listener, for which signal, with which value. */
  datatype Notification = Notification(listener: ListenerId, status: Statuskey, value: bool)

  /** Go's `ProbeResponder` struct (the mutex is left out: every operation is atomic). */
  class ProbeResponder {
    var notReady: bool
    var notLive: bool
    var notStarted: bool
    var msgPayload: map<string, string>
    var changeListener: Option<ListenerId>
    /** Every listener call so far, oldest first. */
    var notified: seq<Notification>

    /** The composite literal `&ProbeResponder{locker: ..., msgPayload: map[string]string{}}`. */
    constructor ()
      ensures !notReady && !notLive && !notStarted
      ensures msgPayload == map[] && changeListener == None && notified == []
    {
      notReady, notLive, notStarted := false, false, false;
      msgPayload := map[];
      changeListener := None;
      notified := [];
    }

    /** appendHealthRespWithoutLock */
    method AppendWithoutLock(key: string, value: string)
      modifies this
      ensures msgPayload == old(msgPayload)[key := value]
      ensures notReady == old(notReady) && notLive == old(notLive) && notStarted == old(notStarted)
      ensures changeListener == old(changeListener) && notified == old(notified)
    {
      msgPayload := msgPayload[key := value];
    }

    /** onChange: records the signal's new value under its probe key, then calls
        the listener, if one is set, with the signal and the value. */
    method OnChange(status: Statuskey, value: bool, now: string)
      modifies this
      ensures msgPayload == old(msgPayload)[ProbeKey(status) := StatusMessage(value, now)]
      ensures notReady == old(notReady) && notLive == old(notLive) && notStarted == old(notStarted)
      ensures changeListener == old(changeListener)
      ensures notified == old(notified) + Notify(changeListener, status, value)
    {
      AppendWithoutLock(ProbeKey(status), StatusMessage(value, now));
      if changeListener.None? {
        return;
      }
      notified := notified + [Notification(changeListener.value, status, value)];
    }
  }

  /** The calls a set listener receives for one change: one call, or none without a listener. */
  function Notify(listener: Option<ListenerId>, status: Statuskey, value: bool): (calls: seq<Notification>)
    ensures listener.None? ==> calls == []
    ensures listener.Some? ==> calls == [Notification(listener.value, status, value)]
  {
    match listener
    case None => []
    case Some(l) => [Notification(l, status, value)]
  }

  /** A nil map reads as an empty one when ranged over. */
  function Entries(snapshot: Option<map<string, string>>): map<string, string>
  {
    snapshot.GetOr(map[])
  }

  /** A `*ProbeResponder`: nil, or a reference to a well-formed responder. */
  datatype Handle = Nil | Ref(pr: ProbeResponder) {

    /** The objects an operation on the handle may touch. */
    function Repr(): set<object>
    {
      if Ref? then {pr} else {}
    }

    /** What HealthResponse answers in the current state. */
    function Snapshot(): Option<map<string, string>>
      reads Repr()
    {
      if Nil? then None else Some(pr.msgPayload)
    }

    /** NotReady: a nil handle reports ready. */
    function NotReady(): (b: bool)
      reads Repr()
      ensures b <==> Ref? && pr.notReady
    {
      this != Nil && pr.notReady
    }

    /** NotLive: a nil handle reports live. */
    function NotLive(): (b: bool)
      reads Repr()
      ensures b <==> Ref? && pr.notLive
    {
      this != Nil && pr.notLive
    }

    /** NotStarted: a nil handle reports started. */
    function NotStarted(): (b: bool)
      reads Repr()
      ensures b <==> Ref? && pr.notStarted
    {
      this != Nil && pr.notStarted
    }

    /** AppendHealthResponse: sets one diagnostic; the last write of a key wins. */
    method AppendHealthResponse(key: string, value: string)
      modifies Repr()
      ensures Ref? ==> pr.msgPayload == old(pr.msgPayload)[key := value]
      ensures Ref? ==> pr.notReady == old(pr.notReady) && pr.notLive == old(pr.notLive) && pr.notStarted == old(pr.notStarted)
      ensures Ref? ==> pr.changeListener == old(pr.changeListener) && pr.notified == old(pr.notified)
    {
      if Nil? {
        return;
      }
      pr.AppendWithoutLock(key, value);
    }

    /** HealthResponse: a copy of the diagnostics, or nil for a nil handle.
        The copy is a value: later changes to the responder do not reach it. */
    method HealthResponse() returns (copied: Option<map<string, string>>)
      ensures Nil? ==> copied == None
      ensures Ref? ==> copied == Some(pr.msgPayload)
    {
      if Nil? {
        return None;
      }
      var result: map<string, string> := map[];
      var rest := pr.msgPayload.Keys;
      while rest != {}
        invariant rest <= pr.msgPayload.Keys
        invariant forall k :: k in result <==> k in pr.msgPayload && k !in rest
        invariant forall k :: k in result ==> result[k] == pr.msgPayload[k]
        decreases rest
      {
        var k :| k in rest;
        result := result[k := pr.msgPayload[k]];
        rest := rest - {k};
      }
      assert result == pr.msgPayload;
      return Some(result);
    }

    /** SetNotReady */
    method SetNotReady(b: bool, now: string)
      modifies Repr()
      ensures Ref? ==> pr.notReady == b && pr.notLive == old(pr.notLive) && pr.notStarted == old(pr.notStarted)
      ensures Ref? ==> pr.msgPayload == old(pr.msgPayload)[ProbeKey(StatusReady) := StatusMessage(b, now)]
      ensures Ref? ==> pr.changeListener == old(pr.changeListener)
      ensures Ref? ==> pr.notified == old(pr.notified) + Notify(pr.changeListener, StatusReady, b)
    {
      if Nil? {
        return;
      }
      pr.notReady := b;
      pr.OnChange(StatusReady, b, now);
    }

    /** SetNotLive */
    method SetNotLive(b: bool, now: string)
      modifies Repr()
      ensures Ref? ==> pr.notLive == b && pr.notReady == old(pr.notReady) && pr.notStarted == old(pr.notStarted)
      ensures Ref? ==> pr.msgPayload == old(pr.msgPayload)[ProbeKey(StatusLive) := StatusMessage(b, now)]
      ensures Ref? ==> pr.changeListener == old(pr.changeListener)
      ensures Ref? ==> pr.notified == old(pr.notified) + Notify(pr.changeListener, StatusLive, b)
    {
      if Nil? {
        return;
      }
      pr.notLive := b;
      pr.OnChange(StatusLive, b, now);
    }

    /** SetNotStarted */
    method SetNotStarted(b: bool, now: string)
      modifies Repr()
      ensures Ref? ==> pr.notStarted == b && pr.notReady == old(pr.notReady) && pr.notLive == old(pr.notLive)
      ensures Ref? ==> pr.msgPayload == old(pr.msgPayload)[ProbeKey(StatusStartup) := StatusMessage(b, now)]
      ensures Ref? ==> pr.changeListener == old(pr.changeListener)
      ensures Ref? ==> pr.notified == old(pr.notified) + Notify(pr.changeListener, StatusStartup, b)
    {
      if Nil? {
        return;
      }
      pr.notStarted := b;
      pr.OnChange(StatusStartup, b, now);
    }

    /** SetListener: replaces the listener (None switches notification off). */
    method SetListener(l: Option<ListenerId>)
      modifies Repr()
      ensures Ref? ==> pr.changeListener == l
      ensures Ref? ==> pr.notReady == old(pr.notReady) && pr.notLive == old(pr.notLive) && pr.notStarted == old(pr.notStarted)
      ensures Ref? ==> pr.msgPayload == old(pr.msgPayload) && pr.notified == old(pr.notified)
    {
      if Nil? {
        return;
      }
      pr.changeListener := l;
    }
  }

  /** The diagnostics of a new responder: every signal "NOT OK", each as of
      the time its own setter call read the clock. */
  function InitialPayload(liveAt: string, readyAt: string, startedAt: string): map<string, string>
  {
    map[ProbeKey(StatusLive) := StatusMessage(true, liveAt)]
       [ProbeKey(StatusReady) := StatusMessage(true, readyAt)]
       [ProbeKey(StatusStartup) := StatusMessage(true, startedAt)]
  }

  /** A new responder has exactly the three probe keys, each reporting "NOT OK". */
  lemma InitialPayloadShape(liveAt: string, readyAt: string, startedAt: string)
    ensures var p := InitialPayload(liveAt, readyAt, startedAt);
      && p.Keys == {ProbeKey(StatusStartup), ProbeKey(StatusReady), ProbeKey(StatusLive)}
      && |p| == 3
      && forall k :: k in p ==> Strings.HasPrefix(p[k], "NOT OK: ")
  {
    ProbeKeysDistinct();
    StatusMessageRoundTrip(true, liveAt);
    StatusMessageRoundTrip(true, readyAt);
    StatusMessageRoundTrip(true, startedAt);
  }

  /** New: a responder that is not started, not ready and not live until shown otherwise. */
  method New(liveAt: string, readyAt: string, startedAt: string) returns (h: Handle)
    ensures h.Ref? && fresh(h.pr)
    ensures h.NotStarted() && h.NotReady() && h.NotLive()
    ensures h.pr.msgPayload == InitialPayload(liveAt, readyAt, startedAt)
    ensures h.pr.changeListener == None && h.pr.notified == []
  {
    var pRes := new ProbeResponder();
    h := Ref(pRes);
    h.SetNotLive(true, liveAt);
    h.SetNotReady(true, readyAt);
    h.SetNotStarted(true, startedAt);
  }
}
