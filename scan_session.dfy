/** A scan session as the orchestrator drives the probe: each resource it
    presents is first put to the eligibility rule, and only an eligible one
    is attacked. This module states what that calling convention guarantees
    over a whole session. */
module ScanSession {
  import opened Htaccess

  /** One resource presented to the probe, with what the transport would
      answer if the probe were sent. */
  datatype Event = Event(request: Request, outcome: Outcome)

  /** The state after presenting one resource: attacked when eligible,
      untouched otherwise. */
  function Present(s: ProbeState, e: Event): ProbeState
  {
    if Eligible(s.attackedGet, e.request) then Step(s, e.request, e.outcome) else s
  }

  /** The state after presenting `events` in order. */
  function Run(s: ProbeState, events: seq<Event>): ProbeState
    decreases |events|
  {
    if events == [] then s else Run(Present(s, events[0]), events[1..])
  }

  /** Whether presenting `e` in state `s` sends a probe for `p` that gets a
      response. */
  predicate CompletesFor(s: ProbeState, e: Event, p: Path)
  {
    e.request.path == p && Eligible(s.attackedGet, e.request) && e.outcome.Response?
  }

  /** The number of probes for `p` that got a response during the session. */
  function Completed(s: ProbeState, events: seq<Event>, p: Path): nat
    decreases |events|
  {
    if events == [] then 0
    else (if CompletesFor(s, events[0], p) then 1 else 0) + Completed(Present(s, events[0]), events[1..], p)
  }

  /** The number of probes that failed in the transport during the session. */
  function Failed(s: ProbeState, events: seq<Event>): nat
    decreases |events|
  {
    if events == [] then 0
    else
      var e := events[0];
      (if Eligible(s.attackedGet, e.request) && e.outcome.TransportError? then 1 else 0)
      + Failed(Present(s, e), events[1..])
  }

  predicate Distinct(paths: seq<Path>)
  {
    forall i, j :: 0 <= i < j < |paths| ==> paths[i] != paths[j]
  }

  /** Presenting one resource only ever appends to the ledger, and appends
      its path exactly when a probe for it got a response. */
  lemma PresentLedger(s: ProbeState, e: Event)
    ensures var t := Present(s, e);
              t.attackedGet == s.attackedGet + (if CompletesFor(s, e, e.request.path) then [e.request.path] else [])
  {
  }

  /** The ledger of a session extends the one it started from. */
  lemma {:induction false} RunLedgerGrows(s: ProbeState, events: seq<Event>)
    ensures |s.attackedGet| <= |Run(s, events).attackedGet|
    ensures Run(s, events).attackedGet[..|s.attackedGet|] == s.attackedGet
    decreases |events|
  {
    if events != [] {
      var t := Present(s, events[0]);
      PresentLedger(s, events[0]);
      RunLedgerGrows(t, events[1..]);
      assert t.attackedGet[..|s.attackedGet|] == s.attackedGet;
    }
  }

  /** No duplicate attempts: over any session, at most one probe for a path
      gets a response, and none if the path was recorded before. */
  lemma {:induction false} AtMostOneCompletedProbe(s: ProbeState, events: seq<Event>, p: Path)
    ensures Completed(s, events, p) <= (if p in s.attackedGet then 0 else 1)
    decreases |events|
  {
    if events != [] {
      var e := events[0];
      var t := Present(s, e);
      PresentLedger(s, e);
      AtMostOneCompletedProbe(t, events[1..], p);
      if CompletesFor(s, e, p) {
        assert p in t.attackedGet;
      } else if p in s.attackedGet {
        assert p in t.attackedGet;
      }
    }
  }

  /** A path ends up in the ledger exactly when it was there already or a
      probe for it got a response; eligibility rejections and transport
      failures never record it. */
  lemma {:induction false} RecordedIffCompleted(s: ProbeState, events: seq<Event>, p: Path)
    ensures p in Run(s, events).attackedGet <==> p in s.attackedGet || Completed(s, events, p) > 0
    decreases |events|
  {
    if events != [] {
      var e := events[0];
      var t := Present(s, e);
      PresentLedger(s, e);
      RecordedIffCompleted(t, events[1..], p);
      assert p in t.attackedGet <==> p in s.attackedGet || CompletesFor(s, e, p);
    }
  }

  /** A ledger without repeated paths stays without repeated paths. */
  lemma {:induction false} RunKeepsLedgerDistinct(s: ProbeState, events: seq<Event>)
    requires Distinct(s.attackedGet)
    ensures Distinct(Run(s, events).attackedGet)
    decreases |events|
  {
    if events != [] {
      var e := events[0];
      var t := Present(s, e);
      PresentLedger(s, e);
      assert Distinct(t.attackedGet);
      RunKeepsLedgerDistinct(t, events[1..]);
    }
  }

  /** Every transport failure is counted, and only those. */
  lemma {:induction false} RunCountsFailures(s: ProbeState, events: seq<Event>)
    ensures Run(s, events).networkErrors == s.networkErrors + Failed(s, events)
    decreases |events|
  {
    if events != [] {
      RunCountsFailures(Present(s, events[0]), events[1..]);
    }
  }

  /** Each finding of a session comes with a newly recorded path: findings
      never outnumber the probes that got a response. */
  lemma {:induction false} FindingsWithinLedger(s: ProbeState, events: seq<Event>)
    ensures |Run(s, events).findings| + |s.attackedGet| <= |s.findings| + |Run(s, events).attackedGet|
    decreases |events|
  {
    if events != [] {
      var t := Present(s, events[0]);
      assert |t.findings| + |s.attackedGet| <= |s.findings| + |t.attackedGet|;
      FindingsWithinLedger(t, events[1..]);
    }
  }

  /** Retry after a transport failure: the failure leaves the path eligible,
      and the retry that gets a response records it once. */
  lemma RetryAfterTransportError(s: ProbeState, request: Request, status: int, content: string)
    requires Eligible(s.attackedGet, request)
    ensures var t := Run(s, [Event(request, TransportError), Event(request, Response(status, content))]);
              t.attackedGet == s.attackedGet + [request.path] && t.networkErrors == s.networkErrors + 1
  {
    var events := [Event(request, TransportError), Event(request, Response(status, content))];
    var t1 := Present(s, events[0]);
    assert Eligible(t1.attackedGet, request);
    assert events[1..] == [events[1]];
    assert Run(t1, events[1..]) == Run(Present(t1, events[1]), []);
  }

  /** Three scenarios: 403 then 404 reports the bypass; 401 then 403 reports
      nothing but records the path; an original 200 is never probed. */
  lemma Scenarios(s: ProbeState, request: Request, content: string)
    requires request.path !in s.attackedGet
    ensures request.status == 403 ==>
              Present(s, Event(request, Response(404, content))).findings == s.findings + [BypassFinding(request)]
    ensures request.status == 401 ==>
              var t := Present(s, Event(request, Response(403, content)));
              t.findings == s.findings && t.attackedGet == s.attackedGet + [request.path]
    ensures request.status == 200 ==>
              forall o: Outcome :: Present(s, Event(request, o)) == s
  {
  }
}
