/** Readiness of one EventSub session (scripts/eventsub.py). Frames and setup notices arrive
    already parsed; anything the parser rejects is Malformed. */
module EventSub {
  import opened Common

  const KEEPALIVE_GRACE := 2_000_000

  datatype Code =
    | KeepaliveTimedOut | WelcomeTimedOut | InvalidMessage | AuthorizationFailed | InternalFailure | ClockIsUncertain
    | NoUsableSubscriptions | HandoverTimedOut | HandoverConflict | HandoverDuringSetup | HandoverFailed
    | DrainLimit | CloseFailed | ConnectionFailed | NetworkLost | RetryTimeUnset | StorageLost

  /** A notification or revocation envelope: the source its type and version name, whether
      condition and transport method match the spec, and the ids it carries. */
  datatype Envelope = Envelope(source: Source, matches: bool, sessionId: string, subscriptionId: string, enabled: bool)

  datatype Frame =
    | Malformed
    | Welcome(sessionId: string, keepaliveSeconds: int)
    | Keepalive
    | Reconnect(oldSessionId: string, url: string)
    | Notification(envelope: Envelope, message: int)
    | Revocation(envelope: Envelope, message: int)

  /** EventDelivery: what a capture consumer is handed. */
  datatype Delivery = Delivery(revocation: bool, source: Source, message: int)

  datatype Outcome = Nothing | ReconnectRequest(url: string) | Deliver(delivery: Delivery) | Rejected(code: Code)

  datatype NoticeError = AuthOrNetwork | InternalError

  /** A result posted by the setup worker. */
  datatype Notice = Notice(source: Option<Source>, subscriptionId: string, error: Option<NoticeError>, fatal: bool)

  /** serial identifies the session object; a new one is made for every welcome the recovery
      layer accepts. */
  datatype Session = Session(
    serial: nat, specs: set<Source>, sessionId: Option<string>, timeout: int, lastLiveness: Option<Reading>,
    ids: map<Source, string>, failed: set<Source>, deliverySeen: set<Source>, responsive: bool, inGrace: bool)

  function NewSession(serial: nat, specs: set<Source>): Session {
    Session(serial, specs, None, 0, None, map[], {}, {}, false, false)
  }

  predicate Ready(s: Session) {
    s.responsive && !s.inGrace && s.failed == {} && s.ids.Keys == s.specs
  }

  predicate SourceReady(s: Session, source: Source) {
    s.responsive && !s.inGrace && source in s.ids && source !in s.failed
  }

  datatype Checked = Checked(session: Session, error: Option<Code>)

  function CheckLiveness(s: Session, now: Reading): Checked {
    if s.lastLiveness == None then Checked(s, None)
    else
      var age := Age(now, s.lastLiveness.value);
      if age > s.timeout + KEEPALIVE_GRACE then Checked(s, Some(KeepaliveTimedOut))
      else if age > s.timeout then Checked(s.(inGrace := true), None)
      else Checked(s, None)
  }

  function SetupResult(s: Session, n: Notice): Checked {
    if n.source == None || n.fatal then
      Checked(s, Some(if n.error == Some(InternalError) then InternalFailure else AuthorizationFailed))
    else if n.source.value !in s.specs then Checked(s, Some(InternalFailure))
    else if n.error.Some? then Checked(s.(failed := s.failed + {n.source.value}), None)
    else if n.source.value in s.failed then Checked(s, None)
    else if n.subscriptionId == "" then Checked(s, Some(InternalFailure))
    else Checked(s.(ids := s.ids[n.source.value := n.subscriptionId]), None)
  }

  function ReceivedLiveness(s: Session, now: Reading): Session {
    s.(inGrace := false, lastLiveness := Some(now), responsive := true)
  }

  datatype Accepted = Accepted(session: Session, outcome: Outcome)

  predicate EnvelopeFits(s: Session, e: Envelope) {
    && e.source in s.specs && e.matches && s.sessionId == Some(e.sessionId) && e.subscriptionId != ""
    && (e.source in s.ids ==> s.ids[e.source] == e.subscriptionId)
  }

  function AcceptFrame(s: Session, frame: Frame, now: Reading): Accepted {
    if s.sessionId == None then
      if frame.Welcome? && frame.sessionId != "" && 10 <= frame.keepaliveSeconds <= 600 then
        Accepted(s.(sessionId := Some(frame.sessionId), timeout := Seconds(frame.keepaliveSeconds), lastLiveness := Some(now)), Nothing)
      else Accepted(s, Rejected(InvalidMessage))
    else match frame
      case Reconnect(id, url) =>
        if s.sessionId == Some(id) then Accepted(s, ReconnectRequest(url)) else Accepted(s, Rejected(InvalidMessage))
      case Keepalive => Accepted(ReceivedLiveness(s, now), Nothing)
      case Revocation(e, m) =>
        if !EnvelopeFits(s, e) || e.enabled then Accepted(s, Rejected(InvalidMessage))
        else Accepted(s.(failed := s.failed + {e.source}), Deliver(Delivery(true, e.source, m)))
      case Notification(e, m) =>
        if !EnvelopeFits(s, e) || !e.enabled then Accepted(s, Rejected(InvalidMessage))
        else
          var seen := if e.source in s.ids && e.source !in s.failed then s.deliverySeen + {e.source} else s.deliverySeen;
          Accepted(ReceivedLiveness(s, now).(deliverySeen := seen), Deliver(Delivery(false, e.source, m)))
      case _ => Accepted(s, Rejected(InvalidMessage))
  }

  function Accept(s: Session, frame: Frame, now: Reading): Accepted {
    var c := CheckLiveness(s, now);
    if c.error.Some? then Accepted(c.session, Rejected(c.error.value)) else AcceptFrame(c.session, frame, now)
  }

  // ----- properties -----

  /** Liveness is known once a welcome was accepted. */
  predicate ValidSession(s: Session) {
    && (s.sessionId.Some? <==> s.lastLiveness.Some?)
    && (s.responsive ==> s.sessionId.Some?)
    && (s.sessionId.Some? ==> Seconds(10) <= s.timeout <= Seconds(600))
    && s.failed <= s.specs && s.ids.Keys <= s.specs
  }

  /** At now, this session can carry the source: a subscription confirmed and never failed,
      and a frame received no longer ago than Twitch's keepalive interval. */
  predicate LiveAndConfirmed(s: Session, source: Source, now: Reading) {
    && source in s.ids && source !in s.failed
    && s.lastLiveness.Some? && Age(now, s.lastLiveness.value) <= s.timeout
  }

  /** Failures are permanent and confirmations are only ever added by setup results. */
  ghost predicate Carries(a: Session, b: Session) {
    a.serial == b.serial && a.specs == b.specs && a.failed <= b.failed && ValidSession(b)
  }

  lemma LivenessStep(s: Session, now: Reading)
    requires ValidSession(s)
    ensures var c := CheckLiveness(s, now);
            && Carries(s, c.session) && c.session.ids == s.ids && c.session.failed == s.failed
            && (c.error.Some? ==> c.session == s)
  {
  }

  /** Right after a liveness check that passed, a source counts as ready only on fresh frames. */
  lemma ReadyMeansFresh(s: Session, now: Reading, source: Source)
    requires ValidSession(s)
    ensures var c := CheckLiveness(s, now);
            c.error == None && SourceReady(c.session, source) ==> LiveAndConfirmed(c.session, source, now)
  {
  }

  /** A frame accepted at now keeps that: the session it leaves is fresh at now. */
  lemma AcceptStep(s: Session, frame: Frame, now: Reading)
    requires ValidSession(s)
    ensures var a := Accept(s, frame, now);
            && Carries(s, a.session) && a.session.ids == s.ids
            && (a.outcome.Rejected? ==> a.session == CheckLiveness(s, now).session
                                        && (a.outcome.code == KeepaliveTimedOut || a.outcome.code == InvalidMessage))
            && (a.session.failed != s.failed ==> a.outcome.Deliver? && a.outcome.delivery.revocation)
            && (!a.outcome.Rejected? ==>
                  forall source :: SourceReady(a.session, source) ==> LiveAndConfirmed(a.session, source, now))
  {
    hide CheckLiveness, AcceptFrame, LiveAndConfirmed, SourceReady;
    LivenessStep(s, now);
    var c := CheckLiveness(s, now);
    if c.error == None {
      FrameStep(c.session, frame, now);
      forall source ensures SourceReady(c.session, source) ==> LiveAndConfirmed(c.session, source, now) { ReadyMeansFresh(s, now, source); }
      FreshStep(c.session, frame, now);
    } else {
      LivenessCode(s, now);
    }
  }

  lemma LivenessCode(s: Session, now: Reading)
    ensures CheckLiveness(s, now).error.Some? ==> CheckLiveness(s, now).error == Some(KeepaliveTimedOut)
  {
  }

  lemma FrameStep(s: Session, frame: Frame, now: Reading)
    requires ValidSession(s)
    ensures var a := AcceptFrame(s, frame, now);
            && Carries(s, a.session) && a.session.ids == s.ids
            && (a.outcome.Rejected? ==> a.session == s && a.outcome.code == InvalidMessage)
            && (a.session.failed != s.failed ==> a.outcome.Deliver? && a.outcome.delivery.revocation)
  {
  }

  lemma FreshStep(s: Session, frame: Frame, now: Reading)
    requires ValidSession(s) && forall source :: SourceReady(s, source) ==> LiveAndConfirmed(s, source, now)
    ensures var a := AcceptFrame(s, frame, now);
            forall source :: SourceReady(a.session, source) ==> LiveAndConfirmed(a.session, source, now)
  {
    hide EnvelopeFits;
    var a := AcceptFrame(s, frame, now);
    assert Age(now, now) == 0;
    forall source | SourceReady(a.session, source) ensures LiveAndConfirmed(a.session, source, now) {
      assert SourceReady(s, source) || a.session.lastLiveness == Some(now);
    }
  }

  lemma RevocationStep(s: Session, frame: Frame, now: Reading)
    requires ValidSession(s)
    ensures var a := Accept(s, frame, now);
            a.outcome.Deliver? && a.outcome.delivery.revocation ==>
              a.session.failed == s.failed + {a.outcome.delivery.source} && !SourceReady(a.session, a.outcome.delivery.source)
    ensures var a := Accept(s, frame, now);
            !(a.outcome.Deliver? && a.outcome.delivery.revocation) ==> a.session.failed == s.failed
  {
  }

  lemma SetupStep(s: Session, n: Notice)
    requires ValidSession(s)
    ensures var c := SetupResult(s, n);
            && Carries(s, c.session)
            && (c.error.Some? ==> c.session == s) && c.session.responsive == s.responsive
            && c.session.failed == s.failed + (if c.error == None && n.error.Some? && n.source.Some? then {n.source.value} else {})
            && (forall source :: source in c.session.ids && source !in s.ids ==> n.source == Some(source) && source !in s.failed && n.error == None)
  {
  }

  // ----- exactly when -----

  /** One of the two clocks moved by more than `length` since. */
  predicate PassedBy(now: Reading, earlier: Reading, length: int) {
    now.tick - earlier.tick > length || now.utc - earlier.utc > length
  }

  /** Silent for more than the keepalive interval and two seconds of grace. */
  predicate Dead(s: Session, now: Reading) {
    s.lastLiveness.Some? && PassedBy(now, s.lastLiveness.value, s.timeout + 2_000_000)
  }

  /** The session after a check that passed: in grace if it was, or if it has been silent for
      more than the keepalive interval. */
  function Graced(s: Session, now: Reading): Session {
    s.(inGrace := s.inGrace || (s.lastLiveness.Some? && PassedBy(now, s.lastLiveness.value, s.timeout)))
  }

  /** A session times out exactly when it is dead; otherwise silence only puts it in grace. */
  lemma TimeoutIff(s: Session, now: Reading)
    ensures CheckLiveness(s, now) == if Dead(s, now) then Checked(s, Some(KeepaliveTimedOut)) else Checked(Graced(s, now), None)
  {
  }

  /** The envelope is for a source of this session, with its condition and transport, and
      repeats the subscription id the session knows. */
  predicate Fits(s: Session, e: Envelope) {
    && e.source in s.specs && e.matches && s.sessionId.Some? && e.sessionId == s.sessionId.value
    && |e.subscriptionId| > 0 && (e.source !in s.ids || e.subscriptionId == s.ids[e.source])
  }

  /** The frames a session takes: a welcome first, and only first. */
  predicate Acceptable(s: Session, frame: Frame) {
    match frame
    case Malformed => false
    case Welcome(id, keepalive) => s.sessionId == None && |id| > 0 && 10 <= keepalive <= 600
    case Keepalive => s.sessionId.Some?
    case Reconnect(id, _) => s.sessionId == Some(id)
    case Notification(e, _) => Fits(s, e) && e.enabled
    case Revocation(e, _) => Fits(s, e) && !e.enabled
  }

  function Meaning(frame: Frame): Outcome {
    match frame
    case Reconnect(_, url) => ReconnectRequest(url)
    case Notification(e, m) => Deliver(Delivery(false, e.source, m))
    case Revocation(e, m) => Deliver(Delivery(true, e.source, m))
    case _ => Nothing
  }

  /** What an accepted frame leaves: keepalives and notifications prove liveness, a revocation
      only adds its failure, and a welcome names the session and its keepalive interval. */
  ghost predicate Took(s: Session, frame: Frame, now: Reading, t: Session) {
    && t.serial == s.serial && t.specs == s.specs && t.ids == s.ids
    && t.failed == s.failed + (if frame.Revocation? then {frame.envelope.source} else {})
    && (if frame.Welcome? then t.sessionId == Some(frame.sessionId) && t.timeout == frame.keepaliveSeconds * 1_000_000
        else t.sessionId == s.sessionId && t.timeout == s.timeout)
    && (if frame.Keepalive? || frame.Notification? then t.responsive && !t.inGrace else t.responsive == s.responsive && t.inGrace == s.inGrace)
    && t.lastLiveness == (if frame.Keepalive? || frame.Notification? || frame.Welcome? then Some(now) else s.lastLiveness)
    && t.deliverySeen == s.deliverySeen + (if frame.Notification? && frame.envelope.source in s.ids && frame.envelope.source !in s.failed then {frame.envelope.source} else {})
  }

  /** A frame is taken exactly when the session is not dead and the frame is acceptable. */
  lemma AcceptIff(s: Session, frame: Frame, now: Reading)
    ensures var a := Accept(s, frame, now);
            if Dead(s, now) then a == Accepted(s, Rejected(KeepaliveTimedOut))
            else if !Acceptable(s, frame) then a == Accepted(Graced(s, now), Rejected(InvalidMessage))
            else a.outcome == Meaning(frame) && Took(Graced(s, now), frame, now, a.session)
  {
    TimeoutIff(s, now);
    hide CheckLiveness, Dead, PassedBy;
  }

  /** A setup result either ends the run, fails its source, confirms it, or, for a source that
      failed before, is ignored. */
  lemma SetupIff(s: Session, n: Notice)
    ensures var c := SetupResult(s, n);
            if n.source == None || n.fatal then c == Checked(s, Some(if n.error == Some(InternalError) then InternalFailure else AuthorizationFailed))
            else var x := n.source.value;
              if x !in s.specs then c == Checked(s, Some(InternalFailure))
              else if n.error.Some? then c.error == None && x in c.session.failed && c.session == s.(failed := c.session.failed) && c.session.failed - {x} == s.failed - {x}
              else if x in s.failed then c == Checked(s, None)
              else if |n.subscriptionId| == 0 then c == Checked(s, Some(InternalFailure))
              else c.error == None && c.session == s.(ids := c.session.ids) && x in c.session.ids && c.session.ids[x] == n.subscriptionId
                   && (forall y :: y != x ==> (y in c.session.ids <==> y in s.ids) && (y in s.ids ==> c.session.ids[y] == s.ids[y]))
  {
  }

  datatype Input = Frame(frame: Frame, at: Reading) | Setup(notice: Notice) | Check(now: Reading)

  function Feed(s: Session, i: Input): Session {
    match i
    case Frame(f, at) => Accept(s, f, at).session
    case Setup(n) => SetupResult(s, n).session
    case Check(now) => CheckLiveness(s, now).session
  }

  function FeedAll(s: Session, inputs: seq<Input>): Session
    decreases |inputs|
  {
    if inputs == [] then s else FeedAll(Feed(s, inputs[0]), inputs[1..])
  }

  /** Once a source failed or was revoked, no later frame, liveness or POST acknowledgement in
      any order makes it ready again. */
  lemma {:induction false} FailedStaysFailed(s: Session, inputs: seq<Input>, source: Source)
    requires ValidSession(s) && source in s.failed
    ensures source in FeedAll(s, inputs).failed && !SourceReady(FeedAll(s, inputs), source)
    decreases |inputs|
  {
    if inputs != [] {
      match inputs[0] {
        case Frame(f, at) => AcceptStep(s, f, at);
        case Setup(n) => SetupStep(s, n);
        case Check(now) => LivenessStep(s, now);
      }
      FailedStaysFailed(Feed(s, inputs[0]), inputs[1..], source);
    }
  }

  // ----- the class -----

  /** The source raises a ProbeError where these methods return a code. */
  class SessionReadiness {
    const serial: nat
    const specs: set<Source>
    var sessionId: Option<string>
    var timeout: int
    var lastLiveness: Option<Reading>
    var ids: map<Source, string>
    var failed: set<Source>
    var deliverySeen: set<Source>
    var responsive: bool
    var inGrace: bool

    function View(): Session
      reads this
    {
      Session(serial, specs, sessionId, timeout, lastLiveness, ids, failed, deliverySeen, responsive, inGrace)
    }

    constructor (serial: nat, specs: set<Source>)
      ensures View() == NewSession(serial, specs)
    {
      this.serial, this.specs := serial, specs;
      sessionId, timeout, lastLiveness := None, 0, None;
      ids, failed, deliverySeen, responsive, inGrace := map[], {}, {}, false, false;
    }

    predicate IsReady()
      reads this
      ensures IsReady() == Ready(View())
    {
      responsive && !inGrace && failed == {} && ids.Keys == specs
    }

    predicate SourceIsReady(source: Source)
      reads this
      ensures SourceIsReady(source) == SourceReady(View(), source)
    {
      responsive && !inGrace && source in ids && source !in failed
    }

    method TakeSetupResult(n: Notice) returns (error: Option<Code>)
      modifies this`failed, this`ids
      ensures Checked(View(), error) == SetupResult(old(View()), n)
    {
      if n.source == None || n.fatal {
        return Some(if n.error == Some(InternalError) then InternalFailure else AuthorizationFailed);
      }
      if n.source.value !in specs { return Some(InternalFailure); }
      if n.error.Some? {
        failed := failed + {n.source.value};
      } else if n.source.value !in failed {
        // A revocation can arrive before the acknowledgement of its POST.
        if n.subscriptionId == "" { return Some(InternalFailure); }
        ids := ids[n.source.value := n.subscriptionId];
      }
      error := None;
    }

    method CheckLivenessAt(now: Reading) returns (error: Option<Code>)
      modifies this`inGrace
      ensures Checked(View(), error) == CheckLiveness(old(View()), now)
      ensures error == if Dead(old(View()), now) then Some(KeepaliveTimedOut) else None
      ensures View() == if Dead(old(View()), now) then old(View()) else Graced(old(View()), now)
    {
      if lastLiveness.Some? {
        var age := Age(now, lastLiveness.value);
        if age > timeout + KEEPALIVE_GRACE { return Some(KeepaliveTimedOut); }
        if age > timeout { inGrace := true; }
      }
      error := None;
    }

    method NoteLiveness(now: Reading)
      modifies this`inGrace, this`lastLiveness, this`responsive
      ensures View() == ReceivedLiveness(old(View()), now)
    {
      inGrace, lastLiveness, responsive := false, Some(now), true;
    }

    method AcceptAt(frame: Frame, now: Reading) returns (outcome: Outcome)
      modifies this
      ensures Accepted(View(), outcome) == Accept(old(View()), frame, now)
    {
      var error := CheckLivenessAt(now);
      if error.Some? { return Rejected(error.value); }
      outcome := Classify(frame, now);
    }

    /** The part of accept after the liveness check. */
    method Classify(frame: Frame, now: Reading) returns (outcome: Outcome)
      modifies this
      ensures Accepted(View(), outcome) == AcceptFrame(old(View()), frame, now)
    {
      if sessionId == None {
        if !frame.Welcome? || frame.sessionId == "" || !(10 <= frame.keepaliveSeconds <= 600) { return Rejected(InvalidMessage); }
        sessionId, timeout, lastLiveness := Some(frame.sessionId), Seconds(frame.keepaliveSeconds), Some(now);
        return Nothing;
      }
      match frame
      case Reconnect(id, url) =>
        outcome := if sessionId == Some(id) then ReconnectRequest(url) else Rejected(InvalidMessage);
      case Keepalive =>
        NoteLiveness(now);
        outcome := Nothing;
      case Revocation(e, m) =>
        if !EnvelopeFits(View(), e) || e.enabled { return Rejected(InvalidMessage); }
        failed := failed + {e.source};
        outcome := Deliver(Delivery(true, e.source, m));
      case Notification(e, m) =>
        if !EnvelopeFits(View(), e) || !e.enabled { return Rejected(InvalidMessage); }
        NoteLiveness(now);
        if e.source in ids && e.source !in failed { deliverySeen := deliverySeen + {e.source}; }
        outcome := Deliver(Delivery(false, e.source, m));
      case Malformed => outcome := Rejected(InvalidMessage);
      case Welcome(_, _) => outcome := Rejected(InvalidMessage);
    }
  }
}
