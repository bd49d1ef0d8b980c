/** The dispatch of a coding worker and its crash-safe tool exchange: session and
    turn are recorded before anything is read, and every handover of a tool result
    to the provider is bracketed by durable submission records. A process may stop
    between any two actions; what survives is the store after a prefix of the
    trace. */
module ToolExchange {
  import opened Prelude

  datatype Turn = Turn(session: nat, number: nat)

  datatype Key = Key(turn: Turn, sequence: nat)

  datatype Submission = Intent | Uncertain | Submitted(next: Turn)

  /** The submission rows, effect claims and tool events of one implementation
      attempt. */
  datatype Rows = Rows(submissions: map<Key, Submission>, claims: map<nat, nat>, events: map<Key, nat>)

  const MaxToolSteps := 32

  // ------------------------------------------------------------------ the store

  /** `record_submission`; `None` is a raised conflict. */
  function Recorded(s: Rows, k: Key, state: Submission): Option<Rows> {
    if k in s.submissions then
      if s.submissions[k] == state then Some(s)
      else if s.submissions[k].Intent? then Some(s.(submissions := s.submissions[k := state]))
      else None
    else if state.Submitted? then None
    else Some(s.(submissions := s.submissions[k := state]))
  }

  /** `append`: an event is written once, and a repetition must be the same. */
  function Appended(s: Rows, k: Key, record: nat): Option<Rows> {
    if k !in s.events then Some(s.(events := s.events[k := record]))
    else if s.events[k] == record then Some(s)
    else None
  }

  /** Nothing is on record that a first dispatch could run into. */
  predicate Blank(s: Rows) {
    s.submissions == map[] && s.events == map[]
  }

  predicate Open(state: Submission) {
    state.Intent? || state.Uncertain?
  }

  predicate Unsettled(s: Rows) {
    exists k :: k in s.submissions && Open(s.submissions[k])
  }

  /** `requires_reconciliation`. */
  predicate RequiresReconciliation(s: Rows, acknowledged: set<nat>) {
    Unsettled(s) || exists q :: q in s.claims && q !in acknowledged
  }

  /** A submission that was made final, either way, stays as it is. */
  lemma FinalSubmissionStays(s: Rows, k: Key, l: Key, state: Submission)
    requires k in s.submissions && !s.submissions[k].Intent?
    ensures Recorded(s, l, state).Some? ==>
        k in Recorded(s, l, state).value.submissions && Recorded(s, l, state).value.submissions[k] == s.submissions[k]
  {
  }

  // ------------------------------------------------------------------ the trace

  /** What happens, in order: reads from the provider and handovers to it, local
      effects, and writes that are durable once they have happened. */
  datatype Action =
    | DispatchClaimed
    | Opened(session: nat)
    | SessionRecorded(session: nat)
    | Started(turn: Turn)
    | Checkpointed(turn: Turn)
    | Read(turn: Turn)
    | Claimed(sequence: nat, digest: nat)
    | Performed(sequence: nat, digest: nat)
    | Logged(key: Key, record: nat)
    | Intended(key: Key)
    | Handed(key: Key)
    | Marked(key: Key)
    | Settled(key: Key, next: Turn)

  function Apply(s: Rows, a: Action): Rows {
    match a
    case Claimed(q, digest) => s.(claims := s.claims[q := digest])
    case Logged(k, record) => s.(events := s.events[k := record])
    case Intended(k) => s.(submissions := s.submissions[k := Intent])
    case Marked(k) => s.(submissions := s.submissions[k := Uncertain])
    case Settled(k, next) => s.(submissions := s.submissions[k := Submitted(next)])
    case _ => s
  }

  /** The store that a crash after these actions leaves behind. */
  function Durable(start: Rows, trace: seq<Action>): Rows {
    if trace == [] then start else Apply(Durable(start, trace[..|trace| - 1]), trace[|trace| - 1])
  }

  /** A result may have reached the provider, and the turn that answers it is
      not recorded with its submission. */
  ghost predicate Exposed(trace: seq<Action>, k: Key) {
    Handed(k) in trace && forall next :: Settled(k, next) !in trace
  }

  /** Wherever the process stops, an exposed handover is visible in the store. */
  ghost predicate CrashSafe(start: Rows, trace: seq<Action>) {
    forall n :: 0 <= n <= |trace| ==> SafeAt(start, trace[..n])
  }

  ghost predicate SafeAt(start: Rows, prefix: seq<Action>) {
    forall k :: Exposed(prefix, k) ==>
        k in Durable(start, prefix).submissions && Open(Durable(start, prefix).submissions[k])
  }

  /** What must have happened before `a`: nothing is opened before the dispatch is
      claimed, no turn is started or recorded before its session is recorded, no
      step is read from a turn and nothing handed over to it before that turn is
      recorded, and an effect is claimed before it is performed, once. */
  ghost predicate Follows(past: seq<Action>, a: Action) {
    match a
    case Opened(_) => DispatchClaimed in past
    case SessionRecorded(session) => Opened(session) in past
    case Started(turn) => SessionRecorded(turn.session) in past
    case Checkpointed(turn) => SessionRecorded(turn.session) in past
    case Read(turn) => Checkpointed(turn) in past
    case Handed(k) => Checkpointed(k.turn) in past && Intended(k) in past
    case Performed(q, digest) => Claimed(q, digest) in past && forall d :: Performed(q, d) !in past
    case _ => true
  }

  ghost predicate Ordered(trace: seq<Action>) {
    forall i {:trigger trace[..i]} :: 0 <= i < |trace| ==> Follows(trace[..i], trace[i])
  }

  /** The sequences of the intents, in order. */
  function IntentsOf(trace: seq<Action>): seq<nat> {
    if trace == [] then []
    else IntentsOf(trace[..|trace| - 1]) + if trace[|trace| - 1].Intended? then [trace[|trace| - 1].key.sequence]
        else []
  }

  function OneTo(n: nat): seq<nat> {
    seq(n, i => i + 1)
  }

  ghost function ReadCount(trace: seq<Action>): nat {
    if trace == [] then 0 else ReadCount(trace[..|trace| - 1]) + if trace[|trace| - 1].Read? then 1 else 0
  }

  // ---------------------------------------------------------- one more action

  lemma Extend(start: Rows, trace: seq<Action>, a: Action)
    requires CrashSafe(start, trace) && SafeAt(start, trace + [a])
    requires Ordered(trace) && Follows(trace, a)
    ensures CrashSafe(start, trace + [a]) && Ordered(trace + [a])
    ensures Durable(start, trace + [a]) == Apply(Durable(start, trace), a)
    ensures IntentsOf(trace + [a]) == IntentsOf(trace) + if a.Intended? then [a.key.sequence] else []
    ensures ReadCount(trace + [a]) == ReadCount(trace) + if a.Read? then 1 else 0
  {
    var longer := trace + [a];
    assert longer[..|longer| - 1] == trace;
    forall n | 0 <= n <= |longer| ensures SafeAt(start, longer[..n]) {
      if n <= |trace| {
        assert longer[..n] == trace[..n];
      } else {
        assert longer[..n] == longer;
      }
    }
    forall i | 0 <= i < |longer| ensures Follows(longer[..i], longer[i]) {
      assert longer[..i] == trace[..i];
    }
  }

  /** An effect without a claim in the store was never performed. */
  lemma {:induction false} UnclaimedIsUnperformed(start: Rows, trace: seq<Action>, q: nat)
    requires Ordered(trace) && q !in Durable(start, trace).claims
    ensures forall d :: Claimed(q, d) !in trace && Performed(q, d) !in trace
  {
    if trace != [] {
      var before, a := trace[..|trace| - 1], trace[|trace| - 1];
      assert trace == before + [a];
      forall i | 0 <= i < |before| ensures Follows(before[..i], before[i]) {
        assert before[..i] == trace[..i];
      }
      UnclaimedIsUnperformed(start, before, q);
      assert Follows(trace[..|before|], trace[|before|]);
    }
  }

  /** Nothing exposed but, at most, one key whose intent is on record. */
  ghost predicate Guarded(start: Rows, trace: seq<Action>, current: Option<Key>) {
    forall k :: Exposed(trace, k) ==>
        Some(k) == current && k in Durable(start, trace).submissions && Open(Durable(start, trace).submissions[k])
  }

  /** The bracket around a handover: intent, handover, then settled or uncertain. */
  predicate InBracket(s: Rows, current: Option<Key>, a: Action) {
    match a
    case Intended(k) => current == None
    case Handed(k) => current == Some(k) && k in s.submissions && Open(s.submissions[k])
    case Marked(k) => current == Some(k)
    case Settled(k, _) => current == Some(k)
    case _ => true
  }

  /** The handover that is under way after `a`. */
  function UnderWay(current: Option<Key>, a: Action): Option<Key> {
    match a case Intended(k) => Some(k) case Settled(k, _) => None case _ => current
  }

  lemma GuardedNext(start: Rows, trace: seq<Action>, current: Option<Key>, a: Action)
    requires Guarded(start, trace, current) && InBracket(Durable(start, trace), current, a)
    ensures SafeAt(start, trace + [a])
    ensures Guarded(start, trace + [a], UnderWay(current, a))
  {
    var longer := trace + [a];
    assert longer[..|longer| - 1] == trace;
    forall k | Exposed(longer, k)
      ensures Some(k) == UnderWay(current, a) && k in Durable(start, longer).submissions
      ensures Open(Durable(start, longer).submissions[k])
    {
      assert a != Handed(k) ==> Exposed(trace, k);
    }
  }

  /** Stopping at any point after a result may have been handed over, before its
      submission is settled, leaves reconciliation required, whatever a restart
      counts as acknowledged. */
  lemma StoppedWhileExposed(start: Rows, trace: seq<Action>, n: nat, k: Key, acknowledged: set<nat>)
    requires CrashSafe(start, trace) && n <= |trace| && Exposed(trace[..n], k)
    ensures RequiresReconciliation(Durable(start, trace[..n]), acknowledged)
  {
    assert SafeAt(start, trace[..n]);
  }

  /** The same for every point of the trace. */
  ghost predicate AlwaysReported(start: Rows, trace: seq<Action>) {
    forall n, k, acknowledged :: 0 <= n <= |trace| && Exposed(trace[..n], k) ==>
      RequiresReconciliation(Durable(start, trace[..n]), acknowledged)
  }

  lemma CrashesAreReported(start: Rows, trace: seq<Action>)
    requires CrashSafe(start, trace)
    ensures AlwaysReported(start, trace)
  {
    forall n, k, acknowledged | 0 <= n <= |trace| && Exposed(trace[..n], k)
      ensures RequiresReconciliation(Durable(start, trace[..n]), acknowledged)
    {
      StoppedWhileExposed(start, trace, n, k, acknowledged);
    }
  }

  // --------------------------------------------------------------- the exchange

  datatype Answer = Response | Request(sequence: nat, digest: nat) | Neither | Unreadable

  /** How every outside party behaves in one round: a false flag is a raised
      error, `record` is the event that the tool callback logs, `ambiguous` the one
      for a replayed claim, and `next` is the turn that a submission leads to, in the
      session at hand. */
  datatype Round = Round(
    admitsRead: bool, answer: Answer,
    granted: bool, claims: bool, performs: bool, logs: bool, record: nat, ambiguous: nat,
    admitsIntent: bool, intentWrites: bool,
    admitsSubmit: bool, submits: bool,
    admitsNext: bool, next: nat, nextWrites: bool, nextReturns: bool,
    admitsUncertain: bool, uncertainWrites: bool,
    admitsSettled: bool, settledWrites: bool)

  datatype Outcome = Answered | ProtocolError | Raised

  datatype RoundResult = Ends(outcome: Outcome) | Goes(next: Turn)

  /** A round in which everyone plays along with a request of the right sequence. */
  predicate Smooth(round: Round, expected: nat) {
    && round.admitsRead && round.answer.Request? && round.answer.sequence == expected && PerformsWell(round)
        && SubmitsWell(round)
  }

  predicate PerformsWell(round: Round) {
    !round.granted || (round.claims && round.performs && round.logs)
  }

  /** The tool callback gets to the end: nothing to reconcile, a claim that is fresh
      or the same as before, an effect that comes back if it is run, and its event. */
  ghost predicate Performs(round: Round, s: Rows, k: Key, digest: nat, acknowledged: set<nat>) {
    && !RequiresReconciliation(s, acknowledged) && round.claims && round.logs
    && (k.sequence in s.claims ==> s.claims[k.sequence] == digest && Appended(s, k, round.ambiguous).Some?)
    && (k.sequence !in s.claims ==> round.performs && Appended(s, k, round.record).Some?)
  }

  predicate SubmitsWell(round: Round) {
    && round.admitsIntent && round.intentWrites && round.admitsSubmit && round.submits
    && round.admitsNext && round.nextWrites && round.nextReturns && round.admitsSettled && round.settledWrites
  }

  /** Round `n` answers after nothing but smooth rounds. */
  ghost predicate AnsweredAt(rounds: nat -> Round, n: nat) {
    && 1 <= n <= MaxToolSteps && rounds(n).admitsRead && rounds(n).answer.Response?
    && forall m :: 1 <= m < n ==> Smooth(rounds(m), m)
  }

  lemma NoAnswer(rounds: nat -> Round, e: nat)
    requires e >= 1 && forall m :: 1 <= m < e ==> Smooth(rounds(m), m)
    requires e > MaxToolSteps || (!Smooth(rounds(e), e) && !(rounds(e).admitsRead && rounds(e).answer.Response?))
    ensures forall n :: !AnsweredAt(rounds, n)
  {
    forall n: nat ensures !AnsweredAt(rounds, n) {
      if 1 <= n < e {
        assert Smooth(rounds(n), n);
      } else if e < n <= MaxToolSteps {
        assert !Smooth(rounds(e), e);
      }
    }
  }

  // --------------------------------------------------------------- the dispatch

  datatype Fault = AdapterFault | WorkerFault | OtherFault

  /** One step of the prologue: done, raised before its effect, or raised after. */
  datatype Step = Done | Unreached(fault: Fault) | Torn(fault: Fault)

  /** How every outside party behaves before the exchange; `resume` is the session
      that the request asks for, `session` and `number` are what it gets. */
  datatype Script = Script(
    enters: bool, resume: Option<nat>,
    claim: Step, opening: Step, session: nat, record: Step,
    starting: Step, number: nat, checkpoint: Step,
    exchangeFault: Fault)

  datatype Delivery = Refused | Blocked | Ambiguous | Responded

  /** How an error of the prologue ends the dispatch. */
  function Failed(fault: Fault): Delivery {
    match fault case AdapterFault => Blocked case WorkerFault => Refused case OtherFault => Ambiguous
  }

  predicate Resumes(script: Script) {
    script.resume == None || script.resume == Some(script.session)
  }

  predicate SessionRuns(script: Script) {
    script.claim.Done? && script.opening.Done? && Resumes(script) && script.record.Done?
  }

  predicate PrologueRuns(script: Script) {
    script.enters && SessionRuns(script) && script.starting.Done? && script.checkpoint.Done?
  }

  /** The end of a dispatch whose session is not opened and recorded. */
  function SessionFailure(script: Script): Delivery
    requires !SessionRuns(script)
  {
    if !script.claim.Done? then Failed(script.claim.fault)
    else if !script.opening.Done? then Failed(script.opening.fault)
    else if !Resumes(script) then Ambiguous
    else Failed(script.record.fault)
  }

  /** The end of a dispatch that never comes to its exchange. */
  function PrologueFailure(script: Script): Delivery
    requires !PrologueRuns(script)
  {
    if !script.enters then Refused
    else if !SessionRuns(script) then SessionFailure(script)
    else Failed(if !script.starting.Done? then script.starting.fault else script.checkpoint.fault)
  }

  class CodingStore {
    var submissions: map<Key, Submission>
    var claims: map<nat, nat>
    var events: map<Key, nat>
    ghost const start: Rows
    ghost var trace: seq<Action>

    ghost function View(): Rows
      reads this
    {
      Rows(submissions, claims, events)
    }

    /** The store is what the trace made of it, and every prefix was safe. */
    ghost predicate Valid()
      reads this
    {
      View() == Durable(start, trace) && CrashSafe(start, trace) && Ordered(trace)
    }

    ghost predicate Known(turn: Turn)
      reads this
    {
      SessionRecorded(turn.session) in trace && Checkpointed(turn) in trace
    }

    constructor (submissions: map<Key, Submission>, claims: map<nat, nat>, events: map<Key, nat>)
      ensures start == View() == Rows(submissions, claims, events) && trace == []
      ensures Valid() && Guarded(start, trace, None)
    {
      this.submissions, this.claims, this.events := submissions, claims, events;
      start, trace := Rows(submissions, claims, events), [];
    }

    /** An action has happened: inside the brackets, every prefix stays safe. */
    ghost method Happened(a: Action, current: Option<Key>)
      requires View() == Apply(Durable(start, trace), a) && CrashSafe(start, trace)
      requires Ordered(trace) && Follows(trace, a)
      requires Guarded(start, trace, current) && InBracket(Durable(start, trace), current, a)
      modifies this`trace
      ensures Valid() && Guarded(start, trace, UnderWay(current, a)) && trace == old(trace) + [a]
      ensures IntentsOf(trace) == IntentsOf(old(trace)) + if a.Intended? then [a.key.sequence] else []
      ensures ReadCount(trace) == ReadCount(old(trace)) + if a.Read? then 1 else 0
    {
      GuardedNext(start, trace, current, a);
      Extend(start, trace, a);
      trace := trace + [a];
    }

    /** `claim_effect`: a replayed claim is never permission to repeat an effect. */
    method ClaimEffect(sequence: nat, digest: nat) returns (ok: bool, isFresh: bool)
      modifies this`claims
      ensures isFresh <==> sequence !in old(claims)
      ensures ok <==> isFresh || old(claims)[sequence] == digest
      ensures claims == if isFresh then old(claims)[sequence := digest] else old(claims)
    {
      if sequence in claims {
        return claims[sequence] == digest, false;
      }
      claims := claims[sequence := digest];
      return true, true;
    }

    /** `append`: a tool event is written once; a differing repetition conflicts. */
    method Append(k: Key, record: nat) returns (ok: bool)
      modifies this`events
      ensures var o := Appended(old(View()), k, record); ok == o.Some? && View() == if ok then o.value else old(View())
    {
      if k in events {
        return events[k] == record;
      }
      events := events[k := record];
      ok := true;
    }

    method RecordSubmission(k: Key, state: Submission) returns (ok: bool)
      modifies this`submissions
      ensures var o := Recorded(old(View()), k, state); ok == o.Some? && View() == if ok then o.value else old(View())
    {
      if k in submissions {
        if submissions[k] == state {
          return true;
        }
        if !submissions[k].Intent? {
          return false;
        }
      } else if state.Submitted? {
        return false;
      }
      submissions := submissions[k := state];
      ok := true;
    }

    /** Between rounds: nothing exposed, nothing open, every claim acknowledged. */
    ghost predicate Between(turn: Turn, expected: nat, acknowledged: set<nat>)
      reads this
    {
      && Valid() && Guarded(start, trace, None) && Known(turn) && expected >= 1
      && IntentsOf(trace) == OneTo(expected - 1) && ReadCount(trace) == expected - 1
      && !Unsettled(View()) && (forall q :: q in claims ==> q in acknowledged && q < expected) && NewKeys(expected)
    }

    /** A store that was blank holds only what earlier rounds recorded. */
    ghost predicate NewKeys(expected: nat)
      reads this
    {
      Blank(start) ==> forall k :: k in submissions || k in events ==> k.sequence < expected
    }

    /** Whatever happened in a round: at most one more intent and one more read. */
    ghost predicate Bounded(expected: nat)
      reads this
    {
      && Valid() && expected >= 1
      && (IntentsOf(trace) == OneTo(expected - 1) || IntentsOf(trace) == OneTo(expected))
          && ReadCount(trace) <= expected
    }

    /** The tool callback: refused while reconciliation is due; an effect runs on a
        fresh claim only, and a replayed one is logged as ambiguous without it. */
    method Perform(round: Round, turn: Turn, expected: nat, digest: nat, acknowledged: set<nat>) returns (ok: bool)
      requires Midway(turn, expected)
      modifies this`claims, this`events, this`trace
      ensures ok <==> !round.granted || Performs(round, old(View()), Key(turn, expected), digest, acknowledged)
      ensures Midway(turn, expected)
      ensures forall q :: q in claims ==> q in old(claims) || q == expected
      ensures forall k :: k in events ==> k in old(events) || k == Key(turn, expected)
      ensures ok && round.granted ==>
        events == old(events)[Key(turn, expected) := if expected in old(claims) then round.ambiguous else round.record]
    {
      if !round.granted {
        return true;
      }
      if RequiresReconciliation(Rows(submissions, claims, events), acknowledged) || !round.claims {
        return false;
      }
      var known, isFresh := ClaimAndRun(turn, expected, digest);
      if !known || (isFresh && !round.performs) || !round.logs {
        return false;
      }
      ok := Log(turn, expected, if isFresh then round.record else round.ambiguous);
    }

    /** Run the effect on a fresh claim only. */
    method ClaimAndRun(turn: Turn, expected: nat, digest: nat) returns (known: bool, isFresh: bool)
      requires Midway(turn, expected)
      modifies this`claims, this`trace
      ensures Midway(turn, expected)
      ensures isFresh <==> expected !in old(claims)
      ensures known <==> isFresh || old(claims)[expected] == digest
      ensures trace == if isFresh then old(trace) + [Claimed(expected, digest), Performed(expected, digest)]
          else old(trace)
      ensures forall q :: q in claims ==> q in old(claims) || q == expected
    {
      ghost var before := trace;
      known, isFresh := ClaimEffect(expected, digest);
      if isFresh {
        UnclaimedIsUnperformed(start, trace, expected);
        Happened(Claimed(expected, digest), None);
        assert trace == before + [Claimed(expected, digest)];
        Happened(Performed(expected, digest), None);
      }
    }

    method Log(turn: Turn, expected: nat, record: nat) returns (ok: bool)
      requires Midway(turn, expected)
      modifies this`events, this`trace
      ensures Midway(turn, expected)
      ensures ok <==> Appended(old(View()), Key(turn, expected), record).Some?
      ensures ok ==> events == old(events)[Key(turn, expected) := record]
      ensures forall k :: k in events ==> k in old(events) || k == Key(turn, expected)
    {
      ok := Append(Key(turn, expected), record);
      if ok {
        Happened(Logged(Key(turn, expected), record), None);
      }
    }

    /** In the middle of round `expected`, before its intent. */
    ghost predicate Midway(turn: Turn, expected: nat)
      reads this
    {
      && Valid() && Guarded(start, trace, None) && Known(turn) && expected >= 1
      && IntentsOf(trace) == OneTo(expected - 1) && ReadCount(trace) == expected && !Unsettled(View())
    }

    /** Record the intent, unless the key was settled before. */
    method Intend(round: Round, turn: Turn, expected: nat) returns (ok: bool)
      requires Midway(turn, expected)
      modifies this`submissions, this`trace
      ensures Valid() && ReadCount(trace) == expected
      ensures ok <==> round.admitsIntent && round.intentWrites && Key(turn, expected) !in old(submissions)
      ensures !ok ==> IntentsOf(trace) == OneTo(expected - 1)
      ensures ok ==> IntentsOf(trace) == OneTo(expected) && Guarded(start, trace, Some(Key(turn, expected)))
      ensures ok ==> Known(turn) && Intended(Key(turn, expected)) in trace
      ensures submissions == if ok then old(submissions)[Key(turn, expected) := Intent] else old(submissions)
    {
      var k := Key(turn, expected);
      if !round.admitsIntent || !round.intentWrites {
        return false;
      }
      ok := RecordSubmission(k, Intent);
      if ok {
        Happened(Intended(k), None);
        assert OneTo(expected) == OneTo(expected - 1) + [expected];
      }
    }

    /** Hand the result over between its intent and its settlement. */
    method Submit(round: Round, turn: Turn, expected: nat) returns (next: Option<Turn>)
      requires Midway(turn, expected)
      modifies this`submissions, this`trace
      ensures Bounded(expected)
      ensures next.Some? <==> SubmitsWell(round) && Key(turn, expected) !in old(submissions)
      ensures next.Some? ==>
        && next.value == Turn(turn.session, round.next) && Known(next.value)
        && submissions == old(submissions)[Key(turn, expected) := Submitted(next.value)]
        && Guarded(start, trace, None) && IntentsOf(trace) == OneTo(expected) && ReadCount(trace) == expected
    {
      var k := Key(turn, expected);
      var intended := Intend(round, turn, expected);
      if !intended {
        return None;
      }
      var handed := HandOver(round, k);
      if !handed {
        if round.admitsUncertain && round.uncertainWrites {
          Close(k, Uncertain, Marked(k));
        }
        return None;
      }
      if !round.admitsSettled || !round.settledWrites {
        return None;
      }
      var after := Turn(turn.session, round.next);
      Close(k, Submitted(after), Settled(k, after));
      next := Some(after);
    }

    /** Give the intent its final state. */
    method Close(k: Key, state: Submission, ghost a: Action)
      requires Valid() && Guarded(start, trace, Some(k)) && k in submissions && submissions[k].Intent?
      requires (state.Uncertain? && a == Marked(k)) || (state.Submitted? && a == Settled(k, state.next))
      modifies this`submissions, this`trace
      ensures Valid() && submissions == old(submissions)[k := state] && trace == old(trace) + [a]
      ensures Guarded(start, trace, UnderWay(Some(k), a))
      ensures IntentsOf(trace) == IntentsOf(old(trace)) && ReadCount(trace) == ReadCount(old(trace))
    {
      var _ := RecordSubmission(k, state);
      Happened(a, Some(k));
    }

    /** The rest of a round with a request of the right sequence. */
    method Respond(round: Round, turn: Turn, expected: nat, digest: nat, acknowledged: set<nat>)
      returns (next: Option<Turn>)
      requires Midway(turn, expected) && NewKeys(expected)
      requires forall q :: q in claims ==> q in acknowledged && q < expected
      modifies this`submissions, this`claims, this`events, this`trace
      ensures Bounded(expected)
      ensures next.Some? ==>
        PerformsWell(round) && SubmitsWell(round) && Between(next.value, expected + 1, acknowledged + {expected})
      ensures Blank(start) && PerformsWell(round) && SubmitsWell(round) ==> next.Some?
    {
      var performed := Perform(round, turn, expected, digest, acknowledged);
      if !performed {
        return None;
      }
      next := Submit(round, turn, expected);
    }

    /** Submit and record the turn that answers; false is any raised error. */
    method HandOver(round: Round, k: Key) returns (ok: bool)
      requires Valid() && Guarded(start, trace, Some(k)) && k in submissions && submissions[k].Intent?
      requires Known(k.turn) && Intended(k) in trace
      modifies this`trace
      ensures Valid() && Guarded(start, trace, Some(k))
      ensures IntentsOf(trace) == IntentsOf(old(trace)) && ReadCount(trace) == ReadCount(old(trace))
      ensures ok <==> round.admitsSubmit && round.submits && round.admitsNext && round.nextWrites && round.nextReturns
      ensures ok ==> Known(Turn(k.turn.session, round.next))
    {
      if !round.admitsSubmit {
        return false;
      }
      Happened(Handed(k), Some(k));
      if !round.submits || !round.admitsNext || !round.nextWrites {
        return false;
      }
      Happened(Checkpointed(Turn(k.turn.session, round.next)), Some(k));
      ok := round.nextReturns;
    }

    /** One round of the loop. */
    method TakeRound(round: Round, turn: Turn, expected: nat, acknowledged: set<nat>) returns (result: RoundResult)
      requires Between(turn, expected, acknowledged)
      modifies this`submissions, this`claims, this`events, this`trace
      ensures Bounded(expected)
      ensures result.Goes? ==> Smooth(round, expected) && Between(result.next, expected + 1, acknowledged + {expected})
      ensures result == Ends(Answered) ==> round.admitsRead && round.answer.Response? && Midway(turn, expected)
      ensures result.Ends? && !result.outcome.Answered? && Blank(start) ==>
        !Smooth(round, expected) && !(round.admitsRead && round.answer.Response?)
    {
      if !round.admitsRead {
        return Ends(Raised);
      }
      Happened(Read(turn), None);
      match round.answer {
        case Response => return Ends(Answered);
        case Unreadable => return Ends(Raised);
        case Neither => return Ends(ProtocolError);
        case Request(sequence, digest) =>
          if sequence != expected {
            return Ends(ProtocolError);
          }
          var next := Respond(round, turn, expected, digest, acknowledged);
          return if next.Some? then Goes(next.value) else Ends(Raised);
      }
    }

    /** Before the exchange: nothing read, intended, exposed or left to reconcile. */
    ghost predicate Prepared()
      reads this
    {
      && Valid() && View() == start && !RequiresReconciliation(start, {}) && Guarded(start, trace, None)
      && IntentsOf(trace) == [] && ReadCount(trace) == 0
    }

    /** What every exchange leaves: intents 1, 2, ... within the bound, and every
        crash reported. */
    ghost predicate Disciplined()
      reads this
    {
      && Valid() && AlwaysReported(start, trace) && ReadCount(trace) <= MaxToolSteps
      && |IntentsOf(trace)| <= MaxToolSteps && IntentsOf(trace) == OneTo(|IntentsOf(trace)|)
    }

    /** `_consume_steps`: at most 32 rounds with sequences 1, 2, ..., each step read
        from a recorded turn; wherever the process stops after a handover that is not
        settled, the store asks for reconciliation. */
    method ConsumeSteps(first: Turn, rounds: nat -> Round) returns (outcome: Outcome)
      requires Prepared() && Known(first)
      modifies this`submissions, this`claims, this`events, this`trace
      ensures Disciplined()
      ensures forall n, k, acknowledged :: 0 <= n <= |trace| && Exposed(trace[..n], k) ==>
        RequiresReconciliation(Durable(start, trace[..n]), acknowledged)
      ensures outcome.Answered? ==>
        !Unsettled(View()) && (forall k :: !Exposed(trace, k)) && AnsweredAt(rounds, |IntentsOf(trace)| + 1)
      ensures Blank(start) && !outcome.Answered? ==> forall n :: !AnsweredAt(rounds, n)
    {
      var expected, turn, acknowledged: set<nat> := 1, first, {};
      while expected <= MaxToolSteps
        invariant 1 <= expected <= MaxToolSteps + 1 && Between(turn, expected, acknowledged)
        invariant forall m :: 1 <= m < expected ==> Smooth(rounds(m), m)
      {
        var result := TakeRound(rounds(expected), turn, expected, acknowledged);
        if result.Ends? {
          if !result.outcome.Answered? && Blank(start) {
            NoAnswer(rounds, expected);
          }
          CrashesAreReported(start, trace);
          return result.outcome;
        }
        turn, acknowledged, expected := result.next, acknowledged + {expected}, expected + 1;
      }
      NoAnswer(rounds, expected);
      CrashesAreReported(start, trace);
      outcome := ProtocolError;
    }

    /** One step of the prologue, whose action touches none of the rows. */
    method TakeStep(step: Step, a: Action) returns (fault: Option<Fault>)
      requires Prepared() && Follows(trace, a)
      requires a.DispatchClaimed? || a.Opened? || a.SessionRecorded? || a.Started? || a.Checkpointed?
      modifies this`trace
      ensures Prepared()
      ensures fault == (if step.Done? then None else Some(step.fault))
      ensures trace == if step.Unreached? then old(trace) else old(trace) + [a]
    {
      if step.Unreached? {
        return Some(step.fault);
      }
      Happened(a, None);
      fault := if step.Torn? then Some(step.fault) else None;
    }

    /** Claim the dispatch, open the session asked for and record it. */
    method OpenSession(script: Script) returns (failure: Option<Delivery>)
      requires Prepared()
      modifies this`trace
      ensures Prepared()
      ensures failure == None <==> SessionRuns(script)
      ensures failure == None ==> SessionRecorded(script.session) in trace
      ensures failure.Some? ==> failure.value == SessionFailure(script)
    {
      var fault := TakeStep(script.claim, DispatchClaimed);
      if fault.Some? {
        return Some(Failed(fault.value));
      }
      fault := TakeStep(script.opening, Opened(script.session));
      if fault.Some? {
        return Some(Failed(fault.value));
      }
      if !Resumes(script) {
        return Some(Ambiguous);
      }
      fault := TakeStep(script.record, SessionRecorded(script.session));
      failure := if fault.Some? then Some(Failed(fault.value)) else None;
    }

    /** Start the turn and record it. */
    method StartTurn(script: Script, turn: Turn) returns (failure: Option<Delivery>)
      requires Prepared() && SessionRecorded(turn.session) in trace
      modifies this`trace
      ensures Prepared()
      ensures failure == None <==> script.starting.Done? && script.checkpoint.Done?
      ensures failure == None ==> Known(turn)
      ensures failure.Some? && SessionRuns(script) && script.enters ==> failure.value == PrologueFailure(script)
    {
      var fault := TakeStep(script.starting, Started(turn));
      if fault.Some? {
        return Some(Failed(fault.value));
      }
      fault := TakeStep(script.checkpoint, Checkpointed(turn));
      failure := if fault.Some? then Some(Failed(fault.value)) else None;
    }

    /** `dispatch` of the coding worker: refused while reconciliation is due; a step
        is read only after dispatch, session and turn were recorded in this order; a
        response exactly when the whole prologue runs and the exchange answers. */
    method Dispatch(script: Script, rounds: nat -> Round) returns (delivery: Delivery)
      requires trace == [] && Valid()
      modifies this`submissions, this`claims, this`events, this`trace
      ensures Disciplined()
      ensures RequiresReconciliation(start, {}) ==> delivery.Refused? && trace == []
      ensures !PrologueRuns(script) ==> View() == start && ReadCount(trace) == 0
      ensures !RequiresReconciliation(start, {}) && !PrologueRuns(script) ==> delivery == PrologueFailure(script)
      ensures delivery.Responded? ==>
          PrologueRuns(script) && !Unsettled(View()) && AnsweredAt(rounds, |IntentsOf(trace)| + 1)
      ensures Blank(start) && !RequiresReconciliation(start, {}) && PrologueRuns(script) && !delivery.Responded? ==>
        forall n :: !AnsweredAt(rounds, n)
      ensures PrologueRuns(script) && !delivery.Responded? && !RequiresReconciliation(start, {}) ==>
        delivery.Ambiguous? || (delivery.Blocked? && script.exchangeFault.AdapterFault?)
    {
      CrashesAreReported(start, trace);
      if RequiresReconciliation(Rows(submissions, claims, events), {}) || !script.enters {
        return Refused;
      }
      var failure := OpenSession(script);
      CrashesAreReported(start, trace);
      if failure.Some? {
        return failure.value;
      }
      var turn := Turn(script.session, script.number);
      failure := StartTurn(script, turn);
      CrashesAreReported(start, trace);
      if failure.Some? {
        return failure.value;
      }
      var outcome := ConsumeSteps(turn, rounds);
      match outcome {
        case Answered => return Responded;
        case ProtocolError => return Ambiguous;
        case Raised => return if script.exchangeFault.AdapterFault? then Blocked else Ambiguous;
      }
    }
  }
}
