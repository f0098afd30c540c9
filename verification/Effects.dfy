/** Confirmed external effects (effect_protocol.mojo): an intent is made durable before the act, and a confirmation
    after an authoritative observation.  Callers may crash at any step, try again, and race on one journal. */
module Effects {
  import opened Wrappers
  import opened JsonValue

  // ---------------------------------------------------------------- intents, observations, decisions

  datatype Intent = Intent(key: string, desired: Json, capability: string)

  datatype ObservedState = Absent | Matching | Conflicting

  datatype Observation = Observation(state: ObservedState, identity: Json, evidence: string)

  datatype Decision = Act | Confirm(confirmation: Json)

  function NewIntent(key: string, desired: Json, capability: string): Outcome<Intent> {
    if key == "" || capability == "" || !desired.Obj? then Raise("effect.intent") else Ok(Intent(key, desired, capability))
  }

  /** An intent that its constructor lets through. */
  predicate Valid(intent: Intent) {
    NewIntent(intent.key, intent.desired, intent.capability).Ok?
  }

  function IntentPayload(intent: Intent): Json {
    Obj(map["capability" := Str(intent.capability), "desired_identity" := intent.desired, "idempotency_key" := Str(intent.key)])
  }

  function Confirmation(intent: Intent, seen: Observation): Json {
    Obj(map["authoritative_identity" := seen.identity, "evidence_ref" := Str(seen.evidence), "idempotency_key" := Str(intent.key)])
  }

  // ---------------------------------------------------------------- the command log

  datatype Command = Command(kind: string, payload: Json, at: string, actor: string)

  type Log = map<string, Command>

  const INTENT := "effect.intent"
  const CONFIRM := "effect.confirm"
  const ACTOR := "effect-protocol"

  function IntentKey(key: string): string { INTENT + ":" + key }
  function ConfirmKey(key: string): string { CONFIRM + ":" + key }

  lemma KeysApart(left: string, right: string)
    ensures IntentKey(left) != ConfirmKey(right)
    ensures IntentKey(left) == IntentKey(right) <==> left == right
    ensures ConfirmKey(left) == ConfirmKey(right) <==> left == right
  {
    assert IntentKey(left)[7] == 'i' && ConfirmKey(right)[7] == 'c';
    assert IntentKey(left)[|INTENT| + 1..] == left && IntentKey(right)[|INTENT| + 1..] == right;
    assert ConfirmKey(left)[|CONFIRM| + 1..] == left && ConfirmKey(right)[|CONFIRM| + 1..] == right;
  }

  /** What is on record under a key: nothing, the same kind and payload, or something else. */
  datatype Lookup = Missing | Same | Other

  function LookUp(log: Log, key: string, kind: string, payload: Json): Lookup {
    if key !in log then Missing
    else if log[key].kind != kind || log[key].payload != payload then Other
    else Same
  }

  /** append_command: inserts, or accepts a command already there with exactly these contents. */
  function Append(log: Log, key: string, command: Command): Outcome<Log> {
    if command.at == "" then Raise("journal.empty")
    else if key !in log then Ok(log[key := command])
    else if log[key] == command then Ok(log)
    else Raise("journal.idempotency")
  }

  /** Nothing on record is ever changed. */
  ghost predicate Extends(log: Log, later: Log) {
    forall key :: key in log ==> key in later && later[key] == log[key]
  }

  predicate IntentRecorded(log: Log, intent: Intent) {
    LookUp(log, IntentKey(intent.key), INTENT, IntentPayload(intent)) == Same
  }

  predicate ConfirmationRecorded(log: Log, key: string, confirmation: Json) {
    LookUp(log, ConfirmKey(key), CONFIRM, confirmation) == Same
  }

  // ---------------------------------------------------------------- one caller, uninterrupted

  /** The judgement after the intent is on record: act, a confirmation to make durable, or an error. */
  function Judge(intent: Intent, seen: Observation): Outcome<Decision> {
    if seen.state.Conflicting? then Raise("effect.conflict")
    else if seen.state.Absent? then Ok(Act)
    else if seen.identity != intent.desired then Raise("effect.conflict")
    else if seen.evidence == "" then Raise("effect.confirm")
    else Ok(Confirm(Confirmation(intent, seen)))
  }

  function Recorded(log: Log, intent: Intent, at: string): (r: (Log, Outcome<bool>))
    ensures Extends(log, r.0)
    ensures r.1.Ok? ==> IntentRecorded(r.0, intent)
    ensures r.1 == Ok(true) ==> r.0 == log
  {
    match LookUp(log, IntentKey(intent.key), INTENT, IntentPayload(intent))
    case Other => (log, Raise("effect.intent"))
    case Same => (log, Ok(true))
    case Missing =>
      var appended := Append(log, IntentKey(intent.key), Command(INTENT, IntentPayload(intent), at, ACTOR));
      if appended.Ok? then (appended.value, Ok(false)) else (log, Raise(appended.code))
  }

  /** `reconcile_effect`: an error after the intent was recorded leaves the intent recorded. */
  function Reconciled(log: Log, intent: Intent, seen: Observation, at: string): (r: (Log, Outcome<Decision>))
    ensures Extends(log, r.0)
    ensures r.1.Ok? ==> IntentRecorded(r.0, intent)
    ensures r.1 == Ok(Act) <==> seen.state.Absent? && Recorded(log, intent, at).1.Ok?
    ensures r.1.Ok? && r.1.value.Confirm? ==>
      seen.state.Matching? && seen.identity == intent.desired && seen.evidence != ""
      && r.1.value.confirmation == Confirmation(intent, seen) && ConfirmationRecorded(r.0, intent.key, Confirmation(intent, seen))
  {
    var recorded := Recorded(log, intent, at);
    if recorded.1.Raise? then (recorded.0, Raise(recorded.1.code)) else Concluded(recorded.0, intent, seen, at)
  }

  /** What follows once the intent is on record. */
  function Concluded(log: Log, intent: Intent, seen: Observation, at: string): (r: (Log, Outcome<Decision>))
    ensures Extends(log, r.0)
    ensures IntentRecorded(log, intent) ==> IntentRecorded(r.0, intent)
    ensures r.1 == Ok(Act) <==> seen.state.Absent?
    ensures r.1.Ok? && r.1.value.Confirm? ==>
      seen.state.Matching? && seen.identity == intent.desired && seen.evidence != ""
      && r.1.value.confirmation == Confirmation(intent, seen) && ConfirmationRecorded(r.0, intent.key, Confirmation(intent, seen))
  {
    match Judge(intent, seen)
    case Raise(code) => (log, Raise(code))
    case Ok(Act) => (log, Ok(Act))
    case Ok(Confirm(confirmation)) =>
      KeysApart(intent.key, intent.key);
      match LookUp(log, ConfirmKey(intent.key), CONFIRM, confirmation)
      case Other => (log, Raise("effect.confirm"))
      case Same => (log, Ok(Confirm(confirmation)))
      case Missing =>
        var appended := Append(log, ConfirmKey(intent.key), Command(CONFIRM, confirmation, at, ACTOR));
        if appended.Ok? then (appended.value, Ok(Confirm(confirmation))) else (log, Raise(appended.code))
  }

  class CommandJournal {
    var commands: Log

    method RecordEffectIntent(intent: Intent, at: string) returns (r: Outcome<bool>)
      modifies this
      ensures (commands, r) == Recorded(old(commands), intent, at)
    {
      var key, payload := IntentKey(intent.key), IntentPayload(intent);
      if key in commands {
        if commands[key].kind != INTENT || commands[key].payload != payload {
          return Raise("effect.intent");
        }
        return Ok(true);
      }
      var appended := AppendCommand(key, Command(INTENT, payload, at, ACTOR));
      return if appended.Ok? then Ok(false) else Raise(appended.code);
    }

    method AppendCommand(key: string, command: Command) returns (r: Outcome<Log>)
      modifies this
      ensures r == Append(old(commands), key, command)
      ensures commands == if r.Ok? then r.value else old(commands)
    {
      r := Append(commands, key, command);
      if r.Ok? { commands := r.value; }
    }

    method ReconcileEffect(intent: Intent, seen: Observation, at: string) returns (r: Outcome<Decision>)
      modifies this
      ensures (commands, r) == Reconciled(old(commands), intent, seen, at)
    {
      var recorded := RecordEffectIntent(intent, at);
      if recorded.Raise? { return Raise(recorded.code); }
      if seen.state.Conflicting? { return Raise("effect.conflict"); }
      if seen.state.Absent? { return Ok(Act); }
      if seen.identity != intent.desired { return Raise("effect.conflict"); }
      if seen.evidence == "" { return Raise("effect.confirm"); }
      var confirmation := Confirmation(intent, seen);
      var key := ConfirmKey(intent.key);
      if key in commands {
        if commands[key].kind != CONFIRM || commands[key].payload != confirmation {
          return Raise("effect.confirm");
        }
      } else {
        var appended := AppendCommand(key, Command(CONFIRM, confirmation, at, ACTOR));
        if appended.Raise? { return Raise(appended.code); }
      }
      return Ok(Confirm(confirmation));
    }
  }

  ghost predicate StatesIntent(payload: Json, intent: Intent) {
    && payload.Obj? && payload.fields.Keys == {"capability", "desired_identity", "idempotency_key"}
    && payload.fields["capability"] == Str(intent.capability) && payload.fields["desired_identity"] == intent.desired
    && payload.fields["idempotency_key"] == Str(intent.key)
  }

  ghost predicate StatesConfirmation(payload: Json, intent: Intent, seen: Observation) {
    && payload.Obj? && payload.fields.Keys == {"authoritative_identity", "evidence_ref", "idempotency_key"}
    && payload.fields["authoritative_identity"] == seen.identity && payload.fields["evidence_ref"] == Str(seen.evidence)
    && payload.fields["idempotency_key"] == Str(intent.key)
  }

  lemma PayloadsState(payload: Json, intent: Intent, seen: Observation)
    ensures payload == IntentPayload(intent) <==> StatesIntent(payload, intent)
    ensures payload == Confirmation(intent, seen) <==> StatesConfirmation(payload, intent, seen)
  {
    if StatesIntent(payload, intent) { assert payload.fields == IntentPayload(intent).fields; }
    if StatesConfirmation(payload, intent, seen) { assert payload.fields == Confirmation(intent, seen).fields; }
  }

  /** The intent is on record, or can be put there. */
  ghost predicate Admits(log: Log, intent: Intent, at: string) {
    var key := "effect.intent:" + intent.key;
    if key in log then log[key].kind == "effect.intent" && StatesIntent(log[key].payload, intent) else at != ""
  }

  /** So for its confirmation by an authoritative observation. */
  ghost predicate Confirmable(log: Log, intent: Intent, seen: Observation, at: string) {
    var key := "effect.confirm:" + intent.key;
    && seen.state.Matching? && seen.identity == intent.desired && seen.evidence != ""
    && if key in log then log[key].kind == "effect.confirm" && StatesConfirmation(log[key].payload, intent, seen) else at != ""
  }

  /** Exactly when a reconciliation acts and when it confirms, and what it puts on record. */
  lemma ReconciledExact(log: Log, intent: Intent, seen: Observation, at: string)
    ensures var r := Reconciled(log, intent, seen, at);
      && (r.1 == Ok(Act) <==> Admits(log, intent, at) && seen.state.Absent?)
      && (r.1.Ok? && r.1.value.Confirm? <==> Admits(log, intent, at) && Confirmable(log, intent, seen, at))
      && (r.1.Ok? && r.1.value.Confirm? ==> StatesConfirmation(r.1.value.confirmation, intent, seen))
      && r.0.Keys == log.Keys + (if Admits(log, intent, at) then {"effect.intent:" + intent.key} else {})
                   + (if r.1.Ok? && r.1.value.Confirm? then {"effect.confirm:" + intent.key} else {})
      && (Admits(log, intent, at) ==> Admits(r.0, intent, ""))
      && (r.1.Ok? && r.1.value.Confirm? ==> Confirmable(r.0, intent, seen, ""))
  {
    KeysApart(intent.key, intent.key);
    assert IntentKey(intent.key) == "effect.intent:" + intent.key && ConfirmKey(intent.key) == "effect.confirm:" + intent.key;
    forall payload ensures payload == IntentPayload(intent) <==> StatesIntent(payload, intent)
      ensures payload == Confirmation(intent, seen) <==> StatesConfirmation(payload, intent, seen)
    {
      PayloadsState(payload, intent, seen);
    }
    hide IntentPayload, Confirmation, StatesIntent, StatesConfirmation;
  }

  /** Asking again changes nothing: an observation answered once gets the same answer, at any later time, from any
      log that extends the one it left. */
  lemma ReplayIsStable(log: Log, later: Log, intent: Intent, seen: Observation, at: string, again: string)
    requires Reconciled(log, intent, seen, at).1.Ok? && Extends(Reconciled(log, intent, seen, at).0, later)
    ensures Reconciled(later, intent, seen, again) == (later, Reconciled(log, intent, seen, at).1)
  {
    KeysApart(intent.key, intent.key);
  }

  // ---------------------------------------------------------------- many callers, crashing and racing

  /** How far a caller has come; every phase from Looking to AppendingConfirm ends with one journal transaction. */
  datatype Phase =
    | Idle
    | Observing
    | Looking(seen: Observation)
    | Recording(seen: Observation)
    | Judging(seen: Observation)
    | LookingConfirm(seen: Observation)
    | AppendingConfirm(seen: Observation)
    | Acting
    | Confirmed(confirmation: Json)

  datatype Caller = Caller(intent: Intent, at: string, phase: Phase) {
    predicate Active() { !phase.Idle? && !phase.Confirmed? }
  }

  /** `performed` lists, per key, the identities of the external effects that took place. */
  datatype System = System(log: Log, callers: seq<Caller>, performed: map<string, seq<Json>>, granted: set<(string, Json)>) {
    function Performed(key: string): seq<Json> { if key in performed then performed[key] else [] }
    predicate Has(i: nat) { i < |callers| }
    function To(i: nat, phase: Phase): System
      requires Has(i)
    {
      this.(callers := callers[i := callers[i].(phase := phase)])
    }
  }

  datatype Action =
    | Begin(i: nat, intent: Intent, at: string)
    | Observe(i: nat, seen: Observation)
    | Advance(i: nat)
    | Perform(i: nat)
    | Crash(i: nat)
    | Foreign(key: string, command: Command)

  /** The next transaction of a caller. */
  function Advanced(s: System, i: nat): System
    requires s.Has(i)
  {
    var caller := s.callers[i];
    var intent := caller.intent;
    match caller.phase
    case Looking(seen) =>
      (match LookUp(s.log, IntentKey(intent.key), INTENT, IntentPayload(intent))
       case Other => s.To(i, Idle)
       case Same => s.To(i, Judging(seen))
       case Missing => s.To(i, Recording(seen)))
    case Recording(seen) =>
      (match Append(s.log, IntentKey(intent.key), Command(INTENT, IntentPayload(intent), caller.at, ACTOR))
       case Ok(log) => s.To(i, Judging(seen)).(log := log)
       case Raise(_) => s.To(i, Idle))
    case Judging(seen) =>
      (match Judge(intent, seen)
       case Raise(_) => s.To(i, Idle)
       case Ok(Act) => s.To(i, Acting)
       case Ok(Confirm(_)) => s.To(i, LookingConfirm(seen)))
    case LookingConfirm(seen) =>
      (match LookUp(s.log, ConfirmKey(intent.key), CONFIRM, Confirmation(intent, seen))
       case Other => s.To(i, Idle)
       case Same => Granted(s, i, seen)
       case Missing => s.To(i, AppendingConfirm(seen)))
    case AppendingConfirm(seen) =>
      (match Append(s.log, ConfirmKey(intent.key), Command(CONFIRM, Confirmation(intent, seen), caller.at, ACTOR))
       case Ok(log) => Granted(s, i, seen).(log := log)
       case Raise(_) => s.To(i, Idle))
    case _ => s
  }

  function Granted(s: System, i: nat, seen: Observation): System
    requires s.Has(i)
  {
    var confirmation := Confirmation(s.callers[i].intent, seen);
    s.To(i, Confirmed(confirmation)).(granted := s.granted + {(s.callers[i].intent.key, confirmation)})
  }

  /** An action that is not possible changes nothing.  The rest of the runtime only adds commands of other kinds. */
  function Applied(s: System, action: Action): System {
    match action
    case Begin(i, intent, at) =>
      if s.Has(i) && !s.callers[i].Active() && Valid(intent) then s.(callers := s.callers[i := Caller(intent, at, Observing)]) else s
    case Observe(i, seen) => if s.Has(i) && s.callers[i].phase.Observing? then s.To(i, Looking(seen)) else s
    case Advance(i) => if s.Has(i) then Advanced(s, i) else s
    case Perform(i) =>
      if s.Has(i) && s.callers[i].phase.Acting? then
        var intent := s.callers[i].intent;
        s.To(i, Observing).(performed := s.performed[intent.key := s.Performed(intent.key) + [intent.desired]])
      else s
    case Crash(i) => if s.Has(i) then s.To(i, Idle) else s
    case Foreign(key, command) =>
      if key !in s.log && command.kind != INTENT && command.kind != CONFIRM then s.(log := s.log[key := command]) else s
  }

  function Run(s: System, actions: seq<Action>): System {
    if actions == [] then s else Applied(Run(s, actions[..|actions| - 1]), actions[|actions| - 1])
  }

  predicate Initial(s: System) {
    s.log == map[] && s.performed == map[] && s.granted == {} && forall i :: 0 <= i < |s.callers| ==> s.callers[i].phase.Idle?
  }

  // ---------------------------------------------------------------- what every run keeps

  /** The identity an intent on record asks for. */
  function DesiredOnRecord(log: Log, key: string): Option<Json> {
    if IntentKey(key) in log && log[IntentKey(key)].kind == INTENT && log[IntentKey(key)].payload.Obj?
       && "desired_identity" in log[IntentKey(key)].payload.fields
    then Some(log[IntentKey(key)].payload.fields["desired_identity"]) else None
  }

  predicate CarriesDesired(log: Log, key: string, confirmation: Json) {
    && confirmation.Obj? && "authoritative_identity" in confirmation.fields
    && DesiredOnRecord(log, key) == Some(confirmation.fields["authoritative_identity"])
  }

  predicate CallerSound(log: Log, c: Caller) {
    && (c.phase.Judging? || c.phase.LookingConfirm? || c.phase.AppendingConfirm? || c.phase.Acting? ==> IntentRecorded(log, c.intent))
    && (c.phase.LookingConfirm? || c.phase.AppendingConfirm? ==> c.phase.seen.identity == c.intent.desired)
  }

  ghost predicate Invariant(s: System) {
    && (forall i :: 0 <= i < |s.callers| ==> CallerSound(s.log, s.callers[i]))
    && (forall g :: g in s.granted ==> ConfirmationRecorded(s.log, g.0, g.1) && CarriesDesired(s.log, g.0, g.1))
    && (forall key :: ConfirmOnRecord(s.log, key) ==> CarriesDesired(s.log, key, s.log[ConfirmKey(key)].payload))
    && (forall key :: key in s.performed ==>
          forall n :: 0 <= n < |s.performed[key]| ==> DesiredOnRecord(s.log, key) == Some(s.performed[key][n]))
  }

  predicate ConfirmOnRecord(log: Log, key: string) {
    ConfirmKey(key) in log && log[ConfirmKey(key)].kind == CONFIRM
  }

  /** What is on record stays on record. */
  lemma RecordsStay(log: Log, later: Log, key: string)
    requires Extends(log, later)
    ensures DesiredOnRecord(log, key).Some? ==> DesiredOnRecord(later, key) == DesiredOnRecord(log, key)
    ensures ConfirmOnRecord(log, key) ==> later[ConfirmKey(key)] == log[ConfirmKey(key)]
  {
  }

  lemma AppendKeeps(s: System, key: string, command: Command, t: System)
    requires Invariant(s) && key !in s.log && t == s.(log := s.log[key := command])
    requires command.kind == CONFIRM ==> forall k :: key == ConfirmKey(k) ==> CarriesDesired(s.log, k, command.payload)
    ensures Invariant(t)
  {
    assert Extends(s.log, t.log);
    forall k | ConfirmOnRecord(t.log, k) ensures CarriesDesired(t.log, k, t.log[ConfirmKey(k)].payload) {
      RecordsStay(s.log, t.log, k);
      if ConfirmKey(k) != key {
        assert ConfirmOnRecord(s.log, k);
      }
    }
    forall k ensures DesiredOnRecord(s.log, k).Some? ==> DesiredOnRecord(t.log, k) == DesiredOnRecord(s.log, k) {
      RecordsStay(s.log, t.log, k);
    }
  }

  lemma PhaseKeeps(s: System, i: nat, phase: Phase)
    requires Invariant(s) && s.Has(i) && CallerSound(s.log, s.callers[i].(phase := phase))
    ensures Invariant(s.To(i, phase))
  {
  }

  lemma RecordingKeeps(s: System, i: nat)
    requires Invariant(s) && s.Has(i) && s.callers[i].phase.Recording?
    ensures Invariant(Advanced(s, i))
  {
    var caller, intent, t := s.callers[i], s.callers[i].intent, Advanced(s, i);
    var command := Command(INTENT, IntentPayload(intent), caller.at, ACTOR);
    var mid := s.(log := t.log);
    if IntentKey(intent.key) !in s.log && caller.at != "" {
      AppendKeeps(s, IntentKey(intent.key), command, mid);
    }
    PhaseKeeps(mid, i, t.callers[i].phase);
    assert t == mid.To(i, t.callers[i].phase);
  }

  lemma AppendingKeeps(s: System, i: nat)
    requires Invariant(s) && s.Has(i) && s.callers[i].phase.AppendingConfirm?
    ensures Invariant(Advanced(s, i))
  {
    var caller, intent, t := s.callers[i], s.callers[i].intent, Advanced(s, i);
    var seen := caller.phase.seen;
    var command := Command(CONFIRM, Confirmation(intent, seen), caller.at, ACTOR);
    var mid := s.(log := t.log);
    assert CallerSound(s.log, caller);
    if ConfirmKey(intent.key) !in s.log && caller.at != "" {
      forall k | ConfirmKey(intent.key) == ConfirmKey(k) ensures k == intent.key { KeysApart(intent.key, k); }
      AppendKeeps(s, ConfirmKey(intent.key), command, mid);
    }
    if t.callers[i].phase.Confirmed? {
      GrantKeeps(mid, i, seen);
      assert t == Granted(mid, i, seen);
    } else {
      PhaseKeeps(s, i, Idle);
    }
  }

  lemma AdvanceKeeps(s: System, i: nat)
    requires Invariant(s) && s.Has(i)
    ensures Invariant(Advanced(s, i))
  {
    var caller, t := s.callers[i], Advanced(s, i);
    assert CallerSound(s.log, caller);
    match caller.phase
    case Recording(_) => RecordingKeeps(s, i);
    case AppendingConfirm(_) => AppendingKeeps(s, i);
    case LookingConfirm(seen) =>
      if t.callers[i].phase.Confirmed? { GrantKeeps(s, i, seen); } else { PhaseKeeps(s, i, t.callers[i].phase); }
    case _ => PhaseKeeps(s, i, t.callers[i].phase);
  }

  lemma GrantKeeps(s: System, i: nat, seen: Observation)
    requires Invariant(s) && s.Has(i) && ConfirmationRecorded(s.log, s.callers[i].intent.key, Confirmation(s.callers[i].intent, seen))
    ensures Invariant(Granted(s, i, seen))
  {
    var key := s.callers[i].intent.key;
    assert ConfirmOnRecord(s.log, key);
    assert CarriesDesired(s.log, key, Confirmation(s.callers[i].intent, seen));
    PhaseKeeps(s, i, Confirmed(Confirmation(s.callers[i].intent, seen)));
  }

  lemma ActionKeeps(s: System, action: Action)
    requires Invariant(s)
    ensures Invariant(Applied(s, action))
  {
    match action
    case Advance(i) => if s.Has(i) { AdvanceKeeps(s, i); }
    case Foreign(key, command) =>
      if key !in s.log && command.kind != INTENT && command.kind != CONFIRM {
        AppendKeeps(s, key, command, Applied(s, action));
      }
    case Perform(i) =>
      if s.Has(i) && s.callers[i].phase.Acting? {
        assert CallerSound(s.log, s.callers[i]);
        PhaseKeeps(s, i, Observing);
      }
    case Observe(i, seen) => if s.Has(i) { PhaseKeeps(s, i, Looking(seen)); }
    case Crash(i) => if s.Has(i) { PhaseKeeps(s, i, Idle); }
    case Begin(_, _, _) =>
  }

  lemma {:induction false} RunKeeps(s: System, actions: seq<Action>)
    requires Invariant(s)
    ensures Invariant(Run(s, actions))
  {
    if actions != [] {
      RunKeeps(s, actions[..|actions| - 1]);
      ActionKeeps(Run(s, actions[..|actions| - 1]), actions[|actions| - 1]);
    }
  }

  /** In any run, with any callers racing and crashing anywhere: whoever may act has its intent on record, every
      effect performed has the identity its key's intent asks for, and all the confirmations granted for a key are
      one and the same, carrying that identity. */
  lemma EffectsAreSafe(s: System, actions: seq<Action>)
    requires Initial(s)
    ensures var t := Run(s, actions);
      && (forall i :: 0 <= i < |t.callers| && t.callers[i].phase.Acting? ==> IntentRecorded(t.log, t.callers[i].intent))
      && (forall key, n :: key in t.performed && 0 <= n < |t.performed[key]| ==> DesiredOnRecord(t.log, key) == Some(t.performed[key][n]))
      && (forall g, h :: g in t.granted && h in t.granted && g.0 == h.0 ==> g.1 == h.1)
      && (forall g :: g in t.granted ==> CarriesDesired(t.log, g.0, g.1))
  {
    RunKeeps(s, actions);
    var t := Run(s, actions);
    forall i | 0 <= i < |t.callers| && t.callers[i].phase.Acting? ensures IntentRecorded(t.log, t.callers[i].intent) {
      assert CallerSound(t.log, t.callers[i]);
    }
  }

  // ---------------------------------------------------------------- one caller at a time

  /** An observation that tells the truth about the effects performed for a key. */
  predicate Authoritative(s: System, intent: Intent, seen: Observation) {
    var done := s.Performed(intent.key);
    match seen.state
    case Absent => done == []
    case Matching => done != [] && seen.identity == intent.desired
    case Conflicting => done != []
  }

  /** Callers of a key start only when no other is at work on it, and observe the truth. */
  predicate Orderly(s: System, action: Action) {
    match action
    case Begin(_, intent, _) => forall j :: 0 <= j < |s.callers| && s.callers[j].Active() ==> s.callers[j].intent.key != intent.key
    case Observe(i, seen) => s.Has(i) ==> Authoritative(s, s.callers[i].intent, seen)
    case _ => true
  }

  predicate OrderlyRun(s: System, actions: seq<Action>) {
    actions == [] ||
    (OrderlyRun(s, actions[..|actions| - 1]) && Orderly(Run(s, actions[..|actions| - 1]), actions[|actions| - 1]))
  }

  predicate SawAbsent(c: Caller) {
    c.phase.Acting?
    || ((c.phase.Looking? || c.phase.Recording? || c.phase.Judging?) && c.phase.seen.state.Absent?)
  }

  predicate SawMatching(c: Caller) {
    c.phase.LookingConfirm? || c.phase.AppendingConfirm?
    || ((c.phase.Looking? || c.phase.Recording? || c.phase.Judging?) && c.phase.seen.state.Matching?)
  }

  ghost predicate OneAtATime(s: System) {
    && (forall i, j :: 0 <= i < j < |s.callers| && s.callers[i].Active() && s.callers[j].Active() ==>
          s.callers[i].intent.key != s.callers[j].intent.key)
    && (forall i :: 0 <= i < |s.callers| && SawAbsent(s.callers[i]) ==> s.Performed(s.callers[i].intent.key) == [])
    && (forall i :: 0 <= i < |s.callers| && SawMatching(s.callers[i]) ==> s.Performed(s.callers[i].intent.key) != [])
    && (forall g :: g in s.granted ==> s.Performed(g.0) != [])
    && (forall key :: |s.Performed(key)| <= 1)
  }

  /** A caller moves on without performing anything. */
  ghost predicate MovesOn(s: System, t: System, i: nat) {
    && s.Has(i) && t.performed == s.performed && |t.callers| == |s.callers|
    && (forall j :: 0 <= j < |s.callers| && j != i ==> t.callers[j] == s.callers[j])
    && t.callers[i].intent == s.callers[i].intent
    && (t.callers[i].Active() ==> s.callers[i].Active())
    && (forall g :: g in t.granted ==> g in s.granted || (g.0 == s.callers[i].intent.key && SawMatching(s.callers[i])))
  }

  lemma MovingOnKeeps(s: System, t: System, i: nat)
    requires OneAtATime(s) && MovesOn(s, t, i)
    requires SawAbsent(t.callers[i]) ==> s.Performed(s.callers[i].intent.key) == []
    requires SawMatching(t.callers[i]) ==> s.Performed(s.callers[i].intent.key) != []
    ensures OneAtATime(t)
  {
    assert forall key :: t.Performed(key) == s.Performed(key);
  }

  lemma AdvanceMovesOn(s: System, i: nat)
    requires s.Has(i)
    ensures var t := Advanced(s, i);
      && MovesOn(s, t, i)
      && (SawAbsent(t.callers[i]) ==> SawAbsent(s.callers[i]))
      && (SawMatching(t.callers[i]) ==> SawMatching(s.callers[i]))
  {
    hide LookUp, Append, Confirmation, IntentPayload;
  }

  lemma PerformKeeps(s: System, i: nat)
    requires OneAtATime(s) && s.Has(i) && s.callers[i].phase.Acting?
    ensures OneAtATime(Applied(s, Perform(i)))
  {
    var intent, t := s.callers[i].intent, Applied(s, Perform(i));
    assert SawAbsent(s.callers[i]);
    assert t.Performed(intent.key) == [intent.desired];
    assert forall key :: key != intent.key ==> t.Performed(key) == s.Performed(key);
    forall j | 0 <= j < |t.callers| && SawAbsent(t.callers[j]) ensures t.callers[j].intent.key != intent.key {
      assert j != i && s.callers[j].Active() && s.callers[i].Active();
    }
  }

  lemma BeginKeeps(s: System, action: Action)
    requires OneAtATime(s) && Orderly(s, action) && action.Begin?
    ensures OneAtATime(Applied(s, action))
  {
    var t := Applied(s, action);
    assert forall key :: t.Performed(key) == s.Performed(key);
  }

  lemma OrderlyKeeps(s: System, action: Action)
    requires OneAtATime(s) && Orderly(s, action)
    ensures OneAtATime(Applied(s, action))
  {
    match action
    case Advance(i) =>
      if s.Has(i) {
        AdvanceMovesOn(s, i);
        MovingOnKeeps(s, Advanced(s, i), i);
      }
    case Perform(i) => if s.Has(i) && s.callers[i].phase.Acting? { PerformKeeps(s, i); }
    case Observe(i, _) => if s.Has(i) { MovingOnKeeps(s, Applied(s, action), i); }
    case Crash(i) => if s.Has(i) { MovingOnKeeps(s, Applied(s, action), i); }
    case Begin(_, _, _) => BeginKeeps(s, action);
    case Foreign(_, _) =>
      var t := Applied(s, action);
      assert forall key :: t.Performed(key) == s.Performed(key);
  }

  lemma {:induction false} OrderlyRunKeeps(s: System, actions: seq<Action>)
    requires Initial(s) && OrderlyRun(s, actions)
    ensures OneAtATime(Run(s, actions))
  {
    if actions != [] {
      OrderlyRunKeeps(s, actions[..|actions| - 1]);
      OrderlyKeeps(Run(s, actions[..|actions| - 1]), actions[|actions| - 1]);
    }
  }

  /** One effect took place for the key, with the identity a confirmation states. */
  predicate PerformedAs(s: System, key: string, confirmation: Json) {
    && confirmation.Obj? && "authoritative_identity" in confirmation.fields
    && s.Performed(key) == [confirmation.fields["authoritative_identity"]]
  }

  /** One caller at a time and truthful observations: whatever crashes, each effect takes place at most once, and a
      confirmation is granted only for an effect that took place, with its identity. */
  lemma EffectsHappenOnce(s: System, actions: seq<Action>)
    requires Initial(s) && OrderlyRun(s, actions)
    ensures var t := Run(s, actions);
      && (forall key :: |t.Performed(key)| <= 1)
      && (forall g :: g in t.granted ==> PerformedAs(t, g.0, g.1))
  {
    RunKeeps(s, actions);
    OrderlyRunKeeps(s, actions);
    var t := Run(s, actions);
    forall g | g in t.granted ensures PerformedAs(t, g.0, g.1) {
      assert CarriesDesired(t.log, g.0, g.1);
      assert t.Performed(g.0) == t.performed[g.0];
      assert DesiredOnRecord(t.log, g.0) == Some(t.performed[g.0][0]);
    }
  }

  /** Every observation tells the truth, but callers start as they please. */
  predicate TruthfulRun(s: System, actions: seq<Action>) {
    actions == [] ||
    (TruthfulRun(s, actions[..|actions| - 1]) && Truthful(Run(s, actions[..|actions| - 1]), actions[|actions| - 1]))
  }

  predicate Truthful(s: System, action: Action) {
    action.Observe? && s.Has(action.i) ==> Authoritative(s, s.callers[action.i].intent, action.seen)
  }

  lemma OneMore(s: System, actions: seq<Action>, t: System, action: Action) returns (longer: seq<Action>, u: System)
    requires TruthfulRun(s, actions) && Run(s, actions) == t && Truthful(t, action)
    ensures TruthfulRun(s, longer) && Run(s, longer) == u == Applied(t, action)
  {
    longer, u := actions + [action], Applied(t, action);
    assert longer[..|actions|] == actions;
  }

  lemma BothObserve(caller: Caller, seen: Observation) returns (s: System, actions: seq<Action>)
    requires caller.phase.Idle? && Valid(caller.intent) && seen.state.Absent?
    ensures Initial(s) && TruthfulRun(s, actions)
    ensures Run(s, actions) == System(map[], [caller.(phase := Looking(seen)), caller.(phase := Looking(seen))], map[], {})
  {
    s := System(map[], [caller, caller], map[], {});
    var t := s;
    actions := [];
    assert Run(s, []) == s;
    hide Run, TruthfulRun;
    actions, t := OneMore(s, actions, t, Begin(0, caller.intent, caller.at));
    actions, t := OneMore(s, actions, t, Begin(1, caller.intent, caller.at));
    actions, t := OneMore(s, actions, t, Observe(0, seen));
    actions, t := OneMore(s, actions, t, Observe(1, seen));
  }

  /** Two callers at once, both observing the truth before either acts: the effect takes place twice. */
  lemma RacingCallersActTwice(intent: Intent, at: string) returns (s: System, actions: seq<Action>)
    requires at != "" && Valid(intent)
    ensures Initial(s) && TruthfulRun(s, actions)
    ensures |Run(s, actions).Performed(intent.key)| == 2
  {
    hide Run, TruthfulRun, IntentKey, IntentPayload;
    var seen := Observation(Absent, EMPTY_OBJECT, "");
    s, actions := BothObserve(Caller(intent, at, Idle), seen);
    var looking, acting := Caller(intent, at, Looking(seen)), Caller(intent, at, Acting);
    var t := Run(s, actions);
    actions, t := OneMore(s, actions, t, Advance(0));
    actions, t := OneMore(s, actions, t, Advance(0));
    actions, t := OneMore(s, actions, t, Advance(0));
    assert IntentRecorded(t.log, intent) && t.callers == [acting, looking];
    actions, t := OneMore(s, actions, t, Advance(1));
    actions, t := OneMore(s, actions, t, Advance(1));
    assert t.callers == [acting, acting] && t.performed == map[];
    actions, t := OneMore(s, actions, t, Perform(0));
    actions, t := OneMore(s, actions, t, Perform(1));
  }

  // ---------------------------------------------------------------- a caller left alone

  function Alone(s: System, i: nat, turns: nat): (t: System)
    requires s.Has(i)
    ensures t.Has(i)
    decreases turns
  {
    if turns == 0 then s else Alone(Advanced(s, i), i, turns - 1)
  }

  predicate AtRest(s: System, i: nat) {
    s.Has(i) && (s.callers[i].phase.Idle? || s.callers[i].phase.Acting? || s.callers[i].phase.Confirmed?)
  }

  lemma {:induction false} RestStays(s: System, i: nat, turns: nat)
    requires AtRest(s, i)
    ensures Alone(s, i, turns) == s
  {
    if turns > 0 { RestStays(s, i, turns - 1); }
  }

  /** Where the answer of a reconciliation leaves its caller. */
  function PhaseAfter(r: Outcome<Decision>): Phase {
    match r
    case Raise(_) => Idle
    case Ok(Act) => Acting
    case Ok(Confirm(confirmation)) => Confirmed(confirmation)
  }

  /** From the judgement on, three transactions at most remain. */
  lemma JudgedAlone(s: System, i: nat, seen: Observation, turns: nat)
    requires s.Has(i) && s.callers[i].phase == Judging(seen) && turns >= 3
    ensures var caller, t := s.callers[i], Alone(s, i, turns);
      var r := Concluded(s.log, caller.intent, seen, caller.at);
      t.log == r.0 && t.callers[i].phase == PhaseAfter(r.1)
  {
    hide Confirmation, ConfirmKey, ConfirmationRecorded, IntentRecorded;
    var caller, a := s.callers[i], Advanced(s, i);
    assert Alone(s, i, turns) == Alone(a, i, turns - 1);
    if AtRest(a, i) {
      RestStays(a, i, turns - 1);
    } else {
      ConfirmedAlone(a, i, seen, turns - 1);
    }
  }

  /** From the look for a confirmation on, two. */
  lemma ConfirmedAlone(s: System, i: nat, seen: Observation, turns: nat)
    requires s.Has(i) && s.callers[i].phase == LookingConfirm(seen) && turns >= 2
    requires Judge(s.callers[i].intent, seen) == Ok(Confirm(Confirmation(s.callers[i].intent, seen)))
    ensures var caller, t := s.callers[i], Alone(s, i, turns);
      var r := Concluded(s.log, caller.intent, seen, caller.at);
      t.log == r.0 && t.callers[i].phase == PhaseAfter(r.1)
  {
    hide Confirmation, ConfirmKey, ConfirmationRecorded, IntentRecorded, Judge;
    var a := Advanced(s, i);
    assert Alone(s, i, turns) == Alone(a, i, turns - 1);
    if AtRest(a, i) {
      RestStays(a, i, turns - 1);
    } else {
      RestStays(Advanced(a, i), i, turns - 2);
    }
  }

  /** Up to the judgement, one transaction or two. */
  lemma RecordedAlone(s: System, i: nat, seen: Observation) returns (turns: nat, t: System)
    requires s.Has(i) && s.callers[i].phase == Looking(seen)
    ensures 1 <= turns <= 2 && t.Has(i) && forall n: nat :: n >= turns ==> Alone(s, i, n) == Alone(t, i, n - turns)
    ensures var caller := s.callers[i];
      var r := Recorded(s.log, caller.intent, caller.at);
      t.log == r.0 && t.callers[i] == caller.(phase := if r.1.Ok? then Judging(seen) else Idle)
  {
    hide IntentKey, IntentPayload, Judge;
    turns, t := 1, Advanced(s, i);
    if t.callers[i].phase.Recording? {
      turns, t := 2, Advanced(t, i);
    }
  }

  /** Five transactions of a caller left alone are one uninterrupted reconciliation: same log, same answer. */
  lemma AloneIsReconciled(s: System, i: nat, seen: Observation)
    requires s.Has(i) && s.callers[i].phase == Looking(seen)
    ensures var caller, t := s.callers[i], Alone(s, i, 5);
      var r := Reconciled(s.log, caller.intent, seen, caller.at);
      t.log == r.0 && t.callers[i].phase == PhaseAfter(r.1)
  {
    hide Alone, Advanced, Concluded, Recorded;
    var turns, t := RecordedAlone(s, i, seen);
    if t.callers[i].phase.Idle? {
      RestStays(t, i, 5 - turns);
    } else {
      JudgedAlone(t, i, seen, 5 - turns);
    }
  }
}
