/** The durable rows and keyed commands of one run, with the guarded writes that the correlation engine
    makes (journal.mojo). */
module RunJournals {
  import opened Wrappers
  import opened JsonValue
  import opened ProcessStatus
  import opened Readiness
  import opened Conveyance
  import opened Conduct

  /** Every guarded transition appends a command under its own idempotency key. */
  datatype CommandKey = ReadyCommand(id: string) | SkipCommand(id: string)

  datatype Store = Store(rows: Rows, commands: map<CommandKey, Json>)

  /** Write-once keys and rows move together: whatever was readied or skipped has left pending. */
  predicate Coherent(s: Store) {
    forall key :: key in s.commands ==> key.id in s.rows && !s.rows[key.id].status.Pending?
  }

  // ---------------------------------------------------------------- skip

  predicate AttemptsSound(row: Row) {
    0 <= row.attempt <= row.maxAttempts && 1 <= row.maxAttempts
  }

  /** journal.mojo's `skip_process`: a recorded skip is replayed without a write. */
  function Skip(s: Store, id: string, output: Json): Outcome<Store> {
    if id !in s.rows then Raise("process row not found")
    else if SkipCommand(id) in s.commands then
      if s.commands[SkipCommand(id)] == output then Ok(s) else Raise("idempotency conflict")
    else
      var row := s.rows[id];
      if !AttemptsSound(row) then Raise("invalid process attempts")
      else if Terminal(row.status) then Raise("illegal process transition")
      else Ok(Store(s.rows[id := row.(status := Skipped, output := output)], s.commands[SkipCommand(id) := output]))
  }

  // ---------------------------------------------------------------- ready

  datatype Child = Child(id: string, input: Json)

  /** One child of `apply_correlation_children`: a recorded readiness is replayed without a write. */
  function ReadyOne(s: Store, child: Child): Outcome<Store> {
    if child.id == "" then Raise("correlation child id must not be empty")
    else if child.id !in s.rows then Raise("process row not found")
    else if ReadyCommand(child.id) in s.commands then Ok(s)
    else if !s.rows[child.id].status.Pending? then Raise("correlation child is not pending")
    else Ok(Store(s.rows[child.id := s.rows[child.id].(status := Ready, input := child.input)],
                  s.commands[ReadyCommand(child.id) := Null]))
  }

  function ReadyAll(s: Store, children: seq<Child>): Outcome<Store> {
    if children == [] then Ok(s)
    else
      var before :- ReadyAll(s, children[..|children| - 1]);
      ReadyOne(before, children[|children| - 1])
  }

  lemma {:induction false} ReadyAllRaises(s: Store, children: seq<Child>, k: nat)
    requires k <= |children| && ReadyAll(s, children[..k]).Raise?
    ensures ReadyAll(s, children) == ReadyAll(s, children[..k])
    decreases |children| - k
  {
    if k < |children| {
      PrefixStep(children, k);
      ReadyAllRaises(s, children, k + 1);
    } else {
      assert children[..k] == children;
    }
  }

  // ---------------------------------------------------------------- wait markers

  const WAIT_MARKER := "__correlation_wait_diagnostic"

  function TextArray(texts: seq<string>): Json {
    Arr(seq(|texts|, i requires 0 <= i < |texts| => Str(texts[i])))
  }

  function MarkerOf(d: WaitDiagnostic): Json {
    Obj(map["blocked_process_ids" := TextArray(d.blockedProcessIds), "deadlocked" := Bool(d.deadlocked),
            "reason" := Str(d.code), "code" := Str(d.code)])
  }

  /** The process that carries the marker, when there is a diagnosis. */
  function Holder(d: WaitDiagnostic): Option<string> {
    if d.code != "" && d.blockedProcessIds != [] then Some(d.blockedProcessIds[0]) else None
  }

  function Marked(row: Row, holds: bool, marker: Json): Row
    requires row.metadata.Obj?
  {
    row.(metadata := Obj(if holds then row.metadata.fields[WAIT_MARKER := marker] else row.metadata.fields - {WAIT_MARKER}))
  }

  predicate Holds(d: WaitDiagnostic, id: string, row: Row) {
    Holder(d) == Some(id) && row.status.Pending?
  }

  predicate Markable(rows: Rows) {
    forall id :: id in rows ==> rows[id].metadata.Obj?
  }

  function MarkRows(rows: Rows, d: WaitDiagnostic): Rows
    requires Markable(rows)
  {
    map id | id in rows :: Marked(rows[id], Holds(d, id, rows[id]), MarkerOf(d))
  }

  /** The stored marker spells out the diagnosis. */
  ghost predicate SaysWait(marker: Json, d: WaitDiagnostic) {
    && marker.Obj? && marker.fields.Keys == {"blocked_process_ids", "deadlocked", "reason", "code"}
    && marker.fields["deadlocked"] == Bool(d.deadlocked) && marker.fields["code"] == Str(d.code) && marker.fields["reason"] == Str(d.code)
    && var named := marker.fields["blocked_process_ids"];
       named.Arr? && |named.items| == |d.blockedProcessIds| && forall i :: 0 <= i < |named.items| ==> named.items[i] == Str(d.blockedProcessIds[i])
  }

  /** The marker of a diagnosis stands on the first process it names, if that is pending, and nowhere else. */
  ghost predicate MarksFirst(rows: Rows, d: WaitDiagnostic) {
    forall id :: id in rows ==>
      && rows[id].metadata.Obj?
      && (WAIT_MARKER in rows[id].metadata.fields <==>
            d.code != "" && d.blockedProcessIds != [] && d.blockedProcessIds[0] == id && rows[id].status.Pending?)
      && (WAIT_MARKER in rows[id].metadata.fields ==> SaysWait(rows[id].metadata.fields[WAIT_MARKER], d))
  }

  lemma MarkerSays(d: WaitDiagnostic)
    ensures SaysWait(MarkerOf(d), d)
  {
  }

  lemma MarkedFirst(rows: Rows, d: WaitDiagnostic)
    requires Markable(rows)
    ensures MarksFirst(MarkRows(rows, d), d)
  {
    OneMarker(rows, d);
    MarkerSays(d);
    hide MarkerOf, SaysWait;
  }

  /** After a diagnosis is persisted at most one row of the run carries a marker, it is the pending holder,
      and persisting the same diagnosis again writes nothing. */
  lemma OneMarker(rows: Rows, d: WaitDiagnostic)
    requires Markable(rows)
    ensures Markable(MarkRows(rows, d)) && MarkRows(MarkRows(rows, d), d) == MarkRows(rows, d)
    ensures forall id :: id in rows ==>
      (WAIT_MARKER in MarkRows(rows, d)[id].metadata.fields <==> Holder(d) == Some(id) && rows[id].status.Pending?)
    ensures forall id :: id in rows && Holds(d, id, rows[id]) ==> MarkRows(rows, d)[id].metadata.fields[WAIT_MARKER] == MarkerOf(d)
  {
    var once := MarkRows(rows, d);
    forall id | id in rows ensures MarkRows(once, d)[id] == once[id] {
      var fields := rows[id].metadata.fields;
      if Holds(d, id, rows[id]) {
        assert fields[WAIT_MARKER := MarkerOf(d)][WAIT_MARKER := MarkerOf(d)] == fields[WAIT_MARKER := MarkerOf(d)];
      } else {
        assert fields - {WAIT_MARKER} - {WAIT_MARKER} == fields - {WAIT_MARKER};
      }
    }
  }

  /** The row carries exactly this marker. */
  predicate Holding(row: Row, marker: Json)
    requires row.metadata.Obj?
  {
    WAIT_MARKER in row.metadata.fields && row.metadata.fields[WAIT_MARKER] == marker
  }

  /** A row that holds its marker, or holds none and has none, is written already. */
  lemma MarkedAlready(row: Row, holds: bool, marker: Json)
    requires row.metadata.Obj?
    ensures holds && Holding(row, marker) ==> Marked(row, holds, marker) == row
    ensures !holds && WAIT_MARKER !in row.metadata.fields ==> Marked(row, holds, marker) == row
  {
    var fields := row.metadata.fields;
    if holds && Holding(row, marker) { assert fields[WAIT_MARKER := marker] == fields; }
    if !holds && WAIT_MARKER !in fields { assert fields - {WAIT_MARKER} == fields; }
  }

  class RunJournal {
    var rows: Rows
    var commands: map<CommandKey, Json>

    ghost function Contents(): Store
      reads this
    {
      Store(rows, commands)
    }

    constructor (rows: Rows, commands: map<CommandKey, Json>)
      ensures Contents() == Store(rows, commands)
    {
      this.rows, this.commands := rows, commands;
    }

    method SkipProcess(id: string, output: Json) returns (r: Outcome<()>)
      modifies this
      ensures r.Ok? <==> Skip(old(Contents()), id, output).Ok?
      ensures Contents() == if r.Ok? then Skip(old(Contents()), id, output).value else old(Contents())
    {
      if id !in rows { return Raise("process row not found"); }
      if SkipCommand(id) in commands {
        return if commands[SkipCommand(id)] == output then Ok(()) else Raise("idempotency conflict");
      }
      var row := rows[id];
      if !AttemptsSound(row) { return Raise("invalid process attempts"); }
      if Terminal(row.status) { return Raise("illegal process transition"); }
      rows := rows[id := row.(status := Skipped, output := output)];
      commands := commands[SkipCommand(id) := output];
      r := Ok(());
    }

    /** All children become ready in one transaction, or none does. */
    method ApplyChildren(children: seq<Child>) returns (r: Outcome<()>)
      modifies this
      ensures r.Ok? <==> ReadyAll(old(Contents()), children).Ok?
      ensures Contents() == if r.Ok? then ReadyAll(old(Contents()), children).value else old(Contents())
    {
      var rowsAtBegin, commandsAtBegin := rows, commands;
      for k := 0 to |children|
        invariant ReadyAll(old(Contents()), children[..k]) == Ok(Contents())
      {
        PrefixStep(children, k);
        var child := children[k];
        if child.id == "" || child.id !in rows || (ReadyCommand(child.id) !in commands && !rows[child.id].status.Pending?) {
          ReadyAllRaises(old(Contents()), children, k + 1);
          rows, commands := rowsAtBegin, commandsAtBegin;
          return Raise("correlation child transaction failed");
        }
        if ReadyCommand(child.id) !in commands {
          rows := rows[child.id := rows[child.id].(status := Ready, input := child.input)];
          commands := commands[ReadyCommand(child.id) := Null];
        }
      }
      assert children[..|children|] == children;
      r := Ok(());
    }

    /** correlation_advance's `_persist_wait_diagnostic`: one transaction over every row of the run. */
    method PersistWaitDiagnostic(d: WaitDiagnostic) returns (r: Outcome<()>)
      modifies this`rows
      ensures r.Ok? <==> Markable(old(rows))
      ensures r.Ok? ==> rows == MarkRows(old(rows), d) && MarksFirst(rows, d)
      ensures r.Raise? ==> rows == old(rows)
    {
      var marker, todo, updated := MarkerOf(d), rows.Keys, rows;
      while todo != {}
        invariant todo <= old(rows).Keys && updated.Keys == old(rows).Keys && rows == old(rows)
        invariant forall id :: id in todo ==> updated[id] == old(rows)[id]
        invariant forall id :: id in old(rows) && id !in todo ==>
          old(rows)[id].metadata.Obj? && updated[id] == Marked(old(rows)[id], Holds(d, id, old(rows)[id]), marker)
        decreases |todo|
      {
        var id :| id in todo;
        todo := todo - {id};
        var row := updated[id];
        if !row.metadata.Obj? { return Raise("wait diagnostic transaction failed"); }
        MarkedAlready(row, Holds(d, id, row), marker);
        hide Marked, Holds;
        var stale := if Holds(d, id, row) then !Holding(row, marker) else WAIT_MARKER in row.metadata.fields;
        if stale {
          updated := updated[id := Marked(row, Holds(d, id, row), marker)];
        }
      }
      rows := updated;
      assert rows == MarkRows(old(rows), d);
      MarkedFirst(old(rows), d);
      r := Ok(());
    }
  }
}
