/** The API's table of proof requests: every status write is guarded by `proof_status = Pending`. */
module ProofRows {
  import opened ClusterTypes

  type RowId = nat

  datatype RowStatus = RowPending | RowCompleted | RowFailed | RowCancelled

  /** What a request asks for; set once, when the row is made. */
  datatype Request = Request(
    requester: seq<bv8>, stdin: string, program: string, options: Option<string>, proof: Option<string>,
    cycleLimit: nat, gasLimit: nat, scheduledBy: Option<string>, stdinPrivate: bool)

  /** The five columns of an execution's result, always written together. */
  datatype Execution = Execution(status: int, failureCause: int, cycles: nat, gas: nat, publicValuesHash: seq<bv8>)

  datatype Row = Row(
    request: Request, createdAt: nat, status: RowStatus, handled: bool, deadline: nat,
    execution: Option<Execution>, metadata: string, extra: Option<string>)

  datatype Update = Update(
    id: RowId, status: Option<RowStatus>, handled: Option<bool>, deadline: Option<nat>,
    execution: Option<Execution>, metadata: Option<string>, extra: Option<string>)

  function Or<T>(o: Option<T>, default: T): T {
    if o.Some? then o.value else default
  }

  function NewRow(request: Request, deadline: nat, now: nat): Row {
    Row(request, now, RowPending, false, deadline, None, "null", None)
  }

  /** The row with every field the update names overwritten. */
  function Written(row: Row, u: Update): Row {
    Row(row.request, row.createdAt, Or(u.status, row.status), Or(u.handled, row.handled), Or(u.deadline, row.deadline),
        if u.execution.Some? then u.execution else row.execution,
        Or(u.metadata, row.metadata), if u.extra.Some? then u.extra else row.extra)
  }

  predicate Specified(u: Update) {
    u.status.Some? || u.handled.Some? || u.deadline.Some? || u.execution.Some? || u.metadata.Some? || u.extra.Some?
  }

  /** The update's WHERE clause matches. */
  predicate Matches(rows: map<RowId, Row>, u: Update) {
    u.id in rows && (u.status.Some? ==> rows[u.id].status.RowPending?)
  }

  function Updated(rows: map<RowId, Row>, u: Update): map<RowId, Row> {
    if Specified(u) && Matches(rows, u) then rows[u.id := Written(rows[u.id], u)] else rows
  }

  /** A guarded write that finds nothing to do succeeds, so that its sender stops tracking it. */
  function UpdateReply(rows: map<RowId, Row>, u: Update): Reply {
    if !Specified(u) then InvalidArgument
    else if Matches(rows, u) || u.status.Some? then Done
    else NotFound
  }

  function Cancelled(rows: map<RowId, Row>, id: RowId): map<RowId, Row> {
    if id in rows && rows[id].status.RowPending? then rows[id := rows[id].(status := RowCancelled)] else rows
  }

  function Created(rows: map<RowId, Row>, id: RowId, request: Request, deadline: nat, now: nat): map<RowId, Row> {
    if id in rows then rows else rows[id := NewRow(request, deadline, now)]
  }

  /** The claimer's listing filter. */
  predicate StillPending(row: Row, now: nat) {
    row.status.RowPending? && !row.handled && row.deadline >= now
  }

  /** The three outcome fields are what they were. */
  predicate SameOutcome(a: Row, b: Row) {
    a.status == b.status && a.metadata == b.metadata && a.extra == b.extra
  }

  /** No request changes the outcome of a row that has left Pending. */
  lemma OutcomeFrozen(rows: map<RowId, Row>, u: Update, other: RowId, id: RowId)
    requires id in rows && !rows[id].status.RowPending?
    requires u.status.None? ==> u.metadata.None? && u.extra.None?
    ensures id in Updated(rows, u) && SameOutcome(rows[id], Updated(rows, u)[id])
    ensures id in Cancelled(rows, other) && SameOutcome(rows[id], Cancelled(rows, other)[id])
  {}

  /** Column by column: what the update names has its value, what it does not name is as it was. */
  predicate Overwritten(was: Row, u: Update, row: Row) {
    && row.request == was.request && row.createdAt == was.createdAt
    && (if u.status == None then row.status == was.status else u.status == Some(row.status))
    && (if u.handled == None then row.handled == was.handled else u.handled == Some(row.handled))
    && (if u.deadline == None then row.deadline == was.deadline else u.deadline == Some(row.deadline))
    && (if u.execution == None then row.execution == was.execution else u.execution == row.execution)
    && (if u.metadata == None then row.metadata == was.metadata else u.metadata == Some(row.metadata))
    && (if u.extra == None then row.extra == was.extra else u.extra == row.extra)
  }

  predicate NamesNothing(u: Update) {
    && u.status == None && u.handled == None && u.deadline == None
    && u.execution == None && u.metadata == None && u.extra == None
  }

  /**
    An update is refused exactly if it names nothing, or names no status and finds no row. It is
    written exactly if it names something and finds its row, Pending if it names a status.
  */
  lemma UpdateWrites(rows: map<RowId, Row>, u: Update)
    ensures UpdateReply(rows, u) == InvalidArgument <==> NamesNothing(u)
    ensures UpdateReply(rows, u) == NotFound <==> !NamesNothing(u) && u.status == None && u.id !in rows
    ensures UpdateReply(rows, u) in {Done, InvalidArgument, NotFound}
    ensures var after := Updated(rows, u);
      if !NamesNothing(u) && u.id in rows && (u.status == None || rows[u.id].status == RowPending)
      then
        && after.Keys == rows.Keys && (forall j :: j in rows && j != u.id ==> after[j] == rows[j])
        && Overwritten(rows[u.id], u, after[u.id])
      else after == rows
  {}

  class ProofTable {
    var rows: map<RowId, Row>

    constructor ()
      ensures rows == map[]
    {
      rows := map[];
    }

    method Create(id: RowId, request: Request, deadline: nat, now: nat) returns (reply: Reply)
      modifies this
      ensures rows == Created(old(rows), id, request, deadline, now)
      ensures reply == if id in old(rows) then AlreadyExists else Done
      ensures reply == AlreadyExists ==> rows == old(rows)
      ensures reply == Done ==>
        && rows == old(rows)[id := rows[id]] && rows[id].request == request && rows[id].createdAt == now
        && rows[id].status == RowPending && !rows[id].handled && rows[id].deadline == deadline
        && rows[id].execution == None && rows[id].metadata == "null" && rows[id].extra == None
    {
      if id in rows {
        return AlreadyExists;
      }
      rows := rows[id := Row(request, now, RowPending, false, deadline, None, "null", None)];
      reply := Done;
    }

    method Cancel(id: RowId)
      modifies this
      ensures rows == Cancelled(old(rows), id)
      ensures id in rows ==> !rows[id].status.RowPending?
      ensures rows.Keys == old(rows).Keys
      ensures forall j :: j in rows ==>
        if j == id && old(rows)[j].status == RowPending
        then rows[j] == old(rows)[j].(status := RowCancelled) else rows[j] == old(rows)[j]
    {
      if id in rows && rows[id].status.RowPending? {
        rows := rows[id := rows[id].(status := RowCancelled)];
      }
    }

    method UpdateRow(u: Update) returns (reply: Reply)
      modifies this
      ensures rows == Updated(old(rows), u)
      ensures reply == UpdateReply(old(rows), u)
      ensures reply.Done? && u.status.Some? && !u.status.value.RowPending? && u.id in rows ==> !rows[u.id].status.RowPending?
    {
      var guardPending := u.status.Some?;
      if u == Update(u.id, None, None, None, None, None, None) {
        return InvalidArgument;
      }
      var affected := u.id in rows && (!guardPending || rows[u.id].status.RowPending?);
      if affected {
        var row := rows[u.id];
        if u.status.Some? { row := row.(status := u.status.value); }
        if u.handled.Some? { row := row.(handled := u.handled.value); }
        if u.deadline.Some? { row := row.(deadline := u.deadline.value); }
        if u.execution.Some? { row := row.(execution := u.execution); }
        if u.metadata.Some? { row := row.(metadata := u.metadata.value); }
        if u.extra.Some? { row := row.(extra := u.extra); }
        rows := rows[u.id := row];
      } else if !guardPending {
        return NotFound;
      }
      reply := Done;
    }
  }
}
