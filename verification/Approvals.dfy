/** Human approvals: the request store, its state machine, and its file-backed form. */
module Approvals {
  import opened Prelude
  import opened Policy
  import opened Sorting

  datatype Status = Pending | Approved | Rejected

  datatype Approval = Approval(
    id: string,
    status: Status,
    agentId: string,
    tool: Tool,
    token: string,
    payload: Payload,
    reason: Reason,
    auditId: nat,
    jti: string,
    createdAt: int,
    resolvedAt: Option<int>,
    resolvedBy: Option<string>)

  datatype ApprovalError = NotFound | AlreadyResolved(status: Status)

  type Requests = map<string, Approval>

  /** Whether an approval covers one execution: approved, and given for this very token, tool and payload text. */
  predicate Covers(a: Approval, token: string, tool: Tool, payload: Payload) {
    a.status == Approved && a.token == token && a.tool == tool && a.payload.text == payload.text
  }

  predicate WellKeyed(requests: Requests) {
    forall id :: id in requests ==> requests[id].id == id
  }

  /** A pending request gets its verdict; nothing else about the store changes, and no verdict changes again. */
  function Resolved(requests: Requests, id: string, verdict: Status, now: int, resolver: Option<string>): Requests {
    if id in requests && requests[id].status == Pending
    then requests[id := requests[id].(status := verdict, resolvedAt := Some(now), resolvedBy := resolver)]
    else requests
  }

  /** The request bears this verdict, by whom and when, and is otherwise what it was. */
  predicate Bears(after: Approval, before: Approval, verdict: Status, now: int, resolver: Option<string>) {
    && after.status == verdict && after.resolvedAt == Some(now) && after.resolvedBy == resolver
    && after.(status := before.status, resolvedAt := before.resolvedAt, resolvedBy := before.resolvedBy) == before
  }

  function CreatedAt(a: Approval): int {
    a.createdAt
  }

  function Imported(requests: Requests, list: seq<Approval>): Requests
    decreases |list|
  {
    if list == [] then requests else Imported(requests[list[0].id := list[0]], list[1..])
  }

  datatype Query = Query(status: Option<Status>, agentId: Option<string>, tool: Option<Tool>)

  const EVERYTHING := Query(None, None, None)

  predicate Selects(q: Query, a: Approval) {
    && (q.status.Some? ==> a.status == q.status.value)
    && (q.agentId.Some? ==> a.agentId == q.agentId.value)
    && (q.tool.Some? ==> a.tool == q.tool.value)
  }

  /** What the query asks for: each property it names, the request has. */
  predicate Wanted(q: Query, a: Approval) {
    q.status in {None, Some(a.status)} && q.agentId in {None, Some(a.agentId)} && q.tool in {None, Some(a.tool)}
  }

  class InMemoryApprovalStore {
    var requests: Requests
    var order: seq<string>

    /** The keys in the order they were first set, each once. */
    ghost predicate Valid()
      reads this
    {
      && WellKeyed(requests)
      && (forall id :: id in requests <==> id in order)
      && (forall i, j :: 0 <= i < j < |order| ==> order[i] != order[j])
    }

    constructor ()
      ensures Valid() && requests == map[]
    {
      requests, order := map[], [];
    }

    method Put(a: Approval)
      requires Valid()
      modifies this
      ensures Valid() && requests == old(requests)[a.id := a]
    {
      if a.id !in requests {
        order := order + [a.id];
      }
      requests := requests[a.id := a];
    }

    method ImportRequests(list: seq<Approval>)
      requires Valid()
      modifies this
      ensures Valid() && requests == Imported(old(requests), list)
    {
      var i := 0;
      while i < |list|
        invariant 0 <= i <= |list|
        invariant Valid() && Imported(old(requests), list) == Imported(requests, list[i..])
      {
        assert list[i..][1..] == list[i + 1..];
        Put(list[i]);
        i := i + 1;
      }
    }

    method Create(id: string, agentId: string, tool: Tool, token: string, payload: Payload, reason: Reason,
                  auditId: nat, jti: string, now: int) returns (a: Approval)
      requires Valid()
      modifies this
      ensures Valid() && requests == old(requests)[id := a]
      ensures a == Approval(id, Pending, agentId, tool, token, payload, reason, auditId, jti, now, None, None)
    {
      a := Approval(id, Pending, agentId, tool, token, payload, reason, auditId, jti, now, None, None);
      Put(a);
    }

    method Settle(id: string, verdict: Status, now: int, resolver: Option<string>) returns (r: Result<Approval, ApprovalError>)
      requires Valid() && verdict != Pending
      modifies this
      ensures Valid() && requests == Resolved(old(requests), id, verdict, now, resolver)
      ensures r == if id !in old(requests) then Failure(NotFound)
              else if old(requests)[id].status != Pending then Failure(AlreadyResolved(old(requests)[id].status))
              else Success(requests[id])
      ensures r.Success? ==> Bears(r.value, old(requests)[id], verdict, now, resolver) && r.value == requests[id]
    {
      if id !in requests { return Failure(NotFound); }
      if requests[id].status != Pending { return Failure(AlreadyResolved(requests[id].status)); }
      var updated := requests[id].(status := verdict, resolvedAt := Some(now), resolvedBy := resolver);
      Put(updated);
      r := Success(updated);
    }

    method Approve(id: string, now: int, resolver: Option<string>) returns (r: Result<Approval, ApprovalError>)
      requires Valid()
      modifies this
      ensures Valid() && requests == Resolved(old(requests), id, Approved, now, resolver)
      ensures r.Success? <==> id in old(requests) && old(requests)[id].status == Pending
      ensures r.Success? ==> r.value == requests[id] && requests[id].status == Approved && requests[id].resolvedBy == resolver
    {
      r := Settle(id, Approved, now, resolver);
    }

    method Reject(id: string, now: int, resolver: Option<string>) returns (r: Result<Approval, ApprovalError>)
      requires Valid()
      modifies this
      ensures Valid() && requests == Resolved(old(requests), id, Rejected, now, resolver)
      ensures r.Success? <==> id in old(requests) && old(requests)[id].status == Pending
      ensures r.Success? ==> r.value == requests[id] && requests[id].status == Rejected && requests[id].resolvedBy == resolver
    {
      r := Settle(id, Rejected, now, resolver);
    }

    /** The selected requests, oldest first: all of them, each once. */
    method List(q: Query) returns (list: seq<Approval>)
      requires Valid()
      ensures SortedBy(CreatedAt, list)
      ensures forall a :: a in list <==> a.id in requests && requests[a.id] == a && Wanted(q, a)
      ensures forall i, j :: 0 <= i < j < |list| ==> list[i].id != list[j].id
    {
      var filtered: seq<Approval> := [];
      var i := 0;
      while i < |order|
        invariant 0 <= i <= |order|
        invariant forall a :: a in filtered <==> a.id in order[..i] && requests[a.id] == a && Selects(q, a)
        invariant forall a, b :: 0 <= a < b < |filtered| ==> filtered[a].id != filtered[b].id
      {
        var request := requests[order[i]];
        assert order[..i + 1] == order[..i] + [order[i]];
        assert request.id !in order[..i];
        if Selects(q, request) {
          filtered := filtered + [request];
        }
        i := i + 1;
      }
      assert order[..i] == order;
      list := SortBy(CreatedAt, filtered);
      SortSorts(CreatedAt, filtered);
      SameMembers(filtered, list);
      DistinctIdsSurvive(filtered, list);
    }
  }

  lemma DistinctIdsSurvive(a: seq<Approval>, b: seq<Approval>)
    requires multiset(a) == multiset(b)
    requires forall i, j :: 0 <= i < j < |a| ==> a[i].id != a[j].id
    ensures forall i, j :: 0 <= i < j < |b| ==> b[i].id != b[j].id
  {
    SameMembers(a, b);
    forall i, j | 0 <= i < j < |b| ensures b[i].id != b[j].id {
      assert b[i] in a && b[j] in a;
      DistinctCountOnce(a, b[i]);
      if b[i] == b[j] {
        TwoPlacesCountTwice(b, i, j);
      }
    }
  }

  // --------------------------------------------------------- the approval machine

  datatype StoreOp = Create(a: Approval) | Settle(id: string, verdict: Status, now: int, resolver: Option<string>)

  function StoreStep(requests: Requests, op: StoreOp): Requests {
    match op
    case Create(a) => requests[a.id := a]
    case Settle(id, verdict, now, resolver) => Resolved(requests, id, verdict, now, resolver)
  }

  /** Operations a store sees: creations under ids not yet used, and verdicts. */
  predicate Proper(requests: Requests, op: StoreOp) {
    match op
    case Create(a) => a.id !in requests && a.status == Pending
    case Settle(_, verdict, _, _) => verdict != Pending
  }

  predicate ProperRun(requests: Requests, ops: seq<StoreOp>)
    decreases |ops|
  {
    ops == [] || (Proper(requests, ops[0]) && ProperRun(StoreStep(requests, ops[0]), ops[1..]))
  }

  function StoreRun(requests: Requests, ops: seq<StoreOp>): Requests
    decreases |ops|
  {
    if ops == [] then requests else StoreRun(StoreStep(requests, ops[0]), ops[1..])
  }

  /** Over any run a request keeps what it was made for; once it has a verdict nothing about it changes. */
  lemma {:induction false} VerdictsAreFinal(requests: Requests, ops: seq<StoreOp>, id: string)
    requires id in requests && ProperRun(requests, ops)
    ensures id in StoreRun(requests, ops)
    ensures var before, after := requests[id], StoreRun(requests, ops)[id];
            && after == before.(status := after.status, resolvedAt := after.resolvedAt, resolvedBy := after.resolvedBy)
            && (before.status != Pending ==> after == before)
            && (after.status == Pending ==> after == before)
    decreases |ops|
  {
    if ops != [] {
      VerdictsAreFinal(StoreStep(requests, ops[0]), ops[1..], id);
    }
  }

  /** The verdict of the first call that settles a request. */
  function FirstVerdict(ops: seq<StoreOp>, id: string): Option<Status> {
    if ops == [] then None
    else if ops[0].Settle? && ops[0].id == id then Some(ops[0].verdict)
    else FirstVerdict(ops[1..], id)
  }

  /** Over any run a pending request ends with the verdict first given on it, or pending. */
  lemma {:induction false} FirstVerdictStands(requests: Requests, ops: seq<StoreOp>, id: string)
    requires id in requests && requests[id].status == Pending && ProperRun(requests, ops)
    ensures id in StoreRun(requests, ops)
    ensures StoreRun(requests, ops)[id].status ==
            if FirstVerdict(ops, id).None? then Pending else FirstVerdict(ops, id).value
    decreases |ops|
  {
    if ops != [] {
      var next := StoreStep(requests, ops[0]);
      if ops[0].Settle? && ops[0].id == id {
        VerdictsAreFinal(next, ops[1..], id);
      } else {
        FirstVerdictStands(next, ops[1..], id);
      }
    }
  }

  // ------------------------------------------------------------------ persistence

  /** Of several entries of one id the last one is kept, and the entries of others do not matter to it. */
  lemma {:induction false} LastEntryWins(requests: Requests, list: seq<Approval>, i: nat)
    requires i < |list| && forall j :: i < j < |list| ==> list[j].id != list[i].id
    ensures list[i].id in Imported(requests, list) && Imported(requests, list)[list[i].id] == list[i]
    decreases |list|
  {
    var next := requests[list[0].id := list[0]];
    if i > 0 {
      LastEntryWins(next, list[1..], i - 1);
    } else {
      OthersAreKept(next, list[1..], list[0].id);
    }
  }

  lemma {:induction false} OthersAreKept(requests: Requests, list: seq<Approval>, id: string)
    requires id in requests && forall a :: a in list ==> a.id != id
    ensures id in Imported(requests, list) && Imported(requests, list)[id] == requests[id]
    decreases |list|
  {
    if list != [] { OthersAreKept(requests[list[0].id := list[0]], list[1..], id); }
  }

  lemma {:induction false} ImportCollects(requests: Requests, start: Requests, list: seq<Approval>)
    requires forall a :: a in list ==> a.id in requests && requests[a.id] == a
    requires forall id :: id in start ==> id in requests && requests[id] == start[id]
    ensures forall id :: id in Imported(start, list) <==> id in start || exists a :: a in list && a.id == id
    ensures forall id :: id in Imported(start, list) ==> id in requests && Imported(start, list)[id] == requests[id]
    decreases |list|
  {
    if list != [] {
      var next := start[list[0].id := list[0]];
      ImportCollects(requests, next, list[1..]);
      assert list == [list[0]] + list[1..];
      assert forall id :: id in next <==> id in start || id == list[0].id;
    }
  }

  /** A file that lists every request of a store once gives the store back when it is imported. */
  lemma ReloadGivesTheStoreBack(requests: Requests, file: seq<Approval>)
    requires WellKeyed(requests)
    requires forall a :: a in file <==> a.id in requests && requests[a.id] == a
    ensures Imported(map[], file) == requests
  {
    ImportCollects(requests, map[], file);
    forall id | id in requests ensures id in Imported(map[], file) {
      assert requests[id] in file;
    }
  }

  /** The store that rewrites its file after every change. */
  class FileApprovalStore {
    const memory: InMemoryApprovalStore
    var file: seq<Approval>

    ghost predicate Valid()
      reads this, memory
    {
      memory.Valid()
    }

    /** The file holds the store: reloading it would give the same requests. */
    ghost predicate Synced()
      reads this, memory
    {
      Imported(map[], file) == memory.requests && SortedBy(CreatedAt, file)
    }

    /** Opens the store on what its file holds. */
    constructor (file: seq<Approval>)
      ensures Valid() && fresh(memory) && this.file == file
      ensures memory.requests == Imported(map[], file)
    {
      memory := new InMemoryApprovalStore();
      this.file := file;
      new;
      memory.ImportRequests(file);
    }

    method Sync()
      requires Valid()
      modifies this
      ensures Valid() && Synced() && forall a :: a in file <==> a.id in memory.requests && memory.requests[a.id] == a
    {
      file := memory.List(EVERYTHING);
      ReloadGivesTheStoreBack(memory.requests, file);
    }

    method Create(id: string, agentId: string, tool: Tool, token: string, payload: Payload, reason: Reason,
                  auditId: nat, jti: string, now: int) returns (a: Approval)
      requires Valid()
      modifies this, memory
      ensures Valid() && Synced()
      ensures memory.requests == old(memory.requests)[id := a]
      ensures a == Approval(id, Pending, agentId, tool, token, payload, reason, auditId, jti, now, None, None)
    {
      a := memory.Create(id, agentId, tool, token, payload, reason, auditId, jti, now);
      Sync();
    }

    /** A refused verdict throws before the file is written. */
    method Settle(id: string, verdict: Status, now: int, resolver: Option<string>) returns (r: Result<Approval, ApprovalError>)
      requires Valid() && verdict != Pending
      modifies this, memory
      ensures Valid() && memory.requests == Resolved(old(memory.requests), id, verdict, now, resolver)
      ensures r.Success? <==> id in old(memory.requests) && old(memory.requests)[id].status == Pending
      ensures r.Success? || old(Synced()) ==> Synced()
      ensures r.Failure? ==> file == old(file)
      ensures r.Success? ==> r.value == memory.requests[id] && r.value.status == verdict && r.value in file
    {
      if verdict == Approved {
        r := memory.Approve(id, now, resolver);
      } else {
        r := memory.Reject(id, now, resolver);
      }
      if r.Success? {
        Sync();
      }
    }
  }

  /** Closing and reopening the store at any synced moment loses nothing. */
  method Reopen(store: FileApprovalStore) returns (again: FileApprovalStore)
    requires store.Valid() && store.Synced()
    ensures again.Valid() && again.Synced()
    ensures again.memory.requests == store.memory.requests && again.file == store.file
  {
    again := new FileApprovalStore(store.file);
  }
}
