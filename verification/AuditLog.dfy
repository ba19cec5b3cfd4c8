/** The audit log that writes the chain, in memory and in an append-only file that survives restarts. */
module AuditLogs {
  import opened Prelude
  import opened JsonValues
  import opened Sorting
  import opened AuditChain

  /** What an audit log holds: its events in insertion order, the hash to chain from and the last number given. */
  datatype Log = Log(events: seq<AuditEvent>, tipHash: string, sequence: int)

  datatype RecordInput = RecordInput(agentId: string, tool: string, decision: string, details: seq<Member>)

  const DETAIL_NAMES := ["reason", "delegator", "jti", "task", "intent", "intentCategory", "intentAction", "requestId",
                         "policyVersionId", "traceId", "sessionId", "executionPhase", "payloadSummary", "approvalId",
                         "policySnapshot", "lineage"]

  function Built(id: string, input: RecordInput, now: int): AuditEvent {
    AuditEvent(id, input.agentId, input.tool, input.decision, now, input.details, None, None, None, None)
  }

  lemma DetailNameIsItsOwn(e: AuditEvent, n: nat, j: nat)
    requires n < |DETAIL_NAMES| && j < |BodyMembers(e, "", 0)|
    ensures DETAIL_NAMES[n] != BodyMembers(e, "", 0)[j].key
  {
    if j == 0 { assert BodyMembers(e, "", 0)[j].key == "sequence"; }
  }

  /** The optional properties the hashed body can list never clash with its fixed ones. */
  lemma DetailNamesAreWellFormed(e: AuditEvent)
    requires forall m :: m in e.details ==> m.key in DETAIL_NAMES
    ensures WellFormed(e)
  {
    var body := BodyMembers(e, "", 0);
    forall i, j | 0 <= i < |e.details| && 0 <= j < |body| ensures e.details[i].key != body[j].key {
      assert e.details[i] in e.details;
      var n :| 0 <= n < |DETAIL_NAMES| && DETAIL_NAMES[n] == e.details[i].key;
      DetailNameIsItsOwn(e, n, j);
    }
  }

  // --------------------------------------------------------- the map of events by id

  /** Setting a key that is present keeps its place, a new one goes last. */
  function Put(events: seq<AuditEvent>, e: AuditEvent): seq<AuditEvent> {
    if events == [] then [e]
    else if events[0].id == e.id then [e] + events[1..]
    else [events[0]] + Put(events[1..], e)
  }

  lemma PutPasses(events: seq<AuditEvent>, e: AuditEvent, i: nat)
    requires i < |events| && events[i].id != e.id
    ensures events[..i] + Put(events[i..], e) == events[..i + 1] + Put(events[i + 1..], e)
  {
    assert events[i..][1..] == events[i + 1..];
    assert events[..i] + [events[i]] == events[..i + 1];
  }

  lemma PutLands(events: seq<AuditEvent>, e: AuditEvent, i: nat)
    requires i < |events| && events[i].id == e.id
    ensures Put(events[i..], e) == [e] + events[i + 1..]
  {
    assert events[i..][1..] == events[i + 1..];
  }

  function PutAll(events: seq<AuditEvent>, more: seq<AuditEvent>): seq<AuditEvent>
    decreases |more|
  {
    if more == [] then events else PutAll(Put(events, more[0]), more[1..])
  }

  predicate HasId(events: seq<AuditEvent>, id: string) {
    exists i :: 0 <= i < |events| && events[i].id == id
  }

  predicate DistinctIds(events: seq<AuditEvent>) {
    forall i, j :: 0 <= i < j < |events| ==> events[i].id != events[j].id
  }

  lemma IdSplit(events: seq<AuditEvent>, id: string)
    requires events != []
    ensures HasId(events, id) <==> events[0].id == id || HasId(events[1..], id)
  {
    if HasId(events[1..], id) {
      var i :| 0 <= i < |events[1..]| && events[1..][i].id == id;
      assert events[i + 1].id == id;
    }
    if HasId(events, id) && events[0].id != id {
      var i :| 0 <= i < |events| && events[i].id == id;
      assert events[1..][i - 1].id == id;
    }
  }

  lemma {:induction false} PutOfNewAppends(events: seq<AuditEvent>, e: AuditEvent)
    requires !HasId(events, e.id)
    ensures Put(events, e) == events + [e]
  {
    if events != [] {
      IdSplit(events, e.id);
      PutOfNewAppends(events[1..], e);
    }
  }

  /** In a list of distinct ids no id occurs before its event. */
  lemma DistinctAreNew(all: seq<AuditEvent>, n: nat)
    requires DistinctIds(all) && n < |all|
    ensures !HasId(all[..n], all[n].id)
  {
    forall i | 0 <= i < |all[..n]| ensures all[..n][i].id != all[n].id {
      assert all[..n][i] == all[i];
    }
  }

  lemma {:induction false} PutAllOfDistinctAppends(events: seq<AuditEvent>, more: seq<AuditEvent>)
    requires DistinctIds(events + more)
    ensures PutAll(events, more) == events + more
    decreases |more|
  {
    if more != [] {
      var all := events + more;
      DistinctAreNew(all, |events|);
      assert all[..|events|] == events && all[|events|] == more[0];
      PutOfNewAppends(events, more[0]);
      assert events + [more[0]] + more[1..] == all;
      PutAllOfDistinctAppends(events + [more[0]], more[1..]);
    }
  }

  // ----------------------------------------------------------- the log's operations

  function SequenceKey(e: AuditEvent): int {
    if e.sequence.Some? then e.sequence.value else 0
  }

  function Timestamp(e: AuditEvent): int {
    e.timestamp
  }

  /** Where a restored log goes on: behind the event with the highest number. */
  function RestoreTip(events: seq<AuditEvent>): (string, int) {
    var sorted := SortBy(SequenceKey, events);
    if sorted == [] then (GENESIS, 0)
    else
      var last := sorted[|sorted| - 1];
      (if last.hash.Some? then last.hash.value else GENESIS,
       if last.sequence.Some? then last.sequence.value else |sorted|)
  }

  function Enabled(chain: Option<Config>): Option<Config> {
    if chain.Some? && chain.value.enabled then chain else None
  }

  function Empty(chain: Option<Config>): Log {
    Log([], if chain.Some? then chain.value.genesisHash else GENESIS, 0)
  }

  /** The event as it is stored: numbered, linked, hashed and signed when the chain is on. */
  function Stamped(c: Crypto, chain: Option<Config>, log: Log, e: AuditEvent): AuditEvent {
    if chain.None? then e
    else
      var hash := EventHash(c, log.tipHash, e, log.sequence + 1);
      e.(sequence := Some(log.sequence + 1), hashPrev := Some(log.tipHash), hash := Some(hash),
         signature := if Signs(chain.value) then Some(c.mac(hash, chain.value.signingSecret.value)) else e.signature)
  }

  function AfterRecord(c: Crypto, chain: Option<Config>, log: Log, e: AuditEvent): Log {
    var stored := Stamped(c, chain, log, e);
    if chain.None? then log.(events := Put(log.events, stored))
    else Log(Put(log.events, stored), EventHash(c, log.tipHash, e, log.sequence + 1), log.sequence + 1)
  }

  function AfterImport(chain: Option<Config>, log: Log, events: seq<AuditEvent>): Log {
    var all := PutAll(log.events, events);
    if chain.None? then log.(events := all) else Log(all, RestoreTip(events).0, RestoreTip(events).1)
  }

  datatype AuditQuery = AuditQuery(
    agentId: Option<string>, tool: Option<string>, decision: Option<string>,
    since: Option<int>, upTo: Option<int>, limit: Option<int>)

  predicate Matches(e: AuditEvent, q: AuditQuery) {
    && (q.agentId.Some? ==> e.agentId == q.agentId.value)
    && (q.tool.Some? ==> e.tool == q.tool.value)
    && (q.decision.Some? ==> e.decision == q.decision.value)
    && (q.since.Some? ==> e.timestamp >= q.since.value)
    && (q.upTo.Some? ==> e.timestamp <= q.upTo.value)
  }

  function Matching(events: seq<AuditEvent>, q: AuditQuery): seq<AuditEvent> {
    if events == [] then []
    else
      var before := Matching(events[..|events| - 1], q);
      if Matches(events[|events| - 1], q) then before + [events[|events| - 1]] else before
  }

  /** The last `n` of a list, or all of it when it is shorter; asking for the last 0 gives all of it too. */
  function Slice(events: seq<AuditEvent>, n: nat): seq<AuditEvent> {
    if n == 0 || n >= |events| then events else events[|events| - n..]
  }

  function Listed(events: seq<AuditEvent>, q: AuditQuery): seq<AuditEvent> {
    var sorted := SortBy(Timestamp, Matching(events, q));
    if q.limit.Some? && q.limit.value >= 0 then Slice(sorted, q.limit.value) else sorted
  }

  class AuditLog {
    const c: Crypto
    const chain: Option<Config>
    var events: seq<AuditEvent>
    var tipHash: string
    var sequence: int

    function State(): Log
      reads this
    {
      Log(events, tipHash, sequence)
    }

    constructor (c: Crypto, chain: Option<Config>)
      ensures this.c == c && this.chain == Enabled(chain) && State() == Empty(chain)
    {
      this.c := c;
      this.chain := if chain.Some? && chain.value.enabled then chain else None;
      events := [];
      tipHash := if chain.Some? then chain.value.genesisHash else GENESIS;
      sequence := 0;
    }

    method Set(e: AuditEvent)
      modifies this`events
      ensures events == Put(old(events), e)
    {
      ghost var after := Put(events, e);
      var i := 0;
      while i < |events| && events[i].id != e.id
        invariant 0 <= i <= |events|
        invariant after == events[..i] + Put(events[i..], e)
      {
        PutPasses(events, e, i);
        i := i + 1;
      }
      if i < |events| {
        PutLands(events, e, i);
        assert after == events[i := e];
        events := events[i := e];
      } else {
        assert after == events + [e];
        events := events + [e];
      }
    }

    method ImportEvents(more: seq<AuditEvent>)
      modifies this
      ensures State() == AfterImport(chain, old(State()), more)
    {
      var i := 0;
      while i < |more|
        invariant 0 <= i <= |more|
        invariant PutAll(events, more[i..]) == PutAll(old(events), more)
        invariant tipHash == old(tipHash) && sequence == old(sequence)
      {
        assert more[i..][0] == more[i] && more[i..][1..] == more[i + 1..];
        Set(more[i]);
        i := i + 1;
      }
      if chain.Some? {
        var tip := RestoreTip(more);
        tipHash, sequence := tip.0, tip.1;
      }
    }

    method Record(id: string, now: int, input: RecordInput) returns (e: AuditEvent)
      modifies this
      ensures State() == AfterRecord(c, chain, old(State()), Built(id, input, now))
      ensures e == Stamped(c, chain, old(State()), Built(id, input, now))
      ensures e.id == id && e.agentId == input.agentId && e.tool == input.tool && e.decision == input.decision
      ensures e.timestamp == now && e.details == input.details
    {
      e := AuditEvent(id, input.agentId, input.tool, input.decision, now, input.details, None, None, None, None);
      if chain.Some? {
        var next := sequence + 1;
        var hashPrev := tipHash;
        var hash := EventHash(c, hashPrev, e, next);
        e := e.(sequence := Some(next), hashPrev := Some(hashPrev), hash := Some(hash));
        if chain.value.signingSecret.Some? && chain.value.signingSecret.value != "" {
          e := e.(signature := Some(c.mac(hash, chain.value.signingSecret.value)));
        }
        sequence := next;
        tipHash := hash;
      }
      Set(e);
    }

    method List(q: AuditQuery) returns (r: seq<AuditEvent>)
      ensures r == Listed(events, q)
    {
      var filtered: seq<AuditEvent> := [];
      var i := 0;
      while i < |events|
        invariant 0 <= i <= |events|
        invariant filtered == Matching(events[..i], q)
      {
        assert events[..i + 1][..i] == events[..i];
        if Matches(events[i], q) {
          filtered := filtered + [events[i]];
        }
        i := i + 1;
      }
      assert events[..i] == events;
      r := SortBy(Timestamp, filtered);
      if q.limit.Some? && q.limit.value >= 0 {
        r := Slice(r, q.limit.value);
      }
    }

    /** Checks the events in the order of their timestamps. */
    method VerifyChain() returns (v: Verification)
      requires chain.Some? ==> chain.value.enabled
      ensures v.eventCount == |events| && v.enabled == chain.Some? && (v.valid <==> v.errors == [])
      ensures v.valid <==> (chain.Some? ==> Linked(c, chain.value, SortBy(Timestamp, events)))
    {
      if chain.None? {
        return Verification(false, true, |events|, []);
      }
      SortSorts(Timestamp, events);
      v := VerifyAuditChain(c, chain.value, SortBy(Timestamp, events));
    }

    method Clear()
      modifies this
      ensures State() == Empty(chain)
    {
      events := [];
      sequence := 0;
      tipHash := if chain.Some? then chain.value.genesisHash else GENESIS;
    }
  }

  lemma {:induction false} MatchingIsExact(events: seq<AuditEvent>, q: AuditQuery)
    ensures forall e :: e in Matching(events, q) <==> e in events && Matches(e, q)
  {
    if events != [] {
      MatchingIsExact(events[..|events| - 1], q);
      assert events == events[..|events| - 1] + [events[|events| - 1]];
    }
  }

  lemma {:induction false} MatchingKeepsOrder(events: seq<AuditEvent>, q: AuditQuery)
    requires SortedBy(Timestamp, events)
    ensures SortedBy(Timestamp, Matching(events, q))
  {
    if events != [] {
      var n := |events| - 1;
      MatchingKeepsOrder(events[..n], q);
      MatchingIsExact(events[..n], q);
      forall e | e in Matching(events[..n], q) ensures Timestamp(e) <= Timestamp(events[n]) {
        var i :| 0 <= i < n && events[i] == e;
      }
    }
  }

  /** A query answers with the matching events in clock order; a log recorded in clock order is listed as it stands. */
  lemma ListIsTheMatchingEvents(events: seq<AuditEvent>, q: AuditQuery)
    requires q.limit.None?
    ensures SortedBy(Timestamp, Listed(events, q))
    ensures forall e :: e in Listed(events, q) <==> e in events && Matches(e, q)
    ensures SortedBy(Timestamp, events) ==> Listed(events, q) == Matching(events, q)
  {
    MatchingIsExact(events, q);
    if SortedBy(Timestamp, events) { MatchingKeepsOrder(events, q); }
    SortSorts(Timestamp, Matching(events, q));
    SortIsIdentityOnSorted(Timestamp, Matching(events, q));
    SameMembers(Listed(events, q), Matching(events, q));
  }

  /** A limit cuts the list down to its last events; the limit 0 and one below it leave it whole. */
  lemma ListUnderALimit(events: seq<AuditEvent>, q: AuditQuery, n: int)
    ensures var all := Listed(events, q.(limit := None)); var cut := Listed(events, q.(limit := Some(n)));
            if 0 < n < |all| then |cut| == n && all == all[..|all| - n] + cut else cut == all
  {
    assert Matching(events, q.(limit := Some(n))) == Matching(events, q.(limit := None)) by {
      LimitDoesNotMatch(events, q, n);
    }
  }

  lemma {:induction false} LimitDoesNotMatch(events: seq<AuditEvent>, q: AuditQuery, n: int)
    ensures Matching(events, q.(limit := Some(n))) == Matching(events, q.(limit := None))
  {
    if events != [] { LimitDoesNotMatch(events[..|events| - 1], q, n); }
  }

  /** An event is listed when it has every property the query names and its time lies within the query's, ends included. */
  lemma MatchesInPlainTerms(e: AuditEvent, q: AuditQuery)
    ensures Matches(e, q) <==>
            && q.agentId in {None, Some(e.agentId)} && q.tool in {None, Some(e.tool)} && q.decision in {None, Some(e.decision)}
            && !(q.since.Some? && e.timestamp < q.since.value) && !(q.upTo.Some? && q.upTo.value < e.timestamp)
  {
  }

  /** Setting an id that is present replaces that event where it stands. */
  lemma {:induction false} PutOfKnownReplaces(events: seq<AuditEvent>, e: AuditEvent, i: nat)
    requires i < |events| && events[i].id == e.id && !HasId(events[..i], e.id)
    ensures Put(events, e) == events[i := e]
  {
    if i > 0 {
      assert events[..i][0].id == events[0].id;
      assert events[..i][1..] == events[1..][..i - 1];
      IdSplit(events[..i], e.id);
      PutOfKnownReplaces(events[1..], e, i - 1);
      assert events == [events[0]] + events[1..];
    }
  }

  /** A restored log goes on from the highest number among the events read. */
  lemma RestoreTipIsTheHighest(events: seq<AuditEvent>)
    requires events != [] && forall e :: e in events ==> e.sequence.Some?
    ensures exists e :: e in events && RestoreTip(events) == (if e.hash.Some? then e.hash.value else GENESIS, e.sequence.value)
    ensures forall e :: e in events ==> e.sequence.value <= RestoreTip(events).1
  {
    var sorted := SortBy(SequenceKey, events);
    SortSorts(SequenceKey, events);
    SameMembers(sorted, events);
    var last := sorted[|sorted| - 1];
    assert last in events;
    forall e | e in events ensures e.sequence.value <= last.sequence.value {
      var i :| 0 <= i < |sorted| && sorted[i] == e;
      assert SequenceKey(sorted[i]) <= SequenceKey(last);
    }
  }

  // ----------------------------------------------------------------- continuity

  predicate Numbered(events: seq<AuditEvent>) {
    forall i :: 0 <= i < |events| ==> events[i].sequence == Some(i + 1)
  }

  /** The log is a verified chain, and goes on exactly where its last event ends. */
  predicate InStep(c: Crypto, cfg: Config, log: Log) {
    && cfg.enabled && cfg.genesisHash == GENESIS
    && Linked(c, cfg, log.events) && AllWellFormed(log.events) && Numbered(log.events) && DistinctIds(log.events)
    && log.sequence == |log.events| && log.tipHash == Tip(log.events, GENESIS)
  }

  ghost predicate SignaturesAreTexts(c: Crypto) {
    forall h, s :: c.mac(h, s) != ""
  }

  lemma RecordAppends(c: Crypto, cfg: Config, log: Log, e: AuditEvent)
    requires InStep(c, cfg, log) && !HasId(log.events, e.id)
    ensures AfterRecord(c, Some(cfg), log, e).events == log.events + [Stamped(c, Some(cfg), log, e)]
    ensures DistinctIds(AfterRecord(c, Some(cfg), log, e).events)
  {
    PutOfNewAppends(log.events, Stamped(c, Some(cfg), log, e));
  }

  lemma StampedIsLinked(c: Crypto, cfg: Config, log: Log, e: AuditEvent)
    requires InStep(c, cfg, log) && SignaturesAreTexts(c)
    ensures Linked(c, cfg, log.events + [Stamped(c, Some(cfg), log, e)])
  {
    var old', new' := log.events, log.events + [Stamped(c, Some(cfg), log, e)];
    forall i | 0 <= i < |new'| ensures LinkedAt(c, cfg, new', i) {
      if i < |old'| {
        assert LinkedAt(c, cfg, old', i);
      } else {
        if i > 0 { assert LinkedAt(c, cfg, old', i - 1); }
        assert EventHash(c, log.tipHash, e, i + 1) == EventHash(c, log.tipHash, new'[i], i + 1);
      }
    }
  }

  /** Recording a new event keeps the log in step. */
  lemma RecordKeepsInStep(c: Crypto, cfg: Config, log: Log, e: AuditEvent)
    requires InStep(c, cfg, log) && SignaturesAreTexts(c) && WellFormed(e) && !HasId(log.events, e.id)
    ensures InStep(c, cfg, AfterRecord(c, Some(cfg), log, e))
  {
    RecordAppends(c, cfg, log, e);
    StampedIsLinked(c, cfg, log, e);
    assert WellFormed(Stamped(c, Some(cfg), log, e));
  }

  lemma NumberedTip(es: seq<AuditEvent>)
    requires Numbered(es) && es != [] && es[|es| - 1].hash.Some?
    ensures RestoreTip(es) == (es[|es| - 1].hash.value, |es|)
  {
    assert SortedBy(SequenceKey, es);
    SortIsIdentityOnSorted(SequenceKey, es);
  }

  /** Reading a log's events back restores the log: the same events, the same tip, the same number to go on from. */
  lemma ReloadRestores(c: Crypto, cfg: Config, log: Log)
    requires InStep(c, cfg, log)
    ensures AfterImport(Some(cfg), Empty(Some(cfg)), log.events) == log
  {
    var es := log.events;
    assert [] + es == es;
    PutAllOfDistinctAppends([], es);
    if es != [] {
      assert LinkedAt(c, cfg, es, |es| - 1);
      NumberedTip(es);
    }
  }

  /** For a log in step, verification succeeds exactly when the recorded clock never ran backwards. */
  lemma VerifiesExactlyInClockOrder(c: Crypto, cfg: Config, log: Log)
    requires InStep(c, cfg, log) && CollisionFree(c, GENESIS, Bodies(log.events))
    ensures Linked(c, cfg, SortBy(Timestamp, log.events)) <==> SortedBy(Timestamp, log.events)
  {
    var es := log.events;
    var sorted := SortBy(Timestamp, es);
    SortSorts(Timestamp, es);
    SortIsIdentityOnSorted(Timestamp, es);
    SameMembers(sorted, es);
    OnlyPrefixesVerify(c, cfg, es, sorted);
  }

  // ------------------------------------------------------------------- the file

  datatype Line = Stored(event: AuditEvent) | Unreadable | Blank

  function Readable(file: seq<Line>): seq<AuditEvent> {
    if file == [] then []
    else
      var before := Readable(file[..|file| - 1]);
      if file[|file| - 1].Stored? then before + [file[|file| - 1].event] else before
  }

  /** Blank lines are passed over and corrupt ones skipped. */
  method LoadEventsFromFile(file: seq<Line>) returns (events: seq<AuditEvent>)
    ensures events == Readable(file)
  {
    events := [];
    var i := 0;
    while i < |file|
      invariant 0 <= i <= |file|
      invariant events == Readable(file[..i])
    {
      assert file[..i + 1][..i] == file[..i];
      if file[i].Stored? {
        events := events + [file[i].event];
      }
      i := i + 1;
    }
    assert file[..i] == file;
  }

  /** A line that holds no event makes no difference, wherever it stands; one that holds an event adds it in its place. */
  lemma {:induction false} LinesAreReadOneByOne(before: seq<Line>, line: Line, after: seq<Line>)
    ensures Readable(before + [line] + after) ==
            Readable(before) + (if line.Stored? then [line.event] else []) + Readable(after)
    decreases |after|
  {
    var file := before + [line] + after;
    if after == [] {
      assert file[..|file| - 1] == before;
    } else {
      assert file[..|file| - 1] == before + [line] + after[..|after| - 1] && file[|file| - 1] == after[|after| - 1];
      LinesAreReadOneByOne(before, line, after[..|after| - 1]);
    }
  }

  class FileAuditLog {
    const memory: AuditLog
    var file: seq<Line>

    /** Opens the file: a process that starts on what an earlier one left. */
    constructor (c: Crypto, chain: Option<Config>, file: seq<Line>)
      ensures fresh(memory) && memory.c == c && memory.chain == Enabled(chain) && this.file == file
      ensures memory.State() == AfterImport(Enabled(chain), Empty(chain), Readable(file))
    {
      var inner := new AuditLog(c, chain);
      var loaded := LoadEventsFromFile(file);
      inner.ImportEvents(loaded);
      memory := inner;
      this.file := file;
    }

    method Record(id: string, now: int, input: RecordInput) returns (e: AuditEvent)
      modifies this, memory
      ensures memory.State() == AfterRecord(memory.c, memory.chain, old(memory.State()), Built(id, input, now))
      ensures e == Stamped(memory.c, memory.chain, old(memory.State()), Built(id, input, now))
      ensures file == old(file) + [Stored(e)]
    {
      e := memory.Record(id, now, input);
      file := file + [Stored(e)];
    }

    method VerifyChain() returns (v: Verification)
      requires memory.chain.Some? ==> memory.chain.value.enabled
      ensures v.valid <==>
              (memory.chain.Some? ==> Linked(memory.c, memory.chain.value, SortBy(Timestamp, memory.events)))
    {
      v := memory.VerifyChain();
    }
  }

  // --------------------------------------------- whole lives of a log with restarts

  datatype Step = Note(event: AuditEvent) | Restart

  datatype Disk = Disk(file: seq<Line>, log: Log)

  function TakeStep(c: Crypto, cfg: Config, d: Disk, s: Step): Disk {
    match s
    case Note(e) =>
      Disk(d.file + [Stored(Stamped(c, Some(cfg), d.log, e))], AfterRecord(c, Some(cfg), d.log, e))
    case Restart => Disk(d.file, AfterImport(Some(cfg), Empty(Some(cfg)), Readable(d.file)))
  }

  function Live(c: Crypto, cfg: Config, d: Disk, steps: seq<Step>): Disk {
    if steps == [] then d
    else TakeStep(c, cfg, Live(c, cfg, d, steps[..|steps| - 1]), steps[|steps| - 1])
  }

  function Notes(steps: seq<Step>): seq<AuditEvent> {
    if steps == [] then []
    else
      var before := Notes(steps[..|steps| - 1]);
      if steps[|steps| - 1].Note? then before + [steps[|steps| - 1].event] else before
  }

  /** The log of a process that records the same events and never stops. */
  function RecordAll(c: Crypto, cfg: Config, log: Log, es: seq<AuditEvent>): Log {
    if es == [] then log
    else AfterRecord(c, Some(cfg), RecordAll(c, cfg, log, es[..|es| - 1]), es[|es| - 1])
  }

  /** Every event recorded has an id of its own. */
  predicate NewIds(log: Log, es: seq<AuditEvent>) {
    DistinctIds(log.events + es)
  }

  ghost predicate Continuous(c: Crypto, cfg: Config, d: Disk) {
    InStep(c, cfg, d.log) && Readable(d.file) == d.log.events
  }

  lemma ReadableAppend(file: seq<Line>, e: AuditEvent)
    ensures Readable(file + [Stored(e)]) == Readable(file) + [e]
  {
    assert (file + [Stored(e)])[..|file|] == file;
  }

  lemma {:induction false} IdsOfPut(events: seq<AuditEvent>, e: AuditEvent, id: string)
    ensures HasId(Put(events, e), id) <==> HasId(events, id) || e.id == id
  {
    var r := Put(events, e);
    IdSplit(r, id);
    if events != [] {
      IdSplit(events, id);
      if events[0].id == e.id {
        assert r[1..] == events[1..];
      } else {
        assert r[1..] == Put(events[1..], e);
        IdsOfPut(events[1..], e, id);
      }
    }
  }

  lemma {:induction false} IdsOfRecordAll(c: Crypto, cfg: Config, log: Log, es: seq<AuditEvent>, id: string)
    ensures HasId(RecordAll(c, cfg, log, es).events, id) <==> HasId(log.events, id) || HasId(es, id)
  {
    if es != [] {
      var n := |es| - 1;
      var before := RecordAll(c, cfg, log, es[..n]);
      IdsOfRecordAll(c, cfg, log, es[..n], id);
      IdsOfPut(before.events, Stamped(c, Some(cfg), before, es[n]), id);
      IdsOfConcat(es[..n], [es[n]], id);
      assert es[..n] + [es[n]] == es;
      assert HasId([es[n]], id) <==> es[n].id == id by { IdSplit([es[n]], id); }
    }
  }

  lemma IdsOfConcat(a: seq<AuditEvent>, b: seq<AuditEvent>, id: string)
    ensures HasId(a + b, id) <==> HasId(a, id) || HasId(b, id)
  {
    if HasId(a, id) {
      var i :| 0 <= i < |a| && a[i].id == id;
      assert (a + b)[i].id == id;
    }
    if HasId(b, id) {
      var i :| 0 <= i < |b| && b[i].id == id;
      assert (a + b)[|a| + i].id == id;
    }
    if HasId(a + b, id) {
      var i :| 0 <= i < |a + b| && (a + b)[i].id == id;
      assert if i < |a| then a[i].id == id else b[i - |a|].id == id;
    }
  }

  /** After any mix of recording and restarting, the log is in step and is the log a process that never stopped has. */
  lemma {:induction false} RestartsLeaveNoTrace(c: Crypto, cfg: Config, d: Disk, steps: seq<Step>)
    requires Continuous(c, cfg, d) && SignaturesAreTexts(c) && AllWellFormed(Notes(steps))
    requires NewIds(d.log, Notes(steps))
    ensures Continuous(c, cfg, Live(c, cfg, d, steps))
    ensures Live(c, cfg, d, steps).log == RecordAll(c, cfg, d.log, Notes(steps))
  {
    if steps != [] {
      var before, last := steps[..|steps| - 1], steps[|steps| - 1];
      var es := Notes(steps);
      if last.Note? {
        assert es[..|es| - 1] == Notes(before);
        assert d.log.events + Notes(before) == (d.log.events + es)[..|d.log.events| + |es| - 1];
        assert forall e :: e in Notes(before) ==> e in es;
        RestartsLeaveNoTrace(c, cfg, d, before);
        NoteIsNew(c, cfg, d.log, es);
        var mid := Live(c, cfg, d, before);
        RecordKeepsInStep(c, cfg, mid.log, last.event);
        RecordAppends(c, cfg, mid.log, last.event);
        ReadableAppend(mid.file, Stamped(c, Some(cfg), mid.log, last.event));
      } else {
        RestartsLeaveNoTrace(c, cfg, d, before);
        ReloadRestores(c, cfg, Live(c, cfg, d, before).log);
      }
    }
  }

  lemma NoteIsNew(c: Crypto, cfg: Config, log: Log, es: seq<AuditEvent>)
    requires es != [] && NewIds(log, es)
    ensures !HasId(RecordAll(c, cfg, log, es[..|es| - 1]).events, es[|es| - 1].id)
  {
    var n, all := |es| - 1, log.events + es;
    IdsOfRecordAll(c, cfg, log, es[..n], es[n].id);
    IdsOfConcat(log.events, es[..n], es[n].id);
    DistinctAreNew(all, |all| - 1);
    assert all[..|all| - 1] == log.events + es[..n];
  }

  predicate SameClock(a: seq<AuditEvent>, b: seq<AuditEvent>) {
    |a| == |b| && forall i :: 0 <= i < |a| ==> a[i].timestamp == b[i].timestamp
  }

  lemma {:induction false} RecordAllKeepsTheClock(c: Crypto, cfg: Config, log: Log, es: seq<AuditEvent>)
    requires InStep(c, cfg, log) && SignaturesAreTexts(c) && AllWellFormed(es) && NewIds(log, es)
    ensures InStep(c, cfg, RecordAll(c, cfg, log, es))
    ensures SameClock(RecordAll(c, cfg, log, es).events, log.events + es)
  {
    if es != [] {
      var n, all := |es| - 1, log.events + es;
      assert log.events + es[..n] == all[..|all| - 1];
      RecordAllKeepsTheClock(c, cfg, log, es[..n]);
      NoteIsNew(c, cfg, log, es);
      RecordKeepsInStep(c, cfg, RecordAll(c, cfg, log, es[..n]), es[n]);
      RecordAppends(c, cfg, RecordAll(c, cfg, log, es[..n]), es[n]);
    }
  }

  /**
   * The chain is never broken: whatever the mix of recording and restarting, the log verifies
   * exactly when the clock the events were recorded by never ran backwards.
   */
  lemma AnyMixVerifiesInClockOrder(c: Crypto, cfg: Config, d: Disk, steps: seq<Step>)
    requires Continuous(c, cfg, d) && SignaturesAreTexts(c)
    requires AllWellFormed(Notes(steps)) && NewIds(d.log, Notes(steps))
    requires CollisionFree(c, GENESIS, Bodies(Live(c, cfg, d, steps).log.events))
    ensures Linked(c, cfg, SortBy(Timestamp, Live(c, cfg, d, steps).log.events)) <==>
            SortedBy(Timestamp, d.log.events + Notes(steps))
  {
    RestartsLeaveNoTrace(c, cfg, d, steps);
    RecordAllKeepsTheClock(c, cfg, d.log, Notes(steps));
    VerifiesExactlyInClockOrder(c, cfg, Live(c, cfg, d, steps).log);
  }

  // ------------------------------------------------------ the premises can be met

  /** The number a hashed body carries. */
  function NumberIn(v: Json): int {
    if !v.JObject? then 0
    else match Lookup(v.members, "sequence")
      case Some(JNumber(n)) => n.Floor
      case _ => 0
  }

  /** A digest that tells bodies apart by their number, longer than the genesis value. */
  function NumberingCrypto(): Crypto {
    Crypto(v => Repeat('x', |GENESIS| + 1 + if NumberIn(v) > 0 then NumberIn(v) else 0), (h, s) => "s")
  }

  lemma BodyKeepsItsNumber(e: AuditEvent, prev: string, sequence: int)
    ensures NumberIn(Canonical(HashableBody(e, prev, sequence))) == sequence
  {
    var body := HashableBody(e, prev, sequence);
    assert body.members[0] == BodyMembers(e, prev, sequence)[0];
    LookupAt(body.members, 0);
    CanonicalLookup(body, "sequence");
  }

  lemma NumberedLogsAreCollisionFree(events: seq<AuditEvent>)
    requires Numbered(events)
    ensures CollisionFree(NumberingCrypto(), GENESIS, Bodies(events))
  {
    forall i | 0 <= i < |events| ensures NumberIn(BodyAt(events, i)) == i + 1 {
      BodyKeepsItsNumber(events[i], if events[i].hashPrev.Some? then events[i].hashPrev.value else "", i + 1);
    }
  }

  /** Every list of events can be recorded into a log that meets all premises of the results above. */
  lemma RecordedLogsMeetThePremises(cfg: Config, es: seq<AuditEvent>)
    requires cfg.enabled && cfg.genesisHash == GENESIS && AllWellFormed(es) && DistinctIds(es)
    ensures var c := NumberingCrypto(); var log := RecordAll(c, cfg, Empty(Some(cfg)), es);
            && SignaturesAreTexts(c) && InStep(c, cfg, log) && |log.events| == |es|
            && CollisionFree(c, GENESIS, Bodies(log.events))
  {
    var c := NumberingCrypto();
    assert [] + es == es;
    RecordAllKeepsTheClock(c, cfg, Empty(Some(cfg)), es);
    NumberedLogsAreCollisionFree(RecordAll(c, cfg, Empty(Some(cfg)), es).events);
  }
}
