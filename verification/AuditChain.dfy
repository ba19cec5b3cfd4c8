/** The tamper-evident audit chain: hashing events, verifying a log of them, and what a tip binds. */
module AuditChain {
  import opened Prelude
  import opened JsonValues

  const GENESIS := "0000000000000000000000000000000000000000000000000000000000000000"

  /** An audit event; `details` are the optional properties it has, in the order the hashed body lists them. */
  datatype AuditEvent = AuditEvent(
    id: string,
    agentId: string,
    tool: string,
    decision: string,
    timestamp: int,
    details: seq<Member>,
    sequence: Option<int>,
    hashPrev: Option<string>,
    hash: Option<string>,
    signature: Option<string>)

  datatype Config = Config(enabled: bool, signingSecret: Option<string>, genesisHash: string)

  /** SHA-256 of a serialized value, and the HMAC of a hash under a secret. */
  datatype Crypto = Crypto(digest: Json -> string, mac: (string, string) -> string)

  /** Among the given values no two have the same digest, and none has the genesis value. */
  predicate CollisionFree(c: Crypto, genesis: string, values: set<Json>) {
    && (forall a, b :: a in values && b in values && c.digest(a) == c.digest(b) ==> a == b)
    && (forall a :: a in values ==> c.digest(a) != genesis)
  }

  // -------------------------------------------------------------------- hashing

  function BodyMembers(e: AuditEvent, hashPrev: string, sequence: int): seq<Member> {
    [Member("sequence", Some(JNumber(sequence as real))),
     Member("hashPrev", Some(JText(hashPrev))),
     Member("id", Some(JText(e.id))),
     Member("agentId", Some(JText(e.agentId))),
     Member("tool", Some(JText(e.tool))),
     Member("decision", Some(JText(e.decision))),
     Member("timestamp", Some(JNumber(e.timestamp as real)))]
  }

  function HashableBody(e: AuditEvent, hashPrev: string, sequence: int): Json {
    JObject(BodyMembers(e, hashPrev, sequence) + e.details)
  }

  function EventHash(c: Crypto, hashPrev: string, e: AuditEvent, sequence: int): string {
    c.digest(Canonical(HashableBody(e, hashPrev, sequence)))
  }

  predicate DistinctKeys(ms: seq<Member>) {
    forall i, j :: 0 <= i < j < |ms| ==> ms[i].key != ms[j].key
  }

  predicate AvoidsKeys(ms: seq<Member>, head: seq<Member>) {
    forall i, j :: 0 <= i < |ms| && 0 <= j < |head| ==> ms[i].key != head[j].key
  }

  /** Optional properties have names of their own. */
  predicate WellFormed(e: AuditEvent) {
    AvoidsKeys(e.details, BodyMembers(e, "", 0))
  }

  /** Two events say the same: everything hashed is equal, nested objects up to key order. */
  ghost predicate SameContent(a: AuditEvent, b: AuditEvent) {
    && a.id == b.id && a.agentId == b.agentId && a.tool == b.tool && a.decision == b.decision && a.timestamp == b.timestamp
    && Same(JObject(a.details), JObject(b.details))
  }

  lemma {:induction false} LookupAt(ms: seq<Member>, i: nat)
    requires i < |ms| && forall j :: 0 <= j < i ==> ms[j].key != ms[i].key
    ensures Lookup(ms, ms[i].key) == ms[i].value
  {
    if i > 0 { LookupAt(ms[1..], i - 1); }
  }

  predicate Scalars(ms: seq<Member>) {
    forall i :: 0 <= i < |ms| ==> ms[i].value.Some? && !ms[i].value.value.JArray? && !ms[i].value.value.JObject?
  }

  predicate SameKeys(a: seq<Member>, b: seq<Member>) {
    |a| == |b| && forall i :: 0 <= i < |a| ==> a[i].key == b[i].key
  }

  /** Of two equal objects that begin with the same scalar properties, those agree in value. */
  lemma SameHeads(a: seq<Member>, ra: seq<Member>, b: seq<Member>, rb: seq<Member>, i: nat)
    requires SameKeys(a, b) && DistinctKeys(a) && Scalars(a) && Scalars(b)
    requires Same(JObject(a + ra), JObject(b + rb)) && i < |a|
    ensures a[i].value == b[i].value
  {
    LookupAt(a + ra, i);
    LookupAt(b + rb, i);
    assert (a + ra)[i] == a[i] && (b + rb)[i] == b[i];
    assert Lookup(a + ra, a[i].key) == a[i].value;
  }

  /** A property listed behind a head with other keys is either a key of the head or read from the tail. */
  lemma LookupBehind(head: seq<Member>, tail: seq<Member>, k: string)
    requires AvoidsKeys(tail, head)
    ensures Lookup(tail, k) == if HasKey(head, k) then None else Lookup(head + tail, k)
  {
    LookupConcat(head, tail, k);
    NoKeyNoValue(tail, k);
  }

  lemma SameTails(a: seq<Member>, ra: seq<Member>, b: seq<Member>, rb: seq<Member>)
    requires SameKeys(a, b) && AvoidsKeys(ra, a) && AvoidsKeys(rb, b)
    requires Same(JObject(a + ra), JObject(b + rb))
    ensures Same(JObject(ra), JObject(rb))
  {
    forall k ensures (Lookup(ra, k).Some? <==> Lookup(rb, k).Some?)
                     && (Lookup(ra, k).Some? ==> Same(Lookup(ra, k).value, Lookup(rb, k).value))
    {
      LookupBehind(a, ra, k);
      LookupBehind(b, rb, k);
      assert HasKey(a, k) <==> HasKey(b, k);
      assert Lookup(a + ra, k).Some? <==> Lookup(b + rb, k).Some?;
    }
  }

  lemma BodyKeys(a: AuditEvent, prevA: string, seqA: int, b: AuditEvent, prevB: string, seqB: int)
    ensures SameKeys(BodyMembers(a, prevA, seqA), BodyMembers(b, prevB, seqB))
    ensures DistinctKeys(BodyMembers(a, prevA, seqA)) && Scalars(BodyMembers(a, prevA, seqA))
  {
  }

  /** Equal bodies have equal fixed properties. */
  lemma SameBodiesSameHeads(a: AuditEvent, prevA: string, seqA: int, b: AuditEvent, prevB: string, seqB: int)
    requires Same(HashableBody(a, prevA, seqA), HashableBody(b, prevB, seqB))
    ensures BodyMembers(a, prevA, seqA) == BodyMembers(b, prevB, seqB)
  {
    var as', bs := BodyMembers(a, prevA, seqA), BodyMembers(b, prevB, seqB);
    BodyKeys(a, prevA, seqA, b, prevB, seqB);
    BodyKeys(b, prevB, seqB, a, prevA, seqA);
    forall i | 0 <= i < |as'| ensures as'[i] == bs[i] {
      SameHeads(as', a.details, bs, b.details, i);
    }
  }

  lemma EqualHeadsSayTheSame(a: AuditEvent, prevA: string, seqA: int, b: AuditEvent, prevB: string, seqB: int)
    requires BodyMembers(a, prevA, seqA) == BodyMembers(b, prevB, seqB)
    ensures prevA == prevB && seqA == seqB && a.id == b.id && a.agentId == b.agentId && a.tool == b.tool
    ensures a.decision == b.decision && a.timestamp == b.timestamp
  {
    var as', bs := BodyMembers(a, prevA, seqA), BodyMembers(b, prevB, seqB);
    assert as'[0] == bs[0] && as'[1] == bs[1] && as'[2] == bs[2] && as'[3] == bs[3];
    assert as'[4] == bs[4] && as'[5] == bs[5] && as'[6] == bs[6];
  }

  /** Equal canonical bodies come from events that say the same at the same place in the same chain. */
  lemma BodyIsBinding(a: AuditEvent, prevA: string, seqA: int, b: AuditEvent, prevB: string, seqB: int)
    requires WellFormed(a) && WellFormed(b)
    requires Canonical(HashableBody(a, prevA, seqA)) == Canonical(HashableBody(b, prevB, seqB))
    ensures prevA == prevB && seqA == seqB && SameContent(a, b)
  {
    CanonicalIsExact(HashableBody(a, prevA, seqA), HashableBody(b, prevB, seqB));
    SameBodiesSameHeads(a, prevA, seqA, b, prevB, seqB);
    EqualHeadsSayTheSame(a, prevA, seqA, b, prevB, seqB);
    BodyKeys(a, prevA, seqA, a, "", 0);
    BodyKeys(b, prevB, seqB, b, "", 0);
    SameTails(BodyMembers(a, prevA, seqA), a.details, BodyMembers(b, prevB, seqB), b.details);
  }

  /** Events that say the same, at the same place of the same chain, have the same hash: field order does not matter. */
  lemma SameContentSameHash(c: Crypto, a: AuditEvent, b: AuditEvent, prev: string, sequence: int)
    requires WellFormed(a) && WellFormed(b) && SameContent(a, b)
    ensures EventHash(c, prev, a, sequence) == EventHash(c, prev, b, sequence)
  {
    var head := BodyMembers(a, prev, sequence);
    forall k ensures (Lookup(head + a.details, k).Some? <==> Lookup(head + b.details, k).Some?)
                     && (Lookup(head + a.details, k).Some? ==>
                           Same(Lookup(head + a.details, k).value, Lookup(head + b.details, k).value))
    {
      LookupConcat(head, a.details, k);
      LookupConcat(head, b.details, k);
      if HasKey(head, k) && Lookup(head, k).Some? { SameToItself(Lookup(head, k).value); }
    }
    CanonicalIsExact(HashableBody(a, prev, sequence), HashableBody(b, prev, sequence));
  }

  lemma SameToItself(v: Json)
    ensures Same(v, v)
  {
    CanonicalIsExact(v, v);
  }

  // --------------------------------------------------------------- verification

  function HexValue(ch: char): Option<nat> {
    if '0' <= ch <= '9' then Some(ch as nat - 48)
    else if 'a' <= ch <= 'f' then Some(ch as nat - 87)
    else if 'A' <= ch <= 'F' then Some(ch as nat - 55)
    else None
  }

  /** Decodes pairs of hex digits up to the first pair that is not one. */
  function HexDecode(s: string): seq<nat> {
    if |s| < 2 || HexValue(s[0]).None? || HexValue(s[1]).None? then []
    else [16 * HexValue(s[0]).value + HexValue(s[1]).value] + HexDecode(s[2..])
  }

  predicate Signs(cfg: Config) {
    cfg.signingSecret.Some? && cfg.signingSecret.value != ""
  }

  predicate SignatureOk(c: Crypto, cfg: Config, e: AuditEvent) {
    Signs(cfg) ==>
      && e.hash.Some? && e.signature.Some? && e.signature.value != ""
      && HexDecode(e.signature.value) == HexDecode(c.mac(e.hash.value, cfg.signingSecret.value))
  }

  predicate LowerHexDigit(ch: char) {
    '0' <= ch <= '9' || 'a' <= ch <= 'f'
  }

  /** Lower-case hex digits, two to a byte, as a MAC is written. */
  predicate LowerHex(s: string) {
    |s| % 2 == 0 && forall i :: 0 <= i < |s| ==> LowerHexDigit(s[i])
  }

  const HEX_DIGITS := "0123456789abcdef"

  lemma HexDigitsHaveTheirPlaces(ch: char)
    ensures LowerHexDigit(ch) ==> HexValue(ch).Some? && HexValue(ch).value < 16 && HEX_DIGITS[HexValue(ch).value] == ch
  {
  }

  lemma DigitsAreToldApart(a: char, b: char)
    requires LowerHexDigit(a) && LowerHexDigit(b) && HexValue(a) == HexValue(b)
    ensures a == b
  {
  }

  /** Each pair of digits gives one byte, up to the first pair that is not one. */
  lemma {:induction false} HexDecodeAt(s: string, i: nat)
    ensures 2 * |HexDecode(s)| <= |s|
    ensures i < |HexDecode(s)| ==>
              && HexValue(s[2 * i]).Some? && HexValue(s[2 * i + 1]).Some?
              && HexDecode(s)[i] == 16 * HexValue(s[2 * i]).value + HexValue(s[2 * i + 1]).value
    ensures var n := |HexDecode(s)|;
            2 * n + 1 < |s| ==> HexValue(s[2 * n]).None? || HexValue(s[2 * n + 1]).None?
  {
    if |HexDecode(s)| > 0 {
      HexDecodeAt(s[2..], if i > 0 then i - 1 else 0);
      assert |HexDecode(s)| == |HexDecode(s[2..])| + 1;
    }
  }

  lemma LowerHexTail(s: string)
    requires LowerHex(s) && s != ""
    ensures |s| >= 2 && LowerHexDigit(s[0]) && LowerHexDigit(s[1]) && LowerHex(s[2..])
  {
    forall i | 0 <= i < |s[2..]| ensures LowerHexDigit(s[2..][i]) {
      assert s[2..][i] == s[i + 2];
    }
  }

  lemma HexPair(s: string)
    requires |s| >= 2 && LowerHexDigit(s[0]) && LowerHexDigit(s[1])
    ensures HexDecode(s) == [16 * HexValue(s[0]).value + HexValue(s[1]).value] + HexDecode(s[2..])
  {
  }

  lemma SamePair(a: char, b: char, c: char, d: char)
    requires LowerHexDigit(a) && LowerHexDigit(b) && LowerHexDigit(c) && LowerHexDigit(d)
    requires 16 * HexValue(a).value + HexValue(b).value == 16 * HexValue(c).value + HexValue(d).value
    ensures a == c && b == d
  {
    assert HexValue(a).value < 16 && HexValue(b).value < 16 && HexValue(c).value < 16 && HexValue(d).value < 16;
    DigitsAreToldApart(a, c);
    DigitsAreToldApart(b, d);
  }

  lemma SameParts(u: nat, v: nat, s: seq<nat>, t: seq<nat>)
    requires [u] + s == [v] + t
    ensures u == v && s == t
  {
    assert ([u] + s)[0] == ([v] + t)[0] && ([u] + s)[1..] == s && ([v] + t)[1..] == t;
  }

  lemma SameHead(a: string, b: string)
    requires |a| >= 2 && |b| >= 2 && HexDecode(a) == HexDecode(b)
    requires LowerHexDigit(a[0]) && LowerHexDigit(a[1]) && LowerHexDigit(b[0]) && LowerHexDigit(b[1])
    ensures a[0] == b[0] && a[1] == b[1] && HexDecode(a[2..]) == HexDecode(b[2..])
  {
    HexPair(a);
    HexPair(b);
    SameParts(16 * HexValue(a[0]).value + HexValue(a[1]).value, 16 * HexValue(b[0]).value + HexValue(b[1]).value,
              HexDecode(a[2..]), HexDecode(b[2..]));
    SamePair(a[0], a[1], b[0], b[1]);
  }

  lemma TwoAndRest(s: string)
    requires |s| >= 2
    ensures s == [s[0], s[1]] + s[2..]
  {
  }

  /** Two MACs decode alike only when they are the same text. */
  lemma {:induction false} HexIsInjective(a: string, b: string)
    requires LowerHex(a) && LowerHex(b) && HexDecode(a) == HexDecode(b)
    ensures a == b
    decreases |a|
  {
    if a != "" { LowerHexTail(a); }
    if b != "" { LowerHexTail(b); }
    if a == "" {
      if b != "" { HexPair(b); }
    } else if b == "" {
      HexPair(a);
    } else {
      SameHead(a, b);
      HexIsInjective(a[2..], b[2..]);
      TwoAndRest(a);
      TwoAndRest(b);
    }
  }

  /** A signature written as MACs are is accepted exactly when it is the MAC of the event's hash. */
  lemma SignatureIsTheMac(c: Crypto, cfg: Config, e: AuditEvent)
    requires Signs(cfg) && e.hash.Some? && e.signature.Some? && LowerHex(e.signature.value)
    requires LowerHex(c.mac(e.hash.value, cfg.signingSecret.value)) && c.mac(e.hash.value, cfg.signingSecret.value) != ""
    ensures SignatureOk(c, cfg, e) <==> e.signature.value == c.mac(e.hash.value, cfg.signingSecret.value)
  {
    if SignatureOk(c, cfg, e) { HexIsInjective(e.signature.value, c.mac(e.hash.value, cfg.signingSecret.value)); }
  }

  function SequenceAt(events: seq<AuditEvent>, i: nat): int
    requires i < |events|
  {
    if events[i].sequence.Some? then events[i].sequence.value else i + 1
  }

  /** The hash the event at `i` has to point to: the last one present before it. */
  function PrevBefore(events: seq<AuditEvent>, i: nat, genesis: string): string
    requires i <= |events|
  {
    if i == 0 then genesis
    else if events[i - 1].hash.Some? then events[i - 1].hash.value
    else PrevBefore(events, i - 1, genesis)
  }

  datatype Fault =
    | PrevMismatch(id: string, sequence: int)
    | MissingHash(id: string)
    | HashMismatch(id: string)
    | MissingSignature(id: string)
    | InvalidSignature(id: string)

  function FaultsOf(c: Crypto, cfg: Config, e: AuditEvent, sequence: int, prev: string): seq<Fault> {
    var unlinked := if e.hashPrev != Some(prev) then [PrevMismatch(e.id, sequence)] else [];
    if e.hash.None? then unlinked + [MissingHash(e.id)]
    else
      var altered := if e.hash.value != EventHash(c, prev, e, sequence) then unlinked + [HashMismatch(e.id)] else unlinked;
      if SignatureOk(c, cfg, e) then altered
      else if e.signature.None? || e.signature.value == "" then altered + [MissingSignature(e.id)]
      else altered + [InvalidSignature(e.id)]
  }

  /** Which faults one event has, each said of the event itself. */
  lemma FaultsInPlainTerms(c: Crypto, cfg: Config, e: AuditEvent, sequence: int, prev: string)
    ensures var faults := FaultsOf(c, cfg, e, sequence, prev);
            && (PrevMismatch(e.id, sequence) in faults <==> e.hashPrev.None? || e.hashPrev.value != prev)
            && (MissingHash(e.id) in faults <==> e.hash.None?)
            && (HashMismatch(e.id) in faults <==> e.hash.Some? && e.hash.value != EventHash(c, prev, e, sequence))
            && (MissingSignature(e.id) in faults <==>
                  e.hash.Some? && Signs(cfg) && (e.signature.None? || e.signature.value == ""))
            && (InvalidSignature(e.id) in faults <==>
                  && e.hash.Some? && Signs(cfg) && e.signature.Some? && e.signature.value != ""
                  && HexDecode(e.signature.value) != HexDecode(c.mac(e.hash.value, cfg.signingSecret.value)))
  {
  }

  /** A forged signature, written as MACs are, is reported. */
  lemma ForgedSignaturesAreReported(c: Crypto, cfg: Config, e: AuditEvent, sequence: int, prev: string)
    requires Signs(cfg) && e.hash.Some? && e.signature.Some? && e.signature.value != "" && LowerHex(e.signature.value)
    requires LowerHex(c.mac(e.hash.value, cfg.signingSecret.value)) && c.mac(e.hash.value, cfg.signingSecret.value) != ""
    ensures e.signature.value != c.mac(e.hash.value, cfg.signingSecret.value) <==>
            InvalidSignature(e.id) in FaultsOf(c, cfg, e, sequence, prev)
  {
    SignatureIsTheMac(c, cfg, e);
    FaultsInPlainTerms(c, cfg, e, sequence, prev);
  }

  function FaultsAt(c: Crypto, cfg: Config, events: seq<AuditEvent>, i: nat): seq<Fault>
    requires i < |events|
  {
    FaultsOf(c, cfg, events[i], SequenceAt(events, i), PrevBefore(events, i, cfg.genesisHash))
  }

  function Faults(c: Crypto, cfg: Config, events: seq<AuditEvent>, n: nat): seq<Fault>
    requires n <= |events|
  {
    if n == 0 then [] else Faults(c, cfg, events, n - 1) + FaultsAt(c, cfg, events, n - 1)
  }

  /** The event at `i` carries the hash of its own content, points at the event before it, and is signed. */
  predicate LinkedAt(c: Crypto, cfg: Config, events: seq<AuditEvent>, i: nat)
    requires i < |events|
  {
    var prev := if i == 0 then Some(cfg.genesisHash) else events[i - 1].hash;
    && prev.Some? && events[i].hashPrev == prev
    && events[i].hash == Some(EventHash(c, prev.value, events[i], SequenceAt(events, i)))
    && SignatureOk(c, cfg, events[i])
  }

  predicate Linked(c: Crypto, cfg: Config, events: seq<AuditEvent>) {
    forall i :: 0 <= i < |events| ==> LinkedAt(c, cfg, events, i)
  }

  /** Behind a linked event, an event has no fault exactly when it is linked. */
  lemma NoFaultsAt(c: Crypto, cfg: Config, events: seq<AuditEvent>, i: nat)
    requires i < |events| && (i > 0 ==> LinkedAt(c, cfg, events, i - 1))
    ensures FaultsAt(c, cfg, events, i) == [] <==> LinkedAt(c, cfg, events, i)
  {
  }

  predicate LinkedUpTo(c: Crypto, cfg: Config, events: seq<AuditEvent>, n: nat)
    requires n <= |events|
  {
    forall i :: 0 <= i < n ==> LinkedAt(c, cfg, events, i)
  }

  lemma OneMoreLinked(c: Crypto, cfg: Config, events: seq<AuditEvent>, n: nat)
    requires n < |events|
    ensures LinkedUpTo(c, cfg, events, n + 1) <==> LinkedUpTo(c, cfg, events, n) && FaultsAt(c, cfg, events, n) == []
  {
    if LinkedUpTo(c, cfg, events, n) { NoFaultsAt(c, cfg, events, n); }
  }

  lemma {:induction false} NoFaultsWhenLinked(c: Crypto, cfg: Config, events: seq<AuditEvent>, n: nat)
    requires n <= |events|
    ensures Faults(c, cfg, events, n) == [] <==> LinkedUpTo(c, cfg, events, n)
  {
    if n > 0 {
      NoFaultsWhenLinked(c, cfg, events, n - 1);
      OneMoreLinked(c, cfg, events, n - 1);
    }
  }

  datatype Verification = Verification(enabled: bool, valid: bool, eventCount: nat, errors: seq<Fault>)

  /** The body of the verifier's loop. */
  method CheckEvent(c: Crypto, cfg: Config, e: AuditEvent, sequence: int, expectedPrev: string, before: seq<Fault>)
    returns (errors: seq<Fault>)
    ensures errors == before + FaultsOf(c, cfg, e, sequence, expectedPrev)
  {
    errors := before;
    if e.hashPrev != Some(expectedPrev) {
      errors := errors + [PrevMismatch(e.id, sequence)];
    }
    if e.hash.None? {
      errors := errors + [MissingHash(e.id)];
      return;
    }
    var recomputed := EventHash(c, expectedPrev, e, sequence);
    if e.hash.value != recomputed {
      errors := errors + [HashMismatch(e.id)];
    }
    if cfg.signingSecret.Some? && cfg.signingSecret.value != "" {
      if e.signature.None? || e.signature.value == "" {
        errors := errors + [MissingSignature(e.id)];
      } else {
        var expectedSig := c.mac(e.hash.value, cfg.signingSecret.value);
        if HexDecode(e.signature.value) != HexDecode(expectedSig) {
          errors := errors + [InvalidSignature(e.id)];
        }
      }
    }
  }

  /** The verifier reports every fault in order, and none exactly for a linked log. */
  method VerifyAuditChain(c: Crypto, cfg: Config, events: seq<AuditEvent>) returns (v: Verification)
    ensures v.enabled == cfg.enabled && v.eventCount == |events| && (v.valid <==> v.errors == [])
    ensures v.errors == if cfg.enabled then Faults(c, cfg, events, |events|) else []
    ensures v.valid <==> (cfg.enabled ==> Linked(c, cfg, events))
  {
    if !cfg.enabled {
      return Verification(false, true, |events|, []);
    }
    var errors: seq<Fault> := [];
    var expectedPrev := cfg.genesisHash;
    var i := 0;
    while i < |events|
      invariant 0 <= i <= |events|
      invariant errors == Faults(c, cfg, events, i)
      invariant expectedPrev == PrevBefore(events, i, cfg.genesisHash)
    {
      var sequence := if events[i].sequence.Some? then events[i].sequence.value else i + 1;
      errors := CheckEvent(c, cfg, events[i], sequence, expectedPrev, errors);
      if events[i].hash.Some? {
        expectedPrev := events[i].hash.value;
      }
      i := i + 1;
    }
    NoFaultsWhenLinked(c, cfg, events, |events|);
    v := Verification(true, errors == [], |events|, errors);
  }

  // -------------------------------------------------------------------- binding

  function Tip(events: seq<AuditEvent>, genesis: string): string {
    PrevBefore(events, |events|, genesis)
  }

  predicate AllWellFormed(events: seq<AuditEvent>) {
    forall e :: e in events ==> WellFormed(e)
  }

  /** The two records are the same but for the order of keys and the spelling of the signature. */
  ghost predicate SameRecord(a: seq<AuditEvent>, b: seq<AuditEvent>, i: nat)
    requires i < |a| && i < |b|
  {
    && SameContent(a[i], b[i]) && SequenceAt(a, i) == SequenceAt(b, i)
    && a[i].hashPrev == b[i].hashPrev && a[i].hash == b[i].hash
  }

  ghost predicate SameLog(a: seq<AuditEvent>, b: seq<AuditEvent>) {
    |a| == |b| && forall i :: 0 <= i < |a| ==> SameRecord(a, b, i)
  }

  /** What the event at `i` is hashed over, linked as it says it is. */
  function BodyAt(events: seq<AuditEvent>, i: nat): Json
    requires i < |events|
  {
    var prev := if events[i].hashPrev.Some? then events[i].hashPrev.value else "";
    Canonical(HashableBody(events[i], prev, SequenceAt(events, i)))
  }

  function Bodies(events: seq<AuditEvent>): set<Json> {
    set i | 0 <= i < |events| :: BodyAt(events, i)
  }

  /** Dropping events from the end leaves a log that verifies: a tip has to be kept elsewhere to notice it. */
  lemma TruncationVerifies(c: Crypto, cfg: Config, events: seq<AuditEvent>, n: nat)
    requires Linked(c, cfg, events) && n <= |events|
    ensures Linked(c, cfg, events[..n])
  {
    forall i | 0 <= i < n ensures LinkedAt(c, cfg, events[..n], i) {
      assert LinkedAt(c, cfg, events, i);
    }
  }

  /** Equal hashes of linked events come from the same content at the same place of the same chain. */
  lemma EqualHashesBind(c: Crypto, cfg: Config, a: seq<AuditEvent>, i: nat, b: seq<AuditEvent>, j: nat)
    requires CollisionFree(c, cfg.genesisHash, Bodies(a) + Bodies(b))
    requires i < |a| && j < |b| && WellFormed(a[i]) && WellFormed(b[j])
    requires LinkedAt(c, cfg, a, i) && LinkedAt(c, cfg, b, j) && a[i].hash == b[j].hash
    ensures a[i].hashPrev == b[j].hashPrev && SequenceAt(a, i) == SequenceAt(b, j) && SameContent(a[i], b[j])
  {
    assert BodyAt(a, i) in Bodies(a) && BodyAt(b, j) in Bodies(b);
    BodyIsBinding(a[i], a[i].hashPrev.value, SequenceAt(a, i), b[j], b[j].hashPrev.value, SequenceAt(b, j));
  }

  lemma NoHashIsGenesis(c: Crypto, cfg: Config, a: seq<AuditEvent>)
    requires CollisionFree(c, cfg.genesisHash, Bodies(a)) && Linked(c, cfg, a)
    ensures forall i :: 0 <= i < |a| ==> a[i].hash.Some? && a[i].hash.value != cfg.genesisHash
  {
    forall i | 0 <= i < |a| ensures a[i].hash.Some? && a[i].hash.value != cfg.genesisHash {
      assert LinkedAt(c, cfg, a, i);
      assert BodyAt(a, i) in Bodies(a);
    }
  }

  lemma BodiesOfPrefix(a: seq<AuditEvent>, n: nat)
    requires n <= |a|
    ensures Bodies(a[..n]) <= Bodies(a)
  {
    forall v | v in Bodies(a[..n]) ensures v in Bodies(a) {
      var i :| 0 <= i < n && v == BodyAt(a[..n], i);
      assert v == BodyAt(a, i);
    }
  }

  /** Of two linked logs with the same tip, the last events bind and the logs before them have the same tip again. */
  lemma LastEventsBind(c: Crypto, cfg: Config, a: seq<AuditEvent>, b: seq<AuditEvent>)
    requires CollisionFree(c, cfg.genesisHash, Bodies(a) + Bodies(b)) && AllWellFormed(a) && AllWellFormed(b)
    requires Linked(c, cfg, a) && Linked(c, cfg, b) && Tip(a, cfg.genesisHash) == Tip(b, cfg.genesisHash)
    requires a != [] && b != []
    ensures var m, n := |a| - 1, |b| - 1;
            && SameContent(a[m], b[n]) && SequenceAt(a, m) == SequenceAt(b, n)
            && a[m].hashPrev == b[n].hashPrev && a[m].hash == b[n].hash
            && Tip(a[..m], cfg.genesisHash) == Tip(b[..n], cfg.genesisHash)
  {
    var m, n := |a| - 1, |b| - 1;
    assert a[m].hash == b[n].hash by { assert LinkedAt(c, cfg, a, m) && LinkedAt(c, cfg, b, n); }
    EqualHashesBind(c, cfg, a, m, b, n);
    TipOfPrefix(c, cfg, a, m);
    TipOfPrefix(c, cfg, b, n);
  }

  lemma SameLogGrows(a: seq<AuditEvent>, b: seq<AuditEvent>)
    requires a != [] && b != [] && SameLog(a[..|a| - 1], b[..|b| - 1])
    requires var m, n := |a| - 1, |b| - 1;
             && SameContent(a[m], b[n]) && SequenceAt(a, m) == SequenceAt(b, n)
             && a[m].hashPrev == b[n].hashPrev && a[m].hash == b[n].hash
    ensures SameLog(a, b)
  {
    forall i | 0 <= i < |a| ensures SameRecord(a, b, i) {
      if i < |a| - 1 { assert SameRecord(a[..|a| - 1], b[..|b| - 1], i); }
    }
  }

  /** Two logs that verify and end in the same tip are the same log, back to the genesis. */
  lemma {:induction false} TipBindsTheLog(c: Crypto, cfg: Config, a: seq<AuditEvent>, b: seq<AuditEvent>)
    requires CollisionFree(c, cfg.genesisHash, Bodies(a) + Bodies(b)) && AllWellFormed(a) && AllWellFormed(b)
    requires Linked(c, cfg, a) && Linked(c, cfg, b) && Tip(a, cfg.genesisHash) == Tip(b, cfg.genesisHash)
    ensures SameLog(a, b)
    decreases |a|
  {
    if a == [] || b == [] {
      if a != [] { NoHashIsGenesis(c, cfg, a); }
      if b != [] { NoHashIsGenesis(c, cfg, b); }
    } else {
      var m, n := |a| - 1, |b| - 1;
      LastEventsBind(c, cfg, a, b);
      TruncationVerifies(c, cfg, a, m);
      TruncationVerifies(c, cfg, b, n);
      BodiesOfPrefix(a, m);
      BodiesOfPrefix(b, n);
      TipBindsTheLog(c, cfg, a[..m], b[..n]);
      SameLogGrows(a, b);
    }
  }

  lemma TipOfPrefix(c: Crypto, cfg: Config, a: seq<AuditEvent>, n: nat)
    requires n < |a| && Linked(c, cfg, a)
    ensures Some(Tip(a[..n], cfg.genesisHash)) == a[n].hashPrev
  {
    assert LinkedAt(c, cfg, a, n);
    if n > 0 { assert a[..n][n - 1] == a[n - 1]; }
  }

  /**
   * Against a log with a known tip, a presented log verifies and ends in that tip exactly when it is that log:
   * any edit, deletion, insertion or reordering that keeps the tip is reported.
   */
  lemma EveryTamperIsReported(c: Crypto, cfg: Config, kept: seq<AuditEvent>, shown: seq<AuditEvent>)
    requires CollisionFree(c, cfg.genesisHash, Bodies(kept) + Bodies(shown))
    requires AllWellFormed(kept) && AllWellFormed(shown) && Linked(c, cfg, kept)
    ensures Linked(c, cfg, shown) && Tip(shown, cfg.genesisHash) == Tip(kept, cfg.genesisHash) <==>
            SameLog(kept, shown) && forall i :: 0 <= i < |shown| ==> SignatureOk(c, cfg, shown[i])
  {
    if Linked(c, cfg, shown) && Tip(shown, cfg.genesisHash) == Tip(kept, cfg.genesisHash) {
      TipBindsTheLog(c, cfg, kept, shown);
      forall i | 0 <= i < |shown| ensures SignatureOk(c, cfg, shown[i]) {
        assert LinkedAt(c, cfg, shown, i);
      }
    }
    if SameLog(kept, shown) && forall i :: 0 <= i < |shown| ==> SignatureOk(c, cfg, shown[i]) {
      CopiesVerify(c, cfg, kept, shown);
    }
  }

  lemma CopiesVerify(c: Crypto, cfg: Config, kept: seq<AuditEvent>, shown: seq<AuditEvent>)
    requires AllWellFormed(kept) && AllWellFormed(shown) && Linked(c, cfg, kept)
    requires SameLog(kept, shown) && forall i :: 0 <= i < |shown| ==> SignatureOk(c, cfg, shown[i])
    ensures Linked(c, cfg, shown) && Tip(shown, cfg.genesisHash) == Tip(kept, cfg.genesisHash)
  {
    forall i | 0 <= i < |shown| ensures LinkedAt(c, cfg, shown, i) {
      assert LinkedAt(c, cfg, kept, i) && SameRecord(kept, shown, i);
      if i > 0 { assert SameRecord(kept, shown, i - 1); }
      SameContentSameHash(c, kept[i], shown[i], kept[i].hashPrev.value, SequenceAt(kept, i));
    }
    if |kept| > 0 { assert SameRecord(kept, shown, |kept| - 1) && LinkedAt(c, cfg, kept, |kept| - 1); }
  }

  /** No hash occurs twice in a log that verifies. */
  lemma {:induction false} HashesDiffer(c: Crypto, cfg: Config, a: seq<AuditEvent>, i: nat, j: nat)
    requires CollisionFree(c, cfg.genesisHash, Bodies(a)) && AllWellFormed(a) && Linked(c, cfg, a) && i < j < |a|
    ensures a[i].hash != a[j].hash
    decreases i
  {
    assert LinkedAt(c, cfg, a, i) && LinkedAt(c, cfg, a, j) && LinkedAt(c, cfg, a, j - 1);
    if a[i].hash == a[j].hash {
      EqualHashesBind(c, cfg, a, i, a, j);
      if i == 0 {
        NoHashIsGenesis(c, cfg, a);
      } else {
        HashesDiffer(c, cfg, a, i - 1, j - 1);
      }
    }
  }

  /** A log put together from the events of one that verifies is itself accepted only as a prefix of it. */
  lemma {:induction false} OnlyPrefixesVerify(c: Crypto, cfg: Config, log: seq<AuditEvent>, picked: seq<AuditEvent>)
    requires CollisionFree(c, cfg.genesisHash, Bodies(log)) && AllWellFormed(log) && Linked(c, cfg, log)
    requires forall e :: e in picked ==> e in log
    ensures Linked(c, cfg, picked) ==> picked <= log
    decreases |picked|
  {
    if Linked(c, cfg, picked) && picked != [] {
      var n := |picked| - 1;
      TruncationVerifies(c, cfg, picked, n);
      assert forall e :: e in picked[..n] ==> e in picked;
      OnlyPrefixesVerify(c, cfg, log, picked[..n]);
      assert picked[n] in log;
      var j :| 0 <= j < |log| && log[j] == picked[n];
      assert LinkedAt(c, cfg, picked, n) && LinkedAt(c, cfg, log, j);
      NextIsUnique(c, cfg, log, n, j, picked);
      assert picked == picked[..n] + [log[n]];
    }
  }

  lemma NextIsUnique(c: Crypto, cfg: Config, log: seq<AuditEvent>, n: nat, j: nat, picked: seq<AuditEvent>)
    requires CollisionFree(c, cfg.genesisHash, Bodies(log)) && AllWellFormed(log) && Linked(c, cfg, log)
    requires n < |picked| && picked[..n] <= log && j < |log| && log[j] == picked[n] && LinkedAt(c, cfg, picked, n)
    ensures j == n
  {
    assert LinkedAt(c, cfg, log, j);
    if n == 0 {
      if j > 0 { NoHashIsGenesis(c, cfg, log); }
    } else {
      assert picked[..n][n - 1] == log[n - 1];
      assert LinkedAt(c, cfg, log, n - 1);
      if j == 0 {
        NoHashIsGenesis(c, cfg, log);
      } else if j < n {
        HashesDiffer(c, cfg, log, j - 1, n - 1);
      } else if j > n {
        HashesDiffer(c, cfg, log, n - 1, j - 1);
      }
    }
  }
}
