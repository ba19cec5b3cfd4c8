/** JSON values and the canonical form that event hashes are taken of. */
module JsonValues {
  import opened Prelude

  /** A property whose value is None is present but undefined. */
  datatype Member = Member(key: string, value: Option<Json>)

  datatype Json =
    | JNull
    | JBool(b: bool)
    | JNumber(n: real)
    | JText(s: string)
    | JArray(items: seq<Json>)
    | JObject(members: seq<Member>)

  // ------------------------------------------------------------------ key order

  /** The order strings are sorted in: by code unit. */
  predicate Below(a: string, b: string) {
    b != "" && (a == "" || a[0] < b[0] || (a[0] == b[0] && Below(a[1..], b[1..])))
  }

  lemma {:induction false} BelowIsTotal(a: string, b: string)
    ensures Below(a, b) || Below(b, a) || a == b
    ensures !(Below(a, b) && Below(b, a)) && (a == b ==> !Below(a, b))
  {
    if a != "" && b != "" && a[0] == b[0] {
      BelowIsTotal(a[1..], b[1..]);
      assert a == [a[0]] + a[1..] && b == [b[0]] + b[1..];
    }
  }

  lemma {:induction false} BelowIsTransitive(a: string, b: string, c: string)
    requires Below(a, b) && Below(b, c)
    ensures Below(a, c)
  {
    if a != "" && a[0] == b[0] == c[0] {
      BelowIsTransitive(a[1..], b[1..], c[1..]);
    }
  }

  predicate Ascending(ks: seq<string>) {
    forall i, j :: 0 <= i < j < |ks| ==> Below(ks[i], ks[j])
  }

  /** Object keys are distinct, so the sort never meets the same key twice. */
  function InsertKey(ks: seq<string>, k: string): seq<string> {
    if ks == [] then [k]
    else if k == ks[0] then ks
    else if Below(k, ks[0]) then [k] + ks
    else [ks[0]] + InsertKey(ks[1..], k)
  }

  function SortedKeys(ms: seq<Member>): seq<string> {
    if ms == [] then [] else InsertKey(SortedKeys(ms[1..]), ms[0].key)
  }

  lemma AscendingWithHead(head: string, tail: seq<string>)
    requires Ascending(tail) && forall k :: k in tail ==> Below(head, k)
    ensures Ascending([head] + tail)
  {
    var all := [head] + tail;
    forall i, j | 0 <= i < j < |all| ensures Below(all[i], all[j]) {
      assert all[j] == tail[j - 1] && tail[j - 1] in tail;
      if i > 0 { assert all[i] == tail[i - 1]; }
    }
  }

  lemma {:induction false} InsertKeepsAscending(ks: seq<string>, k: string)
    requires Ascending(ks)
    ensures Ascending(InsertKey(ks, k))
    ensures forall j :: j in InsertKey(ks, k) <==> j == k || j in ks
  {
    if ks != [] {
      BelowIsTotal(k, ks[0]);
      assert ks == [ks[0]] + ks[1..];
      if Below(k, ks[0]) {
        forall j | j in ks ensures Below(k, j) {
          if j != ks[0] { BelowIsTransitive(k, ks[0], j); }
        }
        AscendingWithHead(k, ks);
      } else if k != ks[0] {
        InsertKeepsAscending(ks[1..], k);
        AscendingWithHead(ks[0], InsertKey(ks[1..], k));
      }
    }
  }

  lemma {:induction false} SortedKeysAscend(ms: seq<Member>)
    ensures Ascending(SortedKeys(ms))
    ensures forall k :: k in SortedKeys(ms) <==> exists m :: m in ms && m.key == k
  {
    if ms != [] {
      SortedKeysAscend(ms[1..]);
      InsertKeepsAscending(SortedKeys(ms[1..]), ms[0].key);
      assert ms == [ms[0]] + ms[1..];
    }
  }

  lemma HeadIsNotRepeated(ks: seq<string>)
    requires Ascending(ks) && ks != []
    ensures ks[0] !in ks[1..]
  {
    if ks[0] in ks[1..] {
      var i :| 0 <= i < |ks[1..]| && ks[1..][i] == ks[0];
      BelowIsTotal(ks[0], ks[i + 1]);
    }
  }

  lemma NoMembersMeansEmpty(ks: seq<string>)
    ensures (forall k :: k !in ks) ==> ks == []
  {
    assert ks != [] ==> ks[0] in ks;
  }

  /** A set of keys has one ascending list. */
  lemma {:induction false} AscendingIsUnique(a: seq<string>, b: seq<string>)
    requires Ascending(a) && Ascending(b) && forall k :: k in a <==> k in b
    ensures a == b
  {
    if a == [] || b == [] {
      NoMembersMeansEmpty(a);
      NoMembersMeansEmpty(b);
    } else {
      BelowIsTotal(a[0], b[0]);
      assert a[0] in b && b[0] in a;
      assert a[0] == b[0];
      HeadIsNotRepeated(a);
      HeadIsNotRepeated(b);
      assert a == [a[0]] + a[1..] && b == [b[0]] + b[1..];
      forall k ensures k in a[1..] <==> k in b[1..] {
        assert k in a <==> k == a[0] || k in a[1..];
        assert k in b <==> k == b[0] || k in b[1..];
      }
      AscendingIsUnique(a[1..], b[1..]);
    }
  }

  // -------------------------------------------------------------------- objects

  /** The value of a property; an undefined and a missing one read alike. */
  function Lookup(ms: seq<Member>, k: string): (v: Option<Json>)
    ensures v.Some? ==> exists i :: 0 <= i < |ms| && ms[i].value == v
    ensures v.Some? ==> v.value < JObject(ms)
  {
    if ms == [] then None
    else if ms[0].key == k then ms[0].value
    else
      var rest := Lookup(ms[1..], k);
      if rest.Some? then
        var i :| 0 <= i < |ms[1..]| && ms[1..][i].value == rest;
        assert ms[i + 1].value == rest;
        rest
      else rest
  }

  /** An array index among property names: digits without a leading zero, below 2^32 - 1. */
  predicate IndexKey(k: string) {
    && k != "" && (forall c :: c in k ==> '0' <= c <= '9') && (k == "0" || k[0] != '0')
    && IndexBelow(k, "4294967295")
  }

  predicate IndexBelow(a: string, b: string) {
    |a| < |b| || (|a| == |b| && Below(a, b))
  }

  /** Assigning a new property: array indices come first, in numeric order, and every other key goes last. */
  function SetProperty(ms: seq<Member>, k: string, v: Json): seq<Member> {
    if IndexKey(k) then InsertIndex(ms, k, v) else ms + [Member(k, Some(v))]
  }

  function InsertIndex(ms: seq<Member>, k: string, v: Json): seq<Member> {
    if ms == [] || !IndexKey(ms[0].key) || IndexBelow(k, ms[0].key) then [Member(k, Some(v))] + ms
    else [ms[0]] + InsertIndex(ms[1..], k, v)
  }

  predicate HasKey(ms: seq<Member>, k: string) {
    exists i :: 0 <= i < |ms| && ms[i].key == k
  }

  lemma {:induction false} LookupConcat(a: seq<Member>, b: seq<Member>, k: string)
    ensures Lookup(a + b, k) == if HasKey(a, k) then Lookup(a, k) else Lookup(b, k)
    ensures HasKey(a + b, k) <==> HasKey(a, k) || HasKey(b, k)
  {
    if a == [] {
      assert a + b == b;
    } else {
      assert (a + b)[1..] == a[1..] + b;
      LookupConcat(a[1..], b, k);
      assert HasKey(a, k) <==> a[0].key == k || HasKey(a[1..], k) by { HasKeySplit(a, k); }
      HasKeySplit(a + b, k);
    }
  }

  lemma HasKeySplit(ms: seq<Member>, k: string)
    requires ms != []
    ensures HasKey(ms, k) <==> ms[0].key == k || HasKey(ms[1..], k)
  {
    if HasKey(ms[1..], k) {
      var i :| 0 <= i < |ms[1..]| && ms[1..][i].key == k;
      assert ms[i + 1].key == k;
    }
    if HasKey(ms, k) && ms[0].key != k {
      var i :| 0 <= i < |ms| && ms[i].key == k;
      assert ms[1..][i - 1].key == k;
    }
  }

  lemma {:induction false} InsertIndexLookup(ms: seq<Member>, k: string, v: Json, j: string)
    requires !HasKey(ms, k)
    ensures Lookup(InsertIndex(ms, k, v), j) == if j == k then Some(v) else Lookup(ms, j)
    ensures HasKey(InsertIndex(ms, k, v), j) <==> j == k || HasKey(ms, j)
  {
    var r := InsertIndex(ms, k, v);
    HasKeySplit(r, j);
    if ms == [] || !IndexKey(ms[0].key) || IndexBelow(k, ms[0].key) {
      assert r[1..] == ms;
    } else {
      HasKeySplit(ms, k);
      HasKeySplit(ms, j);
      InsertIndexLookup(ms[1..], k, v, j);
      assert r[1..] == InsertIndex(ms[1..], k, v);
    }
  }

  lemma SetPropertyLookup(ms: seq<Member>, k: string, v: Json, j: string)
    requires !HasKey(ms, k)
    ensures Lookup(SetProperty(ms, k, v), j) == if j == k then Some(v) else Lookup(ms, j)
    ensures HasKey(SetProperty(ms, k, v), j) <==> j == k || HasKey(ms, j)
  {
    if IndexKey(k) {
      InsertIndexLookup(ms, k, v, j);
    } else {
      LookupConcat(ms, [Member(k, Some(v))], j);
      NoKeyNoValue(ms, k);
      NoKeyNoValue(ms, j);
      HasKeySplit([Member(k, Some(v))], j);
    }
  }

  lemma {:induction false} NoKeyNoValue(ms: seq<Member>, k: string)
    ensures !HasKey(ms, k) ==> Lookup(ms, k) == None
  {
    if ms != [] {
      HasKeySplit(ms, k);
      NoKeyNoValue(ms[1..], k);
    }
  }

  // --------------------------------------------------------------- canonical form

  function Canonical(v: Json): Json
    decreases v, 2
  {
    match v
    case JArray(items) => JArray(CanonicalAll(items))
    case JObject(ms) => JObject(Rebuilt(v, SortedKeys(ms)))
    case _ => v
  }

  function CanonicalAll(items: seq<Json>): (r: seq<Json>)
    ensures |r| == |items|
    decreases items, 0
  {
    if items == [] then [] else [Canonical(items[0])] + CanonicalAll(items[1..])
  }

  /** The object with the listed properties of `v`, assigned in that order, undefined ones left out. */
  function Rebuilt(v: Json, ks: seq<string>): seq<Member>
    requires v.JObject?
    decreases v, 1, |ks|
  {
    if ks == [] then []
    else
      var before := Rebuilt(v, ks[..|ks| - 1]);
      var k := ks[|ks| - 1];
      var value := Lookup(v.members, k);
      if value.None? then before else SetProperty(before, k, Canonical(value.value))
  }

  /** The canonical form computed: recursion, with a loop over the sorted keys of each object. */
  method Canonicalize(v: Json) returns (r: Json)
    ensures r == Canonical(v)
    decreases v
  {
    match v
    case JArray(items) =>
      var mapped: seq<Json> := [];
      var i := 0;
      while i < |items|
        invariant 0 <= i <= |items|
        invariant CanonicalAll(items) == mapped + CanonicalAll(items[i..])
      {
        assert items[i..][1..] == items[i + 1..];
        var item := Canonicalize(items[i]);
        mapped := mapped + [item];
        i := i + 1;
      }
      r := JArray(mapped);
    case JObject(ms) =>
      var keys := SortedKeys(ms);
      var sorted: seq<Member> := [];
      var i := 0;
      while i < |keys|
        invariant 0 <= i <= |keys|
        invariant sorted == Rebuilt(v, keys[..i])
      {
        assert keys[..i + 1][..i] == keys[..i];
        var value := Lookup(ms, keys[i]);
        if value.Some? {
          var inner := Canonicalize(value.value);
          sorted := SetProperty(sorted, keys[i], inner);
        }
        i := i + 1;
      }
      assert keys[..i] == keys;
      r := JObject(sorted);
    case _ => r := v;
  }

  /** Equal up to the order of object keys, at every depth. */
  ghost predicate Same(a: Json, b: Json)
    decreases a
  {
    match a
    case JArray(xs) => b.JArray? && |xs| == |b.items| && forall i :: 0 <= i < |xs| ==> Same(xs[i], b.items[i])
    case JObject(ms) =>
      b.JObject? && forall k {:trigger Lookup(ms, k)} ::
        (Lookup(ms, k).Some? <==> Lookup(b.members, k).Some?)
        && (Lookup(ms, k).Some? ==> Same(Lookup(ms, k).value, Lookup(b.members, k).value))
    case _ => a == b
  }

  // ----------------------------------------------------- laws of the canonical form

  lemma {:induction false} CanonicalAllAt(items: seq<Json>, i: nat)
    requires i < |items|
    ensures CanonicalAll(items)[i] == Canonical(items[i])
  {
    if i > 0 { CanonicalAllAt(items[1..], i - 1); }
  }

  /** A rebuilt object has exactly the listed, defined properties, each in canonical form. */
  lemma {:induction false} RebuiltLookup(v: Json, ks: seq<string>, k: string)
    requires v.JObject? && Ascending(ks)
    ensures HasKey(Rebuilt(v, ks), k) <==> k in ks && Lookup(v.members, k).Some?
    ensures Lookup(Rebuilt(v, ks), k) ==
            if k in ks && Lookup(v.members, k).Some? then Some(Canonical(Lookup(v.members, k).value)) else None
  {
    if ks != [] {
      var last := ks[|ks| - 1];
      RebuiltLookup(v, ks[..|ks| - 1], k);
      RebuiltLookup(v, ks[..|ks| - 1], last);
      assert ks == ks[..|ks| - 1] + [last];
      if last in ks[..|ks| - 1] {
        var i :| 0 <= i < |ks| - 1 && ks[i] == last;
        BelowIsTotal(ks[i], last);
      }
      if Lookup(v.members, last).Some? {
        SetPropertyLookup(Rebuilt(v, ks[..|ks| - 1]), last, Canonical(Lookup(v.members, last).value), k);
      }
    }
  }

  lemma {:induction false} ValuesHaveKeys(ms: seq<Member>, k: string)
    ensures Lookup(ms, k).Some? ==> k in SortedKeys(ms)
  {
    SortedKeysAscend(ms);
    NoKeyNoValue(ms, k);
    if HasKey(ms, k) {
      var i :| 0 <= i < |ms| && ms[i].key == k;
      assert ms[i] in ms;
    }
  }

  lemma CanonicalLookup(v: Json, k: string)
    requires v.JObject?
    ensures Lookup(Canonical(v).members, k) ==
            if Lookup(v.members, k).Some? then Some(Canonical(Lookup(v.members, k).value)) else None
  {
    SortedKeysAscend(v.members);
    ValuesHaveKeys(v.members, k);
    RebuiltLookup(v, SortedKeys(v.members), k);
  }

  /** The listed keys that are defined. */
  function DefinedKeys(ms: seq<Member>, ks: seq<string>): (r: seq<string>)
    ensures forall k :: k in r <==> k in ks && Lookup(ms, k).Some?
  {
    if ks == [] then []
    else
      assert ks == ks[..|ks| - 1] + [ks[|ks| - 1]];
      var before := DefinedKeys(ms, ks[..|ks| - 1]);
      if Lookup(ms, ks[|ks| - 1]).Some? then before + [ks[|ks| - 1]] else before
  }

  lemma {:induction false} DefinedKeysAscend(ms: seq<Member>, ks: seq<string>)
    requires Ascending(ks)
    ensures Ascending(DefinedKeys(ms, ks))
  {
    if ks != [] {
      DefinedKeysAscend(ms, ks[..|ks| - 1]);
      var before := DefinedKeys(ms, ks[..|ks| - 1]);
      forall i | 0 <= i < |before| ensures Below(before[i], ks[|ks| - 1]) {
        assert before[i] in ks[..|ks| - 1];
      }
    }
  }

  lemma {:induction false} OnlyDefinedKeysMatter(v: Json, ks: seq<string>)
    requires v.JObject?
    ensures Rebuilt(v, ks) == Rebuilt(v, DefinedKeys(v.members, ks))
  {
    if ks != [] {
      OnlyDefinedKeysMatter(v, ks[..|ks| - 1]);
      var before := DefinedKeys(v.members, ks[..|ks| - 1]);
      if Lookup(v.members, ks[|ks| - 1]).Some? {
        assert (before + [ks[|ks| - 1]])[..|before|] == before;
      }
    }
  }

  lemma {:induction false} RebuiltAlike(a: Json, b: Json, ks: seq<string>)
    requires a.JObject? && b.JObject?
    requires forall k {:trigger Lookup(a.members, k)} ::
               (Lookup(a.members, k).Some? <==> Lookup(b.members, k).Some?)
               && (Lookup(a.members, k).Some? ==> Canonical(Lookup(a.members, k).value) == Canonical(Lookup(b.members, k).value))
    ensures Rebuilt(a, ks) == Rebuilt(b, ks)
  {
    if ks != [] { RebuiltAlike(a, b, ks[..|ks| - 1]); }
  }

  /** Two values have the same canonical form exactly when they are equal up to the order of keys, at every depth. */
  lemma {:induction false} CanonicalIsExact(a: Json, b: Json)
    ensures Canonical(a) == Canonical(b) <==> Same(a, b)
    decreases a
  {
    match a
    case JArray(xs) => if b.JArray? { ArraysAreExact(a, b); }
    case JObject(ms) => if b.JObject? { ObjectsAreExact(a, b); }
    case _ =>
  }

  lemma {:induction false} ArraysAreExact(a: Json, b: Json)
    requires a.JArray? && b.JArray?
    ensures Canonical(a) == Canonical(b) <==> Same(a, b)
    decreases a, 0
  {
    var xs, ys := a.items, b.items;
    if |xs| == |ys| {
      forall i | 0 <= i < |xs| ensures CanonicalAll(xs)[i] == CanonicalAll(ys)[i] <==> Same(xs[i], ys[i]) {
        CanonicalAllAt(xs, i);
        CanonicalAllAt(ys, i);
        CanonicalIsExact(xs[i], ys[i]);
      }
      if Same(a, b) {
        assert CanonicalAll(xs) == CanonicalAll(ys);
      }
    }
  }

  lemma {:induction false} ObjectsAreExact(a: Json, b: Json)
    requires a.JObject? && b.JObject?
    ensures Canonical(a) == Canonical(b) <==> Same(a, b)
    decreases a, 0
  {
    forall k | Lookup(a.members, k).Some? && Lookup(b.members, k).Some?
      ensures Canonical(Lookup(a.members, k).value) == Canonical(Lookup(b.members, k).value) <==>
              Same(Lookup(a.members, k).value, Lookup(b.members, k).value)
    {
      CanonicalIsExact(Lookup(a.members, k).value, Lookup(b.members, k).value);
    }
    if Canonical(a) == Canonical(b) {
      forall k ensures (Lookup(a.members, k).Some? <==> Lookup(b.members, k).Some?)
                       && (Lookup(a.members, k).Some? ==> Same(Lookup(a.members, k).value, Lookup(b.members, k).value))
      {
        CanonicalLookup(a, k);
        CanonicalLookup(b, k);
      }
    }
    if Same(a, b) {
      SortedKeysAscend(a.members);
      SortedKeysAscend(b.members);
      var as', bs := DefinedKeys(a.members, SortedKeys(a.members)), DefinedKeys(b.members, SortedKeys(b.members));
      DefinedKeysAscend(a.members, SortedKeys(a.members));
      DefinedKeysAscend(b.members, SortedKeys(b.members));
      forall k ensures k in as' <==> k in bs {
        ValuesHaveKeys(a.members, k);
        ValuesHaveKeys(b.members, k);
      }
      AscendingIsUnique(as', bs);
      OnlyDefinedKeysMatter(a, SortedKeys(a.members));
      OnlyDefinedKeysMatter(b, SortedKeys(b.members));
      RebuiltAlike(a, b, as');
    }
  }

  lemma {:induction false} CanonicalIsSame(v: Json)
    ensures Same(Canonical(v), v)
    decreases v
  {
    match v
    case JArray(items) =>
      forall i | 0 <= i < |items| ensures Same(CanonicalAll(items)[i], items[i]) {
        CanonicalAllAt(items, i);
        CanonicalIsSame(items[i]);
      }
    case JObject(ms) =>
      forall k ensures (Lookup(Canonical(v).members, k).Some? <==> Lookup(ms, k).Some?)
                       && (Lookup(ms, k).Some? ==> Same(Lookup(Canonical(v).members, k).value, Lookup(ms, k).value))
      {
        CanonicalLookup(v, k);
        if Lookup(ms, k).Some? { CanonicalIsSame(Lookup(ms, k).value); }
      }
    case _ =>
  }

  /** Canonicalizing twice changes nothing. */
  lemma CanonicalIsIdempotent(v: Json)
    ensures Canonical(Canonical(v)) == Canonical(v)
  {
    CanonicalIsSame(v);
    CanonicalIsExact(Canonical(v), v);
  }

  // ------------------------------------------------------- the order of properties

  ghost predicate FirstDifferenceBelow(a: string, b: string) {
    exists i :: 0 <= i < |a| && i < |b| && a[..i] == b[..i] && a[i] < b[i]
  }

  /** A text is below another when it is a proper prefix of it, or smaller where they first differ. */
  lemma {:induction false} BelowInPlainTerms(a: string, b: string)
    ensures Below(a, b) <==> a < b || FirstDifferenceBelow(a, b)
  {
    if a != "" && b != "" && a[0] == b[0] {
      BelowInPlainTerms(a[1..], b[1..]);
      assert a == [a[0]] + a[1..] && b == [b[0]] + b[1..];
      if FirstDifferenceBelow(a[1..], b[1..]) {
        var i :| 0 <= i < |a[1..]| && i < |b[1..]| && a[1..][..i] == b[1..][..i] && a[1..][i] < b[1..][i];
        assert a[..i + 1] == [a[0]] + a[1..][..i] && b[..i + 1] == [b[0]] + b[1..][..i];
        assert a[i + 1] < b[i + 1];
      }
      if FirstDifferenceBelow(a, b) {
        var i :| 0 <= i < |a| && i < |b| && a[..i] == b[..i] && a[i] < b[i];
        assert a[1..][..i - 1] == a[..i][1..] && b[1..][..i - 1] == b[..i][1..];
        assert a[1..][i - 1] < b[1..][i - 1];
      }
    } else if a != "" && b != "" && a[0] < b[0] {
      assert a[..0] == b[..0];
    } else if a != "" && b != "" {
      forall i | 0 < i < |a| && i < |b| ensures a[..i] != b[..i] {
        assert a[..i][0] == a[0] && b[..i][0] == b[0];
      }
    }
  }

  lemma IndexBelowIsTotal(a: string, b: string)
    ensures IndexBelow(a, b) || IndexBelow(b, a) || a == b
  {
    BelowIsTotal(a, b);
  }

  predicate Digits(s: string) {
    forall i :: 0 <= i < |s| ==> '0' <= s[i] <= '9'
  }

  function Pow10(n: nat): (p: nat)
    ensures p > 0
  {
    if n == 0 then 1 else 10 * Pow10(n - 1)
  }

  /** The number a text of digits writes. */
  function NumberOf(s: string): nat
    requires Digits(s)
  {
    if s == "" then 0 else (s[0] as int - 48) * Pow10(|s| - 1) + NumberOf(s[1..])
  }

  lemma {:induction false} NumberIsBounded(s: string)
    requires Digits(s)
    ensures NumberOf(s) < Pow10(|s|)
    ensures s != "" && s[0] != '0' ==> NumberOf(s) >= Pow10(|s| - 1)
  {
    if s != "" {
      NumberIsBounded(s[1..]);
      var d, p := s[0] as int - 48, Pow10(|s| - 1);
      DigitTimes(d, p);
    }
  }

  lemma DigitTimes(d: nat, p: nat)
    requires d <= 9
    ensures d * p + p <= 10 * p && (d > 0 ==> d * p >= p)
  {
  }

  lemma SmallerDigit(d: nat, e: nat, p: nat, v: nat, w: nat)
    requires d < e && v < p
    ensures d * p + v < e * p + w
  {
    assert e * p >= (d + 1) * p;
  }

  lemma {:induction false} BelowIsSmaller(a: string, b: string)
    requires Digits(a) && Digits(b) && |a| == |b| && Below(a, b)
    ensures NumberOf(a) < NumberOf(b)
  {
    NumberIsBounded(a[1..]);
    assert '0' <= a[0] && '0' <= b[0];
    if a[0] < b[0] {
      SmallerDigit(a[0] as int - 48, b[0] as int - 48, Pow10(|a| - 1), NumberOf(a[1..]), NumberOf(b[1..]));
    } else {
      BelowIsSmaller(a[1..], b[1..]);
    }
  }

  lemma {:induction false} Pow10Grows(m: nat, n: nat)
    requires m <= n
    ensures Pow10(m) <= Pow10(n)
  {
    if m < n { Pow10Grows(m, n - 1); }
  }

  lemma IndicesAreDigits(k: string)
    requires IndexKey(k)
    ensures Digits(k)
  {
    forall i | 0 <= i < |k| ensures '0' <= k[i] <= '9' {
      assert k[i] in k;
    }
  }

  lemma IndexBelowIsSmaller(a: string, b: string)
    requires IndexKey(a) && Digits(b) && b != "" && b[0] != '0' && IndexBelow(a, b)
    ensures Digits(a) && NumberOf(a) < NumberOf(b)
  {
    IndicesAreDigits(a);
    if |a| < |b| {
      NumberIsBounded(a);
      NumberIsBounded(b);
      Pow10Grows(|a|, |b| - 1);
    } else {
      BelowIsSmaller(a, b);
    }
  }

  lemma NothingIsBelowZero(a: string)
    requires IndexKey(a)
    ensures !IndexBelow(a, "0")
  {
    var zero := "0";
    IndicesAreDigits(a);
    assert zero[0] == '0' && zero[1..] == "" && '0' <= a[0];
    assert !Below(a[1..], zero[1..]);
  }

  lemma SmallerIndex(a: string, b: string)
    requires IndexKey(a) && IndexKey(b) && IndexBelow(a, b)
    ensures Digits(a) && Digits(b) && NumberOf(a) < NumberOf(b)
  {
    IndicesAreDigits(a);
    IndicesAreDigits(b);
    NothingIsBelowZero(a);
    IndexBelowIsSmaller(a, b);
  }

  /** Array indices are ordered as the numbers they write. */
  lemma IndicesAreOrderedByNumber(a: string, b: string)
    requires IndexKey(a) && IndexKey(b)
    ensures Digits(a) && Digits(b) && (IndexBelow(a, b) <==> NumberOf(a) < NumberOf(b))
  {
    IndicesAreDigits(a);
    IndicesAreDigits(b);
    IndexBelowIsTotal(a, b);
    if IndexBelow(a, b) {
      SmallerIndex(a, b);
    } else if a != b {
      SmallerIndex(b, a);
    }
  }

  /** Array indices come first, by number; other names follow in key order. */
  predicate Precedes(a: string, b: string) {
    if IndexKey(a) && IndexKey(b) then IndexBelow(a, b)
    else IndexKey(a) || (!IndexKey(b) && Below(a, b))
  }

  predicate InOrder(ms: seq<Member>) {
    forall i, j :: 0 <= i < j < |ms| ==> Precedes(ms[i].key, ms[j].key)
  }

  lemma PrecedesIsTransitive(a: string, b: string, c: string)
    requires Precedes(a, b) && Precedes(b, c)
    ensures Precedes(a, c)
  {
    if |a| == |b| == |c| && IndexKey(a) && IndexKey(b) && IndexKey(c) {
      BelowIsTransitive(a, b, c);
    } else if !IndexKey(a) {
      BelowIsTransitive(a, b, c);
    }
  }

  lemma InOrderWithHead(head: Member, tail: seq<Member>)
    requires InOrder(tail) && forall m :: m in tail ==> Precedes(head.key, m.key)
    ensures InOrder([head] + tail)
  {
    var all := [head] + tail;
    forall i, j | 0 <= i < j < |all| ensures Precedes(all[i].key, all[j].key) {
      assert all[j] == tail[j - 1] && tail[j - 1] in tail;
      if i > 0 { assert all[i] == tail[i - 1]; }
    }
  }

  lemma {:induction false} InsertIndexKeepsOrder(ms: seq<Member>, k: string, v: Json)
    requires InOrder(ms) && IndexKey(k) && !HasKey(ms, k)
    ensures InOrder(InsertIndex(ms, k, v))
    ensures forall m :: m in InsertIndex(ms, k, v) ==> m in ms || m.key == k
  {
    if ms != [] && IndexKey(ms[0].key) && !IndexBelow(k, ms[0].key) {
      HasKeySplit(ms, k);
      IndexBelowIsTotal(k, ms[0].key);
      assert forall i, j :: 0 <= i < j < |ms[1..]| ==> ms[1..][i] == ms[i + 1] && ms[1..][j] == ms[j + 1];
      InsertIndexKeepsOrder(ms[1..], k, v);
      forall m | m in InsertIndex(ms[1..], k, v) ensures Precedes(ms[0].key, m.key) {
        if m in ms[1..] { var i :| 0 <= i < |ms[1..]| && ms[1..][i] == m; assert ms[i + 1] == m; }
      }
      InOrderWithHead(ms[0], InsertIndex(ms[1..], k, v));
    } else {
      forall m | m in ms ensures Precedes(k, m.key) {
        var i :| 0 <= i < |ms| && ms[i] == m;
        if i > 0 && IndexKey(ms[0].key) { PrecedesIsTransitive(k, ms[0].key, m.key); }
        if i > 0 && !IndexKey(ms[0].key) { assert Precedes(ms[0].key, m.key); }
      }
      InOrderWithHead(Member(k, Some(v)), ms);
    }
  }

  lemma {:induction false} RebuiltKeepsOrder(v: Json, ks: seq<string>)
    requires v.JObject? && Ascending(ks)
    ensures InOrder(Rebuilt(v, ks)) && forall m :: m in Rebuilt(v, ks) ==> m.key in ks
  {
    if ks != [] {
      var before, last := ks[..|ks| - 1], ks[|ks| - 1];
      var ms, value := Rebuilt(v, before), Lookup(v.members, last);
      RebuiltKeepsOrder(v, before);
      if value.Some? {
        forall m | m in ms ensures Below(m.key, last) {
          var i :| 0 <= i < |before| && before[i] == m.key;
          assert ks[i] == m.key;
        }
        AddingTheLastKeepsOrder(ms, last, Canonical(value.value));
      }
      assert forall k :: k in before ==> k in ks;
    }
  }

  lemma AddingTheLastKeepsOrder(ms: seq<Member>, k: string, v: Json)
    requires InOrder(ms) && forall m :: m in ms ==> Below(m.key, k)
    ensures InOrder(SetProperty(ms, k, v)) && forall m :: m in SetProperty(ms, k, v) ==> m in ms || m.key == k
  {
    if IndexKey(k) {
      forall i | 0 <= i < |ms| ensures ms[i].key != k {
        assert ms[i] in ms;
        BelowIsTotal(ms[i].key, k);
      }
      InsertIndexKeepsOrder(ms, k, v);
    } else {
      var all := SetProperty(ms, k, v);
      forall i, j | 0 <= i < j < |all| ensures Precedes(all[i].key, all[j].key) {
        if j == |ms| { assert ms[i] in ms; }
      }
    }
  }

  /** A canonical object lists its properties as a platform lists them that were set in key order. */
  lemma CanonicalIsInOrder(v: Json)
    requires v.JObject?
    ensures InOrder(Canonical(v).members)
  {
    SortedKeysAscend(v.members);
    RebuiltKeepsOrder(v, SortedKeys(v.members));
  }
}
