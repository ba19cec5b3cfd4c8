/** Policy version ids: a hash of the serialized document, and which document an execution resolves. */
module Versions {
  import opened Prelude
  import opened Policy
  import opened Compiler
  import opened Delegation
  import opened Tokens

  datatype Key =
    | KDomains | KMaxActions | KMethods | KUrls | KAttachments | KSpending | KHours
    | KApproval | KApprovalIfExternal | KCategories | KActions

  /** A value as it is written into the serialized text; an hour window keeps the order of its two properties. */
  datatype Value =
    | Texts(texts: seq<string>)
    | Whole(n: int)
    | Number(r: real)
    | Flag(b: bool)
    | Window(start: int, end: int, endFirst: bool)

  datatype Entry = Entry(key: Key, value: Value)

  /** A constraint object as a caller wrote it: its fields, and the order its properties were given in. */
  datatype Written = Written(fields: ConstraintSet, order: seq<Key>, endFirst: bool)

  /** What the serialized document records. */
  datatype Text = Text(tool: Tool, root: Node, source: seq<Entry>)

  datatype Versioned = Versioned(doc: Document, id: string, text: Text)

  function FieldValue(c: ConstraintSet, k: Key, endFirst: bool): Option<Value> {
    match k
    case KDomains => if c.allowedDomains.Some? then Some(Texts(c.allowedDomains.value)) else None
    case KMaxActions => if c.maxActions.Some? then Some(Whole(c.maxActions.value)) else None
    case KMethods => if c.allowedMethods.Some? then Some(Texts(c.allowedMethods.value)) else None
    case KUrls => if c.allowedUrls.Some? then Some(Texts(c.allowedUrls.value)) else None
    case KAttachments => if c.attachments.Some? then Some(Flag(c.attachments.value)) else None
    case KSpending => if c.spendingLimit.Some? then Some(Number(c.spendingLimit.value)) else None
    case KHours =>
      if c.allowedHours.Some? then Some(Window(c.allowedHours.value.start, c.allowedHours.value.end, endFirst)) else None
    case KApproval => if c.approvalRequired.Some? then Some(Flag(c.approvalRequired.value)) else None
    case KApprovalIfExternal =>
      if c.approvalRequiredIfExternal.Some? then Some(Flag(c.approvalRequiredIfExternal.value)) else None
    case KCategories => if c.allowedIntentCategories.Some? then Some(Texts(c.allowedIntentCategories.value)) else None
    case KActions => if c.allowedIntentActions.Some? then Some(Texts(c.allowedIntentActions.value)) else None
  }

  predicate Defined(c: ConstraintSet, k: Key) {
    FieldValue(c, k, false).Some?
  }

  /** The order lists every defined field once. */
  predicate WellWritten(w: Written) {
    && (forall k :: Defined(w.fields, k) <==> k in w.order)
    && (forall i, j :: 0 <= i < j < |w.order| ==> w.order[i] != w.order[j])
  }

  const MAPPER_ORDER: seq<Key> :=
    [KDomains, KMaxActions, KMethods, KUrls, KAttachments, KSpending, KHours,
     KApproval, KApprovalIfExternal, KCategories, KActions]

  function Rank(k: Key): (i: nat) {
    match k
    case KDomains => 0 case KMaxActions => 1 case KMethods => 2 case KUrls => 3 case KAttachments => 4
    case KSpending => 5 case KHours => 6 case KApproval => 7 case KApprovalIfExternal => 8
    case KCategories => 9 case KActions => 10
  }

  lemma EveryKeyOnce()
    ensures forall k: Key :: k in MAPPER_ORDER
    ensures forall i, j :: 0 <= i < j < |MAPPER_ORDER| ==> MAPPER_ORDER[i] != MAPPER_ORDER[j]
  {
    forall k: Key ensures k in MAPPER_ORDER {
      assert MAPPER_ORDER[Rank(k)] == k;
    }
    assert forall i :: 0 <= i < |MAPPER_ORDER| ==> Rank(MAPPER_ORDER[i]) == i;
  }

  function DefinedOnly(c: ConstraintSet, keys: seq<Key>): seq<Key> {
    if keys == [] then []
    else if Defined(c, keys[0]) then [keys[0]] + DefinedOnly(c, keys[1..])
    else DefinedOnly(c, keys[1..])
  }

  lemma {:induction false} DefinedOnlyFilters(c: ConstraintSet, keys: seq<Key>)
    requires forall i, j :: 0 <= i < j < |keys| ==> keys[i] != keys[j]
    ensures forall k :: k in DefinedOnly(c, keys) <==> k in keys && Defined(c, k)
    ensures forall i, j :: 0 <= i < j < |DefinedOnly(c, keys)| ==> DefinedOnly(c, keys)[i] != DefinedOnly(c, keys)[j]
  {
    if keys != [] {
      DefinedOnlyFilters(c, keys[1..]);
    }
  }

  /** Constraints as they come out of a token: fields in the mapper's order, hour windows start first. */
  function FromToken(c: ConstraintSet): (w: Written)
    ensures WellWritten(w) && w.fields == c
  {
    EveryKeyOnce();
    DefinedOnlyFilters(c, MAPPER_ORDER);
    Written(c, DefinedOnly(c, MAPPER_ORDER), false)
  }

  function Entries(w: Written): (es: seq<Entry>)
    requires WellWritten(w)
    ensures |es| == |w.order|
  {
    seq(|w.order|, i requires 0 <= i < |w.order| =>
      assert w.order[i] in w.order;
      Entry(w.order[i], FieldValue(w.fields, w.order[i], w.endFirst).value))
  }

  function TextOf(tool: Tool, w: Written): Text
    requires WellWritten(w)
  {
    Text(tool, Compile(tool, w.fields).root, Entries(w))
  }

  function CompileVersioned(hash: Text -> string, tool: Tool, w: Written): Versioned
    requires WellWritten(w)
  {
    Versioned(Compile(tool, w.fields), hash(TextOf(tool, w)), TextOf(tool, w))
  }

  /** The hash gives these two texts the same id only if they are the same text. */
  predicate TellsApart(hash: Text -> string, a: Text, b: Text) {
    hash(a) == hash(b) ==> a == b
  }

  /** The hash gives no two of these texts the same id. */
  predicate Distinguishes(hash: Text -> string, texts: set<Text>) {
    forall a, b :: a in texts && b in texts ==> TellsApart(hash, a, b)
  }

  /** Whatever finite set of texts is at hand, some hash meets the premise, with no empty id. */
  lemma DistinguishingHashesExist(texts: set<Text>) returns (hash: Text -> string)
    ensures Distinguishes(hash, texts) && forall t :: hash(t) != ""
  {
    hash := NamesExist(texts);
  }

  /** Every entry sits under its own id and holds the document its text describes. */
  ghost predicate Sound(hash: Text -> string, versions: map<string, Versioned>) {
    forall id :: id in versions ==>
      && versions[id].id == id == hash(versions[id].text)
      && versions[id].doc.tool == versions[id].text.tool && versions[id].doc.root == versions[id].text.root
  }

  /**
   * The policy engine as the runtime calls it: compiling a constraint object as a caller wrote it, compiling
   * constraints as they come out of a token, and evaluating a document.
   */
  datatype Engine = Engine(
    written: (Tool, Written) -> Versioned,
    recompiled: (Tool, ConstraintSet) -> Versioned,
    evaluate: (Document, Context) -> Evaluation)

  /** The engine is the compiler and evaluator of this project, with ids made by `hash`. */
  ghost predicate Implements(engine: Engine, hash: Text -> string) {
    && (forall tool, w :: WellWritten(w) ==> engine.written(tool, w) == CompileVersioned(hash, tool, w))
    && (forall tool, c :: engine.recompiled(tool, c) == CompileVersioned(hash, tool, FromToken(c)))
    && (forall doc, ctx :: engine.evaluate(doc, ctx) == Evaluate(doc, ctx))
  }

  lemma EnginesExist(hash: Text -> string) returns (engine: Engine)
    ensures Implements(engine, hash)
  {
    engine := Engine(
      (tool, w) => CompileVersioned(hash, tool, if WellWritten(w) then w else FromToken(w.fields)),
      (tool, c) => CompileVersioned(hash, tool, FromToken(c)),
      (doc, ctx) => Evaluate(doc, ctx));
  }

  function Registered(versions: map<string, Versioned>, document: Versioned): map<string, Versioned> {
    if document.id in versions then versions else versions[document.id := document]
  }

  predicate Stamped(expected: Option<string>) {
    expected.Some? && expected.value != ""
  }

  /** The document an execution evaluates, when there is one, for a token stamped with `expected`. */
  function Resolve(versions: map<string, Versioned>, compiled: Versioned, expected: Option<string>): Option<Versioned> {
    if !Stamped(expected) then Some(compiled)
    else if expected.value in versions then Some(versions[expected.value])
    else if compiled.id == expected.value then Some(compiled)
    else None
  }

  /** Resolving registers a recompiled document whose id is the one expected. */
  function AfterResolve(versions: map<string, Versioned>, compiled: Versioned, expected: Option<string>): map<string, Versioned> {
    if Stamped(expected) && compiled.id == expected.value then Registered(versions, compiled) else versions
  }

  /** What one look-up leaves in the registry does not change what the next one finds. */
  lemma ResolvingTwice(versions: map<string, Versioned>, compiled: Versioned, expected: Option<string>)
    ensures Resolve(AfterResolve(versions, compiled, expected), compiled, expected) == Resolve(versions, compiled, expected)
  {
  }

  class PolicyVersionRegistry {
    const engine: Engine
    var versions: map<string, Versioned>

    constructor (engine: Engine)
      ensures versions == map[] && this.engine == engine
    {
      this.engine := engine;
      versions := map[];
    }

    /** First registration wins: no entry is ever replaced. */
    method Keep(document: Versioned) returns (kept: Versioned)
      modifies this
      ensures versions == Registered(old(versions), document)
      ensures document.id in versions && kept == versions[document.id]
      ensures forall k :: k in old(versions) ==> k in versions && versions[k] == old(versions)[k]
    {
      if document.id in versions {
        return versions[document.id];
      }
      versions := versions[document.id := document];
      kept := document;
    }

    method Register(tool: Tool, w: Written) returns (id: string, document: Versioned)
      modifies this
      ensures versions == Registered(old(versions), engine.written(tool, w))
      ensures id == engine.written(tool, w).id && id in versions && document == versions[id]
      ensures forall k :: k in old(versions) ==> k in versions && versions[k] == old(versions)[k]
    {
      var compiled := engine.written(tool, w);
      id := compiled.id;
      document := Keep(compiled);
    }

    /** Looks the stamped version up, or recompiles it and compares ids. */
    method ResolvePolicyDocument(tool: Tool, constraints: ConstraintSet, expected: Option<string>) returns (doc: Option<Versioned>)
      modifies this
      ensures doc == Resolve(old(versions), engine.recompiled(tool, constraints), expected)
      ensures versions == AfterResolve(old(versions), engine.recompiled(tool, constraints), expected)
      ensures forall k :: k in old(versions) ==> k in versions && versions[k] == old(versions)[k]
    {
      if expected.Some? && expected.value != "" {
        if expected.value in versions { return Some(versions[expected.value]); }
        var compiled := engine.recompiled(tool, constraints);
        if compiled.id != expected.value { return None; }
        var _ := Keep(compiled);
        return Some(compiled);
      }
      doc := Some(engine.recompiled(tool, constraints));
    }
  }

  // ------------------------------------------------------------ version stability

  lemma RegisteringKeepsSound(hash: Text -> string, versions: map<string, Versioned>, tool: Tool, w: Written)
    requires Sound(hash, versions) && WellWritten(w)
    ensures Sound(hash, Registered(versions, CompileVersioned(hash, tool, w)))
  {
  }

  /** What a token granted with `w` resolves to under its stamp. */
  function ResolveOwn(hash: Text -> string, versions: map<string, Versioned>, tool: Tool, w: Written): Option<Versioned>
    requires WellWritten(w)
  {
    Resolve(versions, CompileVersioned(hash, tool, FromToken(w.fields)), Some(hash(TextOf(tool, w))))
  }

  /** While its version is on record, a token is judged by the compilation of its own constraints. */
  lemma WarmRegistryIsFaithful(hash: Text -> string, versions: map<string, Versioned>, tool: Tool, w: Written)
    requires Sound(hash, versions) && WellWritten(w)
    requires var id := hash(TextOf(tool, w));
             id in versions && id != "" && TellsApart(hash, TextOf(tool, w), versions[id].text)
    ensures var doc := ResolveOwn(hash, versions, tool, w);
            doc.Some? && doc.value.doc.tool == tool && doc.value.doc.root == Compile(tool, w.fields).root
  {
    assert TextOf(tool, w) == versions[hash(TextOf(tool, w))].text;
  }

  predicate MapperOrder(w: Written) {
    w.order == FromToken(w.fields).order && (w.fields.allowedHours.Some? ==> !w.endFirst)
  }

  lemma EntryAt(w: Written, i: nat)
    requires WellWritten(w) && i < |w.order|
    ensures FieldValue(w.fields, w.order[i], w.endFirst).Some?
    ensures Entries(w)[i] == Entry(w.order[i], FieldValue(w.fields, w.order[i], w.endFirst).value)
  {
    assert w.order[i] in w.order;
  }

  lemma ValueShowsWindowOrder(c: ConstraintSet, k: Key, a: bool, b: bool)
    ensures FieldValue(c, k, a) == FieldValue(c, k, b) <==> (k == KHours && c.allowedHours.Some? ==> a == b)
  {
  }

  lemma EntriesShowTheOrder(w: Written, v: Written)
    requires WellWritten(w) && WellWritten(v) && w.fields == v.fields
    ensures Entries(w) == Entries(v) <==> w.order == v.order && (w.fields.allowedHours.Some? ==> w.endFirst == v.endFirst)
  {
    if Entries(w) == Entries(v) {
      forall i | 0 <= i < |w.order| ensures w.order[i] == v.order[i] {
        EntryAt(w, i);
        EntryAt(v, i);
      }
      assert w.order == v.order;
      if w.fields.allowedHours.Some? {
        assert Defined(w.fields, KHours);
        var i :| 0 <= i < |w.order| && w.order[i] == KHours;
        EntryAt(w, i);
        EntryAt(v, i);
        ValueShowsWindowOrder(w.fields, KHours, w.endFirst, v.endFirst);
      }
    } else if w.order == v.order && (w.fields.allowedHours.Some? ==> w.endFirst == v.endFirst) {
      forall i | 0 <= i < |w.order| ensures Entries(w)[i] == Entries(v)[i] {
        EntryAt(w, i);
        EntryAt(v, i);
        ValueShowsWindowOrder(w.fields, w.order[i], w.endFirst, v.endFirst);
      }
    }
  }

  lemma ValuesShowTheField(c: ConstraintSet, d: ConstraintSet)
    requires forall k :: FieldValue(c, k, false) == FieldValue(d, k, false)
    ensures c == d
  {
    assert FieldValue(c, KDomains, false) == FieldValue(d, KDomains, false);
    assert FieldValue(c, KMaxActions, false) == FieldValue(d, KMaxActions, false);
    assert FieldValue(c, KMethods, false) == FieldValue(d, KMethods, false);
    assert FieldValue(c, KUrls, false) == FieldValue(d, KUrls, false);
    assert FieldValue(c, KAttachments, false) == FieldValue(d, KAttachments, false);
    assert FieldValue(c, KSpending, false) == FieldValue(d, KSpending, false);
    assert FieldValue(c, KHours, false) == FieldValue(d, KHours, false);
    assert FieldValue(c, KApproval, false) == FieldValue(d, KApproval, false);
    assert FieldValue(c, KApprovalIfExternal, false) == FieldValue(d, KApprovalIfExternal, false);
    assert FieldValue(c, KCategories, false) == FieldValue(d, KCategories, false);
    assert FieldValue(c, KActions, false) == FieldValue(d, KActions, false);
  }

  lemma SameValue(c: ConstraintSet, d: ConstraintSet, k: Key, a: bool, b: bool)
    requires FieldValue(c, k, a) == FieldValue(d, k, b)
    ensures FieldValue(c, k, false) == FieldValue(d, k, false)
  {
  }

  /** The serialized text holds the constraints: equal texts come from equal constraint sets. */
  lemma TextBindsTheConstraints(tool: Tool, w: Written, other: Tool, v: Written)
    requires WellWritten(w) && WellWritten(v) && TextOf(tool, w) == TextOf(other, v)
    ensures tool == other && w.fields == v.fields
  {
    assert |Entries(w)| == |Entries(v)|;
    forall i | 0 <= i < |w.order| ensures w.order[i] == v.order[i] {
      EntryAt(w, i);
      EntryAt(v, i);
    }
    assert w.order == v.order;
    forall k ensures FieldValue(w.fields, k, false) == FieldValue(v.fields, k, false) {
      if k in w.order {
        var i :| 0 <= i < |w.order| && w.order[i] == k;
        EntryAt(w, i);
        EntryAt(v, i);
        SameValue(w.fields, v.fields, k, w.endFirst, v.endFirst);
      } else {
        assert !Defined(w.fields, k) && !Defined(v.fields, k);
      }
    }
    ValuesShowTheField(w.fields, v.fields);
  }

  /**
   * With the version not on record (a restarted process, say) the token resolves at all exactly when its constraint
   * object was written in the mapper's property order; it then resolves to the compilation of its own constraints.
   */
  lemma ColdRegistryNeedsMapperOrder(hash: Text -> string, versions: map<string, Versioned>, tool: Tool, w: Written)
    requires WellWritten(w) && TellsApart(hash, TextOf(tool, w), TextOf(tool, FromToken(w.fields)))
    requires var id := hash(TextOf(tool, w)); id !in versions && id != ""
    ensures var doc := ResolveOwn(hash, versions, tool, w);
            && (doc.Some? <==> MapperOrder(w))
            && (doc.Some? ==> doc.value.doc == Compile(tool, w.fields))
  {
    EntriesShowTheOrder(w, FromToken(w.fields));
  }

  lemma DefinedHead(c: ConstraintSet, keys: seq<Key>)
    requires keys != [] && Defined(c, keys[0])
    ensures DefinedOnly(c, keys) != [] && DefinedOnly(c, keys)[0] == keys[0]
  {
  }

  /** The caller wrote the domains behind another field. */
  predicate DomainsBehind(w: Written) {
    w.fields.allowedDomains.Some? && w.order != [] && w.order[0] != KDomains
  }

  /** Valid constraints written this way: an action limit, then one domain. */
  function LimitThenDomains(): (w: Written)
    ensures WellWritten(w) && ValidSet(w.fields) && DomainsBehind(w)
  {
    var w := Written(ConstraintSet(Some(["a.b"]), Some(5), None, None, None, None, None, None, None, None, None),
                     [KMaxActions, KDomains], false);
    assert w.order[0] == KMaxActions && w.order[1] == KDomains;
    assert forall k: Key :: Defined(w.fields, k) <==> k in w.order;
    w
  }

  /** No token gives such an order back: it is granted and executable, then refused after a restart. */
  lemma ReorderedFieldsAreForgotten(hash: Text -> string, tool: Tool, w: Written)
    requires WellWritten(w) && DomainsBehind(w)
    requires TellsApart(hash, TextOf(tool, w), TextOf(tool, FromToken(w.fields))) && hash(TextOf(tool, w)) != ""
    ensures ResolveOwn(hash, map[], tool, w) == None
  {
    DefinedHead(w.fields, MAPPER_ORDER);
    ColdRegistryNeedsMapperOrder(hash, map[], tool, w);
  }

  /** Evaluation looks at a document's tool and tree only. */
  lemma SameTreeSameVerdict(a: Document, b: Document)
    requires a.tool == b.tool && a.root == b.root
    ensures forall ctx :: Evaluate(a, ctx) == Evaluate(b, ctx)
  {
  }

  /** The text a granted token's version is compared with: the one on record under its id, or its own as recompiled. */
  function ComparedText(hash: Text -> string, versions: map<string, Versioned>, tool: Tool, w: Written): Text
    requires WellWritten(w)
  {
    var id := hash(TextOf(tool, w));
    if id in versions then versions[id].text else TextOf(tool, FromToken(w.fields))
  }

  /** End to end: a granted token whose version is on record, or was written in mapper order, is judged by its own constraints. */
  lemma GrantedTokenIsJudgedByItsOwnConstraints(
    hash: Text -> string, versions: map<string, Versioned>, input: GrantInput, w: Written,
    issuer: Option<string>, now: int, jti: string)
    requires Sound(hash, versions) && WellWritten(w) && ValidInput(input) && input.constraints == w.fields
    requires TellsApart(hash, TextOf(input.tool, w), ComparedText(hash, versions, input.tool, w))
    requires input.policyVersionId == Some(hash(TextOf(input.tool, w))) && input.policyVersionId.value != ""
    requires input.policyVersionId.value in versions || MapperOrder(w)
    ensures var claims := Granted(input, issuer, now, jti);
            var compiled := CompileVersioned(hash, claims.tool, FromToken(FromJwt(claims.constraints)));
            var doc := Resolve(versions, compiled, claims.policyVersionId);
            doc.Some? && forall ctx :: Evaluate(doc.value.doc, ctx) == Evaluate(Compile(input.tool, input.constraints), ctx)
  {
    ValidSetsSurviveTheToken(input.constraints);
    if input.policyVersionId.value in versions {
      WarmRegistryIsFaithful(hash, versions, input.tool, w);
    } else {
      ColdRegistryNeedsMapperOrder(hash, versions, input.tool, w);
    }
    SameTreeSameVerdict(ResolveOwn(hash, versions, input.tool, w).value.doc, Compile(input.tool, input.constraints));
  }
}
