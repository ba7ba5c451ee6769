/**
 * The schema-driven field extractor behind every `get_values` call.
 *
 * A schema is an ordered list of (key, kind, required) entries. Extraction
 * walks it in order: a present value of the requested kind is copied into
 * its slot, an absent optional entry leaves its slot at the caller's
 * default, and the first entry that is absent but required, or present
 * with the wrong shape, stops the walk with a failure. Slots written before
 * that point stay written.
 */
module Fields {
  import opened Json

  /** The kinds a schema entry can ask for: JSON_STRING, JSON_INTEGER,
      JSON_REAL, JSON_TRUE (a boolean flag) and JSON_TIMEVAL. */
  datatype Kind = KString | KInteger | KReal | KBoolean | KTimeval

  datatype Field = Field(key: string, kind: Kind, required: bool)

  type Schema = seq<Field>

  /** A `struct timeval`: seconds and microseconds. */
  datatype TimeVal = TimeVal(sec: int, usec: int)

  const SecondsKey: string := "sec"
  const MicrosecondsKey: string := "usec"

  /** A JSON_TIMEVAL value is an object holding integer seconds and microseconds. */
  function AsTimeVal(v: Json): Option<TimeVal>
  {
    if v.JObject? && SecondsKey in v.members && v.members[SecondsKey].JInt?
       && MicrosecondsKey in v.members && v.members[MicrosecondsKey].JInt?
    then Some(TimeVal(v.members[SecondsKey].i, v.members[MicrosecondsKey].i))
    else None
  }

  /** Whether a JSON value has the shape a kind asks for. */
  predicate Conforms(kind: Kind, v: Json)
  {
    match kind
    case KString => v.JString?
    case KInteger => v.JInt?
    case KReal => v.JReal?
    case KBoolean => v.JBool?
    case KTimeval => AsTimeVal(v).Some?
  }

  /** The extractor's verdict on one entry: a present value must have the
      requested shape; an absent one is fine only when the entry is optional. */
  predicate Accepts(doc: Document, f: Field)
  {
    if f.key in doc then Conforms(f.kind, doc[f.key]) else !f.required
  }

  predicate AcceptsAll(doc: Document, schema: Schema)
  {
    forall i :: 0 <= i < |schema| ==> Accepts(doc, schema[i])
  }

  datatype Failure = Missing(key: string) | Malformed(key: string, kind: Kind)

  /** What one extraction leaves behind: the slots it wrote (each holding
      the document's own value) and, when it stopped early, why. */
  datatype Extraction = Extraction(slots: Document, failure: Option<Failure>)
  {
    predicate Ok() { failure.None? }
  }

  function Rejection(doc: Document, f: Field): Failure
  {
    if f.key in doc then Malformed(f.key, f.kind) else Missing(f.key)
  }

  /** `get_values`: succeeds exactly when every entry is accepted; never
      writes a value the document does not hold; on success every declared
      key that is present has been written. */
  function Extract(doc: Document, schema: Schema): (e: Extraction)
    ensures e.Ok() <==> AcceptsAll(doc, schema)
    ensures forall k :: k in e.slots ==> k in doc && e.slots[k] == doc[k]
    ensures e.Ok() ==> forall i :: 0 <= i < |schema| && schema[i].key in doc ==> schema[i].key in e.slots
    decreases |schema|
  {
    if schema == [] then Extraction(map[], None)
    else if !Accepts(doc, schema[0]) then Extraction(map[], Some(Rejection(doc, schema[0])))
    else
      var rest := Extract(doc, schema[1..]);
      assert forall i :: 1 <= i < |schema| ==> schema[i] == schema[1..][i - 1];
      var written := if schema[0].key in doc then map[schema[0].key := doc[schema[0].key]] else map[];
      Extraction(written + rest.slots, rest.failure)
  }

  /** The keys a schema declares. */
  function Keys(schema: Schema): set<string>
  {
    set i | 0 <= i < |schema| :: schema[i].key
  }

  /** The part of the document a list of entries covers. */
  function Present(doc: Document, keys: set<string>): Document
  {
    map k | k in doc && k in keys :: doc[k]
  }

  lemma KeysCons(f: Field, s: Schema)
    ensures Keys([f] + s) == {f.key} + Keys(s)
  {
    var fs := [f] + s;
    forall k | k in Keys(fs) ensures k in {f.key} + Keys(s) {
      var i :| 0 <= i < |fs| && fs[i].key == k;
      if i > 0 { assert s[i - 1].key == k; }
    }
    forall k | k in Keys(s) ensures k in Keys(fs) {
      var i :| 0 <= i < |s| && s[i].key == k;
      assert fs[i + 1].key == k;
    }
    assert fs[0].key == f.key;
  }

  lemma AcceptsAllCons(doc: Document, f: Field, s: Schema)
    ensures AcceptsAll(doc, [f] + s) <==> Accepts(doc, f) && AcceptsAll(doc, s)
  {
    var fs := [f] + s;
    assert fs[0] == f;
    assert forall i :: 0 <= i < |s| ==> fs[i + 1] == s[i];
  }

  lemma PresentCons(doc: Document, f: Field, s: Schema)
    ensures Present(doc, Keys([f] + s))
         == (if f.key in doc then map[f.key := doc[f.key]] else map[]) + Present(doc, Keys(s))
  {
    KeysCons(f, s);
  }

  /** Extraction accepts exactly the first `n` entries: it writes the
      present fields among them, and unless `n` covers the whole schema it
      fails on entry `n`, naming it. */
  predicate StopsAt(doc: Document, schema: Schema, n: int)
  {
    var e := Extract(doc, schema);
    && 0 <= n <= |schema|
    && AcceptsAll(doc, schema[..n])
    && e.slots == Present(doc, Keys(schema[..n]))
    && (n == |schema| <==> e.Ok())
    && (n < |schema| ==> !Accepts(doc, schema[n]) && e.failure == Some(Rejection(doc, schema[n])))
  }

  /** An accepted first entry moves the stopping point one further. */
  lemma StopsAtCons(doc: Document, schema: Schema, m: int)
    requires schema != [] && Accepts(doc, schema[0]) && StopsAt(doc, schema[1..], m)
    ensures StopsAt(doc, schema, m + 1)
  {
    var tail := schema[1..];
    var n := m + 1;
    assert schema[..n] == [schema[0]] + tail[..m];
    PresentCons(doc, schema[0], tail[..m]);
    AcceptsAllCons(doc, schema[0], tail[..m]);
    assert n < |schema| ==> schema[n] == tail[m];
  }

  /** The full behaviour of the extractor: it writes exactly the present
      fields of the longest accepted prefix of the schema, and fails on the
      entry right after that prefix, naming it. */
  lemma {:induction false} ExtractWritesAcceptedPrefix(doc: Document, schema: Schema)
    ensures exists n :: StopsAt(doc, schema, n)
    decreases |schema|
  {
    if schema == [] {
      assert StopsAt(doc, schema, 0);
    } else if !Accepts(doc, schema[0]) {
      assert Keys(schema[..0]) == {};
      assert StopsAt(doc, schema, 0);
    } else {
      ExtractWritesAcceptedPrefix(doc, schema[1..]);
      var m :| StopsAt(doc, schema[1..], m);
      StopsAtCons(doc, schema, m);
    }
  }

  /** After a successful extraction, the slot of every declared entry holds
      exactly what the document holds under that key (nothing when the key
      is absent), a required entry is present, and a present value has the
      requested shape. */
  lemma SlotReads(doc: Document, schema: Schema, i: int)
    requires Extract(doc, schema).Ok() && 0 <= i < |schema|
    ensures var k := schema[i].key; var s := Extract(doc, schema).slots;
      && (k in s <==> k in doc) && (k in s ==> s[k] == doc[k])
      && (schema[i].required ==> k in doc)
      && (k in doc ==> Conforms(schema[i].kind, doc[k]))
  {
    assert Accepts(doc, schema[i]);
  }

  /** Reading a slot the way the handlers do: each getter yields the value
      only when the slot holds one of its kind. */
  function Text(m: Document, key: string): Option<string>
  {
    if key in m && m[key].JString? then Some(m[key].s) else None
  }

  function Integer(m: Document, key: string): Option<int>
  {
    if key in m && m[key].JInt? then Some(m[key].i) else None
  }

  /** An integer slot whose caller initialised it to `default`. */
  function IntegerOr(m: Document, key: string, default: int): int
  {
    match Integer(m, key)
    case Some(v) => v
    case None => default
  }

  function Number(m: Document, key: string): Option<real>
  {
    if key in m && m[key].JReal? then Some(m[key].r) else None
  }

  /** A JSON_TRUE slot: the caller initialised it to 0, so it reads true only
      when the document holds `true`. */
  function Flag(m: Document, key: string): bool
  {
    key in m && m[key] == JBool(true)
  }

  function Time(m: Document, key: string): Option<TimeVal>
  {
    if key in m then AsTimeVal(m[key]) else None
  }
}
