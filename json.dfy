/** The JSON value a builder's `render()` produces. An object keeps its keys in
    the order the render code writes them; a field whose value is `undefined`
    is left out, as `JSON.stringify` does. */
module Json {
  import opened Wrappers

  datatype Json =
    | JNull
    | JStr(str: string)
    | JBool(b: bool)
    | JNum(n: int)
    | JArr(items: seq<Json>)
    | JObj(fields: seq<Field>)

  datatype Field = Field(key: string, value: Json)

  /** JavaScript truthiness: null, "", false and 0 are falsy. */
  predicate Truthy(j: Json) {
    match j
    case JNull => false
    case JStr(s) => s != ""
    case JBool(b) => b
    case JNum(n) => n != 0
    case JArr(_) => true
    case JObj(_) => true
  }

  /** A field that is present only when its value is defined. */
  function OptField(key: string, value: Option<Json>): (fs: seq<Field>)
    ensures value.None? <==> fs == []
    ensures value.Some? ==> fs == [Field(key, value.value)]
  {
    match value
    case None => []
    case Some(v) => [Field(key, v)]
  }

  function OptStr(s: Option<string>): Option<Json> {
    match s
    case None => None
    case Some(v) => Some(JStr(v))
  }

  function OptBool(b: Option<bool>): Option<Json> {
    match b
    case None => None
    case Some(v) => Some(JBool(v))
  }

  /** The value stored under `key` in a list of fields: the first match. */
  function Lookup(fields: seq<Field>, key: string): (r: Option<Json>)
  {
    if |fields| == 0 then None
    else if fields[0].key == key then Some(fields[0].value)
    else Lookup(fields[1..], key)
  }

  /** A key is looked up in the first list of fields, then in the second. */
  lemma {:induction false} LookupAppend(a: seq<Field>, b: seq<Field>, key: string)
    ensures Lookup(a + b, key) == if Lookup(a, key).Some? then Lookup(a, key) else Lookup(b, key)
  {
    if a != [] {
      assert (a + b)[0] == a[0];
      assert (a + b)[1..] == a[1..] + b;
      LookupAppend(a[1..], b, key);
    } else {
      assert a + b == b;
    }
  }

  /** The member `key` of a JSON object, if the value is an object holding it. */
  function Get(j: Json, key: string): Option<Json> {
    if j.JObj? then Lookup(j.fields, key) else None
  }

  function Keys(fields: seq<Field>): seq<string> {
    seq(|fields|, i requires 0 <= i < |fields| => fields[i].key)
  }

  /** An object literal as the render code writes it: every key with its
      value, `None` standing for `undefined`. */
  type Entry = (string, Option<Json>)

  /** One member of a literal once serialized: nothing when it is undefined. */
  function Member(e: Entry): seq<Field> {
    if e.1.Some? then [Field(e.0, e.1.value)] else []
  }

  function Defined(entries: seq<Entry>): seq<Field> {
    if entries == [] then []
    else (if entries[0].1.Some? then [Field(entries[0].0, entries[0].1.value)] else []) + Defined(entries[1..])
  }

  /** The object literal once serialized: undefined members are dropped. */
  function Obj(entries: seq<Entry>): Json {
    JObj(Defined(entries))
  }

  predicate UniqueKeys(entries: seq<Entry>) {
    forall i, j :: 0 <= i < j < |entries| ==> entries[i].0 != entries[j].0
  }

  /** Reading a member of a serialized literal gives the value written for
      it (absent when it was undefined), and nothing for a key not written. */
  lemma {:induction false} GetObj(entries: seq<Entry>, key: string)
    requires UniqueKeys(entries)
    ensures forall i :: 0 <= i < |entries| && entries[i].0 == key ==> Get(Obj(entries), key) == entries[i].1
    ensures (forall i :: 0 <= i < |entries| ==> entries[i].0 != key) ==> Get(Obj(entries), key) == None
  {
    if entries != [] {
      var rest := entries[1..];
      assert UniqueKeys(rest) by {
        forall i, j | 0 <= i < j < |rest| ensures rest[i].0 != rest[j].0 {
          assert rest[i] == entries[i + 1] && rest[j] == entries[j + 1];
        }
      }
      GetObj(rest, key);
      LookupAppend(Member(entries[0]), Defined(rest), key);
      assert forall i :: 1 <= i < |entries| ==> entries[i] == rest[i - 1];
    }
  }

  /** The member written at position `i` of a literal. */
  lemma GetObjAt(entries: seq<Entry>, i: nat)
    requires UniqueKeys(entries) && i < |entries|
    ensures Get(Obj(entries), entries[i].0) == entries[i].1
  {
    GetObj(entries, entries[i].0);
  }

  /** A key written nowhere in a literal is absent from the object. */
  lemma {:induction false} GetObjAbsent(entries: seq<Entry>, key: string)
    requires forall i :: 0 <= i < |entries| ==> entries[i].0 != key
    ensures Get(Obj(entries), key) == None
  {
    if entries != [] {
      var rest := entries[1..];
      assert forall i :: 0 <= i < |rest| ==> rest[i] == entries[i + 1];
      GetObjAbsent(rest, key);
      LookupAppend(Member(entries[0]), Defined(rest), key);
    }
  }

  /** Serializing literals of one to eight members, member by member. */
  lemma Defined1(a: Entry)
    ensures Defined([a]) == Member(a)
  {
    assert [a][1..] == [];
    assert Member(a) + [] == Member(a);
  }

  lemma Defined2(a: Entry, b: Entry)
    ensures Defined([a, b]) == Member(a) + Member(b)
  {
    assert [a, b][1..] == [b];
    Defined1(b);
  }

  lemma Defined3(a: Entry, b: Entry, c: Entry)
    ensures Defined([a, b, c]) == Member(a) + (Member(b) + Member(c))
  {
    assert [a, b, c][1..] == [b, c];
    Defined2(b, c);
  }

  lemma Defined4(a: Entry, b: Entry, c: Entry, d: Entry)
    ensures Defined([a, b, c, d]) == Member(a) + (Member(b) + (Member(c) + Member(d)))
  {
    assert [a, b, c, d][1..] == [b, c, d];
    Defined3(b, c, d);
  }

  lemma Defined5(a: Entry, b: Entry, c: Entry, d: Entry, e: Entry)
    ensures Defined([a, b, c, d, e]) == Member(a) + (Member(b) + (Member(c) + (Member(d) + Member(e))))
  {
    assert [a, b, c, d, e][1..] == [b, c, d, e];
    Defined4(b, c, d, e);
  }

  lemma Defined6(a: Entry, b: Entry, c: Entry, d: Entry, e: Entry, f: Entry)
    ensures Defined([a, b, c, d, e, f]) ==
      Member(a) + (Member(b) + (Member(c) + (Member(d) + (Member(e) + Member(f)))))
  {
    assert [a, b, c, d, e, f][1..] == [b, c, d, e, f];
    Defined5(b, c, d, e, f);
  }

  lemma Defined7(a: Entry, b: Entry, c: Entry, d: Entry, e: Entry, f: Entry, g: Entry)
    ensures Defined([a, b, c, d, e, f, g]) ==
      Member(a) + (Member(b) + (Member(c) + (Member(d) + (Member(e) + (Member(f) + Member(g))))))
  {
    assert [a, b, c, d, e, f, g][1..] == [b, c, d, e, f, g];
    Defined6(b, c, d, e, f, g);
  }

  lemma Defined8(a: Entry, b: Entry, c: Entry, d: Entry, e: Entry, f: Entry, g: Entry, h: Entry)
    ensures Defined([a, b, c, d, e, f, g, h]) ==
      Member(a) + (Member(b) + (Member(c) + (Member(d) + (Member(e) + (Member(f) + (Member(g) + Member(h)))))))
  {
    assert [a, b, c, d, e, f, g, h][1..] == [b, c, d, e, f, g, h];
    Defined7(b, c, d, e, f, g, h);
  }
}
