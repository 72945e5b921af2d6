/**
 What two values with one JSON fingerprint have in common. The fingerprint is the canonical text
 here; hashing it is taken to be injective.
 */
module JsonFingerprint {
  import opened Wrappers
  import opened Lexicographic
  import opened CanonicalJson
  import JsonReader

  datatype Key = Text(s: string) | Other

  /** A value as the caller wrote it. `Float` carries its repr; `Opaque` is anything JSON cannot hold. */
  datatype Value =
    | None
    | Bool(b: bool)
    | Int(n: int)
    | Float(lexeme: string)
    | NotFinite
    | Str(s: string)
    | List(items: seq<Value>)
    | Tuple(items: seq<Value>)
    | Dict(entries: seq<Entry>)
    | EnumMember(value: Value)
    | Opaque

  datatype Entry = Entry(key: Key, value: Value)

  datatype Refusal = KeyNotText | NotJson

  predicate TextKeys(v: Value) {
    match v
    case List(items) => forall i :: 0 <= i < |items| ==> TextKeys(items[i])
    case Tuple(items) => forall i :: 0 <= i < |items| ==> TextKeys(items[i])
    case Dict(entries) => forall i :: 0 <= i < |entries| ==> entries[i].key.Text? && TextKeys(entries[i].value)
    case _ => true
  }

  predicate Serializable(v: Value) {
    match v
    case NotFinite => false
    case EnumMember(_) => false
    case Opaque => false
    case List(items) => forall i :: 0 <= i < |items| ==> Serializable(items[i])
    case Tuple(items) => forall i :: 0 <= i < |items| ==> Serializable(items[i])
    case Dict(entries) => forall i :: 0 <= i < |entries| ==> Serializable(entries[i].value)
    case _ => true
  }

  /** What every value satisfies before it is looked at: one entry per key, and reprs that are reprs. */
  ghost predicate Genuine(v: Value) {
    match v
    case Float(lexeme) => FloatLexeme(lexeme)
    case List(items) => forall i :: 0 <= i < |items| ==> Genuine(items[i])
    case Tuple(items) => forall i :: 0 <= i < |items| ==> Genuine(items[i])
    case Dict(entries) =>
      && (forall i, j :: 0 <= i < j < |entries| && entries[i].key.Text? ==> entries[i].key != entries[j].key)
      && (forall i :: 0 <= i < |entries| ==> Genuine(entries[i].value))
    case EnumMember(value) => Genuine(value)
    case _ => true
  }

  predicate Encodable(v: Value) {
    TextKeys(v) && Serializable(v)
  }

  /** The normal form that is printed: tuples read as arrays, fields in key order. */
  function Normal(v: Value): Tree
    requires Encodable(v)
    decreases v, 0
  {
    match v
    case None => Null
    case Bool(b) => Tree.Bool(b)
    case Int(n) => Tree.Int(n)
    case Float(lexeme) => Tree.Float(lexeme)
    case Str(s) => Tree.Str(s)
    case List(items) => Arr(NormalItems(items))
    case Tuple(items) => Arr(NormalItems(items))
    case Dict(entries) => Obj(SortByKey(NormalFields(entries)))
  }

  function NormalItems(items: seq<Value>): (r: seq<Tree>)
    requires forall i :: 0 <= i < |items| ==> Encodable(items[i])
    ensures |r| == |items| && forall i :: 0 <= i < |items| ==> r[i] == Normal(items[i])
    decreases items, 1
  {
    if items == [] then [] else [Normal(items[0])] + NormalItems(items[1..])
  }

  function NormalField(e: Entry): Member
    requires e.key.Text? && Encodable(e.value)
    decreases e, 1
  {
    Keyed(e.key.s, Normal(e.value))
  }

  function NormalFields(entries: seq<Entry>): (r: seq<Member>)
    requires forall i :: 0 <= i < |entries| ==> entries[i].key.Text? && Encodable(entries[i].value)
    ensures |r| == |entries|
    ensures forall i :: 0 <= i < |entries| ==> r[i] == NormalField(entries[i])
    decreases entries, 2
  {
    if entries == [] then [] else [NormalField(entries[0])] + NormalFields(entries[1..])
  }

  /** The text that is hashed. Keys are checked throughout before anything is printed. */
  function CanonicalText(v: Value): (r: Result<string, Refusal>)
    ensures r == Failure(KeyNotText) <==> !TextKeys(v)
    ensures r == Failure(NotJson) <==> TextKeys(v) && !Serializable(v)
  {
    if !TextKeys(v) then Failure(KeyNotText)
    else if !Serializable(v) then Failure(NotJson)
    else Success(Print(Normal(v)))
  }

  // ---------------------------------------------------------------------
  // Which values share a text
  // ---------------------------------------------------------------------

  predicate IsArray(v: Value) {
    v.List? || v.Tuple?
  }

  predicate SameItems(xs: seq<Value>, ys: seq<Value>)
    decreases xs
  {
    |xs| == |ys| && forall i :: 0 <= i < |xs| ==> Same(xs[i], ys[i])
  }

  /** Equal but for the order of fields and the choice of list or tuple. */
  predicate Same(v: Value, w: Value) {
    if IsArray(v) && IsArray(w) then SameItems(v.items, w.items)
    else if v.Dict? && w.Dict? then SameFields(v.entries, w.entries)
    else v == w
  }

  predicate SameFields(es: seq<Entry>, fs: seq<Entry>)
    decreases es, 2
  {
    && (forall i :: 0 <= i < |es| ==> Meets(es[i], fs))
    && (forall j :: 0 <= j < |fs| ==> IsMet(es, fs[j]))
  }

  predicate SameEntry(e: Entry, f: Entry)
    decreases e, 0
  {
    e.key == f.key && Same(e.value, f.value)
  }

  predicate Meets(e: Entry, fs: seq<Entry>)
    decreases e, 1
  {
    exists j :: 0 <= j < |fs| && SameEntry(e, fs[j])
  }

  predicate IsMet(es: seq<Entry>, f: Entry)
    decreases es, 1
  {
    exists i :: 0 <= i < |es| && SameEntry(es[i], f)
  }

  lemma {:induction false} NormalIsPrintable(v: Value)
    requires Genuine(v) && Encodable(v)
    ensures Printable(Normal(v))
  {
    match v
    case List(items) =>
      forall i | 0 <= i < |items| ensures Printable(Normal(items[i])) { NormalIsPrintable(items[i]); }
    case Tuple(items) =>
      forall i | 0 <= i < |items| ensures Printable(Normal(items[i])) { NormalIsPrintable(items[i]); }
    case Dict(entries) =>
      var fields := NormalFields(entries);
      SortByKeySorts(fields);
      forall i | 0 <= i < |entries| ensures Printable(fields[i].value) { NormalIsPrintable(entries[i].value); }
      forall i | 0 <= i < |Normal(v).fields| ensures Printable(Normal(v).fields[i].value) {
        assert Normal(v).fields[i] in fields;
      }
    case _ =>
  }

  lemma {:induction false} NormalTellsSame(v: Value, w: Value)
    requires Genuine(v) && Encodable(v) && Genuine(w) && Encodable(w)
    ensures Normal(v) == Normal(w) <==> Same(v, w)
    decreases v, 0
  {
    if IsArray(v) && IsArray(w) {
      ItemsTellSame(v.items, w.items);
    } else if v.Dict? && w.Dict? {
      DictsTellSame(v.entries, w.entries);
    }
  }

  lemma {:induction false} ItemsTellSame(xs: seq<Value>, ys: seq<Value>)
    requires forall i :: 0 <= i < |xs| ==> Genuine(xs[i]) && Encodable(xs[i])
    requires forall i :: 0 <= i < |ys| ==> Genuine(ys[i]) && Encodable(ys[i])
    ensures NormalItems(xs) == NormalItems(ys) <==> SameItems(xs, ys)
    decreases xs, 1
  {
    if |xs| == |ys| {
      forall i | 0 <= i < |xs| ensures NormalItems(xs)[i] == NormalItems(ys)[i] <==> Same(xs[i], ys[i]) {
        NormalTellsSame(xs[i], ys[i]);
      }
    }
  }

  lemma {:induction false} EntriesTellSame(e: Entry, f: Entry)
    requires e.key.Text? && Genuine(e.value) && Encodable(e.value)
    requires f.key.Text? && Genuine(f.value) && Encodable(f.value)
    ensures NormalField(e) == NormalField(f) <==> SameEntry(e, f)
    decreases e, 1
  {
    NormalTellsSame(e.value, f.value);
  }

  lemma {:induction false} FieldsTellSame(es: seq<Entry>, fs: seq<Entry>)
    requires forall i :: 0 <= i < |es| ==> es[i].key.Text? && Genuine(es[i].value) && Encodable(es[i].value)
    requires forall j :: 0 <= j < |fs| ==> fs[j].key.Text? && Genuine(fs[j].value) && Encodable(fs[j].value)
    ensures Matched(es, fs, NormalFields(es), NormalFields(fs))
    decreases es, 2
  {
    forall i, j | 0 <= i < |es| && 0 <= j < |fs|
      ensures NormalFields(es)[i] == NormalFields(fs)[j] <==> SameEntry(es[i], fs[j])
    {
      EntriesTellSame(es[i], fs[j]);
    }
  }

  lemma {:induction false} DictsTellSame(es: seq<Entry>, fs: seq<Entry>)
    requires Genuine(Dict(es)) && Encodable(Dict(es)) && Genuine(Dict(fs)) && Encodable(Dict(fs))
    ensures SortByKey(NormalFields(es)) == SortByKey(NormalFields(fs)) <==> SameFields(es, fs)
    decreases es, 3
  {
    FieldsTellSame(es, fs);
    FieldsAgree(es, fs, NormalFields(es), NormalFields(fs));
  }

  ghost predicate Matched(es: seq<Entry>, fs: seq<Entry>, a: seq<Member>, b: seq<Member>) {
    && |a| == |es| && |b| == |fs|
    && forall i, j :: 0 <= i < |a| && 0 <= j < |b| ==> (a[i] == b[j] <==> SameEntry(es[i], fs[j]))
  }

  lemma ForthTellsMeeting(es: seq<Entry>, fs: seq<Entry>, a: seq<Member>, b: seq<Member>)
    requires Matched(es, fs, a, b)
    ensures (forall i :: 0 <= i < |a| ==> a[i] in b) <==> forall i :: 0 <= i < |es| ==> Meets(es[i], fs)
  {
    forall i | 0 <= i < |a| ensures a[i] in b <==> Meets(es[i], fs) {
      if a[i] in b {
        var j :| 0 <= j < |b| && b[j] == a[i];
        assert SameEntry(es[i], fs[j]);
      }
      if Meets(es[i], fs) {
        var j :| 0 <= j < |fs| && SameEntry(es[i], fs[j]);
        assert b[j] == a[i];
      }
    }
  }

  lemma BackTellsMeeting(es: seq<Entry>, fs: seq<Entry>, a: seq<Member>, b: seq<Member>)
    requires Matched(es, fs, a, b)
    ensures (forall j :: 0 <= j < |b| ==> b[j] in a) <==> forall j :: 0 <= j < |fs| ==> IsMet(es, fs[j])
  {
    forall j | 0 <= j < |b| ensures b[j] in a <==> IsMet(es, fs[j]) {
      if b[j] in a {
        var i :| 0 <= i < |a| && a[i] == b[j];
        assert SameEntry(es[i], fs[j]);
      }
      if IsMet(es, fs[j]) {
        var i :| 0 <= i < |es| && SameEntry(es[i], fs[j]);
        assert a[i] == b[j];
      }
    }
  }

  lemma FieldsAgree(es: seq<Entry>, fs: seq<Entry>, a: seq<Member>, b: seq<Member>)
    requires Matched(es, fs, a, b) && Distinct(a) && Distinct(b)
    ensures SortByKey(a) == SortByKey(b) <==> SameFields(es, fs)
  {
    ForthTellsMeeting(es, fs, a, b);
    BackTellsMeeting(es, fs, a, b);
    SortingForgetsOrderOnly(a, b);
    assert (forall x :: x in a <==> x in b) <==>
           (forall i :: 0 <= i < |a| ==> a[i] in b) && (forall j :: 0 <= j < |b| ==> b[j] in a);
  }

  /** Fields are printed in code-point order of their keys. */
  lemma FieldsAreInKeyOrder(entries: seq<Entry>)
    requires Genuine(Dict(entries)) && Encodable(Dict(entries))
    ensures Sorted(Keys(Normal(Dict(entries)).fields))
  {
    SortByKeySorts(NormalFields(entries));
  }

  /** Key order and list-or-tuple are all that the fingerprint does not see. */
  lemma TextTellsSame(v: Value, w: Value)
    requires Genuine(v) && Genuine(w) && CanonicalText(v).Success? && CanonicalText(w).Success?
    ensures CanonicalText(v) == CanonicalText(w) <==> Same(v, w)
  {
    NormalTellsSame(v, w);
    NormalIsPrintable(v);
    NormalIsPrintable(w);
    if CanonicalText(v) == CanonicalText(w) {
      JsonReader.PrintIsInjective(Normal(v), Normal(w));
    }
  }

  /** The tree is the JSON value that the Python value stands for; an object has no order. */
  predicate Denotes(t: Tree, v: Value)
    decreases t, 0
  {
    match t
    case Null => v == Value.None
    case Bool(b) => v == Value.Bool(b)
    case Int(n) => v == Value.Int(n)
    case Float(lexeme) => v == Value.Float(lexeme)
    case Str(s) => v == Value.Str(s)
    case Arr(items) =>
      IsArray(v) && |items| == |v.items| && forall i :: 0 <= i < |items| ==> Denotes(items[i], v.items[i])
    case Obj(fields) =>
      && v.Dict? && |fields| == |v.entries|
      && (forall i :: 0 <= i < |fields| ==> DenotesOneOf(fields[i], v.entries))
      && (forall j :: 0 <= j < |v.entries| ==> OneDenotes(fields, v.entries[j]))
  }

  predicate DenotesOneOf(m: Member, entries: seq<Entry>)
    decreases m, 1
  {
    exists j :: 0 <= j < |entries| && DenotesField(m, entries[j])
  }

  predicate OneDenotes(fields: seq<Member>, e: Entry)
    decreases fields, 1
  {
    exists i :: 0 <= i < |fields| && DenotesField(fields[i], e)
  }

  predicate DenotesField(m: Member, e: Entry)
    decreases m, 0
  {
    e.key == Text(m.key) && Denotes(m.value, e.value)
  }

  lemma {:induction false} NormalDenotes(v: Value)
    requires Encodable(v)
    ensures Denotes(Normal(v), v)
    decreases v, 0
  {
    match v
    case List(items) => ItemsDenote(items);
    case Tuple(items) => ItemsDenote(items);
    case Dict(entries) => ObjectDenotes(entries);
    case _ =>
  }

  lemma {:induction false} ItemsDenote(items: seq<Value>)
    requires forall i :: 0 <= i < |items| ==> Encodable(items[i])
    ensures forall i :: 0 <= i < |items| ==> Denotes(NormalItems(items)[i], items[i])
    decreases items, 1
  {
    forall i | 0 <= i < |items| ensures Denotes(NormalItems(items)[i], items[i]) {
      NormalDenotes(items[i]);
    }
  }

  lemma {:induction false} FieldDenotes(e: Entry)
    requires e.key.Text? && Encodable(e.value)
    ensures DenotesField(NormalField(e), e)
    decreases e, 1
  {
    NormalDenotes(e.value);
  }

  lemma {:induction false} ObjectDenotes(entries: seq<Entry>)
    requires forall i :: 0 <= i < |entries| ==> entries[i].key.Text? && Encodable(entries[i].value)
    ensures Denotes(Obj(SortByKey(NormalFields(entries))), Dict(entries))
    decreases entries, 2
  {
    forall j | 0 <= j < |entries| ensures DenotesField(NormalFields(entries)[j], entries[j]) {
      FieldDenotes(entries[j]);
    }
    SortByKeySorts(NormalFields(entries));
    SameMembersDenote(NormalFields(entries), SortByKey(NormalFields(entries)), entries);
  }

  lemma SameMembersDenote(fields: seq<Member>, sorted: seq<Member>, entries: seq<Entry>)
    requires |fields| == |entries| && forall j :: 0 <= j < |entries| ==> DenotesField(fields[j], entries[j])
    requires forall m :: m in sorted <==> m in fields
    ensures forall i :: 0 <= i < |sorted| ==> DenotesOneOf(sorted[i], entries)
    ensures forall j :: 0 <= j < |entries| ==> OneDenotes(sorted, entries[j])
  {
    forall i | 0 <= i < |sorted| ensures DenotesOneOf(sorted[i], entries) {
      assert sorted[i] in fields;
      var j :| 0 <= j < |fields| && fields[j] == sorted[i];
      assert DenotesField(sorted[i], entries[j]);
    }
    forall j | 0 <= j < |entries| ensures OneDenotes(sorted, entries[j]) {
      assert fields[j] in sorted;
      var i :| 0 <= i < |sorted| && sorted[i] == fields[j];
      assert DenotesField(sorted[i], entries[j]);
    }
  }

  /** A JSON reader gets the value back from the text of every accepted value, to the last character. */
  lemma TextIsJson(v: Value)
    requires Genuine(v) && CanonicalText(v).Success?
    ensures var r := JsonReader.ReadValue(CanonicalText(v).value);
            r.Some? && r.value.1 == "" && Denotes(r.value.0, v)
  {
    NormalIsPrintable(v);
    NormalDenotes(v);
    JsonReader.PrintIsRead(Normal(v), "");
    assert Print(Normal(v)) + "" == Print(Normal(v));
  }
}
