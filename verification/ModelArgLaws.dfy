/** What the copy of model arguments keeps, what it hides, and that copying once is enough. */
module ModelArgLaws {
  import opened Wrappers
  import opened JsonFingerprint
  import opened ModelArgKinds
  import opened ModelArgs

  /** Nothing that a payload could not come out as. */
  predicate Plain(v: Value) {
    match v
    case NotFinite => false
    case Opaque => false
    case EnumMember(_) => false
    case Tuple(_) => false
    case Dict(entries) => forall i :: 0 <= i < |entries| ==> entries[i].key.Text? && Plain(entries[i].value)
    case List(items) => forall i :: 0 <= i < |items| ==> Plain(items[i])
    case _ => true
  }

  /** No excluded or doubtful name and no URL anywhere but in generation payloads. */
  predicate Clean(kind: Classifier, v: Value)
    decreases v, 0
  {
    match v
    case Str(s) => !UrlLike(s)
    case NotFinite => false
    case Opaque => false
    case EnumMember(_) => false
    case Tuple(_) => false
    case Dict(entries) => forall i :: 0 <= i < |entries| ==> CleanField(kind, entries[i])
    case List(items) => forall i :: 0 <= i < |items| ==> Clean(kind, items[i])
    case _ => true
  }

  predicate CleanField(kind: Classifier, e: Entry)
    decreases e, 1
  {
    && e.key.Text?
    && (kind(e.key.s) == Generation || kind(e.key.s) == Nested)
    && (if kind(e.key.s) == Generation then Plain(e.value) else Clean(kind, e.value))
  }

  // ---------------------------------------------------------------------
  // Payloads
  // ---------------------------------------------------------------------

  lemma {:induction false} PayloadIsPlain(v: Value)
    ensures Payload(v).Success? ==> Plain(Payload(v).value)
    decreases v, 0
  {
    match v
    case EnumMember(value) => PayloadIsPlain(value);
    case Dict(entries) => PayloadFieldsArePlain(entries);
    case List(items) => PayloadItemsArePlain(items);
    case Tuple(items) => PayloadItemsArePlain(items);
    case _ =>
  }

  lemma {:induction false} PayloadFieldIsPlain(e: Entry)
    ensures PayloadField(e).Success? ==> PayloadField(e).value.key.Text? && Plain(PayloadField(e).value.value)
    decreases e, 1
  {
    PayloadIsPlain(e.value);
  }

  lemma {:induction false} PayloadFieldsArePlain(entries: seq<Entry>)
    ensures PayloadFields(entries).Success? ==> Plain(Dict(PayloadFields(entries).value))
    decreases entries, 2
  {
    if entries != [] {
      PayloadFieldsArePlain(entries[..|entries| - 1]);
      PayloadFieldIsPlain(entries[|entries| - 1]);
    }
  }

  lemma {:induction false} PayloadItemsArePlain(items: seq<Value>)
    ensures PayloadItems(items).Success? ==> Plain(List(PayloadItems(items).value))
    decreases items, 2
  {
    if items != [] {
      PayloadItemsArePlain(items[..|items| - 1]);
      PayloadIsPlain(items[|items| - 1]);
    }
  }

  lemma {:induction false} PlainStays(v: Value)
    requires Plain(v)
    ensures Payload(v) == Success(v)
    decreases v, 0
  {
    match v
    case Dict(entries) => PlainFieldsStay(entries);
    case List(items) => PlainItemsStay(items);
    case _ =>
  }

  lemma {:induction false} PlainFieldStays(e: Entry)
    requires e.key.Text? && Plain(e.value)
    ensures PayloadField(e) == Success(e)
    decreases e, 1
  {
    PlainStays(e.value);
  }

  lemma {:induction false} PlainFieldsStay(entries: seq<Entry>)
    requires Plain(Dict(entries))
    ensures PayloadFields(entries) == Success(entries)
    decreases entries, 2
  {
    if entries != [] {
      var front, last := entries[..|entries| - 1], entries[|entries| - 1];
      assert entries == front + [last];
      PlainFieldsStay(front);
      PlainFieldStays(last);
    }
  }

  lemma {:induction false} PlainItemsStay(items: seq<Value>)
    requires Plain(List(items))
    ensures PayloadItems(items) == Success(items)
    decreases items, 2
  {
    if items != [] {
      var front, last := items[..|items| - 1], items[|items| - 1];
      assert items == front + [last];
      PlainItemsStay(front);
      PlainStays(last);
    }
  }

  // ---------------------------------------------------------------------
  // Arguments
  // ---------------------------------------------------------------------

  lemma {:induction false} ArgumentIsClean(kind: Classifier, v: Value)
    ensures Argument(kind, v).Success? && Argument(kind, v).value.Some? ==> Clean(kind, Argument(kind, v).value.value)
    decreases v, 0
  {
    match v
    case EnumMember(value) => ArgumentIsClean(kind, value);
    case Dict(entries) => FieldsAreClean(kind, entries);
    case List(items) => ItemsAreClean(kind, items);
    case Tuple(items) => ItemsAreClean(kind, items);
    case _ =>
  }

  lemma {:induction false} FieldIsClean(kind: Classifier, e: Entry)
    ensures Field(kind, e).Success? && Field(kind, e).value.Some? ==> CleanField(kind, Field(kind, e).value.value)
    decreases e, 1
  {
    PayloadIsPlain(e.value);
    ArgumentIsClean(kind, e.value);
  }

  lemma {:induction false} FieldsAreClean(kind: Classifier, entries: seq<Entry>)
    ensures Fields(kind, entries).Success? ==> Clean(kind, Dict(Fields(kind, entries).value))
    decreases entries, 2
  {
    if entries != [] {
      FieldsAreClean(kind, entries[..|entries| - 1]);
      FieldIsClean(kind, entries[|entries| - 1]);
    }
  }

  lemma {:induction false} ItemsAreClean(kind: Classifier, items: seq<Value>)
    ensures Items(kind, items).Success? ==> Clean(kind, List(Items(kind, items).value))
    decreases items, 2
  {
    if items != [] {
      ItemsAreClean(kind, items[..|items| - 1]);
      ArgumentIsClean(kind, items[|items| - 1]);
    }
  }

  lemma {:induction false} CleanStays(kind: Classifier, v: Value)
    requires Clean(kind, v)
    ensures Argument(kind, v) == Success(Some(v))
    decreases v, 0
  {
    match v
    case Dict(entries) => CleanFieldsStay(kind, entries);
    case List(items) => CleanItemsStay(kind, items);
    case _ =>
  }

  lemma {:induction false} CleanFieldStays(kind: Classifier, e: Entry)
    requires CleanField(kind, e)
    ensures Field(kind, e) == Success(Some(e))
    decreases e, 1
  {
    if kind(e.key.s) == Generation {
      PlainStays(e.value);
    } else {
      CleanStays(kind, e.value);
    }
  }

  lemma {:induction false} CleanFieldsStay(kind: Classifier, entries: seq<Entry>)
    requires Clean(kind, Dict(entries))
    ensures Fields(kind, entries) == Success(entries)
    decreases entries, 2
  {
    if entries != [] {
      var front, last := entries[..|entries| - 1], entries[|entries| - 1];
      assert entries == front + [last];
      CleanFieldsStay(kind, front);
      CleanFieldStays(kind, last);
    }
  }

  lemma {:induction false} CleanItemsStay(kind: Classifier, items: seq<Value>)
    requires Clean(kind, List(items))
    ensures Items(kind, items) == Success(items)
    decreases items, 2
  {
    if items != [] {
      var front, last := items[..|items| - 1], items[|items| - 1];
      assert items == front + [last];
      CleanItemsStay(kind, front);
      CleanStays(kind, last);
    }
  }

  /** Clean mappings, and only they, are copied as they are. */
  lemma CleanIsUntouched(kind: Classifier, v: Value)
    ensures Sanitized(kind, v) == Success(v) <==> v.Dict? && Clean(kind, v)
  {
    if v.Dict? && Clean(kind, v) {
      CleanStays(kind, v);
    }
    ArgumentIsClean(kind, v);
  }

  /** The copy is clean, copying it again changes nothing, and it always has a fingerprint. */
  lemma SanitizedOnceIsEnough(kind: Classifier, v: Value)
    requires Sanitized(kind, v).Success?
    ensures var copy := Sanitized(kind, v).value;
            copy.Dict? && Clean(kind, copy) && Sanitized(kind, copy) == Success(copy) && CanonicalText(copy).Success?
  {
    ArgumentIsClean(kind, v);
    CleanIsUntouched(kind, Sanitized(kind, v).value);
    CleanEncodes(kind, Sanitized(kind, v).value);
  }

  lemma {:induction false} PlainEncodes(v: Value)
    requires Plain(v)
    ensures Encodable(v)
  {
    match v
    case Dict(entries) =>
      forall i | 0 <= i < |entries| ensures Encodable(entries[i].value) { PlainEncodes(entries[i].value); }
    case List(items) =>
      forall i | 0 <= i < |items| ensures Encodable(items[i]) { PlainEncodes(items[i]); }
    case _ =>
  }

  lemma {:induction false} CleanEncodes(kind: Classifier, v: Value)
    requires Clean(kind, v)
    ensures Encodable(v)
    decreases v, 0
  {
    match v
    case Dict(entries) =>
      forall i | 0 <= i < |entries| ensures entries[i].key.Text? && Encodable(entries[i].value) {
        CleanFieldEncodes(kind, entries[i]);
      }
    case List(items) =>
      forall i | 0 <= i < |items| ensures Encodable(items[i]) { CleanEncodes(kind, items[i]); }
    case _ =>
  }

  lemma {:induction false} CleanFieldEncodes(kind: Classifier, e: Entry)
    requires CleanField(kind, e)
    ensures e.key.Text? && Encodable(e.value)
    decreases e, 1
  {
    if kind(e.key.s) == Generation {
      PlainEncodes(e.value);
    } else {
      CleanEncodes(kind, e.value);
    }
  }

  // ---------------------------------------------------------------------
  // What the copy hides
  // ---------------------------------------------------------------------

  /** Payloads that are equal but for the choice of list or tuple and of an enum member or its value. */
  predicate AgreePayload(v: Value, w: Value)
    decreases v, w, 0
  {
    if v.EnumMember? then AgreePayload(v.value, w)
    else if w.EnumMember? then AgreePayload(v, w.value)
    else if v.Dict? && w.Dict? then
      && |v.entries| == |w.entries|
      && forall i :: 0 <= i < |v.entries| ==> AgreePayloadField(v.entries[i], w.entries[i])
    else if IsArray(v) && IsArray(w) then
      |v.items| == |w.items| && forall i :: 0 <= i < |v.items| ==> AgreePayload(v.items[i], w.items[i])
    else v == w
  }

  predicate AgreePayloadField(e: Entry, f: Entry)
    decreases e, f, 1
  {
    e.key == f.key && AgreePayload(e.value, f.value)
  }

  lemma {:induction false} PayloadsAgree(v: Value, w: Value)
    requires AgreePayload(v, w)
    ensures Payload(v) == Payload(w)
    decreases v, w, 0
  {
    if v.EnumMember? {
      PayloadsAgree(v.value, w);
    } else if w.EnumMember? {
      PayloadsAgree(v, w.value);
    } else if v.Dict? && w.Dict? {
      PayloadFieldsAgree(v.entries, w.entries);
    } else if IsArray(v) && IsArray(w) {
      PayloadItemsAgree(v.items, w.items);
    }
  }

  lemma {:induction false} PayloadFieldAgrees(e: Entry, f: Entry)
    requires AgreePayloadField(e, f)
    ensures PayloadField(e) == PayloadField(f)
    decreases e, f, 1
  {
    PayloadsAgree(e.value, f.value);
  }

  lemma {:induction false} PayloadFieldsAgree(es: seq<Entry>, fs: seq<Entry>)
    requires |es| == |fs| && forall i :: 0 <= i < |es| ==> AgreePayloadField(es[i], fs[i])
    ensures PayloadFields(es) == PayloadFields(fs)
    decreases es, fs, 2
  {
    if es != [] {
      PayloadFieldsAgree(es[..|es| - 1], fs[..|fs| - 1]);
      PayloadFieldAgrees(es[|es| - 1], fs[|fs| - 1]);
    }
  }

  lemma {:induction false} PayloadItemsAgree(xs: seq<Value>, ys: seq<Value>)
    requires |xs| == |ys| && forall i :: 0 <= i < |xs| ==> AgreePayload(xs[i], ys[i])
    ensures PayloadItems(xs) == PayloadItems(ys)
    decreases xs, ys, 2
  {
    if xs != [] {
      PayloadItemsAgree(xs[..|xs| - 1], ys[..|ys| - 1]);
      PayloadsAgree(xs[|xs| - 1], ys[|ys| - 1]);
    }
  }

  /**
   Equal but for values under excluded names, the choice of list or tuple and the choice of an enum
   member or its value.
   */
  predicate Agree(kind: Classifier, v: Value, w: Value)
    decreases v, w, 0
  {
    if v.EnumMember? then Agree(kind, v.value, w)
    else if w.EnumMember? then Agree(kind, v, w.value)
    else if v.Dict? && w.Dict? then
      |v.entries| == |w.entries| && forall i :: 0 <= i < |v.entries| ==> AgreeField(kind, v.entries[i], w.entries[i])
    else if IsArray(v) && IsArray(w) then
      |v.items| == |w.items| && forall i :: 0 <= i < |v.items| ==> Agree(kind, v.items[i], w.items[i])
    else v == w
  }

  predicate AgreeField(kind: Classifier, e: Entry, f: Entry)
    decreases e, f, 1
  {
    && e.key == f.key
    && (e.key.Text? ==>
          match kind(e.key.s)
          case Generation => AgreePayload(e.value, f.value)
          case Nested => Agree(kind, e.value, f.value)
          case _ => true)
  }

  lemma {:induction false} ArgumentsAgree(kind: Classifier, v: Value, w: Value)
    requires Agree(kind, v, w)
    ensures Argument(kind, v) == Argument(kind, w)
    decreases v, w, 0
  {
    if v.EnumMember? {
      ArgumentsAgree(kind, v.value, w);
    } else if w.EnumMember? {
      ArgumentsAgree(kind, v, w.value);
    } else if v.Dict? && w.Dict? {
      FieldsAgree(kind, v.entries, w.entries);
    } else if IsArray(v) && IsArray(w) {
      ItemsAgree(kind, v.items, w.items);
    }
  }

  lemma {:induction false} FieldAgrees(kind: Classifier, e: Entry, f: Entry)
    requires AgreeField(kind, e, f)
    ensures Field(kind, e) == Field(kind, f)
    decreases e, f, 1
  {
    if e.key.Text? && kind(e.key.s) == Generation {
      PayloadsAgree(e.value, f.value);
    } else if e.key.Text? && kind(e.key.s) == Nested {
      ArgumentsAgree(kind, e.value, f.value);
    }
  }

  lemma {:induction false} FieldsAgree(kind: Classifier, es: seq<Entry>, fs: seq<Entry>)
    requires |es| == |fs| && forall i :: 0 <= i < |es| ==> AgreeField(kind, es[i], fs[i])
    ensures Fields(kind, es) == Fields(kind, fs)
    decreases es, fs, 2
  {
    if es != [] {
      FieldsAgree(kind, es[..|es| - 1], fs[..|fs| - 1]);
      FieldAgrees(kind, es[|es| - 1], fs[|fs| - 1]);
    }
  }

  lemma {:induction false} ItemsAgree(kind: Classifier, xs: seq<Value>, ys: seq<Value>)
    requires |xs| == |ys| && forall i :: 0 <= i < |xs| ==> Agree(kind, xs[i], ys[i])
    ensures Items(kind, xs) == Items(kind, ys)
    decreases xs, ys, 2
  {
    if xs != [] {
      ItemsAgree(kind, xs[..|xs| - 1], ys[..|ys| - 1]);
      ArgumentsAgree(kind, xs[|xs| - 1], ys[|ys| - 1]);
    }
  }

  /**
   The copy, or the refusal, says nothing of what stands under an excluded name, nor of tuples and enum
   members: a mapping that agrees with a clean one is copied as that one.
   */
  lemma ExcludedValuesAreHidden(kind: Classifier, v: Value, w: Value)
    requires Agree(kind, v, w) && (v.EnumMember? <==> w.EnumMember?)
    ensures Sanitized(kind, v) == Sanitized(kind, w)
    ensures w.Dict? && Clean(kind, w) ==> Sanitized(kind, v) == Success(w)
  {
    ArgumentsAgree(kind, v, w);
    CleanIsUntouched(kind, w);
  }

  /** Fields are copied one by one, each after those before it. */
  lemma FieldsOneMore(kind: Classifier, entries: seq<Entry>, e: Entry)
    ensures Fields(kind, entries).Failure? ==> Fields(kind, entries + [e]) == Fields(kind, entries)
    ensures Fields(kind, entries).Success? && Field(kind, e).Failure? ==>
              Fields(kind, entries + [e]) == Failure(Field(kind, e).error)
    ensures Fields(kind, entries).Success? && Field(kind, e).Success? ==>
              Fields(kind, entries + [e]) ==
              Success(Fields(kind, entries).value +
                  if Field(kind, e).value.None? then [] else [Field(kind, e).value.value])
  {
    var all := entries + [e];
    assert all[..|all| - 1] == entries && all[|all| - 1] == e;
    assert Fields(kind, entries).Success? ==> Fields(kind, entries).value + [] == Fields(kind, entries).value;
  }

  /** One more item, after those before it. */
  lemma ItemsOneMore(kind: Classifier, items: seq<Value>, v: Value)
    ensures Items(kind, items).Failure? ==> Items(kind, items + [v]) == Items(kind, items)
    ensures Items(kind, items).Success? && Argument(kind, v).Failure? ==>
              Items(kind, items + [v]) == Failure(Argument(kind, v).error)
    ensures Items(kind, items).Success? && Argument(kind, v).Success? ==>
              Items(kind, items + [v]) ==
              Success(Items(kind, items).value +
                      if Argument(kind, v).value.None? then [] else [Argument(kind, v).value.value])
  {
    var all := items + [v];
    assert all[..|all| - 1] == items && all[|all| - 1] == v;
    assert Items(kind, items).Success? ==> Items(kind, items).value + [] == Items(kind, items).value;
  }

  /** Left out altogether: something was there, and all of it is excluded or hollow in turn. */
  predicate Hollow(kind: Classifier, v: Value)
    decreases v, 0
  {
    match v
    case EnumMember(value) => Hollow(kind, value)
    case Dict(entries) => entries != [] && forall i :: 0 <= i < |entries| ==> HollowField(kind, entries[i])
    case List(items) => items != [] && forall i :: 0 <= i < |items| ==> Hollow(kind, items[i])
    case Tuple(items) => items != [] && forall i :: 0 <= i < |items| ==> Hollow(kind, items[i])
    case _ => false
  }

  predicate HollowField(kind: Classifier, e: Entry)
    decreases e, 1
  {
    e.key.Text? && (kind(e.key.s) == Excluded || (kind(e.key.s) == Nested && Hollow(kind, e.value)))
  }

  lemma {:induction false} HollowIsOmitted(kind: Classifier, v: Value)
    ensures Argument(kind, v) == Success(Option.None) <==> Hollow(kind, v)
    decreases v, 0
  {
    match v
    case EnumMember(value) => HollowIsOmitted(kind, value);
    case Dict(entries) => HollowFieldsAreOmitted(kind, entries);
    case List(items) => HollowItemsAreOmitted(kind, items);
    case Tuple(items) => HollowItemsAreOmitted(kind, items);
    case _ =>
  }

  lemma {:induction false} HollowFieldIsOmitted(kind: Classifier, e: Entry)
    ensures Field(kind, e) == Success(Option.None) <==> HollowField(kind, e)
    decreases e, 1
  {
    HollowIsOmitted(kind, e.value);
  }

  lemma {:induction false} HollowFieldsAreOmitted(kind: Classifier, entries: seq<Entry>)
    ensures Fields(kind, entries) == Success([]) <==> forall i :: 0 <= i < |entries| ==> HollowField(kind, entries[i])
    decreases entries, 2
  {
    if entries != [] {
      var front, last := entries[..|entries| - 1], entries[|entries| - 1];
      HollowFieldsAreOmitted(kind, front);
      HollowFieldIsOmitted(kind, last);
      FieldsOneMore(kind, front, last);
      assert entries == front + [last];
      AllButLast(kind, front, last);
    }
  }

  lemma AllButLast(kind: Classifier, front: seq<Entry>, last: Entry)
    ensures (forall i :: 0 <= i < |front + [last]| ==> HollowField(kind, (front + [last])[i])) <==>
            (forall i :: 0 <= i < |front| ==> HollowField(kind, front[i])) && HollowField(kind, last)
  {
    var all := front + [last];
    assert forall i :: 0 <= i < |front| ==> all[i] == front[i];
    assert all[|front|] == last;
  }

  lemma {:induction false} HollowItemsAreOmitted(kind: Classifier, items: seq<Value>)
    ensures Items(kind, items) == Success([]) <==> forall i :: 0 <= i < |items| ==> Hollow(kind, items[i])
    decreases items, 2
  {
    if items != [] {
      HollowItemsAreOmitted(kind, items[..|items| - 1]);
      HollowIsOmitted(kind, items[|items| - 1]);
    }
  }
}
