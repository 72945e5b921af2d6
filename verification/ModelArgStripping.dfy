/** Whether it shows in the copy that excluded names were there at all. */
module ModelArgStripping {
  import opened Wrappers
  import opened JsonFingerprint
  import opened ModelArgKinds
  import opened ModelArgs
  import opened ModelArgLaws
  import opened ModelArgRefusals

  predicate IsExcluded(kind: Classifier, e: Entry) {
    e.key.Text? && kind(e.key.s) == Excluded
  }

  predicate IsNested(kind: Classifier, e: Entry) {
    e.key.Text? && kind(e.key.s) == Nested
  }

  /** The value without its excluded entries, at every level but inside generation payloads. */
  function Stripped(kind: Classifier, v: Value): Value
    decreases v, 0
  {
    match v
    case EnumMember(value) => EnumMember(Stripped(kind, value))
    case Dict(entries) => Dict(StrippedFields(kind, entries))
    case List(items) => List(StrippedItems(kind, items))
    case Tuple(items) => Tuple(StrippedItems(kind, items))
    case _ => v
  }

  function StrippedField(kind: Classifier, e: Entry): Entry
    decreases e, 1
  {
    if IsNested(kind, e) then Entry(e.key, Stripped(kind, e.value)) else e
  }

  function StrippedFields(kind: Classifier, entries: seq<Entry>): seq<Entry>
    decreases entries, 2
  {
    if entries == [] then []
    else
      var front := StrippedFields(kind, entries[..|entries| - 1]);
      if IsExcluded(kind, entries[|entries| - 1]) then front else front + [StrippedField(kind, entries[|entries| - 1])]
  }

  function StrippedItems(kind: Classifier, items: seq<Value>): (r: seq<Value>)
    ensures |r| == |items|
    decreases items, 2
  {
    if items == [] then [] else StrippedItems(kind, items[..|items| - 1]) + [Stripped(kind, items[|items| - 1])]
  }

  function WithoutExcluded(kind: Classifier, entries: seq<Entry>): seq<Entry>
    decreases entries
  {
    if entries == [] then []
    else
      var front := WithoutExcluded(kind, entries[..|entries| - 1]);
      if IsExcluded(kind, entries[|entries| - 1]) then front else front + [entries[|entries| - 1]]
  }

  lemma {:induction false} OthersAreKept(kind: Classifier, entries: seq<Entry>)
    ensures Fields(kind, WithoutExcluded(kind, entries)) == Fields(kind, entries)
    decreases entries
  {
    if entries != [] {
      var front, last := entries[..|entries| - 1], entries[|entries| - 1];
      OthersAreKept(kind, front);
      FieldsOneMore(kind, front, last);
      assert entries == front + [last];
      if !IsExcluded(kind, last) {
        FieldsOneMore(kind, WithoutExcluded(kind, front), last);
      }
    }
  }

  /** At the top, a mapping emptied by the copy is empty. */
  lemma SanitizedMapping(kind: Classifier, entries: seq<Entry>)
    ensures Sanitized(kind, Dict(entries)) ==
            match Fields(kind, entries) {
              case Failure(error) => Failure(error)
              case Success(fields) => Success(Dict(fields))
            }
  {
  }

  /** At the top it does not matter whether excluded names are there. */
  lemma ExcludedNamesAreHidden(kind: Classifier, entries: seq<Entry>)
    ensures Sanitized(kind, Dict(entries)) == Sanitized(kind, Dict(WithoutExcluded(kind, entries)))
  {
    OthersAreKept(kind, entries);
    SanitizedMapping(kind, entries);
    SanitizedMapping(kind, WithoutExcluded(kind, entries));
  }

  /** Some non-empty mapping outside generation payloads has only excluded names. */
  predicate Exposed(kind: Classifier, v: Value)
    decreases v, 0
  {
    match v
    case EnumMember(value) => Exposed(kind, value)
    case Dict(entries) => OnlyExcluded(kind, entries) || ExposedBelow(kind, entries)
    case List(items) => exists i :: 0 <= i < |items| && Exposed(kind, items[i])
    case Tuple(items) => exists i :: 0 <= i < |items| && Exposed(kind, items[i])
    case _ => false
  }

  predicate OnlyExcluded(kind: Classifier, entries: seq<Entry>) {
    entries != [] && forall i :: 0 <= i < |entries| ==> IsExcluded(kind, entries[i])
  }

  predicate ExposedField(kind: Classifier, e: Entry)
    decreases e, 1
  {
    IsNested(kind, e) && Exposed(kind, e.value)
  }

  predicate ExposedBelow(kind: Classifier, entries: seq<Entry>)
    decreases entries, 2
  {
    exists i :: 0 <= i < |entries| && ExposedField(kind, entries[i])
  }

  /** A mapping or list of which nothing is left out is kept. */
  lemma KeptWhole(kind: Classifier, entries: seq<Entry>, items: seq<Value>)
    ensures Fields(kind, entries).Success? && |Fields(kind, entries).value| == |entries| ==>
              Argument(kind, Dict(entries)) == Success(Some(Dict(Fields(kind, entries).value)))
    ensures Items(kind, items).Success? && |Items(kind, items).value| == |items| ==>
              Argument(kind, List(items)) == Argument(kind, Tuple(items)) ==
                  Success(Some(List(Items(kind, items).value)))
  {
  }

  /** Stripping changes no refusal, and what is stripped is never left out. */
  lemma {:induction false} StrippedIsKept(kind: Classifier, v: Value)
    ensures Argument(kind, v).Failure? ==> Argument(kind, Stripped(kind, v)) == Argument(kind, v)
    ensures Argument(kind, v).Success? ==>
              Argument(kind, Stripped(kind, v)).Success? && Argument(kind, Stripped(kind, v)).value.Some?
    decreases v, 0
  {
    match v
    case EnumMember(value) => StrippedIsKept(kind, value);
    case Dict(entries) => StrippedMappingIsKept(kind, entries);
    case List(items) => StrippedListIsKept(kind, items);
    case Tuple(items) => StrippedListIsKept(kind, items);
    case _ =>
  }

  lemma {:induction false} StrippedMappingIsKept(kind: Classifier, entries: seq<Entry>)
    ensures Argument(kind, Dict(entries)).Failure? ==>
              Argument(kind, Stripped(kind, Dict(entries))) == Argument(kind, Dict(entries))
    ensures Argument(kind, Dict(entries)).Success? ==>
              var fields := Fields(kind, StrippedFields(kind, entries));
              fields.Success? && Argument(kind, Stripped(kind, Dict(entries))) == Success(Some(Dict(fields.value)))
    decreases entries, 3
  {
    StrippedFieldsAreKept(kind, entries);
    KeptWhole(kind, StrippedFields(kind, entries), []);
  }

  lemma {:induction false} StrippedListIsKept(kind: Classifier, items: seq<Value>)
    ensures Items(kind, items).Failure? ==> Items(kind, StrippedItems(kind, items)) == Items(kind, items)
    ensures Items(kind, items).Success? ==>
              && Items(kind, StrippedItems(kind, items)).Success?
              && Argument(kind, List(StrippedItems(kind, items))) == Argument(kind, Tuple(StrippedItems(kind, items)))
              && Argument(kind, List(StrippedItems(kind, items))) ==
                 Success(Some(List(Items(kind, StrippedItems(kind, items)).value)))
    decreases items, 3
  {
    StrippedItemsAreKept(kind, items);
    KeptWhole(kind, [], StrippedItems(kind, items));
  }

  lemma {:induction false} StrippedFieldIsKept(kind: Classifier, e: Entry)
    requires !IsExcluded(kind, e)
    ensures Field(kind, e).Failure? ==> Field(kind, StrippedField(kind, e)) == Field(kind, e)
    ensures Field(kind, e).Success? ==>
              Field(kind, StrippedField(kind, e)).Success? && Field(kind, StrippedField(kind, e)).value.Some?
    decreases e, 1
  {
    StrippedIsKept(kind, e.value);
  }

  lemma {:induction false} StrippedFieldsAreKept(kind: Classifier, entries: seq<Entry>)
    ensures Fields(kind, entries).Failure? ==> Fields(kind, StrippedFields(kind, entries)) == Fields(kind, entries)
    ensures Fields(kind, entries).Success? ==>
              && Fields(kind, StrippedFields(kind, entries)).Success?
              && |Fields(kind, entries).value| <= |Fields(kind, StrippedFields(kind, entries)).value|
              && |Fields(kind, StrippedFields(kind, entries)).value| == |StrippedFields(kind, entries)|
    decreases entries, 2
  {
    if entries != [] {
      var front, last := entries[..|entries| - 1], entries[|entries| - 1];
      StrippedFieldsAreKept(kind, front);
      FieldsOneMore(kind, front, last);
      assert entries == front + [last];
      if !IsExcluded(kind, last) {
        StrippedFieldIsKept(kind, last);
        FieldsOneMore(kind, StrippedFields(kind, front), StrippedField(kind, last));
      }
    }
  }

  lemma {:induction false} StrippedItemsAreKept(kind: Classifier, items: seq<Value>)
    ensures Items(kind, items).Failure? ==> Items(kind, StrippedItems(kind, items)) == Items(kind, items)
    ensures Items(kind, items).Success? ==>
              Items(kind, StrippedItems(kind, items)).Success? &&
              |Items(kind, items).value| <= |Items(kind, StrippedItems(kind, items)).value| == |items|
    decreases items, 2
  {
    if items != [] {
      var front, last := items[..|items| - 1], items[|items| - 1];
      StrippedItemsAreKept(kind, front);
      StrippedIsKept(kind, last);
      ItemsOneMore(kind, front, last);
      ItemsOneMore(kind, StrippedItems(kind, front), Stripped(kind, last));
      assert items == front + [last];
    }
  }

  lemma {:induction false} StrippingShows(kind: Classifier, v: Value)
    requires Argument(kind, v).Success?
    ensures Argument(kind, v) == Argument(kind, Stripped(kind, v)) <==> !Exposed(kind, v)
    decreases v, 0
  {
    match v
    case EnumMember(value) => StrippingShows(kind, value);
    case Dict(entries) => StrippingInnerMappingShows(kind, entries);
    case List(items) =>
      StrippedListIsKept(kind, items);
      StrippingItemsShows(kind, items);
      StrippedItemsAreKept(kind, items);
    case Tuple(items) =>
      StrippedListIsKept(kind, items);
      StrippingItemsShows(kind, items);
      StrippedItemsAreKept(kind, items);
    case _ =>
  }

  lemma {:induction false} StrippingInnerMappingShows(kind: Classifier, entries: seq<Entry>)
    requires Fields(kind, entries).Success?
    ensures Argument(kind, Dict(entries)) == Argument(kind, Stripped(kind, Dict(entries))) <==>
            !Exposed(kind, Dict(entries))
    decreases entries, 3
  {
    StrippedFieldsAreKept(kind, entries);
    StrippedMappingIsKept(kind, entries);
    StrippingFieldsShows(kind, entries);
    NothingIsStripped(kind, entries);
  }

  lemma {:induction false} NothingIsStripped(kind: Classifier, entries: seq<Entry>)
    ensures StrippedFields(kind, entries) == [] <==> entries == [] || OnlyExcluded(kind, entries)
    decreases entries
  {
    if entries != [] {
      var front, last := entries[..|entries| - 1], entries[|entries| - 1];
      NothingIsStripped(kind, front);
      ExcludedOneMore(kind, front, last);
      assert entries == front + [last];
    }
  }

  lemma ExcludedOneMore(kind: Classifier, front: seq<Entry>, last: Entry)
    ensures OnlyExcluded(kind, front + [last]) <==> (front == [] || OnlyExcluded(kind, front)) && IsExcluded(kind, last)
  {
    var all := front + [last];
    assert all[|front|] == last;
    assert forall i :: 0 <= i < |front| ==> IsExcluded(kind, all[i]) == IsExcluded(kind, front[i]);
  }

  lemma {:induction false} StrippingFieldShows(kind: Classifier, e: Entry)
    requires Field(kind, e).Success? && !IsExcluded(kind, e)
    ensures Field(kind, e) == Field(kind, StrippedField(kind, e)) <==> !ExposedField(kind, e)
    decreases e, 1
  {
    if IsNested(kind, e) {
      StrippingShows(kind, e.value);
      StrippedIsKept(kind, e.value);
    }
  }

  lemma ExposedOneMore(kind: Classifier, front: seq<Entry>, last: Entry)
    ensures ExposedBelow(kind, front + [last]) <==> ExposedBelow(kind, front) || ExposedField(kind, last)
  {
    var all := front + [last];
    if i :| 0 <= i < |front| && ExposedField(kind, front[i]) {
      assert ExposedField(kind, all[i]);
    }
    assert all[|front|] == last;
  }

  function Optionally<T>(x: Option<T>): seq<T> {
    if x.None? then [] else [x.value]
  }

  /** Appending at most one to the shorter list, and one to the other, gives equals only from equals. */
  lemma AppendTells<T(!new)>(a: seq<T>, x: Option<T>, b: seq<T>, y: T)
    requires |a| <= |b|
    ensures a + Optionally(x) == b + [y] <==> a == b && x == Some(y)
  {
    if a + Optionally(x) == b + [y] {
      assert |a + Optionally(x)| == |b| + 1;
      assert a == (a + Optionally(x))[..|a|] && b == (b + [y])[..|b|];
      assert (a + Optionally(x))[|a|] == x.value && (b + [y])[|b|] == y;
    }
  }

  lemma {:induction false} StrippingFieldsShows(kind: Classifier, entries: seq<Entry>)
    requires Fields(kind, entries).Success?
    ensures Fields(kind, entries) == Fields(kind, StrippedFields(kind, entries)) <==> !ExposedBelow(kind, entries)
    decreases entries, 2
  {
    if entries != [] {
      var front, last := entries[..|entries| - 1], entries[|entries| - 1];
      FieldsOneMore(kind, front, last);
      assert entries == front + [last];
      StrippingFieldsShows(kind, front);
      StrippedFieldsAreKept(kind, front);
      ExposedOneMore(kind, front, last);
      if !IsExcluded(kind, last) {
        StrippedFieldIsKept(kind, last);
        StrippingFieldShows(kind, last);
        FieldsOneMore(kind, StrippedFields(kind, front), StrippedField(kind, last));
        AppendTells(Fields(kind, front).value, Field(kind, last).value, Fields(kind, StrippedFields(kind, front)).value,
                    Field(kind, StrippedField(kind, last)).value.value);
      }
    }
  }

  lemma ExposedItemsOneMore(kind: Classifier, front: seq<Value>, last: Value)
    ensures Exposed(kind, List(front + [last])) <==> Exposed(kind, List(front)) || Exposed(kind, last)
  {
    var all := front + [last];
    if i :| 0 <= i < |front| && Exposed(kind, front[i]) {
      assert Exposed(kind, all[i]);
    }
    assert all[|front|] == last;
  }

  lemma {:induction false} StrippingItemsShows(kind: Classifier, items: seq<Value>)
    requires Items(kind, items).Success?
    ensures Items(kind, items) == Items(kind, StrippedItems(kind, items)) <==> !Exposed(kind, List(items))
    decreases items, 2
  {
    if items != [] {
      var front, last := items[..|items| - 1], items[|items| - 1];
      ItemsOneMore(kind, front, last);
      assert items == front + [last];
      StrippingItemsShows(kind, front);
      StrippedItemsAreKept(kind, front);
      StrippingShows(kind, last);
      StrippedIsKept(kind, last);
      ExposedItemsOneMore(kind, front, last);
      ItemsOneMore(kind, StrippedItems(kind, front), Stripped(kind, last));
      AppendTells(Items(kind, front).value, Argument(kind, last).value, Items(kind, StrippedItems(kind, front)).value,
                  Argument(kind, Stripped(kind, last)).value.value);
    }
  }

  /**
   Whether excluded names were there at all shows in the copy exactly when the arguments are not
   refused and some non-empty mapping below the top, outside generation payloads, has no other names.
   */
  lemma ExcludedNamesShowExactly(kind: Classifier, v: Value)
    ensures Sanitized(kind, v) == Sanitized(kind, Stripped(kind, v)) <==>
            (v.Dict? ==> Refused(kind, v) || !ExposedBelow(kind, v.entries))
  {
    if v.Dict? {
      StrippingMappingShows(kind, v.entries);
      RefusedExactly(kind, v);
    } else {
      assert !Stripped(kind, v).Dict? && (Stripped(kind, v) == Value.None <==> v == Value.None);
    }
  }

  lemma StrippingMappingShows(kind: Classifier, entries: seq<Entry>)
    ensures Sanitized(kind, Dict(entries)) == Sanitized(kind, Dict(StrippedFields(kind, entries))) <==>
            Sanitized(kind, Dict(entries)).Failure? || !ExposedBelow(kind, entries)
  {
    SanitizedMapping(kind, entries);
    SanitizedMapping(kind, StrippedFields(kind, entries));
    StrippedFieldsAreKept(kind, entries);
    if Fields(kind, entries).Success? {
      StrippingFieldsShows(kind, entries);
    }
  }

  /** What stripping leaves has no excluded name at any level but inside generation payloads. */
  predicate Bare(kind: Classifier, v: Value)
    decreases v, 0
  {
    match v
    case EnumMember(value) => Bare(kind, value)
    case Dict(entries) => forall i :: 0 <= i < |entries| ==> BareField(kind, entries[i])
    case List(items) => forall i :: 0 <= i < |items| ==> Bare(kind, items[i])
    case Tuple(items) => forall i :: 0 <= i < |items| ==> Bare(kind, items[i])
    case _ => true
  }

  predicate BareField(kind: Classifier, e: Entry)
    decreases e, 1
  {
    !IsExcluded(kind, e) && (IsNested(kind, e) ==> Bare(kind, e.value))
  }

  lemma {:induction false} StrippedIsBare(kind: Classifier, v: Value)
    ensures Bare(kind, Stripped(kind, v))
    ensures Bare(kind, v) ==> Stripped(kind, v) == v
    decreases v, 0
  {
    match v
    case EnumMember(value) => StrippedIsBare(kind, value);
    case Dict(entries) => StrippedFieldsAreBare(kind, entries);
    case List(items) => StrippedItemsAreBare(kind, items);
    case Tuple(items) => StrippedItemsAreBare(kind, items);
    case _ =>
  }

  lemma {:induction false} StrippedFieldIsBare(kind: Classifier, e: Entry)
    requires !IsExcluded(kind, e)
    ensures BareField(kind, StrippedField(kind, e))
    ensures BareField(kind, e) ==> StrippedField(kind, e) == e
    decreases e, 1
  {
    StrippedIsBare(kind, e.value);
  }

  lemma {:induction false} StrippedFieldsAreBare(kind: Classifier, entries: seq<Entry>)
    ensures Bare(kind, Dict(StrippedFields(kind, entries)))
    ensures Bare(kind, Dict(entries)) ==> StrippedFields(kind, entries) == entries
    decreases entries, 2
  {
    if entries != [] {
      var front, last := entries[..|entries| - 1], entries[|entries| - 1];
      assert entries == front + [last];
      BareFieldsOneMore(kind, front, last);
      StrippedFieldsAreBare(kind, front);
      if !IsExcluded(kind, last) {
        StrippedFieldIsBare(kind, last);
        BareFieldsOneMore(kind, StrippedFields(kind, front), StrippedField(kind, last));
      }
    }
  }

  lemma BareFieldsOneMore(kind: Classifier, front: seq<Entry>, last: Entry)
    ensures Bare(kind, Dict(front + [last])) <==> Bare(kind, Dict(front)) && BareField(kind, last)
  {
    var all := front + [last];
    assert all[|front|] == last;
    assert forall i :: 0 <= i < |front| ==> BareField(kind, all[i]) == BareField(kind, front[i]);
  }

  lemma BareItemsOneMore(kind: Classifier, front: seq<Value>, last: Value)
    ensures Bare(kind, List(front + [last])) <==> Bare(kind, List(front)) && Bare(kind, last)
  {
    var all := front + [last];
    assert all[|front|] == last;
    assert forall i :: 0 <= i < |front| ==> Bare(kind, all[i]) == Bare(kind, front[i]);
  }

  lemma {:induction false} StrippedItemsAreBare(kind: Classifier, items: seq<Value>)
    ensures Bare(kind, List(StrippedItems(kind, items)))
    ensures Bare(kind, List(items)) ==> StrippedItems(kind, items) == items
    decreases items, 2
  {
    if items != [] {
      var front, last := items[..|items| - 1], items[|items| - 1];
      assert items == front + [last];
      BareItemsOneMore(kind, front, last);
      StrippedItemsAreBare(kind, front);
      StrippedIsBare(kind, last);
      BareItemsOneMore(kind, StrippedItems(kind, front), Stripped(kind, last));
    }
  }

  // ---------------------------------------------------------------------
  // An instance
  // ---------------------------------------------------------------------

  function Within(outer: string, v: Value): Value {
    Dict([Entry(Text(outer), v)])
  }

  lemma OnlyEntry(kind: Classifier, outer: string, v: Value)
    requires kind(outer) == Nested
    ensures Field(kind, Entry(Text(outer), v)).Success? && Field(kind, Entry(Text(outer), v)).value.None? ==>
              Sanitized(kind, Within(outer, v)) == Success(Dict([]))
    ensures Argument(kind, v) == Success(Some(v)) ==> Sanitized(kind, Within(outer, v)) == Success(Within(outer, v))
  {
    FieldsOneMore(kind, [], Entry(Text(outer), v));
    assert [] + [Entry(Text(outer), v)] == [Entry(Text(outer), v)];
  }

  /** A nested mapping emptied by the copy goes, one that was empty stays. */
  lemma EmptiedIsNotEmpty(kind: Classifier, outer: string, secret: string, v: Value)
    requires kind(outer) == Nested && kind(secret) == Excluded
    ensures Sanitized(kind, Within(outer, Within(secret, v))) == Success(Dict([]))
    ensures Sanitized(kind, Within(outer, Dict([]))) == Success(Within(outer, Dict([])))
  {
    assert HollowField(kind, Entry(Text(secret), v));
    HollowIsOmitted(kind, Within(secret, v));
    OnlyEntry(kind, outer, Within(secret, v));
    CleanStays(kind, Dict([]));
    OnlyEntry(kind, outer, Dict([]));
  }

  /** With names in use: an API key alone among the fallbacks' arguments makes them disappear. */
  lemma EmptiedFallbacksDisappear(outer: string, secret: string, v: Value)
    requires outer == "context_window_fallbacks" && secret == "api_key"
    ensures Sanitized(KindOf, Within(outer, Within(secret, v))) != Sanitized(KindOf, Within(outer, Dict([])))
  {
    FallbacksAreNested(outer);
    ApiKeyIsExcluded(secret);
    EmptiedIsNotEmpty(KindOf, outer, secret, v);
  }
}
