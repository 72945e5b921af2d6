/** Which model arguments are refused: the sanitizer fails closed, and on nothing else. */
module ModelArgRefusals {
  import opened Characters
  import opened JsonFingerprint
  import opened ModelArgKinds
  import opened ModelArgs
  import opened ModelArgLaws

  // ---------------------------------------------------------------------
  // URLs
  // ---------------------------------------------------------------------

  predicate IsScheme(s: string) {
    && s != "" && ('a' <= s[0] <= 'z' || 'A' <= s[0] <= 'Z')
    && forall c :: c in s ==> 'a' <= c <= 'z' || 'A' <= c <= 'Z' || '0' <= c <= '9' || c in "+.-"
  }

  /** Space, a scheme, "://" and anything. */
  ghost predicate IsUrl(s: string) {
    exists space, scheme, rest :: Reads(s, space, scheme, rest)
  }

  ghost predicate Reads(s: string, space: string, scheme: string, rest: string) {
    s == space + (scheme + ("://" + rest)) && Blank(space) && IsScheme(scheme)
  }

  predicate Blank(s: string) {
    forall c :: c in s ==> IsSpace(c)
  }

  lemma {:induction false} StrippingSplits(s: string)
    ensures exists space :: s == space + StrippedLeft(s) && Blank(space)
  {
    if s != "" && IsSpace(s[0]) {
      StrippingSplits(s[1..]);
      var space :| s[1..] == space + StrippedLeft(s[1..]) && Blank(space);
      assert s == ([s[0]] + space) + StrippedLeft(s) && Blank([s[0]] + space);
    } else {
      assert s == "" + StrippedLeft(s) && Blank("");
    }
  }

  lemma {:induction false} SpaceIsStripped(space: string, s: string)
    requires Blank(space)
    ensures StrippedLeft(space + s) == StrippedLeft(s)
  {
    if space == "" {
      assert space + s == s;
    } else {
      assert space[0] in space && (space + s)[1..] == space[1..] + s;
      SpaceIsStripped(space[1..], s);
    }
  }

  lemma UrlLikeIsUrl(s: string, n: nat)
    requires n <= |StrippedLeft(s)| && SchemeEndsAt(StrippedLeft(s), n)
    ensures IsUrl(s)
  {
    var t := StrippedLeft(s);
    StrippingSplits(s);
    var space :| s == space + t && Blank(space);
    SchemeSplits(t, n);
    assert Reads(s, space, t[..n], t[n + 3..]);
  }

  lemma SchemeSplits(t: string, n: nat)
    requires n <= |t| && SchemeEndsAt(t, n)
    ensures n + 3 <= |t| && t == t[..n] + ("://" + t[n + 3..]) && IsScheme(t[..n])
  {
    assert t[n..] == t[n..n + 3] + t[n + 3..];
  }

  lemma SchemeEnds(scheme: string, rest: string)
    requires IsScheme(scheme)
    ensures var t := scheme + ("://" + rest); SchemeEndsAt(t, |scheme|) && StrippedLeft(t) == t
  {
    var t := scheme + ("://" + rest);
    assert t[|scheme|..] == "://" + rest && t[|scheme|..|scheme| + 3] == ("://" + rest)[..3];
    assert forall i :: 0 <= i < |scheme| ==> t[i] == scheme[i] && scheme[i] in scheme;
  }

  /** What counts as a URL. */
  lemma UrlLikeExactly(s: string)
    ensures UrlLike(s) <==> IsUrl(s)
  {
    if n: nat :| n <= |StrippedLeft(s)| && SchemeEndsAt(StrippedLeft(s), n) {
      UrlLikeIsUrl(s, n);
    }
    if space, scheme, rest :| Reads(s, space, scheme, rest) {
      SpaceIsStripped(space, scheme + ("://" + rest));
      SchemeEnds(scheme, rest);
    }
  }

  lemma SpacesAreBlank(space: string)
    requires forall c :: c in space ==> c in " \t\r\n"
    ensures Blank(space)
  {
  }

  /** In a payload: a key that is no text, a number that is not finite, or what JSON cannot hold. */
  predicate PayloadRefused(v: Value)
    decreases v, 0
  {
    match v
    case NotFinite => true
    case Opaque => true
    case EnumMember(value) => PayloadRefused(value)
    case Dict(entries) => PayloadFieldsRefused(entries)
    case List(items) => exists i :: 0 <= i < |items| && PayloadRefused(items[i])
    case Tuple(items) => exists i :: 0 <= i < |items| && PayloadRefused(items[i])
    case _ => false
  }

  predicate PayloadFieldRefused(e: Entry)
    decreases e, 1
  {
    e.key.Other? || PayloadRefused(e.value)
  }

  predicate PayloadFieldsRefused(entries: seq<Entry>)
    decreases entries, 2
  {
    exists i :: 0 <= i < |entries| && PayloadFieldRefused(entries[i])
  }

  /**
   Elsewhere also a name that may be a secret's and a text that looks like a URL. What stands under
   an excluded name is not looked at.
   */
  ghost predicate Refused(kind: Classifier, v: Value)
    decreases v, 0
  {
    match v
    case Str(s) => IsUrl(s)
    case NotFinite => true
    case Opaque => true
    case EnumMember(value) => Refused(kind, value)
    case Dict(entries) => FieldsRefused(kind, entries)
    case List(items) => exists i :: 0 <= i < |items| && Refused(kind, items[i])
    case Tuple(items) => exists i :: 0 <= i < |items| && Refused(kind, items[i])
    case _ => false
  }

  ghost predicate FieldRefused(kind: Classifier, e: Entry)
    decreases e, 1
  {
    || e.key.Other?
    || kind(e.key.s) == SecretShaped
    || (kind(e.key.s) == Generation && PayloadRefused(e.value))
    || (kind(e.key.s) == Nested && Refused(kind, e.value))
  }

  ghost predicate FieldsRefused(kind: Classifier, entries: seq<Entry>)
    decreases entries, 2
  {
    exists i :: 0 <= i < |entries| && FieldRefused(kind, entries[i])
  }

  // ---------------------------------------------------------------------
  // Payloads
  // ---------------------------------------------------------------------

  lemma {:induction false} PayloadFailsWhenRefused(v: Value)
    ensures Payload(v).Failure? <==> PayloadRefused(v)
    decreases v, 0
  {
    match v
    case EnumMember(value) => PayloadFailsWhenRefused(value);
    case Dict(entries) => PayloadFieldsFailWhenRefused(entries);
    case List(items) => PayloadItemsFailWhenRefused(items);
    case Tuple(items) => PayloadItemsFailWhenRefused(items);
    case _ =>
  }

  lemma {:induction false} PayloadFieldFailsWhenRefused(e: Entry)
    ensures PayloadField(e).Failure? <==> PayloadFieldRefused(e)
    decreases e, 1
  {
    PayloadFailsWhenRefused(e.value);
  }

  lemma {:induction false} PayloadFieldsFailWhenRefused(entries: seq<Entry>)
    ensures PayloadFields(entries).Failure? <==> PayloadFieldsRefused(entries)
    decreases entries, 2
  {
    if entries != [] {
      var front, last := entries[..|entries| - 1], entries[|entries| - 1];
      PayloadFieldsFailWhenRefused(front);
      PayloadFieldFailsWhenRefused(last);
      assert entries == front + [last];
      assert PayloadFieldsRefused(entries) <==> PayloadFieldsRefused(front) || PayloadFieldRefused(last) by {
        if i :| 0 <= i < |front| && PayloadFieldRefused(front[i]) {
          assert PayloadFieldRefused(entries[i]);
        }
        assert entries[|front|] == last;
      }
    }
  }

  lemma {:induction false} PayloadItemsFailWhenRefused(items: seq<Value>)
    ensures PayloadItems(items).Failure? <==> PayloadRefused(List(items))
    decreases items, 2
  {
    if items != [] {
      var front, last := items[..|items| - 1], items[|items| - 1];
      PayloadItemsFailWhenRefused(front);
      PayloadFailsWhenRefused(last);
      assert items == front + [last];
      assert PayloadRefused(List(items)) <==> PayloadRefused(List(front)) || PayloadRefused(last) by {
        if i :| 0 <= i < |front| && PayloadRefused(front[i]) {
          assert PayloadRefused(items[i]);
        }
        assert items[|front|] == last;
      }
    }
  }

  // ---------------------------------------------------------------------
  // Arguments
  // ---------------------------------------------------------------------

  lemma {:induction false} ArgumentFailsWhenRefused(kind: Classifier, v: Value)
    ensures Argument(kind, v).Failure? <==> Refused(kind, v)
    decreases v, 0
  {
    match v
    case Str(s) => UrlLikeExactly(s);
    case EnumMember(value) => ArgumentFailsWhenRefused(kind, value);
    case Dict(entries) => FieldsFailWhenRefused(kind, entries);
    case List(items) => ItemsFailWhenRefused(kind, items);
    case Tuple(items) => ItemsFailWhenRefused(kind, items);
    case _ =>
  }

  lemma {:induction false} FieldFailsWhenRefused(kind: Classifier, e: Entry)
    ensures Field(kind, e).Failure? <==> FieldRefused(kind, e)
    decreases e, 1
  {
    PayloadFailsWhenRefused(e.value);
    ArgumentFailsWhenRefused(kind, e.value);
  }

  lemma {:induction false} FieldsFailWhenRefused(kind: Classifier, entries: seq<Entry>)
    ensures Fields(kind, entries).Failure? <==> FieldsRefused(kind, entries)
    decreases entries, 2
  {
    if entries != [] {
      var front, last := entries[..|entries| - 1], entries[|entries| - 1];
      FieldsFailWhenRefused(kind, front);
      FieldFailsWhenRefused(kind, last);
      FieldsOneMore(kind, front, last);
      assert entries == front + [last];
      assert FieldsRefused(kind, entries) <==> FieldsRefused(kind, front) || FieldRefused(kind, last) by {
        if i :| 0 <= i < |front| && FieldRefused(kind, front[i]) {
          assert FieldRefused(kind, entries[i]);
        }
        assert entries[|front|] == last;
      }
    }
  }

  lemma {:induction false} ItemsFailWhenRefused(kind: Classifier, items: seq<Value>)
    ensures Items(kind, items).Failure? <==> Refused(kind, List(items))
    decreases items, 2
  {
    if items != [] {
      var front, last := items[..|items| - 1], items[|items| - 1];
      ItemsFailWhenRefused(kind, front);
      ArgumentFailsWhenRefused(kind, last);
      ItemsOneMore(kind, front, last);
      assert items == front + [last];
      assert Refused(kind, List(items)) <==> Refused(kind, List(front)) || Refused(kind, last) by {
        if i :| 0 <= i < |front| && Refused(kind, front[i]) {
          assert Refused(kind, items[i]);
        }
        assert items[|front|] == last;
      }
    }
  }

  /** The sanitizer refuses what is neither nothing nor a mapping, and refused mappings, and only these. */
  lemma RefusedExactly(kind: Classifier, v: Value)
    ensures Sanitized(kind, v).Failure? <==> v != Value.None && (!v.Dict? || Refused(kind, v))
  {
    ArgumentFailsWhenRefused(kind, v);
  }
}
