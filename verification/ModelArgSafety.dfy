/** Which names the copy of model arguments can still have, told by their tokens and the tables. */
module ModelArgSafety {
  import opened Wrappers
  import opened JsonFingerprint
  import opened ModelArgTables
  import opened ModelArgKinds
  import opened ModelArgs
  import opened ModelArgLaws

  ghost predicate ListedToKeep(name: string) {
    Snake(TokensOf(name)) in GENERATION_FIELDS + NESTED_FIELDS
  }

  /** Listed to be kept, or neither listed, nor with an excluded part, nor ending like a secret. */
  ghost predicate SafeName(name: string) {
    || ListedToKeep(name)
    || (!Listed(TokensOf(name)) && !Tainted(TokensOf(name)) && !EndsLikeASecret(TokensOf(name)))
  }

  ghost predicate ForPayload(name: string) {
    Snake(TokensOf(name)) in GENERATION_FIELDS
  }

  /** Every name and text outside generation payloads is safe. */
  ghost predicate Safe(v: Value) {
    match v
    case Str(s) => !UrlLike(s)
    case List(items) => forall i :: 0 <= i < |items| ==> Safe(items[i])
    case Tuple(items) => forall i :: 0 <= i < |items| ==> Safe(items[i])
    case EnumMember(value) => Safe(value)
    case Dict(entries) => forall i :: 0 <= i < |entries| ==>
      && entries[i].key.Text? && SafeName(entries[i].key.s)
      && (ForPayload(entries[i].key.s) || Safe(entries[i].value))
    case _ => true
  }

  lemma KindTells(name: string)
    ensures KindOf(name) == Generation <==> ForPayload(name)
    ensures KindOf(name) == Generation || KindOf(name) == Nested <==> SafeName(name)
  {
    ExcludedInAnyContext(TokensOf(name));
    TokensDecideKind(TokensOf(name), name);
  }

  lemma {:induction false} CleanIsSafe(v: Value)
    requires Clean(KindOf, v)
    ensures Safe(v)
    decreases v, 0
  {
    match v
    case Dict(entries) =>
      forall i | 0 <= i < |entries|
        ensures entries[i].key.Text? && SafeName(entries[i].key.s)
        ensures ForPayload(entries[i].key.s) || Safe(entries[i].value)
      {
        CleanFieldIsSafe(entries[i]);
      }
    case List(items) =>
      forall i | 0 <= i < |items| ensures Safe(items[i]) { CleanIsSafe(items[i]); }
    case _ =>
  }

  lemma {:induction false} CleanFieldIsSafe(e: Entry)
    requires CleanField(KindOf, e)
    ensures e.key.Text? && SafeName(e.key.s) && (ForPayload(e.key.s) || Safe(e.value))
    decreases e, 1
  {
    KindTells(e.key.s);
    if KindOf(e.key.s) != Generation {
      CleanIsSafe(e.value);
    }
  }

  lemma CopyIsSafe(v: Value)
    requires Sanitized(KindOf, v).Success?
    ensures Sanitized(KindOf, v).value.Dict? && Safe(Sanitized(KindOf, v).value)
  {
    SanitizedOnceIsEnough(KindOf, v);
    CleanIsSafe(Sanitized(KindOf, v).value);
  }

  /** What is returned is safe, whatever was passed in. */
  method CopyModelArgs(v: Value) returns (r: Result<Value, ArgError>)
    ensures r == Sanitized(KindOf, v)
    ensures r.Success? ==> r.value.Dict? && Safe(r.value)
  {
    if v == Value.None {
      return Success(Dict([]));
    } else if !v.Dict? {
      return Failure(NotAMapping);
    }
    var canonical := CopyMapping(KindOf, v.entries);
    match canonical
    case Failure(error) => return Failure(error);
    case Success(copy) =>
      CopyIsSafe(v);
      return Success(if copy.None? then Dict([]) else copy.value);
  }

  // ---------------------------------------------------------------------
  // An instance: a name in no table that ends like a secret
  // ---------------------------------------------------------------------

  function VendorKey(): seq<string> {
    ["vendor", "key"]
  }

  lemma VendorKeyInSnakeCase()
    ensures Snake(VendorKey()) == "vendor_key"
  {
    assert SnakeTail(["key"]) == "_key";
  }

  lemma NoNestedField(name: string)
    requires |name| == 10 && name[0] == 'v'
    ensures name !in NESTED_FIELDS
  {
  }

  lemma NoExcludedField(name: string)
    requires |name| == 10 && name[0] == 'v'
    ensures name !in EXCLUDED_FIELDS
  {
    NoExcludedFieldAtoC(name);
    NoExcludedFieldDtoN(name);
    NoExcludedFieldOtoV(name);
  }

  lemma NoExcludedFieldAtoC(name: string)
    requires |name| == 10 && name[0] == 'v'
    ensures name !in EXCLUDED_FIELDS_A_TO_AU + EXCLUDED_FIELDS_AW_TO_AZ + EXCLUDED_FIELDS_B_TO_C
  {
  }

  lemma NoExcludedFieldDtoN(name: string)
    requires |name| == 10 && name[0] == 'v'
    ensures name !in EXCLUDED_FIELDS_D_TO_H + EXCLUDED_FIELDS_I_TO_L + EXCLUDED_FIELDS_M_TO_N
  {
  }

  lemma NoExcludedFieldOtoV(name: string)
    requires |name| == 10 && name[0] == 'v'
    ensures name !in EXCLUDED_FIELDS_O_TO_P + EXCLUDED_FIELDS_R_TO_S + EXCLUDED_FIELDS_T_TO_V
  {
  }

  lemma NoExcludedToken(token: string)
    requires (|token| == 6 && token[0] == 'v') || (|token| == 3 && token[0] == 'k')
    ensures token !in EXCLUDED_TOKENS
  {
  }

  lemma NoExcludedSequence(sequence: seq<string>)
    requires sequence in EXCLUDED_SEQUENCES
    ensures |sequence| >= 2 && sequence[0] != "" && sequence[0][0] != 'v'
  {
    if sequence in EXCLUDED_SEQUENCES_A_TO_E {
      NoSequenceAtoE(sequence);
    } else if sequence in EXCLUDED_SEQUENCES_I_TO_L {
      NoSequenceItoL(sequence);
    } else {
      NoSequencePtoW(sequence);
    }
  }

  lemma NoSequenceAtoE(sequence: seq<string>)
    requires sequence in EXCLUDED_SEQUENCES_A_TO_E
    ensures |sequence| >= 2 && sequence[0] != "" && sequence[0][0] != 'v'
  {
  }

  lemma NoSequenceItoL(sequence: seq<string>)
    requires sequence in EXCLUDED_SEQUENCES_I_TO_L
    ensures |sequence| >= 2 && sequence[0] != "" && sequence[0][0] != 'v'
  {
  }

  lemma NoSequencePtoW(sequence: seq<string>)
    requires sequence in EXCLUDED_SEQUENCES_P_TO_W
    ensures |sequence| >= 2 && sequence[0] != "" && sequence[0][0] != 'v'
  {
  }

  lemma VendorKeyIsUntainted()
    ensures !ExcludedByTokens(VendorKey())
  {
    NoExcludedToken(VendorKey()[0]);
    NoExcludedToken(VendorKey()[1]);
    forall k | 0 <= k < |EXCLUDED_SEQUENCES| ensures !ContainsSequence(VendorKey(), EXCLUDED_SEQUENCES[k]) {
      NoExcludedSequence(EXCLUDED_SEQUENCES[k]);
    }
  }

  lemma VendorKeyIsRead(name: string)
    requires name == "vendor_key"
    ensures TokensOf(name) == VendorKey()
  {
    VendorKeyInSnakeCase();
    SnakeIsRead(VendorKey());
  }

  lemma VendorKeyIsUnlisted(name: string)
    requires name == "vendor_key"
    ensures !Listed(VendorKey())
  {
    VendorKeyInSnakeCase();
    GenerationFieldsAside(name);
    NoNestedField(name);
    NoExcludedField(name);
  }

  lemma VendorKeyIsDoubtful(name: string)
    requires name == "vendor_key"
    ensures KindOf(name) == SecretShaped
  {
    VendorKeyIsRead(name);
    VendorKeyIsUnlisted(name);
    VendorKeyIsUntainted();
    TokensDecideKind(VendorKey(), name);
  }

  /** An unknown name that ends in `key` is refused, whatever stands under it. */
  lemma VendorKeyIsRefused(name: string, value: Value)
    requires name == "vendor_key"
    ensures Sanitized(KindOf, Dict([Entry(Text(name), value)])) == Failure(LooksLikeSecret)
  {
    VendorKeyIsDoubtful(name);
    DoubtfulIsRefused(KindOf, name, value);
  }

  lemma DoubtfulIsRefused(kind: Classifier, name: string, value: Value)
    requires kind(name) == SecretShaped
    ensures Sanitized(kind, Dict([Entry(Text(name), value)])) == Failure(LooksLikeSecret)
  {
    FieldsOneMore(kind, [], Entry(Text(name), value));
    assert [] + [Entry(Text(name), value)] == [Entry(Text(name), value)];
  }
}
