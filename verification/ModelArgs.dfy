/** Copying model arguments into fingerprintable form, without transport settings and secrets. */
module ModelArgs {
  import opened Wrappers
  import opened Characters
  import opened JsonFingerprint
  import opened ModelArgKinds

  datatype ArgError = NotAMapping | KeyIsNotText | LooksLikeUrl | NumberNotFinite | Unsupported | LooksLikeSecret

  /** How names are classified: KindOf in the end, but nothing up to there depends on its tables. */
  type Classifier = string -> Kind

  /** A value, or nothing where all there was has been left out. */
  type Kept = Result<Option<Value>, ArgError>

  // ---------------------------------------------------------------------
  // What becomes of a value
  // ---------------------------------------------------------------------

  function StrippedLeft(s: string): string {
    if s != "" && IsSpace(s[0]) then StrippedLeft(s[1..]) else s
  }

  predicate IsLetter(c: char) {
    IsLower(c) || IsUpper(c)
  }

  predicate IsSchemeChar(c: char) {
    IsLetter(c) || IsLowerOrDigit(c) || c == '+' || c == '.' || c == '-'
  }

  predicate SchemeEndsAt(s: string, n: nat) {
    && 0 < n && n + 3 <= |s| && s[n..n + 3] == "://"
    && IsLetter(s[0]) && forall i :: 0 <= i < n ==> IsSchemeChar(s[i])
  }

  /** A scheme and "://" at the start; space behind it makes no difference. */
  predicate UrlLike(s: string) {
    exists n: nat :: n <= |StrippedLeft(s)| && SchemeEndsAt(StrippedLeft(s), n)
  }

  /** Output-shaping payloads keep all their keys and texts. */
  function Payload(v: Value): Result<Value, ArgError>
    decreases v, 0
  {
    match v
    case NotFinite => Failure(NumberNotFinite)
    case Opaque => Failure(Unsupported)
    case EnumMember(value) => Payload(value)
    case Dict(entries) => (
      match PayloadFields(entries)
      case Failure(e) => Failure(e)
      case Success(fields) => Success(Dict(fields)))
    case List(items) => (
      match PayloadItems(items)
      case Failure(e) => Failure(e)
      case Success(copies) => Success(List(copies)))
    case Tuple(items) => (
      match PayloadItems(items)
      case Failure(e) => Failure(e)
      case Success(copies) => Success(List(copies)))
    case _ => Success(v)
  }

  function PayloadField(e: Entry): Result<Entry, ArgError>
    decreases e, 1
  {
    if e.key.Other? then Failure(KeyIsNotText)
    else match Payload(e.value)
      case Failure(error) => Failure(error)
      case Success(copy) => Success(Entry(e.key, copy))
  }

  function PayloadFields(entries: seq<Entry>): Result<seq<Entry>, ArgError>
    decreases entries, 2
  {
    if entries == [] then Success([])
    else match PayloadFields(entries[..|entries| - 1])
      case Failure(error) => Failure(error)
      case Success(fields) => match PayloadField(entries[|entries| - 1])
        case Failure(error) => Failure(error)
        case Success(field) => Success(fields + [field])
  }

  function PayloadItems(items: seq<Value>): Result<seq<Value>, ArgError>
    decreases items, 2
  {
    if items == [] then Success([])
    else match PayloadItems(items[..|items| - 1])
      case Failure(error) => Failure(error)
      case Success(copies) => match Payload(items[|items| - 1])
        case Failure(error) => Failure(error)
        case Success(copy) => Success(copies + [copy])
  }

  function Argument(kind: Classifier, v: Value): Kept
    decreases v, 0
  {
    match v
    case Str(s) => if UrlLike(s) then Failure(LooksLikeUrl) else Success(Some(v))
    case NotFinite => Failure(NumberNotFinite)
    case Opaque => Failure(Unsupported)
    case EnumMember(value) => Argument(kind, value)
    case Dict(entries) => (
      match Fields(kind, entries)
      case Failure(e) => Failure(e)
      case Success(fields) => Success(if fields == [] && entries != [] then Option.None else Some(Dict(fields))))
    case List(items) => (
      match Items(kind, items)
      case Failure(e) => Failure(e)
      case Success(copies) => Success(if copies == [] && items != [] then Option.None else Some(List(copies))))
    case Tuple(items) => (
      match Items(kind, items)
      case Failure(e) => Failure(e)
      case Success(copies) => Success(if copies == [] && items != [] then Option.None else Some(List(copies))))
    case _ => Success(Some(v))
  }

  function Field(kind: Classifier, e: Entry): Result<Option<Entry>, ArgError>
    decreases e, 1
  {
    if e.key.Other? then Failure(KeyIsNotText)
    else match kind(e.key.s)
      case SecretShaped => Failure(LooksLikeSecret)
      case Excluded => Success(Option.None)
      case Generation => (
        match Payload(e.value)
        case Failure(error) => Failure(error)
        case Success(copy) => Success(Some(Entry(e.key, copy))))
      case Nested => (
        match Argument(kind, e.value)
        case Failure(error) => Failure(error)
        case Success(copy) => Success(if copy.None? then Option.None else Some(Entry(e.key, copy.value))))
  }

  function Fields(kind: Classifier, entries: seq<Entry>): Result<seq<Entry>, ArgError>
    decreases entries, 2
  {
    if entries == [] then Success([])
    else match Fields(kind, entries[..|entries| - 1])
      case Failure(error) => Failure(error)
      case Success(fields) => match Field(kind, entries[|entries| - 1])
        case Failure(error) => Failure(error)
        case Success(field) => Success(if field.None? then fields else fields + [field.value])
  }

  function Items(kind: Classifier, items: seq<Value>): Result<seq<Value>, ArgError>
    decreases items, 2
  {
    if items == [] then Success([])
    else match Items(kind, items[..|items| - 1])
      case Failure(error) => Failure(error)
      case Success(copies) => match Argument(kind, items[|items| - 1])
        case Failure(error) => Failure(error)
        case Success(copy) => Success(if copy.None? then copies else copies + [copy.value])
  }

  function Sanitized(kind: Classifier, v: Value): Result<Value, ArgError> {
    if v == Value.None then Success(Dict([]))
    else if !v.Dict? then Failure(NotAMapping)
    else match Argument(kind, v)
      case Failure(error) => Failure(error)
      case Success(copy) => Success(if copy.None? then Dict([]) else copy.value)
  }

  // ---------------------------------------------------------------------
  // The loops that compute it
  // ---------------------------------------------------------------------

  method CopyMapping(kind: Classifier, entries: seq<Entry>) returns (r: Kept)
    ensures r == Argument(kind, Dict(entries))
    decreases entries, 5
  {
    var normalized: seq<Entry> := [];
    var omitted := false;
    for i := 0 to |entries|
      invariant Fields(kind, entries[..i]) == Success(normalized)
      invariant |normalized| <= i && (omitted <==> |normalized| < i)
    {
      assert entries[..i + 1][..i] == entries[..i] && entries[..i + 1][i] == entries[i];
      FieldFailureStays(kind, entries, i + 1);
      var field := CopyField(kind, entries[i]);
      if field.Failure? {
        return Failure(field.error);
      }
      if field.value.None? {
        omitted := true;
      } else {
        normalized := normalized + [field.value.value];
      }
    }
    assert entries[..|entries|] == entries;
    return Success(if normalized == [] && omitted then Option.None else Some(Dict(normalized)));
  }

  /** What one entry becomes: nothing, when it is left out. */
  method CopyField(kind: Classifier, e: Entry) returns (r: Result<Option<Entry>, ArgError>)
    ensures r == Field(kind, e)
    decreases e, 4
  {
    if e.key.Other? {
      return Failure(KeyIsNotText);
    }
    match kind(e.key.s)
    case SecretShaped => return Failure(LooksLikeSecret);
    case Excluded => return Success(Option.None);
    case Generation =>
      var copy := CopyPayload(e.value);
      return if copy.Failure? then Failure(copy.error) else Success(Some(Entry(e.key, copy.value)));
    case Nested =>
      var copy := CopyArgument(kind, e.value);
      return if copy.Failure? then Failure(copy.error)
             else Success(if copy.value.None? then Option.None else Some(Entry(e.key, copy.value.value)));
  }

  method CopyItems(kind: Classifier, items: seq<Value>) returns (r: Result<Option<seq<Value>>, ArgError>)
    ensures Items(kind, items).Failure? ==> r == Failure(Items(kind, items).error)
    ensures Items(kind, items).Success? ==>
              r == Success(if Items(kind, items).value == []
                  && items != [] then Option.None else Some(Items(kind, items).value))
    decreases items, 5
  {
    var normalized: seq<Value> := [];
    var omitted := false;
    for i := 0 to |items|
      invariant Items(kind, items[..i]) == Success(normalized)
      invariant |normalized| <= i && (omitted <==> |normalized| < i)
    {
      assert items[..i + 1][..i] == items[..i] && items[..i + 1][i] == items[i];
      ItemFailureStays(kind, items, i + 1);
      var copy := CopyArgument(kind, items[i]);
      if copy.Failure? {
        return Failure(copy.error);
      }
      if copy.value.None? {
        omitted := true;
      } else {
        normalized := normalized + [copy.value.value];
      }
    }
    assert items[..|items|] == items;
    return Success(if normalized == [] && omitted then Option.None else Some(normalized));
  }

  method CopyArgument(kind: Classifier, v: Value) returns (r: Kept)
    ensures r == Argument(kind, v)
    decreases v, 3
  {
    match v
    case Str(s) =>
      return if UrlLike(s) then Failure(LooksLikeUrl) else Success(Some(v));
    case NotFinite => return Failure(NumberNotFinite);
    case Opaque => return Failure(Unsupported);
    case EnumMember(value) => r := CopyArgument(kind, value);
    case Dict(entries) => r := CopyMapping(kind, entries);
    case List(items) =>
      var copies := CopyItems(kind, items);
      return AsList(copies);
    case Tuple(items) =>
      var copies := CopyItems(kind, items);
      return AsList(copies);
    case _ => return Success(Some(v));
  }

  function AsList(copies: Result<Option<seq<Value>>, ArgError>): Kept {
    if copies.Failure? then Failure(copies.error)
    else Success(if copies.value.None? then Option.None else Some(List(copies.value.value)))
  }

  method CopyPayload(v: Value) returns (r: Result<Value, ArgError>)
    ensures r == Payload(v)
    decreases v, 3
  {
    match v
    case NotFinite => return Failure(NumberNotFinite);
    case Opaque => return Failure(Unsupported);
    case EnumMember(value) => r := CopyPayload(value);
    case Dict(entries) => r := CopyPayloadMapping(entries);
    case List(items) => return AsPayloadList(PayloadItems(items));
    case Tuple(items) => return AsPayloadList(PayloadItems(items));
    case _ => return Success(v);
  }

  function AsPayloadList(copies: Result<seq<Value>, ArgError>): Result<Value, ArgError> {
    if copies.Failure? then Failure(copies.error) else Success(List(copies.value))
  }

  method CopyPayloadMapping(entries: seq<Entry>) returns (r: Result<Value, ArgError>)
    ensures r == Payload(Dict(entries))
    decreases entries, 5
  {
    var normalized: seq<Entry> := [];
    for i := 0 to |entries|
      invariant PayloadFields(entries[..i]) == Success(normalized)
    {
      assert entries[..i + 1][..i] == entries[..i] && entries[..i + 1][i] == entries[i];
      PayloadFailureStays(entries, i + 1);
      var field := CopyPayloadField(entries[i]);
      if field.Failure? {
        return Failure(field.error);
      }
      normalized := normalized + [field.value];
    }
    assert entries[..|entries|] == entries;
    return Success(Dict(normalized));
  }

  method CopyPayloadField(e: Entry) returns (r: Result<Entry, ArgError>)
    ensures r == PayloadField(e)
    decreases e, 4
  {
    if e.key.Other? {
      return Failure(KeyIsNotText);
    }
    var copy := CopyPayload(e.value);
    return if copy.Failure? then Failure(copy.error) else Success(Entry(e.key, copy.value));
  }

  lemma {:induction false} FieldFailureStays(kind: Classifier, entries: seq<Entry>, n: nat)
    requires n <= |entries|
    ensures Fields(kind, entries[..n]).Failure? ==> Fields(kind, entries) == Fields(kind, entries[..n])
    decreases |entries| - n
  {
    if n < |entries| {
      FieldFailureStays(kind, entries, n + 1);
      assert entries[..n + 1][..n] == entries[..n];
    } else {
      assert entries[..n] == entries;
    }
  }

  lemma {:induction false} ItemFailureStays(kind: Classifier, items: seq<Value>, n: nat)
    requires n <= |items|
    ensures Items(kind, items[..n]).Failure? ==> Items(kind, items) == Items(kind, items[..n])
    decreases |items| - n
  {
    if n < |items| {
      ItemFailureStays(kind, items, n + 1);
      assert items[..n + 1][..n] == items[..n];
    } else {
      assert items[..n] == items;
    }
  }

  lemma {:induction false} PayloadFailureStays(entries: seq<Entry>, n: nat)
    requires n <= |entries|
    ensures PayloadFields(entries[..n]).Failure? ==> PayloadFields(entries) == PayloadFields(entries[..n])
    decreases |entries| - n
  {
    if n < |entries| {
      PayloadFailureStays(entries, n + 1);
      assert entries[..n + 1][..n] == entries[..n];
    } else {
      assert entries[..n] == entries;
    }
  }
}
