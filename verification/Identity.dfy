/**
 Stable identity: the length-prefixed join, the preimage of a document's data id,
 the physical identity scope and the dataset lock scope.

 A data id is modelled by the text that uuid5 hashes (section 4.3 of RFC 4122,
 taken to be injective), so facts about ids are facts about CanonicalJoin.
 */
module Identity {
  import opened Wrappers

  type DataId = string

  const IDENTITY_SCHEMA_VERSION: nat := 2
  const PHYSICAL_SCOPE_VERSION := "cognee-user-tenant-v1"
  const NO_ACTIVE_TENANT := "none"
  const LOCK_SCOPE_PREFIX := "cogindex"
  const UUID_TEXT_LENGTH := 36

  // ---------------------------------------------------------------------
  // Decimal length prefixes
  // ---------------------------------------------------------------------

  function Digit(d: nat): (c: char)
    requires d < 10
    ensures '0' <= c <= '9' && DigitValue(c) == d
  {
    '0' + d as char
  }

  predicate IsDigit(c: char) {
    '0' <= c <= '9'
  }

  function DigitValue(c: char): nat
    requires IsDigit(c)
  {
    (c - '0') as nat
  }

  function Decimal(n: nat): (s: string)
    ensures s != "" && forall i :: 0 <= i < |s| ==> IsDigit(s[i])
  {
    if n < 10 then [Digit(n)] else Decimal(n / 10) + [Digit(n % 10)]
  }

  /** Reads digits up to the first colon; yields the number and what follows the colon. */
  function ReadLength(s: string, acc: nat): Option<(nat, string)> {
    if s == "" then None
    else if s[0] == ':' then Some((acc, s[1..]))
    else if IsDigit(s[0]) then ReadLength(s[1..], acc * 10 + DigitValue(s[0]))
    else None
  }

  lemma {:induction false} ReadDecimal(n: nat, rest: string)
    ensures ReadLength(Decimal(n) + rest, 0) == ReadLength(rest, n)
  {
    if n < 10 {
      assert (Decimal(n) + rest)[1..] == rest;
    } else {
      var tail := [Digit(n % 10)] + rest;
      assert Decimal(n) + rest == Decimal(n / 10) + tail;
      ReadDecimal(n / 10, tail);
      assert tail[1..] == rest;
    }
  }

  lemma ReadLengthShrinks(s: string, acc: nat)
    ensures ReadLength(s, acc).Some? ==> |ReadLength(s, acc).value.1| < |s|
  {
  }

  // ---------------------------------------------------------------------
  // The canonical join and its decoder
  // ---------------------------------------------------------------------

  function Netstring(segment: string): string {
    Decimal(|segment|) + ":" + segment
  }

  function CanonicalJoin(segments: seq<string>): string {
    if segments == [] then "" else Netstring(segments[0]) + CanonicalJoin(segments[1..])
  }

  /** A strict decoder: it accepts only texts that CanonicalJoin produces. */
  function Decode(s: string): Option<seq<string>>
    decreases |s|
  {
    if s == "" then Some([])
    else
      match ReadLength(s, 0)
      case None => None
      case Some((n, rest)) =>
        ReadLengthShrinks(s, 0);
        if n > |rest| || s != Netstring(rest[..n]) + rest[n..] then None
        else
          match Decode(rest[n..])
          case None => None
          case Some(segments) => Some([rest[..n]] + segments)
  }

  lemma {:induction false} DecodeJoin(segments: seq<string>)
    ensures Decode(CanonicalJoin(segments)) == Some(segments)
  {
    if segments != [] {
      var s, tail := segments[0], CanonicalJoin(segments[1..]);
      var text := CanonicalJoin(segments);
      assert text == Decimal(|s|) + (":" + (s + tail));
      ReadDecimal(|s|, ":" + (s + tail));
      assert (":" + (s + tail))[1..] == s + tail;
      assert (s + tail)[..|s|] == s && (s + tail)[|s|..] == tail;
      DecodeJoin(segments[1..]);
      assert [s] + segments[1..] == segments;
    }
  }

  lemma {:induction false} DecodeOnlyJoins(s: string, segments: seq<string>)
    requires Decode(s) == Some(segments)
    ensures s == CanonicalJoin(segments)
    decreases |s|
  {
    if s != "" {
      var (n, rest) := ReadLength(s, 0).value;
      ReadLengthShrinks(s, 0);
      DecodeOnlyJoins(rest[n..], segments[1..]);
    }
  }

  /** The decoder is the exact inverse of the join, so the join never identifies two lists. */
  lemma JoinIsUniquelyDecodable(s: string, segments: seq<string>)
    ensures Decode(s) == Some(segments) <==> s == CanonicalJoin(segments)
  {
    DecodeJoin(segments);
    if Decode(s) == Some(segments) {
      DecodeOnlyJoins(s, segments);
    }
  }

  lemma JoinIsInjective(a: seq<string>, b: seq<string>)
    requires CanonicalJoin(a) == CanonicalJoin(b)
    ensures a == b
  {
    DecodeJoin(a);
    DecodeJoin(b);
  }

  /** Joined text has no NUL where the segments have none, and is never empty. */
  lemma {:induction false} JoinIsText(segments: seq<string>)
    ensures segments != [] ==> CanonicalJoin(segments) != ""
    ensures '\0' in CanonicalJoin(segments) <==> exists i :: 0 <= i < |segments| && '\0' in segments[i]
  {
    if segments != [] {
      JoinIsText(segments[1..]);
      NetstringIsText(segments[0]);
      assert segments == [segments[0]] + segments[1..];
    }
  }

  lemma NetstringIsText(segment: string)
    ensures '\0' in Netstring(segment) <==> '\0' in segment
  {
    assert forall c :: c in Netstring(segment) <==> c in Decimal(|segment|) || c == ':' || c in segment;
  }

  // ---------------------------------------------------------------------
  // Document identity
  // ---------------------------------------------------------------------

  /** What identifies a dataset: the runtime key, the physical scope, the tenant and the name. */
  datatype Coordinates = Coordinates(runtimeKey: string, identityScope: string, tenant: string, dataset: string)

  datatype IdentityError = BadRuntimeKey | BadCoordinate | BadExternalKey

  predicate ValidCoordinate(value: string) {
    value != "" && '\0' !in value
  }

  predicate IsAlphanumeric(c: char) {
    'a' <= c <= 'z' || 'A' <= c <= 'Z' || IsDigit(c)
  }

  predicate ValidRuntimeKey(value: string) {
    && 1 <= |value| <= 128
    && IsAlphanumeric(value[0])
    && forall i :: 0 < i < |value| ==> IsAlphanumeric(value[i]) || value[i] in "._-"
  }

  function ValidCoordinates(c: Coordinates): bool {
    ValidRuntimeKey(c.runtimeKey) && ValidCoordinate(c.identityScope) && ValidCoordinate(c.tenant) &&
    ValidCoordinate(c.dataset)
  }

  /** The id that identity schema `version` gives to a key already in normal form. */
  function VersionedId(version: nat, c: Coordinates, key: string): DataId {
    CanonicalJoin([Decimal(version), c.runtimeKey, c.identityScope, c.tenant, c.dataset, key])
  }

  /** The current id of a key already in normal form. */
  function DataIdOf(c: Coordinates, key: string): DataId {
    VersionedId(IDENTITY_SCHEMA_VERSION, c, key)
  }

  /** Identity schema 1 had no physical scope segment. */
  function SchemaOneId(c: Coordinates, key: string): DataId {
    CanonicalJoin([Decimal(1), c.runtimeKey, c.tenant, c.dataset, key])
  }

  function NormalizeExternalKey(nfc: string -> string, key: string): Result<string, IdentityError> {
    if key == "" || '\0' in key then Failure(BadExternalKey) else Success(nfc(key))
  }

  function DocumentDataId(nfc: string -> string, c: Coordinates, key: string): Result<DataId, IdentityError> {
    if !ValidRuntimeKey(c.runtimeKey) then Failure(BadRuntimeKey)
    else if !ValidCoordinates(c) then Failure(BadCoordinate)
    else
      match NormalizeExternalKey(nfc, key)
      case Failure(e) => Failure(e)
      case Success(normal) => Success(DataIdOf(c, normal))
  }

  /** A runtime key, a coordinate or a document key is refused for these reasons and no others. */
  lemma IdentifiedExactly(nfc: string -> string, c: Coordinates, key: string)
    ensures DocumentDataId(nfc, c, key).Success? <==>
            && 1 <= |c.runtimeKey| <= 128 && c.runtimeKey[0] !in "._-"
            && (forall i :: 0 <= i < |c.runtimeKey| ==> IsAlphanumeric(c.runtimeKey[i]) || c.runtimeKey[i] in "._-")
            && (forall s :: s in [c.identityScope, c.tenant, c.dataset, key] ==> s != "" && '\0' !in s)
  {
    var texts := [c.identityScope, c.tenant, c.dataset, key];
    assert (forall s :: s in texts ==> ValidCoordinate(s)) <==>
           && ValidCoordinate(texts[0]) && ValidCoordinate(texts[1])
           && ValidCoordinate(texts[2]) && ValidCoordinate(texts[3]);
  }

  /** Keys have one id exactly when they are spellings of one normal form. */
  lemma SpellingsShareAnId(nfc: string -> string, c: Coordinates, a: string, b: string)
    requires DocumentDataId(nfc, c, a).Success? && DocumentDataId(nfc, c, b).Success?
    ensures DocumentDataId(nfc, c, a) == DocumentDataId(nfc, c, b) <==> nfc(a) == nfc(b)
  {
    if DocumentDataId(nfc, c, a) == DocumentDataId(nfc, c, b) {
      IdsSeparateKeys(c, nfc(a), nfc(b));
    }
  }

  lemma DecimalIsInjective(a: nat, b: nat)
    requires Decimal(a) == Decimal(b)
    ensures a == b
  {
    ReadDecimal(a, ":");
    ReadDecimal(b, ":");
  }

  lemma IdsSeparateKeys(c: Coordinates, a: string, b: string)
    requires DataIdOf(c, a) == DataIdOf(c, b)
    ensures a == b
  {
    var s := [Decimal(2), c.runtimeKey, c.identityScope, c.tenant, c.dataset, a];
    var t := [Decimal(2), c.runtimeKey, c.identityScope, c.tenant, c.dataset, b];
    JoinIsInjective(s, t);
    assert s[5] == t[5];
  }

  /** An id written by another identity schema is never the current id of any key. */
  lemma OldIdsAreForeign(c: Coordinates, prior: Coordinates, version: nat, a: string, b: string)
    ensures version != IDENTITY_SCHEMA_VERSION ==> VersionedId(version, prior, a) != DataIdOf(c, b)
    ensures SchemaOneId(prior, a) != DataIdOf(c, b)
  {
    var current := [Decimal(2), c.runtimeKey, c.identityScope, c.tenant, c.dataset, b];
    var versioned := [Decimal(version), prior.runtimeKey, prior.identityScope, prior.tenant, prior.dataset, a];
    var one := [Decimal(1), prior.runtimeKey, prior.tenant, prior.dataset, a];
    if VersionedId(version, prior, a) == DataIdOf(c, b) {
      JoinIsInjective(versioned, current);
      assert versioned[0] == current[0];
      DecimalIsInjective(version, 2);
    }
    if SchemaOneId(prior, a) == DataIdOf(c, b) {
      JoinIsInjective(one, current);
      assert false;
    }
  }

  // ---------------------------------------------------------------------
  // Physical scope and lock scope
  // ---------------------------------------------------------------------

  /** The acting Cognee user: its id and, when one is active, its tenant id. */
  datatype User = User(id: string, tenantId: Option<string>)

  predicate UuidText(s: string) {
    |s| == UUID_TEXT_LENGTH
  }

  predicate ValidUser(u: User) {
    UuidText(u.id) && (u.tenantId.Some? ==> UuidText(u.tenantId.value))
  }

  function PhysicalIdentityScope(u: User): string {
    CanonicalJoin([PHYSICAL_SCOPE_VERSION, u.id, if u.tenantId.None? then NO_ACTIVE_TENANT else u.tenantId.value])
  }

  function LockScope(c: Coordinates): string {
    CanonicalJoin([LOCK_SCOPE_PREFIX, c.identityScope, c.tenant, c.dataset])
  }

  /** The scope names the user and the active tenant; no tenant id reads as "no tenant". */
  lemma ScopeSeparatesUsers(u: User, v: User)
    requires ValidUser(u) && ValidUser(v)
    requires PhysicalIdentityScope(u) == PhysicalIdentityScope(v)
    ensures u == v
  {
    var s := [PHYSICAL_SCOPE_VERSION, u.id, if u.tenantId.None? then NO_ACTIVE_TENANT else u.tenantId.value];
    var t := [PHYSICAL_SCOPE_VERSION, v.id, if v.tenantId.None? then NO_ACTIVE_TENANT else v.tenantId.value];
    JoinIsInjective(s, t);
    assert s[1] == t[1] && s[2] == t[2];
    assert |NO_ACTIVE_TENANT| != UUID_TEXT_LENGTH;
  }

  /** Two datasets share a lock exactly when they share scope, tenant and name. */
  lemma LockScopeMeaning(c: Coordinates, d: Coordinates)
    ensures LockScope(c) == LockScope(d) <==>
            c.identityScope == d.identityScope && c.tenant == d.tenant && c.dataset == d.dataset
  {
    var s := [LOCK_SCOPE_PREFIX, c.identityScope, c.tenant, c.dataset];
    var t := [LOCK_SCOPE_PREFIX, d.identityScope, d.tenant, d.dataset];
    if LockScope(c) == LockScope(d) {
      JoinIsInjective(s, t);
      assert s[1] == t[1] && s[2] == t[2] && s[3] == t[3];
    }
  }

  /**
   Two writers that derive one data id act for the same user and active tenant on the same
   dataset and key, and therefore ask for the same lock scope.
   */
  lemma WritersOfOneIdShareALock(nfc: string -> string, c: Coordinates, d: Coordinates, u: User, v: User,
                                 a: string, b: string)
    requires ValidUser(u) && ValidUser(v)
    requires c.identityScope == PhysicalIdentityScope(u) && d.identityScope == PhysicalIdentityScope(v)
    requires DocumentDataId(nfc, c, a).Success?
    requires DocumentDataId(nfc, c, a) == DocumentDataId(nfc, d, b)
    ensures c == d && u == v && nfc(a) == nfc(b)
    ensures LockScope(c) == LockScope(d)
  {
    var s := [Decimal(2), c.runtimeKey, c.identityScope, c.tenant, c.dataset, nfc(a)];
    var t := [Decimal(2), d.runtimeKey, d.identityScope, d.tenant, d.dataset, nfc(b)];
    JoinIsInjective(s, t);
    assert s[1] == t[1] && s[2] == t[2] && s[3] == t[3] && s[4] == t[4] && s[5] == t[5];
    ScopeSeparatesUsers(u, v);
  }
}
