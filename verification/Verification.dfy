/** verify_dataset: compares expected documents with stored ones over the union of their ids. */
module Verification {
  import opened Wrappers
  import opened Identity
  import opened Documents
  import opened Store
  import opened Convergence
  import opened Runs
  import opened Lexicographic

  datatype ExpectedDocument = ExpectedDocument(key: string, labelText: Option<string>)

  datatype StoredDocument = StoredDocument(id: DataId, labelText: Option<string>, complete: bool)

  type Expected = map<DataId, ExpectedDocument>

  type Stored = map<DataId, StoredDocument>

  datatype IssueKind = Missing | Unexpected | Incomplete | LabelMismatch

  /** `key` is absent for documents nobody declared. */
  datatype Issue = Issue(kind: IssueKind, id: DataId, key: Option<string>)

  datatype VerifyError =
    | BadIdentity(error: IdentityError)
    | DuplicateExpectation(first: string, second: string)
    | DuplicateStored(id: DataId)

  datatype Report = Report(checked: nat, issues: seq<Issue>)

  /** What is wrong with one id; nothing when it is expected, stored, complete and rightly labelled. */
  function IssuesAt(expected: Expected, stored: Stored, id: DataId): seq<Issue> {
    if id in expected && id !in stored then [Issue(Missing, id, Some(expected[id].key))]
    else if id !in expected && id in stored then [Issue(Unexpected, id, None)]
    else if id in expected && id in stored then
      (if stored[id].complete then [] else [Issue(Incomplete, id, Some(expected[id].key))]) +
      (if stored[id].labelText == expected[id].labelText then []
       else [Issue(LabelMismatch, id, Some(expected[id].key))])
    else []
  }

  function Collected(expected: Expected, stored: Stored, ids: seq<DataId>): seq<Issue> {
    if ids == [] then []
    else Collected(expected, stored, ids[..|ids| - 1]) + IssuesAt(expected, stored, ids[|ids| - 1])
  }

  /** Same identities, every row complete and carrying the expected label. */
  ghost predicate Clean(expected: Expected, stored: Stored) {
    && expected.Keys == stored.Keys
    && forall id :: id in stored ==> stored[id].complete && stored[id].labelText == expected[id].labelText
  }

  /** An issue that holds of its id, by kind. */
  predicate Justified(expected: Expected, stored: Stored, i: Issue) {
    match i.kind
    case Missing => i.id in expected && i.id !in stored && i.key == Some(expected[i.id].key)
    case Unexpected => i.id !in expected && i.id in stored && i.key == None
    case Incomplete => i.id in expected && i.id in stored && !stored[i.id].complete && i.key == Some(expected[i.id].key)
    case LabelMismatch =>
      && i.id in expected && i.id in stored && stored[i.id].labelText != expected[i.id].labelText
      && i.key == Some(expected[i.id].key)
  }

  lemma IssuesAtAreJustified(expected: Expected, stored: Stored, id: DataId, i: Issue)
    ensures i in IssuesAt(expected, stored, id) <==> i.id == id && Justified(expected, stored, i)
  {
  }

  lemma {:induction false} CollectedIsJustified(expected: Expected, stored: Stored, ids: seq<DataId>, i: Issue)
    ensures i in Collected(expected, stored, ids) <==> i.id in ids && Justified(expected, stored, i)
  {
    if ids != [] {
      var n := |ids| - 1;
      CollectedIsJustified(expected, stored, ids[..n], i);
      IssuesAtAreJustified(expected, stored, ids[n], i);
      assert ids == ids[..n] + [ids[n]];
    }
  }

  /** Issues come in id order, and an id's completion problem precedes its label problem. */
  ghost predicate InOrder(issues: seq<Issue>) {
    forall i, j :: 0 <= i < j < |issues| ==>
      Less(issues[i].id, issues[j].id) ||
      (issues[i].id == issues[j].id && issues[i].kind == Incomplete && issues[j].kind == LabelMismatch)
  }

  lemma InOrderJoined(a: seq<Issue>, b: seq<Issue>)
    requires InOrder(a) && InOrder(b)
    requires forall i, j :: 0 <= i < |a| && 0 <= j < |b| ==> Less(a[i].id, b[j].id)
    ensures InOrder(a + b)
  {
  }

  lemma {:induction false} CollectedIsInOrder(expected: Expected, stored: Stored, ids: seq<DataId>)
    requires Sorted(ids)
    ensures InOrder(Collected(expected, stored, ids))
  {
    if ids != [] {
      var n := |ids| - 1;
      var before, last := Collected(expected, stored, ids[..n]), IssuesAt(expected, stored, ids[n]);
      CollectedIsInOrder(expected, stored, ids[..n]);
      forall i, j | 0 <= i < |before| && 0 <= j < |last| ensures Less(before[i].id, last[j].id) {
        CollectedIsJustified(expected, stored, ids[..n], before[i]);
        IssuesAtAreJustified(expected, stored, ids[n], last[j]);
        assert before[i] in before && last[j] in last;
      }
      InOrderJoined(before, last);
    }
  }

  /** The report is empty exactly when the dataset is as expected. */
  lemma NoIssuesMeansClean(expected: Expected, stored: Stored, ids: seq<DataId>)
    requires forall id :: id in ids <==> id in expected.Keys + stored.Keys
    ensures Collected(expected, stored, ids) == [] <==> Clean(expected, stored)
  {
    var issues := Collected(expected, stored, ids);
    if issues == [] {
      forall id | id in expected.Keys + stored.Keys
        ensures id in expected && id in stored && stored[id].complete && stored[id].labelText == expected[id].labelText
      {
        assert id in ids;
        if id in expected {
          CollectedIsJustified(expected, stored, ids, Issue(Missing, id, Some(expected[id].key)));
          CollectedIsJustified(expected, stored, ids, Issue(Incomplete, id, Some(expected[id].key)));
          CollectedIsJustified(expected, stored, ids, Issue(LabelMismatch, id, Some(expected[id].key)));
        }
        CollectedIsJustified(expected, stored, ids, Issue(Unexpected, id, None));
      }
    } else if Clean(expected, stored) {
      CollectedIsJustified(expected, stored, ids, issues[0]);
      assert false;
    }
  }

  // ---------------------------------------------------------------------
  // Reading both sides
  // ---------------------------------------------------------------------

  ghost predicate Indexes(nfc: string -> string, c: Coordinates, expected: seq<ExpectedDocument>, byId: Expected) {
    && (forall i :: 0 <= i < |expected| ==>
          var r := DocumentDataId(nfc, c, expected[i].key);
          r.Success? && r.value in byId && byId[r.value] == expected[i])
    && (forall id :: id in byId ==> byId[id] in expected && DocumentDataId(nfc, c, byId[id].key) == Success(id))
    && Identified(nfc, c, expected)
  }

  /** Every expectation has an identity, and no two have the same. */
  ghost predicate Identified(nfc: string -> string, c: Coordinates, expected: seq<ExpectedDocument>) {
    && (forall i :: 0 <= i < |expected| ==> DocumentDataId(nfc, c, expected[i].key).Success?)
    && (forall i, j :: 0 <= i < j < |expected| ==>
          DocumentDataId(nfc, c, expected[i].key) != DocumentDataId(nfc, c, expected[j].key))
  }

  lemma IndexOneMore(nfc: string -> string, c: Coordinates, expected: seq<ExpectedDocument>, n: nat,
                     byId: Expected, id: DataId)
    requires n < |expected| && Indexes(nfc, c, expected[..n], byId)
    requires DocumentDataId(nfc, c, expected[n].key) == Success(id) && id !in byId
    ensures Indexes(nfc, c, expected[..n + 1], byId[id := expected[n]])
  {
    assert expected[..n + 1] == expected[..n] + [expected[n]];
    forall i | 0 <= i < n
      ensures var r := DocumentDataId(nfc, c, expected[i].key); r.Success? && r.value in byId && r.value != id
    {
      assert expected[..n][i] == expected[i];
    }
    forall i, j | 0 <= i < j < n
      ensures DocumentDataId(nfc, c, expected[i].key) != DocumentDataId(nfc, c, expected[j].key)
    {
      assert expected[..n][i] == expected[i] && expected[..n][j] == expected[j];
    }
  }

  method IndexExpected(nfc: string -> string, c: Coordinates, expected: seq<ExpectedDocument>)
    returns (r: Result<Expected, VerifyError>)
    ensures r.Success? ==> Indexes(nfc, c, expected, r.value) && |r.value| == |expected|
    ensures r.Failure? ==> !Identified(nfc, c, expected)
    ensures r.Failure? ==> match r.error
                           case BadIdentity(e) =>
                             exists i :: 0 <= i < |expected| && DocumentDataId(nfc, c, expected[i].key) == Failure(e)
                           case DuplicateExpectation(a, b) =>
                             exists i, j :: 0 <= i < j < |expected| && expected[i].key == a && expected[j].key == b &&
                                            DocumentDataId(nfc, c, a) == DocumentDataId(nfc, c, b)
                           case DuplicateStored(_) => false
  {
    var byId: Expected := map[];
    var n := 0;
    while n < |expected|
      invariant 0 <= n <= |expected| && |byId| == n
      invariant Indexes(nfc, c, expected[..n], byId)
    {
      var item := expected[n];
      var id := DocumentDataId(nfc, c, item.key);
      if id.Failure? {
        return Failure(BadIdentity(id.error));
      }
      if id.value in byId {
        ghost var i :| 0 <= i < n && expected[i] == byId[id.value];
        return Failure(DuplicateExpectation(byId[id.value].key, item.key));
      }
      IndexOneMore(nfc, c, expected, n, byId, id.value);
      byId := byId[id.value := item];
      n := n + 1;
    }
    assert expected[..n] == expected;
    return Success(byId);
  }

  ghost predicate Lists(listed: seq<StoredDocument>, byId: Stored) {
    && |byId| == |listed|
    && (forall i :: 0 <= i < |listed| ==> listed[i].id in byId && byId[listed[i].id] == listed[i])
    && (forall id :: id in byId ==> byId[id] in listed && byId[id].id == id)
  }

  ghost predicate DistinctIds(listed: seq<StoredDocument>) {
    forall i, j :: 0 <= i < j < |listed| ==> listed[i].id != listed[j].id
  }

  lemma ListOneMore(listed: seq<StoredDocument>, n: nat, byId: Stored)
    requires n < |listed| && Lists(listed[..n], byId) && DistinctIds(listed[..n]) && listed[n].id !in byId
    ensures Lists(listed[..n + 1], byId[listed[n].id := listed[n]]) && DistinctIds(listed[..n + 1])
  {
    assert listed[..n + 1] == listed[..n] + [listed[n]];
    forall i | 0 <= i < n ensures listed[i].id != listed[n].id {
      assert listed[..n][i].id in byId;
    }
  }

  /** The runtime must list each id once. */
  method IndexStored(listed: seq<StoredDocument>) returns (r: Result<Stored, VerifyError>)
    ensures r.Success? <==> DistinctIds(listed)
    ensures r.Success? ==> Lists(listed, r.value)
    ensures r.Failure? ==>
              exists i, j :: 0 <= i < j < |listed| && listed[i].id == listed[j].id &&
                             r.error == DuplicateStored(listed[i].id)
  {
    var byId: Stored := map[];
    var n := 0;
    while n < |listed|
      invariant 0 <= n <= |listed|
      invariant Lists(listed[..n], byId) && DistinctIds(listed[..n])
    {
      var d := listed[n];
      if d.id in byId {
        ghost var i :| 0 <= i < n && listed[i] == byId[d.id];
        assert listed[i].id == listed[n].id;
        return Failure(DuplicateStored(d.id));
      }
      ListOneMore(listed, n, byId);
      byId := byId[d.id := d];
      n := n + 1;
    }
    assert listed[..n] == listed;
    return Success(byId);
  }

  method VerifyDataset(nfc: string -> string, c: Coordinates, expected: seq<ExpectedDocument>,
                       listed: seq<StoredDocument>)
    returns (r: Result<Report, VerifyError>, ghost byId: Expected, ghost stored: Stored)
    ensures r.Success? <==> Identified(nfc, c, expected) && DistinctIds(listed)
    ensures r.Success? ==>
              && Indexes(nfc, c, expected, byId)
              && Lists(listed, stored)
              && r.value.checked == |expected|
              && InOrder(r.value.issues)
              && (forall i :: i in r.value.issues <==> Justified(byId, stored, i))
              && (r.value.issues == [] <==> Clean(byId, stored))
  {
    byId, stored := map[], map[];
    var e := IndexExpected(nfc, c, expected);
    if e.Failure? {
      return Failure(e.error), byId, stored;
    }
    var s := IndexStored(listed);
    if s.Failure? {
      return Failure(s.error), byId, stored;
    }
    byId, stored := e.value, s.value;
    var ids := Sort(e.value.Keys + s.value.Keys);
    var issues: seq<Issue> := [];
    var n := 0;
    while n < |ids|
      invariant 0 <= n <= |ids|
      invariant issues == Collected(e.value, s.value, ids[..n])
    {
      assert ids[..n + 1][..n] == ids[..n];
      issues := issues + IssuesAt(e.value, s.value, ids[n]);
      n := n + 1;
    }
    assert ids[..n] == ids;
    CollectedIsInOrder(e.value, s.value, ids);
    NoIssuesMeansClean(e.value, s.value, ids);
    forall i ensures i in issues <==> Justified(e.value, s.value, i) {
      CollectedIsJustified(e.value, s.value, ids, i);
    }
    return Success(Report(|e.value|, issues)), byId, stored;
  }

  // ---------------------------------------------------------------------
  // After a sync
  // ---------------------------------------------------------------------

  function Listing(store: Table): Stored {
    map id | id in store :: StoredDocument(id, store[id].payload.labelText, store[id].complete)
  }

  ghost predicate IsDeclaredId(c: Coordinates, id: DataId, declared: map<Key, Spec>) {
    exists k :: k in declared && id == DataIdOf(c, k)
  }

  /** The expectations are for exactly the declared documents, with their labels. */
  ghost predicate ForDeclared(c: Coordinates, expected: Expected, declared: map<Key, Spec>) {
    && (forall id :: id in expected <==> IsDeclaredId(c, id, declared))
    && (forall k :: k in declared ==>
          DataIdOf(c, k) in expected && expected[DataIdOf(c, k)].labelText == declared[k].labelText)
  }

  lemma CleanAfterSync(c: Coordinates, s: State, expected: Expected)
    requires Converged(c, s)
    requires ForDeclared(c, expected, s.declared)
    ensures Clean(expected, Listing(s.store))
  {
    forall id ensures id in s.store <==> id in expected {
      assert id in expected <==> IsDeclaredId(c, id, s.declared);
    }
    forall id | id in s.store ensures s.store[id].complete && s.store[id].payload.labelText == expected[id].labelText {
      StoredAsDeclared(c, s, expected, id);
    }
  }

  lemma StoredAsDeclared(c: Coordinates, s: State, expected: Expected, id: DataId)
    requires Converged(c, s) && ForDeclared(c, expected, s.declared) && id in s.store
    ensures id in expected && s.store[id].complete && s.store[id].payload.labelText == expected[id].labelText
  {
    var k :| k in s.declared && id == DataIdOf(c, k);
    assert Holds(s.store[id], s.declared[k], id, s.processing);
  }

  /** The expectation is for this declared key, in any spelling, and has its label. */
  predicate Expects(nfc: string -> string, item: ExpectedDocument, k: Key, declared: map<Key, Spec>) {
    && NormalizeExternalKey(nfc, item.key) == Success(k)
    && k in declared && item.labelText == declared[k].labelText
  }

  /** The list expects each declared document once and nothing else. */
  ghost predicate ExpectsDeclared(nfc: string -> string, expected: seq<ExpectedDocument>, declared: map<Key, Spec>) {
    && (forall i :: 0 <= i < |expected| ==> exists k :: Expects(nfc, expected[i], k, declared))
    && (forall k :: k in declared ==> exists i :: 0 <= i < |expected| && Expects(nfc, expected[i], k, declared))
    && (forall i, j :: 0 <= i < j < |expected| ==>
          NormalizeExternalKey(nfc, expected[i].key) != NormalizeExternalKey(nfc, expected[j].key))
  }

  lemma ExpectedIdentity(nfc: string -> string, c: Coordinates, item: ExpectedDocument, k: Key,
                         declared: map<Key, Spec>)
    requires ValidCoordinates(c) && Expects(nfc, item, k, declared)
    ensures DocumentDataId(nfc, c, item.key) == Success(DataIdOf(c, k))
  {
  }

  lemma DeclaredAreIdentified(nfc: string -> string, c: Coordinates, expected: seq<ExpectedDocument>,
                              declared: map<Key, Spec>)
    requires ValidCoordinates(c) && ExpectsDeclared(nfc, expected, declared)
    ensures Identified(nfc, c, expected)
  {
    forall i | 0 <= i < |expected| ensures DocumentDataId(nfc, c, expected[i].key).Success? {
      var k :| Expects(nfc, expected[i], k, declared);
      ExpectedIdentity(nfc, c, expected[i], k, declared);
    }
    forall i, j | 0 <= i < j < |expected|
      ensures DocumentDataId(nfc, c, expected[i].key) != DocumentDataId(nfc, c, expected[j].key)
    {
      var k :| Expects(nfc, expected[i], k, declared);
      var q :| Expects(nfc, expected[j], q, declared);
      ExpectedIdentity(nfc, c, expected[i], k, declared);
      ExpectedIdentity(nfc, c, expected[j], q, declared);
      if DataIdOf(c, k) == DataIdOf(c, q) {
        IdsSeparateKeys(c, k, q);
      }
    }
  }

  lemma DeclaredAreIndexed(nfc: string -> string, c: Coordinates, expected: seq<ExpectedDocument>,
                           declared: map<Key, Spec>, byId: Expected)
    requires ValidCoordinates(c) && ExpectsDeclared(nfc, expected, declared) && Indexes(nfc, c, expected, byId)
    ensures ForDeclared(c, byId, declared)
  {
    forall k | k in declared
      ensures DataIdOf(c, k) in byId && byId[DataIdOf(c, k)].labelText == declared[k].labelText
    {
      var i :| 0 <= i < |expected| && Expects(nfc, expected[i], k, declared);
      ExpectedIdentity(nfc, c, expected[i], k, declared);
    }
    forall id | id in byId ensures IsDeclaredId(c, id, declared) {
      var i :| 0 <= i < |expected| && expected[i] == byId[id];
      var k :| Expects(nfc, expected[i], k, declared);
      ExpectedIdentity(nfc, c, expected[i], k, declared);
    }
  }

  /** The runtime lists every row once, in any order. */
  ghost predicate ListsStore(listed: seq<StoredDocument>, store: Table) {
    && DistinctIds(listed)
    && (forall i :: 0 <= i < |listed| ==> listed[i].id in store && listed[i] == Listing(store)[listed[i].id])
    && (forall id :: id in store ==> exists i :: 0 <= i < |listed| && listed[i].id == id)
  }

  lemma StoreIsIndexed(listed: seq<StoredDocument>, store: Table, stored: Stored)
    requires ListsStore(listed, store) && Lists(listed, stored)
    ensures stored == Listing(store)
  {
    forall id ensures id in stored <==> id in store {
      if id in stored {
        var i :| 0 <= i < |listed| && listed[i] == stored[id];
      }
    }
    forall id | id in stored ensures stored[id] == Listing(store)[id] {
      var i :| 0 <= i < |listed| && listed[i] == stored[id];
    }
  }

  lemma IndexesAreClean(nfc: string -> string, c: Coordinates, s: State, expected: seq<ExpectedDocument>,
                        listed: seq<StoredDocument>, byId: Expected, stored: Stored)
    requires ValidCoordinates(c) && Converged(c, s)
    requires ExpectsDeclared(nfc, expected, s.declared) && ListsStore(listed, s.store)
    requires Indexes(nfc, c, expected, byId) && Lists(listed, stored)
    ensures Clean(byId, stored)
  {
    DeclaredAreIndexed(nfc, c, expected, s.declared, byId);
    StoreIsIndexed(listed, s.store, stored);
    CleanAfterSync(c, s, byId);
  }

  /**
   In the reference state, which a completed sync reaches, verify_dataset accepts a list of the
   declared documents and reports no issue, whatever spelling and order the two lists have.
   */
  method VerifyDeclared(nfc: string -> string, c: Coordinates, ghost s: State, expected: seq<ExpectedDocument>,
                        listed: seq<StoredDocument>)
    returns (r: Result<Report, VerifyError>)
    requires ValidCoordinates(c) && Converged(c, s)
    requires ExpectsDeclared(nfc, expected, s.declared) && ListsStore(listed, s.store)
    ensures r == Success(Report(|expected|, []))
  {
    ghost var byId, stored;
    DeclaredAreIdentified(nfc, c, expected, s.declared);
    r, byId, stored := VerifyDataset(nfc, c, expected, listed);
    IndexesAreClean(nfc, c, s, expected, listed, byId, stored);
  }
}
