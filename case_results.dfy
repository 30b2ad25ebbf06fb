/**
 * Per-case results and their reconciliation (lib/testrail.ts, getCaseResultsJson and
 * getResultsPayload).
 *
 * The result map holds, for every case id seen so far in a run, whether every scenario that
 * exercised it passed, and the comments of all those scenarios in the order they arrived.
 */
module CaseResults {

  /** The accumulated outcome of one case. */
  datatype CaseResult = CaseResult(passed: bool, comment: string)

  /** The result map; JavaScript object keys that are case ids, modelled as numbers. */
  type Cases = map<nat, CaseResult>

  /** What separates two scenarios' comments on one case. */
  const Separator: string := "\n\n"

  // ---------------------------------------------------------------------------------------
  // Reconciliation of one scenario
  // ---------------------------------------------------------------------------------------

  /** The result of a case already in the map after one more scenario (the sticky-failure rule). */
  function Merge(previous: CaseResult, passed: bool, comment: string): (r: CaseResult)
    ensures r.passed == (previous.passed && passed)
    ensures r.comment == previous.comment + Separator + comment
  {
    if passed && !previous.passed then CaseResult(false, previous.comment + "\n\n" + comment)
    else CaseResult(passed, previous.comment + "\n\n" + comment)
  }

  /** The map after one case id of a scenario is recorded. */
  function ReconcileOne(cases: Cases, id: nat, passed: bool, comment: string): Cases {
    cases[id := if id in cases then Merge(cases[id], passed, comment) else CaseResult(passed, comment)]
  }

  /** The map after every case id of a scenario is recorded, in order. */
  function Reconciled(cases: Cases, ids: seq<nat>, passed: bool, comment: string): Cases
    decreases |ids|
  {
    if ids == [] then cases
    else ReconcileOne(Reconciled(cases, ids[..|ids| - 1], passed, comment), ids[|ids| - 1], passed, comment)
  }

  /**
   * getCaseResultsJson: records one scenario's outcome for each of its case ids. The source
   * updates the caller's object in place and returns it; here the updated map is returned.
   */
  method Reconcile(cases: Cases, caseIds: seq<nat>, passed: bool, comment: string) returns (updated: Cases)
    ensures updated == Reconciled(cases, caseIds, passed, comment)
  {
    updated := cases;
    for i := 0 to |caseIds|
      invariant updated == Reconciled(cases, caseIds[..i], passed, comment)
    {
      assert caseIds[..i + 1][..i] == caseIds[..i];
      var caseId := caseIds[i];
      var caseResult: CaseResult;
      if caseId in updated {
        var previous := updated[caseId];
        if passed && !previous.passed {
          caseResult := CaseResult(false, previous.comment + "\n\n" + comment);
        } else {
          caseResult := CaseResult(passed, previous.comment + "\n\n" + comment);
        }
      } else {
        caseResult := CaseResult(passed, comment);
      }
      updated := updated[caseId := caseResult];
    }
    assert caseIds[..|caseIds|] == caseIds;
  }

  /** How often `k` occurs in `ids`. */
  function Count(ids: seq<nat>, k: nat): (n: nat)
    ensures n > 0 <==> k in ids
  {
    if ids == [] then 0
    else Count(ids[..|ids| - 1], k) + (if ids[|ids| - 1] == k then 1 else 0)
  }

  /** `n` copies of `piece`, concatenated. */
  function Repeat(piece: string, n: nat): string {
    if n == 0 then "" else Repeat(piece, n - 1) + piece
  }

  /** `n` copies of a piece, then one more, are `n + 1` copies. */
  lemma RepeatOneMore(prefix: string, piece: string, n: nat)
    ensures prefix + Repeat(piece, n) + piece == prefix + Repeat(piece, n + 1)
  {
    assert Repeat(piece, n + 1) == Repeat(piece, n) + piece;
  }

  /** The keys a scenario leaves in the map, and the entries it does not touch. */
  lemma {:induction false} ReconciledMembers(cases: Cases, ids: seq<nat>, passed: bool, comment: string, k: nat)
    ensures k in Reconciled(cases, ids, passed, comment) <==> k in cases || k in ids
    ensures k !in ids && k in cases ==> Reconciled(cases, ids, passed, comment)[k] == cases[k]
    decreases |ids|
  {
    if ids != [] {
      var init := ids[..|ids| - 1];
      assert ids == init + [ids[|ids| - 1]];
      ReconciledMembers(cases, init, passed, comment, k);
    }
  }

  /** The entry of a named id that was already in the map. */
  lemma {:induction false} ReconciledNamedKnown(cases: Cases, ids: seq<nat>, passed: bool, comment: string, k: nat)
    requires k in ids && k in cases
    ensures k in Reconciled(cases, ids, passed, comment)
    ensures Reconciled(cases, ids, passed, comment)[k] ==
      CaseResult(cases[k].passed && passed, cases[k].comment + Repeat(Separator + comment, Count(ids, k)))
    decreases |ids|
  {
    var init := ids[..|ids| - 1];
    var last := ids[|ids| - 1];
    assert ids == init + [last];
    ReconciledMembers(cases, ids, passed, comment, k);
    ReconciledMembers(cases, init, passed, comment, k);
    if k in init {
      ReconciledNamedKnown(cases, init, passed, comment, k);
      if last == k {
        RepeatOneMore(cases[k].comment, Separator + comment, Count(init, k));
      }
    } else {
      assert last == k && Count(init, k) == 0;
      RepeatOneMore(cases[k].comment, Separator + comment, 0);
    }
  }

  /** The entry of a named id that was not in the map. */
  lemma {:induction false} ReconciledNamedNew(cases: Cases, ids: seq<nat>, passed: bool, comment: string, k: nat)
    requires k in ids && k !in cases
    ensures k in Reconciled(cases, ids, passed, comment)
    ensures Reconciled(cases, ids, passed, comment)[k] ==
      CaseResult(passed, comment + Repeat(Separator + comment, Count(ids, k) - 1))
    decreases |ids|
  {
    var init := ids[..|ids| - 1];
    var last := ids[|ids| - 1];
    assert ids == init + [last];
    ReconciledMembers(cases, ids, passed, comment, k);
    ReconciledMembers(cases, init, passed, comment, k);
    if k in init {
      ReconciledNamedNew(cases, init, passed, comment, k);
      if last == k {
        RepeatOneMore(comment, Separator + comment, Count(init, k) - 1);
      }
    } else {
      assert last == k && Count(init, k) == 0;
    }
  }

  /**
   * One scenario changes exactly the entries of its ids: an id new to the map gets the
   * scenario's outcome and comment, an id already there keeps a failure and gets the comment
   * appended, once per occurrence of the id among the scenario's ids.
   */
  lemma ReconciledEntry(cases: Cases, ids: seq<nat>, passed: bool, comment: string, k: nat)
    ensures var r := Reconciled(cases, ids, passed, comment);
      && (k in r <==> k in cases || k in ids)
      && (k !in ids && k in cases ==> r[k] == cases[k])
      && (k in ids && k in cases ==>
            r[k] == CaseResult(cases[k].passed && passed, cases[k].comment + Repeat(Separator + comment, Count(ids, k))))
      && (k in ids && k !in cases ==>
            r[k] == CaseResult(passed, comment + Repeat(Separator + comment, Count(ids, k) - 1)))
  {
    ReconciledMembers(cases, ids, passed, comment, k);
    if k in ids && k in cases {
      ReconciledNamedKnown(cases, ids, passed, comment, k);
    } else if k in ids {
      ReconciledNamedNew(cases, ids, passed, comment, k);
    }
  }

  /** The keys after a scenario are the keys before it and the scenario's ids. */
  lemma ReconciledKeys(cases: Cases, ids: seq<nat>, passed: bool, comment: string)
    ensures Reconciled(cases, ids, passed, comment).Keys == cases.Keys + (set k | k in ids)
  {
    forall k ensures k in Reconciled(cases, ids, passed, comment) <==> k in cases || k in ids {
      ReconciledEntry(cases, ids, passed, comment, k);
    }
  }

  /** A failed case stays failed, whatever later scenarios report. */
  lemma StickyFailure(cases: Cases, ids: seq<nat>, passed: bool, comment: string, k: nat)
    requires k in cases && !cases[k].passed
    ensures k in Reconciled(cases, ids, passed, comment)
    ensures !Reconciled(cases, ids, passed, comment)[k].passed
  {
    ReconciledEntry(cases, ids, passed, comment, k);
  }

  // ---------------------------------------------------------------------------------------
  // Reconciliation of a sequence of scenarios
  // ---------------------------------------------------------------------------------------

  /** What one scenario contributes: its case ids, whether it passed, and its comment. */
  datatype Contribution = Contribution(caseIds: seq<nat>, passed: bool, comment: string)

  /** The map after the scenarios `cs`, one after another. */
  function Replay(cases: Cases, cs: seq<Contribution>): Cases
    decreases |cs|
  {
    if cs == [] then cases
    else
      var c := cs[|cs| - 1];
      Reconciled(Replay(cases, cs[..|cs| - 1]), c.caseIds, c.passed, c.comment)
  }

  /** Some scenario of `cs` names case `k`. */
  predicate Contributes(cs: seq<Contribution>, k: nat) {
    exists i :: 0 <= i < |cs| && k in cs[i].caseIds
  }

  /** Every scenario of `cs` that names case `k` passed. */
  predicate AllPassed(cs: seq<Contribution>, k: nat) {
    forall i :: 0 <= i < |cs| && k in cs[i].caseIds ==> cs[i].passed
  }

  /** `n` copies of `s`. */
  function Copies(s: string, n: nat): seq<string> {
    seq(n, _ => s)
  }

  /** The comments the scenarios `cs` contribute to case `k`, in arrival order. */
  function ContributedComments(cs: seq<Contribution>, k: nat): seq<string>
    decreases |cs|
  {
    if cs == [] then []
    else
      var c := cs[|cs| - 1];
      ContributedComments(cs[..|cs| - 1], k) + Copies(c.comment, Count(c.caseIds, k))
  }

  /** Every comment case `k` has received: the one already in the map, then the contributed ones. */
  function Trail(cases: Cases, cs: seq<Contribution>, k: nat): seq<string> {
    (if k in cases then [cases[k].comment] else []) + ContributedComments(cs, k)
  }

  /** The parts joined by blank lines. */
  function Join(parts: seq<string>): string
    requires |parts| >= 1
  {
    if |parts| == 1 then parts[0] else Join(parts[..|parts| - 1]) + Separator + parts[|parts| - 1]
  }

  lemma {:induction false} JoinCopies(parts: seq<string>, s: string, n: nat)
    requires |parts| >= 1
    ensures Join(parts + Copies(s, n)) == Join(parts) + Repeat(Separator + s, n)
    decreases n
  {
    if n == 0 {
      assert parts + Copies(s, 0) == parts;
    } else {
      JoinCopies(parts, s, n - 1);
      var longer := parts + Copies(s, n);
      assert longer[..|longer| - 1] == parts + Copies(s, n - 1);
    }
  }

  lemma {:induction false} ContributedCommentsCount(cs: seq<Contribution>, k: nat)
    ensures |ContributedComments(cs, k)| > 0 <==> Contributes(cs, k)
    decreases |cs|
  {
    if cs != [] {
      var init := cs[..|cs| - 1];
      ContributedCommentsCount(init, k);
      if Contributes(cs, k) && !Contributes(init, k) {
        var i :| 0 <= i < |cs| && k in cs[i].caseIds;
        assert i == |cs| - 1;
      }
      if Contributes(init, k) {
        var i :| 0 <= i < |init| && k in init[i].caseIds;
        assert k in cs[i].caseIds;
      }
    }
  }

  /** What ReplayEntry states about case `k` after the scenarios `cs`. */
  ghost predicate EntryFacts(cases: Cases, cs: seq<Contribution>, k: nat) {
    && (k in Replay(cases, cs) <==> k in cases || Contributes(cs, k))
    && (k in Replay(cases, cs) <==> |Trail(cases, cs, k)| >= 1)
    && (k in Replay(cases, cs) ==>
          && Replay(cases, cs)[k].passed == ((k in cases ==> cases[k].passed) && AllPassed(cs, k))
          && Replay(cases, cs)[k].comment == Join(Trail(cases, cs, k)))
  }

  lemma ContributesStep(cs: seq<Contribution>, k: nat)
    requires cs != []
    ensures Contributes(cs, k) <==> Contributes(cs[..|cs| - 1], k) || k in cs[|cs| - 1].caseIds
    ensures AllPassed(cs, k) <==> AllPassed(cs[..|cs| - 1], k) && (k in cs[|cs| - 1].caseIds ==> cs[|cs| - 1].passed)
  {
    var init := cs[..|cs| - 1];
    assert forall i :: 0 <= i < |init| ==> cs[i] == init[i];
    if Contributes(init, k) {
      var i :| 0 <= i < |init| && k in init[i].caseIds;
      assert k in cs[i].caseIds;
    }
  }

  lemma TrailStep(cases: Cases, cs: seq<Contribution>, k: nat)
    requires cs != []
    ensures var c := cs[|cs| - 1];
      Trail(cases, cs, k) == Trail(cases, cs[..|cs| - 1], k) + Copies(c.comment, Count(c.caseIds, k))
  {
  }

  /** Case `k` was already in the map and the last scenario `c` names it. */
  lemma StepNamedKnown(cases: Cases, cs: seq<Contribution>, before: Cases, k: nat)
    requires cs != [] && k in cs[|cs| - 1].caseIds && k in before
    requires |Trail(cases, cs[..|cs| - 1], k)| >= 1
    requires before[k].passed == ((k in cases ==> cases[k].passed) && AllPassed(cs[..|cs| - 1], k))
    requires before[k].comment == Join(Trail(cases, cs[..|cs| - 1], k))
    ensures var c := cs[|cs| - 1];
      var after := Reconciled(before, c.caseIds, c.passed, c.comment);
      && k in after
      && |Trail(cases, cs, k)| >= 1
      && after[k].passed == ((k in cases ==> cases[k].passed) && AllPassed(cs, k))
      && after[k].comment == Join(Trail(cases, cs, k))
  {
    var c := cs[|cs| - 1];
    ReconciledEntry(before, c.caseIds, c.passed, c.comment, k);
    ContributesStep(cs, k);
    TrailStep(cases, cs, k);
    JoinCopies(Trail(cases, cs[..|cs| - 1], k), c.comment, Count(c.caseIds, k));
  }

  /** Case `k` was not in the map and the last scenario `c` names it. */
  lemma StepNamedNew(cases: Cases, cs: seq<Contribution>, before: Cases, k: nat)
    requires cs != [] && k in cs[|cs| - 1].caseIds && k !in before
    requires Trail(cases, cs[..|cs| - 1], k) == [] && AllPassed(cs[..|cs| - 1], k)
    ensures var c := cs[|cs| - 1];
      var after := Reconciled(before, c.caseIds, c.passed, c.comment);
      && k in after
      && |Trail(cases, cs, k)| >= 1
      && after[k].passed == AllPassed(cs, k)
      && after[k].comment == Join(Trail(cases, cs, k))
  {
    var c := cs[|cs| - 1];
    var n := Count(c.caseIds, k);
    var piece := Separator + c.comment;
    assert Reconciled(before, c.caseIds, c.passed, c.comment)[k] == CaseResult(c.passed, c.comment + Repeat(piece, n - 1)) by {
      ReconciledEntry(before, c.caseIds, c.passed, c.comment, k);
    }
    assert AllPassed(cs, k) == c.passed by {
      ContributesStep(cs, k);
    }
    assert Trail(cases, cs, k) == [c.comment] + Copies(c.comment, n - 1) by {
      TrailStep(cases, cs, k);
      assert [c.comment] + Copies(c.comment, n - 1) == Copies(c.comment, n);
    }
    assert Join([c.comment] + Copies(c.comment, n - 1)) == c.comment + Repeat(piece, n - 1) by {
      JoinCopies([c.comment], c.comment, n - 1);
    }
  }

  /** The last scenario `c` does not name case `k`. */
  lemma StepUnnamed(cases: Cases, cs: seq<Contribution>, before: Cases, k: nat)
    requires cs != [] && k !in cs[|cs| - 1].caseIds
    ensures var c := cs[|cs| - 1];
      var after := Reconciled(before, c.caseIds, c.passed, c.comment);
      && (k in after <==> k in before)
      && (k in after ==> after[k] == before[k])
      && Trail(cases, cs, k) == Trail(cases, cs[..|cs| - 1], k)
      && AllPassed(cs, k) == AllPassed(cs[..|cs| - 1], k)
  {
    var c := cs[|cs| - 1];
    ReconciledEntry(before, c.caseIds, c.passed, c.comment, k);
    ContributesStep(cs, k);
    TrailStep(cases, cs, k);
    assert Copies(c.comment, 0) == [];
  }

  /** One more scenario keeps EntryFacts. */
  lemma ReplayStep(cases: Cases, cs: seq<Contribution>, k: nat)
    requires cs != []
    requires EntryFacts(cases, cs[..|cs| - 1], k)
    ensures EntryFacts(cases, cs, k)
  {
    var init := cs[..|cs| - 1];
    var c := cs[|cs| - 1];
    var before := Replay(cases, init);
    assert Replay(cases, cs) == Reconciled(before, c.caseIds, c.passed, c.comment);
    ReconciledEntry(before, c.caseIds, c.passed, c.comment, k);
    ContributesStep(cs, k);
    TrailStep(cases, cs, k);
    if k !in c.caseIds {
      StepUnnamed(cases, cs, before, k);
    } else if k in before {
      StepNamedKnown(cases, cs, before, k);
    } else {
      StepNamedNew(cases, cs, before, k);
    }
  }

  /**
   * After any sequence of scenarios, a case is in the map exactly when it was there before or
   * some scenario named it; it is passed exactly when it was not failed before and every
   * scenario naming it passed (order does not matter); and its comment is every comment it
   * received, in arrival order, joined by blank lines.
   */
  lemma {:induction false} ReplayEntry(cases: Cases, cs: seq<Contribution>, k: nat)
    ensures k in Replay(cases, cs) <==> k in cases || Contributes(cs, k)
    ensures k in Replay(cases, cs) <==> |Trail(cases, cs, k)| >= 1
    ensures k in Replay(cases, cs) ==>
      && Replay(cases, cs)[k].passed == ((k in cases ==> cases[k].passed) && AllPassed(cs, k))
      && Replay(cases, cs)[k].comment == Join(Trail(cases, cs, k))
    decreases |cs|
  {
    if cs == [] {
      assert Trail(cases, cs, k) == if k in cases then [cases[k].comment] else [];
    } else {
      ReplayEntry(cases, cs[..|cs| - 1], k);
      ReplayStep(cases, cs, k);
    }
  }

  /**
   * Starting from the empty map that run setup writes, the map holds exactly the case ids the
   * scenarios named, and nothing else.
   */
  lemma KeysComeFromScenarios(cs: seq<Contribution>)
    ensures forall k :: k in Replay(map[], cs) <==> Contributes(cs, k)
  {
    forall k ensures k in Replay(map[], cs) <==> Contributes(cs, k) {
      ReplayEntry(map[], cs, k);
    }
  }

  // ---------------------------------------------------------------------------------------
  // Key order and the bulk payload
  // ---------------------------------------------------------------------------------------

  /** `m` is the least element of `s`. */
  ghost predicate IsLeast(m: nat, s: set<nat>) {
    m in s && forall j :: j in s ==> m <= j
  }

  lemma {:induction false} MinimumExists(s: set<nat>)
    requires s != {}
    ensures exists m :: IsLeast(m, s)
    decreases s
  {
    var x :| x in s;
    var rest := s - {x};
    if rest == {} {
      forall j | j in s ensures x <= j {
        assert j !in rest;
      }
      assert IsLeast(x, s);
    } else {
      MinimumExists(rest);
      var m :| IsLeast(m, rest);
      if x < m {
        forall j | j in s ensures x <= j {
          if j != x { assert j in rest; }
        }
        assert IsLeast(x, s);
      } else {
        forall j | j in s ensures m <= j {
          if j != x { assert j in rest; }
        }
        assert IsLeast(m, s);
      }
    }
  }

  /**
   * `Object.keys`: the array-index keys of an object (integers below 2^32 - 1) come out in
   * ascending numeric order; here every case id is listed that way.
   */
  function ObjectKeys(keys: set<nat>): (order: seq<nat>)
    ensures forall i, j :: 0 <= i < j < |order| ==> order[i] < order[j]
    ensures forall k :: k in order <==> k in keys
    decreases keys
  {
    if keys == {} then []
    else
      MinimumExists(keys);
      var least :| least in keys && forall j :: j in keys ==> least <= j;
      [least] + ObjectKeys(keys - {least})
  }

  /** `Object.keys` lists every key once. */
  lemma {:induction false} ObjectKeysCount(keys: set<nat>)
    ensures |ObjectKeys(keys)| == |keys|
    decreases keys
  {
    if keys != {} {
      var order := ObjectKeys(keys);
      var least := order[0];
      assert order == [least] + ObjectKeys(keys - {least});
      ObjectKeysCount(keys - {least});
    }
  }

  /** `status_id` of a result: 1 (Passed) or 5 (Failed). */
  function StatusId(passed: bool): (status: int)
    ensures status == 1 <==> passed
    ensures status == 5 <==> !passed
  {
    if passed then 1 else 5
  }

  /** One entry of the bulk payload. */
  datatype TestResult = TestResult(caseId: nat, statusId: int, comment: string)

  /** The bulk payload `{ results }`. */
  datatype Results = Results(results: seq<TestResult>)

  /**
   * The entries of the bulk payload for `cases`: in ascending case id, with status 1 for a
   * passed case and 5 for a failed one, and the case's comment.
   */
  function ResultEntries(cases: Cases): (entries: seq<TestResult>)
    ensures forall i, j :: 0 <= i < j < |entries| ==> entries[i].caseId < entries[j].caseId
    ensures forall i :: 0 <= i < |entries| ==>
      && entries[i].caseId in cases
      && (entries[i].statusId == 1 <==> cases[entries[i].caseId].passed)
      && (entries[i].statusId == 5 <==> !cases[entries[i].caseId].passed)
      && entries[i].comment == cases[entries[i].caseId].comment
  {
    var keys := ObjectKeys(cases.Keys);
    seq(|keys|, i requires 0 <= i < |keys| =>
      TestResult(keys[i], StatusId(cases[keys[i]].passed), cases[keys[i]].comment))
  }

  /** getResultsPayload: builds the bulk payload entry by entry in key order. */
  method ResultsPayload(cases: Cases) returns (payload: Results)
    ensures payload == Results(ResultEntries(cases))
  {
    var caseIds := ObjectKeys(cases.Keys);
    var testResults: seq<TestResult> := [];
    for i := 0 to |caseIds|
      invariant |testResults| == i
      invariant forall j :: 0 <= j < i ==>
        testResults[j] == TestResult(caseIds[j], StatusId(cases[caseIds[j]].passed), cases[caseIds[j]].comment)
    {
      var caseId := caseIds[i];
      var caseResult := cases[caseId];
      var testResult := TestResult(caseId, if caseResult.passed then 1 else 5, caseResult.comment);
      testResults := testResults + [testResult];
    }
    payload := Results(testResults);
  }

  /** The bulk payload has exactly one result per case of the map. */
  lemma ResultEntriesCoverCases(cases: Cases)
    ensures |ResultEntries(cases)| == |cases.Keys|
    ensures forall k :: k in cases <==>
      exists i :: 0 <= i < |ResultEntries(cases)| && ResultEntries(cases)[i].caseId == k
  {
    var keys := ObjectKeys(cases.Keys);
    var entries := ResultEntries(cases);
    ObjectKeysCount(cases.Keys);
    forall k | k in cases ensures exists i :: 0 <= i < |entries| && entries[i].caseId == k {
      assert k in keys;
      var i :| 0 <= i < |keys| && keys[i] == k;
      assert entries[i].caseId == k;
    }
  }
}
