/** Candidate reports in the key-value store (store.go): one key per node,
    bound to a session, listed as a snapshot. */
module ReportStore {
  import opened Candidates
  import opened Iteration
  import opened Options
  import Text

  /** A stored value: a report that decodes, held by a session ("" if none),
      or bytes that do not decode. */
  datatype Entry = Stored(session: string, report: MongoReport) | Undecodable(session: string)

  type Kv = map<string, Entry>

  function KeyFor(path: string, id: string): string {
    path + "/" + id
  }

  /** Under the report path every report sits under its own node name. */
  ghost predicate Keyed(path: string, kv: Kv) {
    forall k | k in kv && path <= k && kv[k].Stored? :: k == KeyFor(path, kv[k].report.nodeName)
  }

  /** The decoded values under the path, in the given key order. */
  ghost function Decoded(path: string, kv: Kv, order: seq<string>): seq<MongoReport> {
    if order == [] then []
    else
      var k := order[|order| - 1];
      Decoded(path, kv, order[..|order| - 1]) +
        if k in kv && path <= k && kv[k].Stored? then [kv[k].report] else []
  }

  ghost predicate IsSnapshot(path: string, kv: Kv, items: seq<MongoReport>) {
    exists order :: KeyOrder(kv, order) && items == Decoded(path, kv, order)
  }

  /** In any order of distinct keys, every decoded report is the value of its
      own key, and no name occurs twice. */
  lemma {:induction false} DecodedNamesAreDistinct(path: string, kv: Kv, order: seq<string>)
    requires Keyed(path, kv)
    requires forall i, j | 0 <= i < j < |order| :: order[i] != order[j]
    ensures DistinctNames(Decoded(path, kv, order))
    ensures forall r | r in Decoded(path, kv, order) ::
              var k := KeyFor(path, r.nodeName); k in order && k in kv && kv[k].Stored? && kv[k].report == r
  {
    if order != [] {
      var front, k := order[..|order| - 1], order[|order| - 1];
      DecodedNamesAreDistinct(path, kv, front);
      assert k !in front;
      if k in kv && path <= k && kv[k].Stored? {
        var items := Decoded(path, kv, front);
        forall i | 0 <= i < |items| ensures items[i].nodeName != kv[k].report.nodeName {
          assert items[i] in items;
        }
      }
    }
  }

  /** Every snapshot of a keyed store has pairwise distinct node names, and
      every report in it is the one stored for its node. */
  lemma SnapshotNamesAreDistinct(path: string, kv: Kv, items: seq<MongoReport>)
    requires Keyed(path, kv) && IsSnapshot(path, kv, items)
    ensures DistinctNames(items)
    ensures forall r | r in items ::
              var k := KeyFor(path, r.nodeName); k in kv && kv[k].Stored? && kv[k].report == r
    ensures forall k | k in kv && path <= k && kv[k].Stored? :: kv[k].report in items
  {
    var order :| KeyOrder(kv, order) && items == Decoded(path, kv, order);
    DecodedNamesAreDistinct(path, kv, order);
    forall k | k in kv && path <= k && kv[k].Stored? ensures kv[k].report in items {
      NothingIsLeftOut(path, kv, order, k);
    }
  }

  /** What other parties do to the store: nodes publish, sessions die. */
  datatype StoreEvent = Publish(report: MongoReport, session: string) | Expire(session: string)

  /** PutCandidateReport under the node's own name; a key locked by another
      session is not acquired. */
  function Put(path: string, kv: Kv, id: string, report: MongoReport, session: string): Kv {
    var k := KeyFor(path, id);
    if k in kv && kv[k].session != "" && kv[k].session != session then kv
    else kv[k := Stored(session, report)]
  }

  /** A session with delete behaviour takes its keys along. */
  function Expired(kv: Kv, session: string): Kv {
    map k | k in kv && kv[k].session != session :: kv[k]
  }

  function After(path: string, es: seq<StoreEvent>): Kv {
    if es == [] then map[]
    else
      var kv := After(path, es[..|es| - 1]);
      match es[|es| - 1]
      case Publish(r, s) => Put(path, kv, r.nodeName, r, s)
      case Expire(s) => Expired(kv, s)
  }

  /** In every run of publications and session losses, every snapshot names
      each node at most once; so Less is total on it. */
  lemma {:induction false} SnapshotsAreDistinct(path: string, es: seq<StoreEvent>, items: seq<MongoReport>)
    requires IsSnapshot(path, After(path, es), items)
    ensures DistinctNames(items) && Ordering.TotalOn(Newer, items)
  {
    RunsStayKeyed(path, es);
    SnapshotNamesAreDistinct(path, After(path, es), items);
    NewerIsTotal(items);
  }

  lemma {:induction false} RunsStayKeyed(path: string, es: seq<StoreEvent>)
    ensures Keyed(path, After(path, es))
  {
    if es != [] {
      RunsStayKeyed(path, es[..|es| - 1]);
    }
  }

  /** Publishing under an id other than the report's own name can put one name
      into a snapshot twice. */
  lemma ForeignIdBreaksDistinctness(path: string, r: MongoReport, id: string, session: string)
    requires id != r.nodeName
    ensures var kv := Put(path, Put(path, map[], r.nodeName, r, session), id, r, session);
      exists items :: IsSnapshot(path, kv, items) && !DistinctNames(items)
  {
    var a, b := KeyFor(path, r.nodeName), KeyFor(path, id);
    var kv := Put(path, Put(path, map[], r.nodeName, r, session), id, r, session);
    assert a[|path| + 1..] == r.nodeName && b[|path| + 1..] == id;
    assert path <= a && path <= b;
    var order := [a, b];
    assert kv.Keys == {a, b};
    assert KeyOrder(kv, order);
    assert order[..1] == [a] && order[..0] == [];
    assert [a][..0] == [];
    assert Decoded(path, kv, [a]) == [r];
    assert Decoded(path, kv, order) == [r, r];
    assert !DistinctNames([r, r]) by { assert [r, r][0].nodeName == [r, r][1].nodeName; }
    assert IsSnapshot(path, kv, [r, r]);
  }

  /** The session Consul makes for a node's key, named after it. */
  function SessionOf(r: MongoReport): (id: string)
    ensures id != ""
  {
    "session-" + r.nodeName
  }

  /** Every node publishes once, under a session of its own. */
  function PublishAll(rs: seq<MongoReport>): seq<StoreEvent> {
    seq(|rs|, i requires 0 <= i < |rs| => Publish(rs[i], SessionOf(rs[i])))
  }

  function KeysOf(path: string, rs: seq<MongoReport>): seq<string> {
    seq(|rs|, i requires 0 <= i < |rs| => KeyFor(path, rs[i].nodeName))
  }

  lemma KeyForIsInjective(path: string, a: string, b: string)
    requires KeyFor(path, a) == KeyFor(path, b)
    ensures a == b
  {
    assert KeyFor(path, a)[|path| + 1..] == a && KeyFor(path, b)[|path| + 1..] == b;
  }

  /** The node's name is the last part of its key, behind the path. */
  lemma KeyEndsInName(path: string, id: string)
    requires '/' !in id
    ensures Text.Split(KeyFor(path, id), '/') == Text.Split(path, '/') + [id]
  {
    Text.SplitOfConcat(path, id, '/');
    Text.SplitAtSeparator(id, [], '/');
  }

  /** A report is stored under its node's key unless another session holds the
      key; no other key is touched. */
  lemma PutStoresUnlessLocked(path: string, kv: Kv, id: string, report: MongoReport, session: string)
    ensures var k, kv1 := KeyFor(path, id), Put(path, kv, id, report, session);
      && (forall j | j != k :: (j in kv1 <==> j in kv) && (j in kv ==> kv1[j] == kv[j]))
      && if k in kv && kv[k].session !in {"", session} then kv1 == kv
         else k in kv1 && kv1[k] == Stored(session, report)
  {}

  /** When a session dies, exactly the keys it held are gone. */
  lemma ExpiryDropsTheSession(kv: Kv, session: string)
    ensures forall k :: k in Expired(kv, session) <==> k in kv && kv[k].session != session
    ensures forall k | k in Expired(kv, session) :: Expired(kv, session)[k] == kv[k]
  {}

  /** Every decodable value under the path is in every listing. */
  lemma {:induction false} NothingIsLeftOut(path: string, kv: Kv, order: seq<string>, k: string)
    requires k in order && k in kv && path <= k && kv[k].Stored?
    ensures kv[k].report in Decoded(path, kv, order)
  {
    if k != order[|order| - 1] {
      NothingIsLeftOut(path, kv, order[..|order| - 1], k);
    }
  }

  ghost predicate ListsAs(path: string, kv: Kv, rs: seq<MongoReport>) {
    KeyOrder(kv, KeysOf(path, rs)) && Decoded(path, kv, KeysOf(path, rs)) == rs
  }

  /** What nodes of distinct names publish is all there, and can be listed in
      that order. */
  lemma {:induction false} AllAreListed(path: string, rs: seq<MongoReport>)
    requires DistinctNames(rs)
    ensures ListsAs(path, After(path, PublishAll(rs)), rs)
  {
    if rs != [] {
      var n := |rs| - 1;
      var front, r := rs[..n], rs[n];
      AllAreListed(path, front);
      AfterOneMore(path, front, r);
      OneMoreListed(path, After(path, PublishAll(front)), front, r);
      assert rs == front + [r];
    }
  }

  lemma AfterOneMore(path: string, front: seq<MongoReport>, r: MongoReport)
    ensures After(path, PublishAll(front + [r]))
         == Put(path, After(path, PublishAll(front)), r.nodeName, r, SessionOf(r))
  {
    assert PublishAll(front + [r])[..|front|] == PublishAll(front);
  }

  lemma KeyIsNew(path: string, rs: seq<MongoReport>, r: MongoReport)
    requires forall q | q in rs :: q.nodeName != r.nodeName
    ensures KeyFor(path, r.nodeName) !in KeysOf(path, rs)
  {
    forall i | 0 <= i < |rs| ensures KeysOf(path, rs)[i] != KeyFor(path, r.nodeName) {
      assert rs[i] in rs;
      if KeysOf(path, rs)[i] == KeyFor(path, r.nodeName) { KeyForIsInjective(path, rs[i].nodeName, r.nodeName); }
    }
  }

  lemma OneMoreListed(path: string, kv: Kv, rs: seq<MongoReport>, r: MongoReport)
    requires ListsAs(path, kv, rs) && forall q | q in rs :: q.nodeName != r.nodeName
    ensures ListsAs(path, Put(path, kv, r.nodeName, r, SessionOf(r)), rs + [r])
  {
    KeyIsNew(path, rs, r);
    var keys, k := KeysOf(path, rs), KeyFor(path, r.nodeName);
    assert KeysOf(path, rs + [r]) == keys + [k];
    ExtendOrder(kv, keys, k, Stored(SessionOf(r), r));
    DecodedLast(path, kv, keys, k, r);
  }

  lemma DecodedLast(path: string, kv: Kv, keys: seq<string>, k: string, r: MongoReport)
    requires k !in keys && path <= k && forall j | j in keys :: j in kv
    ensures Decoded(path, kv[k := Stored(SessionOf(r), r)], keys + [k]) == Decoded(path, kv, keys) + [r]
  {
    DecodedFrame(path, kv, kv[k := Stored(SessionOf(r), r)], keys);
    assert (keys + [k])[..|keys|] == keys;
  }

  lemma {:induction false} DecodedFrame(path: string, kv: Kv, kv': Kv, order: seq<string>)
    requires forall k | k in order :: k in kv && k in kv' && kv'[k] == kv[k]
    ensures Decoded(path, kv', order) == Decoded(path, kv, order)
  {
    if order != [] { DecodedFrame(path, kv, kv', order[..|order| - 1]); }
  }

  class ConsulStore {
    const candidateReportPath: string
    var kv: Kv

    constructor (path: string)
      ensures candidateReportPath == path && kv == map[]
    {
      candidateReportPath, kv := path, map[];
    }

    /** PutCandidateReport: reuses the session that already holds the key, or
        takes the one created now; None when no passing check was found or the
        session could not be created. readable and acquirable: the Get and the
        Acquire themselves go through. */
    method PutCandidateReport(id: string, val: MongoReport, readable: bool, created: Option<string>, acquirable: bool)
      returns (ok: bool)
      modifies this
      ensures var k := KeyFor(candidateReportPath, id);
        var held := if k in old(kv) then old(kv)[k].session else "";
        && ok == (readable && (held != "" || created.Some?) && acquirable)
        && kv == if !ok then old(kv)
                 else Put(candidateReportPath, old(kv), id, val, if held != "" then held else created.value)
      ensures old(Keyed(candidateReportPath, kv)) && val.nodeName == id ==> Keyed(candidateReportPath, kv)
    {
      if !readable { return false; }
      var key := KeyFor(candidateReportPath, id);
      var sessionId := "";
      if key in kv {
        sessionId := kv[key].session;
      }
      if sessionId == "" {
        if created.None? { return false; }
        sessionId := created.value;
      }
      if !acquirable { return false; }
      if key in kv && kv[key].session != "" && kv[key].session != sessionId { return true; }
      kv := kv[key := Stored(sessionId, val)];
      ok := true;
    }

    /** One round of WatchCandidateReports: list the prefix, keep what decodes. */
    method ListReports() returns (items: seq<MongoReport>)
      ensures IsSnapshot(candidateReportPath, kv, items)
    {
      var pairs := Keys(kv);
      items := [];
      for i := 0 to |pairs|
        invariant items == Decoded(candidateReportPath, kv, pairs[..i])
      {
        var p := pairs[i];
        assert p in pairs;
        assert pairs[..i + 1][..i] == pairs[..i];
        if candidateReportPath <= p && kv[p].Stored? {
          items := items + [kv[p].report];
        }
      }
      assert pairs[..|pairs|] == pairs;
    }
  }
}
