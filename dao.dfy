/**
 * `SubscriptionDao` (src/dao/subscription_dao.js): the subscription store.
 *
 * The MongoDB collection is modelled by the sequence of stored documents in
 * insertion order (the order `find` returns them in), a counter that hands
 * out fresh document ids, and a flag telling whether `injectDb` has bound the
 * module-level `collection`. The pure functions `Inject`, `Find` and `Add`
 * specify the three operations on a `StoreState` value; the class
 * `SubscriptionDao` implements them on mutable fields and is proved against
 * them. Timestamps and store failures are parameters.
 */
module Dao {
  import opened Wrappers

  /** A stored subscription document: `_id`, `topic`, `url`, `createdAt`, `updatedAt`. */
  datatype Subscription = Subscription(id: nat, topic: string, url: string, createdAt: int, updatedAt: int)

  /** A DAO response: either `{data}` or `{error}`. */
  datatype DaoResponse<T> = Data(data: T) | Error(error: string)

  /** A `find` query; `None` is a key that is not set on the query object. */
  datatype Query = Query(topic: Option<string>, url: Option<string>)

  /** The contents of the collection and whether the DAO holds a handle to it. */
  datatype StoreState = StoreState(records: seq<Subscription>, nextId: nat, initialised: bool)

  /**
   * How the two store calls of `addSubscription` go: both succeed,
   * `insertOne` rejects, or `insertOne` succeeds and the following `findOne`
   * rejects.
   */
  datatype InsertFault = NoFault | InsertFails | ReadBackFails

  /** The outcome of `addSubscription` together with the store afterwards. */
  datatype AddResult = AddResult(outcome: Completion<DaoResponse<Option<Subscription>>>, state: StoreState)

  const InvalidArguments := "Invalid values for argument(s): topic and/or url"

  /** What the catch block of `addSubscription` throws: it returns `{error: e}`
      but only `err` is bound there. */
  const UndefinedE := "ReferenceError: e is not defined"

  /** What `collection.find` throws while `collection` is still undefined. */
  const NoCollection := "TypeError: Cannot read properties of undefined (reading 'find')"

  /** An argument `!topic` / `!url` rejects: undefined or the empty string. */
  predicate Blank(s: Option<string>)
  {
    s.None? || s.value == ""
  }

  /** Whether a document satisfies every key the query sets. */
  predicate Matches(x: Subscription, q: Query)
  {
    (q.topic.None? || x.topic == q.topic.value) && (q.url.None? || x.url == q.url.value)
  }

  /** The documents a query selects, in store order. */
  function Matching(rs: seq<Subscription>, q: Query): (r: seq<Subscription>)
    ensures |r| <= |rs|
    ensures forall x :: x in r <==> x in rs && Matches(x, q)
  {
    if rs == [] then []
    else
      var init := rs[..|rs| - 1];
      var last := rs[|rs| - 1];
      assert rs == init + [last];
      Matching(init, q) + (if Matches(last, q) then [last] else [])
  }

  /** The first stored document with the given id. */
  function FindById(rs: seq<Subscription>, id: nat): (r: Option<Subscription>)
    ensures r.Some? <==> exists i :: 0 <= i < |rs| && rs[i].id == id
    ensures r.Some? ==> r.value in rs && r.value.id == id
  {
    if rs == [] then None
    else if rs[0].id == id then Some(rs[0])
    else
      var r := FindById(rs[1..], id);
      assert forall i :: 1 <= i < |rs| ==> rs[i] == rs[1..][i - 1];
      assert r.Some? ==> exists i :: 0 <= i < |rs| && rs[i].id == id by {
        if r.Some? {
          var j :| 0 <= j < |rs[1..]| && rs[1..][j].id == id;
          assert rs[j + 1].id == id;
        }
      }
      r
  }

  /** Document ids are below the counter and increase in store order, so they are unique. */
  predicate WellFormed(st: StoreState)
  {
    (forall i :: 0 <= i < |st.records| ==> st.records[i].id < st.nextId) &&
    (forall i, j :: 0 <= i < j < |st.records| ==> st.records[i].id < st.records[j].id)
  }

  /** No two stored documents carry the same topic and url. */
  predicate NoDuplicatePairs(rs: seq<Subscription>)
  {
    forall i, j :: 0 <= i < j < |rs| ==> !(rs[i].topic == rs[j].topic && rs[i].url == rs[j].url)
  }

  /** `injectDb`: a bound collection stays bound; otherwise binding succeeds
      exactly when the connection hands out the collection. */
  function Inject(st: StoreState, connected: bool): (r: StoreState)
    ensures r.records == st.records && r.nextId == st.nextId
    ensures r.initialised <==> st.initialised || connected
  {
    if st.initialised then st else st.(initialised := connected)
  }

  /** `findSubscriptions(topic, url)`: the documents the query built from the
      defined arguments selects, or the error the store raised. */
  function Find(st: StoreState, topic: Option<string>, url: Option<string>, storeError: Option<string>)
    : (r: DaoResponse<seq<Subscription>>)
    ensures !st.initialised ==> r == Error(NoCollection)
    ensures st.initialised && storeError.Some? ==> r == Error(storeError.value)
    ensures r.Data? <==> st.initialised && storeError.None?
    ensures r.Data? ==> forall x :: x in r.data <==> x in st.records && Matches(x, Query(topic, url))
  {
    if !st.initialised then Error(NoCollection)
    else if storeError.Some? then Error(storeError.value)
    else Data(Matching(st.records, Query(topic, url)))
  }

  /**
   * `addSubscription(topic, url)` at time `now`. Blank arguments give the
   * invalid-arguments error. Otherwise every failure inside the `try` ends in
   * the catch block, which throws; a failing `findOne` comes after the
   * document was inserted, so the store keeps it.
   */
  function Add(st: StoreState, topic: Option<string>, url: Option<string>, now: int, fault: InsertFault)
    : (r: AddResult)
    ensures r.state.initialised == st.initialised
    ensures |st.records| <= |r.state.records| <= |st.records| + 1
    ensures r.state.records[..|st.records|] == st.records
    ensures r.outcome == Normal(Error(InvalidArguments)) <==> Blank(topic) || Blank(url)
    ensures Blank(topic) || Blank(url) ==> r.state == st
    ensures r.outcome.Throw? ==> r.outcome.exception == UndefinedE
    ensures r.outcome.Throw? <==> !Blank(topic) && !Blank(url) && (!st.initialised || fault != NoFault)
    ensures |r.state.records| == |st.records| + 1 <==>
              !Blank(topic) && !Blank(url) && st.initialised && fault != InsertFails
    ensures |r.state.records| == |st.records| + 1 ==>
              var x := r.state.records[|st.records|];
              x == Subscription(st.nextId, topic.value, url.value, now, now) && r.state.nextId == st.nextId + 1
    ensures r.outcome.Normal? && r.outcome.value.Data? ==>
              r.outcome.value.data.Some? && r.outcome.value.data.value.id == st.nextId &&
              (WellFormed(st) ==> r.outcome.value.data == Some(r.state.records[|st.records|]))
  {
    if Blank(topic) || Blank(url) then AddResult(Normal(Error(InvalidArguments)), st)
    else if !st.initialised || fault == InsertFails then AddResult(Throw(UndefinedE), st)
    else
      var x := Subscription(st.nextId, topic.value, url.value, now, now);
      var st' := StoreState(st.records + [x], st.nextId + 1, true);
      assert st'.records[|st.records|] == x;
      if fault == ReadBackFails then AddResult(Throw(UndefinedE), st')
      else
        assert fault == NoFault;
        assert WellFormed(st) ==> FindById(st'.records, st.nextId) == Some(x) by {
          if WellFormed(st) { FreshIdFindsNew(st.records, st.nextId, x); }
        }
        AddResult(Normal(Data(FindById(st'.records, st.nextId))), st')
  }

  // ---------------------------------------------------------------------
  // Lemmas about the specification

  /** Looking up a fresh id after appending finds the appended document. */
  lemma {:induction false} FreshIdFindsNew(rs: seq<Subscription>, id: nat, x: Subscription)
    requires forall i :: 0 <= i < |rs| ==> rs[i].id < id
    requires x.id == id
    ensures FindById(rs + [x], id) == Some(x)
  {
    if rs != [] {
      assert (rs + [x])[1..] == rs[1..] + [x];
      FreshIdFindsNew(rs[1..], id, x);
    }
  }

  /** `Matching` distributes over appending one document. */
  lemma MatchingAppend(rs: seq<Subscription>, x: Subscription, q: Query)
    ensures Matching(rs + [x], q) == Matching(rs, q) + (if Matches(x, q) then [x] else [])
  {
    assert (rs + [x])[..|rs + [x]| - 1] == rs;
  }

  /** A query with neither key set selects every document, in order. */
  lemma {:induction false} MatchingAll(rs: seq<Subscription>)
    ensures Matching(rs, Query(None, None)) == rs
  {
    if rs != [] {
      MatchingAll(rs[..|rs| - 1]);
      assert rs == rs[..|rs| - 1] + [rs[|rs| - 1]];
    }
  }

  /** Selecting documents keeps their relative order: the result is a subsequence. */
  lemma {:induction false} MatchingPreservesOrder(rs: seq<Subscription>, q: Query, i: nat, j: nat)
    requires i < j < |Matching(rs, q)|
    ensures exists a, b :: 0 <= a < b < |rs| && rs[a] == Matching(rs, q)[i] && rs[b] == Matching(rs, q)[j]
    decreases |rs|
  {
    var init := rs[..|rs| - 1];
    var last := rs[|rs| - 1];
    var m := Matching(init, q);
    assert Matching(rs, q) == m + (if Matches(last, q) then [last] else []);
    if j < |m| {
      MatchingPreservesOrder(init, q, i, j);
      var a, b :| 0 <= a < b < |init| && init[a] == m[i] && init[b] == m[j];
      assert rs[a] == init[a] && rs[b] == init[b];
    } else {
      assert Matching(rs, q)[j] == last;
      assert m[i] in init;
      var a :| 0 <= a < |init| && init[a] == m[i];
      assert rs[a] == init[a];
      assert rs[|rs| - 1] == last;
    }
  }

  /** `injectDb` is idempotent. */
  lemma InjectIdempotent(st: StoreState, c1: bool, c2: bool)
    requires Inject(st, c1).initialised
    ensures Inject(Inject(st, c1), c2) == Inject(st, c1)
  {
  }

  /** Adding keeps document ids unique and increasing. */
  lemma AddKeepsWellFormed(st: StoreState, topic: Option<string>, url: Option<string>, now: int, fault: InsertFault)
    requires WellFormed(st)
    ensures WellFormed(Add(st, topic, url, now, fault).state)
  {
    var r := Add(st, topic, url, now, fault);
    if |r.state.records| == |st.records| + 1 {
      assert r.state.records == st.records + [r.state.records[|st.records|]];
    } else {
      assert r.state.records == st.records;
    }
  }

  /** A successful add returns the new document, and looking it up by its
      topic and url at once finds exactly it. */
  lemma AddThenFind(st: StoreState, topic: string, url: string, now: int)
    requires WellFormed(st) && st.initialised && topic != "" && url != ""
    requires forall x :: x in st.records ==> !(x.topic == topic && x.url == url)
    ensures var r := Add(st, Some(topic), Some(url), now, NoFault);
            var x := Subscription(st.nextId, topic, url, now, now);
            r.outcome == Normal(Data(Some(x))) &&
            Find(r.state, Some(topic), Some(url), None) == Data([x])
  {
    var r := Add(st, Some(topic), Some(url), now, NoFault);
    var x := Subscription(st.nextId, topic, url, now, now);
    assert r.state.records == st.records + [x];
    assert r.outcome == Normal(Data(Some(x)));
    var q := Query(Some(topic), Some(url));
    MatchingAppend(st.records, x, q);
    NoneMatch(st.records, q);
    assert Matching(r.state.records, q) == [x];
    assert Find(r.state, Some(topic), Some(url), None) == Data(Matching(r.state.records, q));
  }

  /** A query that no stored document satisfies selects nothing. */
  lemma NoneMatch(rs: seq<Subscription>, q: Query)
    requires forall x :: x in rs ==> !Matches(x, q)
    ensures Matching(rs, q) == []
  {
    if Matching(rs, q) != [] {
      assert Matching(rs, q)[0] in Matching(rs, q);
    }
  }

  /** An add that fails before the insert leaves the store as it was; one that
      fails after it leaves the document stored although the caller sees an
      exception. */
  lemma AddFailureEffects(st: StoreState, topic: string, url: string, now: int)
    requires st.initialised && topic != "" && url != ""
    ensures Add(st, Some(topic), Some(url), now, InsertFails) == AddResult(Throw(UndefinedE), st)
    ensures var r := Add(st, Some(topic), Some(url), now, ReadBackFails);
            r.outcome == Throw(UndefinedE) &&
            r.state.records == st.records + [Subscription(st.nextId, topic, url, now, now)]
  {
    var r := Add(st, Some(topic), Some(url), now, ReadBackFails);
    assert r.state.records == st.records + [r.state.records[|st.records|]];
  }

  // ---------------------------------------------------------------------
  // The DAO object

  /** The DAO, holding the collection it works on. */
  class SubscriptionDao {
    var records: seq<Subscription>
    var nextId: nat
    var initialised: bool

    /** The store as a value. */
    function State(): StoreState
      reads this
    {
      StoreState(records, nextId, initialised)
    }

    /** An empty collection that `injectDb` has not bound yet. */
    constructor ()
      ensures State() == StoreState([], 0, false)
      ensures WellFormed(State())
    {
      records := [];
      nextId := 0;
      initialised := false;
    }

    /** `injectDb(connection)`; `connected` tells whether the connection
        hands out the collection or throws (the error is only logged). */
    method InjectDb(connected: bool)
      modifies this
      ensures State() == Inject(old(State()), connected)
    {
      if initialised {
        return;
      }
      if connected {
        initialised := true;
      }
    }

    /** `addSubscription(topic, url)` with the insert's timestamp and the
        behaviour of the two store calls as parameters. */
    method AddSubscription(topic: Option<string>, url: Option<string>, now: int, fault: InsertFault)
      returns (r: Completion<DaoResponse<Option<Subscription>>>)
      modifies this
      ensures AddResult(r, State()) == Add(old(State()), topic, url, now, fault)
      ensures WellFormed(old(State())) ==> WellFormed(State())
    {
      ghost var st := State();
      if Blank(topic) || Blank(url) {
        return Normal(Error(InvalidArguments));
      }
      if !initialised || fault == InsertFails {
        return Throw(UndefinedE);
      }
      var x := Subscription(nextId, topic.value, url.value, now, now);
      records := records + [x];
      nextId := nextId + 1;
      if fault == ReadBackFails {
        AddKeepsWellFormedIf(st, topic, url, now, fault);
        return Throw(UndefinedE);
      }
      var found := FindById(records, x.id);
      AddKeepsWellFormedIf(st, topic, url, now, fault);
      return Normal(Data(found));
    }

    /** `findSubscriptions(topic, url)`: builds the query from the defined
        arguments and collects the matching documents in store order. */
    method FindSubscriptions(topic: Option<string>, url: Option<string>, storeError: Option<string>)
      returns (r: DaoResponse<seq<Subscription>>)
      ensures r == Find(State(), topic, url, storeError)
    {
      var q := Query(None, None);
      if topic.Some? {
        q := q.(topic := topic);
      }
      if url.Some? {
        q := q.(url := url);
      }
      if !initialised {
        return Error(NoCollection);
      }
      if storeError.Some? {
        return Error(storeError.value);
      }
      var items: seq<Subscription> := [];
      var i := 0;
      while i < |records|
        invariant 0 <= i <= |records|
        invariant items == Matching(records[..i], q)
      {
        assert records[..i + 1] == records[..i] + [records[i]];
        MatchingAppend(records[..i], records[i], q);
        if Matches(records[i], q) {
          items := items + [records[i]];
        }
        i := i + 1;
      }
      assert records[..i] == records;
      return Data(items);
    }
  }

  lemma AddKeepsWellFormedIf(st: StoreState, topic: Option<string>, url: Option<string>, now: int, fault: InsertFault)
    ensures WellFormed(st) ==> WellFormed(Add(st, topic, url, now, fault).state)
  {
    if WellFormed(st) {
      AddKeepsWellFormed(st, topic, url, now, fault);
    }
  }
}
