/**
 * The service as a whole: a sequence of `subscribe` and `publish` requests
 * handled one after another against one store, and the request sequences of
 * the repository's two test suites (test/subscribe.test.js and
 * test/publish.test.js) replayed on the model.
 */
module Relay {
  import opened Wrappers
  import opened Js
  import opened Http
  import opened Dao
  import opened SubscriberController
  import opened PublisherController
  import Util

  /** A request with the store behaviour it meets. */
  datatype Request =
    | SubscribeRequest(topic: Option<string>, body: Json, now: int, storeError: Option<string>, fault: InsertFault)
    | PublishRequest(topic: Option<string>, body: Json, storeError: Option<string>)

  /** What one request produces: its reply and the deliveries it hands on. */
  datatype Outcome = Outcome(reply: Reply, deliveries: seq<Delivery>)

  /** One request; a publish leaves the store as it is. */
  function Handle(st: StoreState, req: Request): (r: (Outcome, StoreState))
    ensures req.PublishRequest? ==> r.1 == st
    ensures req.SubscribeRequest? ==> r.0.deliveries == []
  {
    match req
    case SubscribeRequest(topic, body, now, storeError, fault) =>
      var (reply, st') := SubscribeStep(st, topic, body, now, storeError, fault);
      (Outcome(reply, []), st')
    case PublishRequest(topic, body, storeError) =>
      var (reply, plan) := PublishStep(st, topic, body, storeError);
      (Outcome(reply, plan), st)
  }

  /** The requests `reqs` handled in order by `step`, starting on `st`: the
      outcome of each and the state the last one leaves. */
  function Fold<S, R, O>(step: (S, R) -> (O, S), st: S, reqs: seq<R>): (r: (seq<O>, S))
    ensures |r.0| == |reqs|
    decreases |reqs|
  {
    if reqs == [] then ([], st)
    else
      var (o, st') := step(st, reqs[0]);
      var (os, st'') := Fold(step, st', reqs[1..]);
      ([o] + os, st'')
  }

  /** The requests handled in order: their outcomes and the final store. */
  function Run(st: StoreState, reqs: seq<Request>): (r: (seq<Outcome>, StoreState))
    ensures |r.0| == |reqs|
  {
    Fold(Handle, st, reqs)
  }

  /** The store `injectDb` leaves on a fresh connection, as the suites' `beforeAll` does. */
  function Connected(): (st: StoreState)
    ensures st == StoreState([], 0, true) && Inv(st)
  {
    Inject(StoreState([], 0, false), true)
  }

  // ---------------------------------------------------------------------
  // Properties of runs

  /** Every run keeps document ids unique, topic-url pairs unique and every
      stored url a valid http(s) URL. */
  lemma {:induction false} RunKeepsInv(st: StoreState, reqs: seq<Request>)
    requires Inv(st)
    ensures Inv(Run(st, reqs).1)
    decreases |reqs|
  {
    if reqs != [] {
      var st' := Handle(st, reqs[0]).1;
      if reqs[0].SubscribeRequest? {
        var q := reqs[0];
        SubscribeKeepsInv(st, q.topic, q.body, q.now, q.storeError, q.fault);
      }
      RunKeepsInv(st', reqs[1..]);
    }
  }

  /** A run never removes or alters a stored document. */
  lemma {:induction false} RunOnlyAppends(st: StoreState, reqs: seq<Request>)
    ensures |st.records| <= |Run(st, reqs).1.records|
    ensures Run(st, reqs).1.records[..|st.records|] == st.records
    decreases |reqs|
  {
    if reqs != [] {
      var st' := Handle(st, reqs[0]).1;
      if reqs[0].SubscribeRequest? {
        var q := reqs[0];
        var r := SubscribeStep(st, q.topic, q.body, q.now, q.storeError, q.fault);
        if Validate(q.topic, q.body).Accepted? {
          var c := Validate(q.topic, q.body);
          assert r == Proceed(st, q.topic.value, c.url, c.urlText, q.now, q.storeError, q.fault);
        }
      }
      RunOnlyAppends(st', reqs[1..]);
      var fin := Run(st, reqs).1;
      assert fin == Run(st', reqs[1..]).1;
      assert fin.records[..|st'.records|] == st'.records;
      assert st'.records[..|st.records|] == st.records;
      assert fin.records[..|st.records|] == fin.records[..|st'.records|][..|st.records|];
    }
  }

  /** Once a url has subscribed to a topic, every later successful publish to
      that topic hands it the payload. */
  lemma SubscribedUrlReceivesPublish(st: StoreState, topic: string, body: Json, x: Subscription)
    requires x in st.records && x.topic == topic
    requires topic != "" && IsPlainObject(body) && st.initialised
    ensures Delivery(x.url, Payload(topic, body)) in Handle(st, PublishRequest(Some(topic), body, None)).0.deliveries
  {
    PublishReachesSubscribers(st, topic, body);
  }

  /** Publishing the same body twice gives the same reply and deliveries. */
  lemma RepeatedPublishSameOutcome(st: StoreState, topic: Option<string>, body: Json, storeError: Option<string>)
    ensures var (o1, st1) := Handle(st, PublishRequest(topic, body, storeError));
            var (o2, st2) := Handle(st1, PublishRequest(topic, body, storeError));
            o1 == o2 && st2 == st
  {
  }

  /** A fold is the composition of its steps: when each request, handled on
      the state the previous one left, gives the listed outcome, the fold
      gives the outcomes in order and the last state. */
  lemma {:induction false} FoldComposes<S, R, O>(step: (S, R) -> (O, S), sts: seq<S>, reqs: seq<R>, outs: seq<O>)
    requires |sts| == |reqs| + 1 && |outs| == |reqs|
    requires forall i :: 0 <= i < |reqs| ==> step(sts[i], reqs[i]) == (outs[i], sts[i + 1])
    ensures Fold(step, sts[0], reqs) == (outs, sts[|reqs|])
    decreases |reqs|
  {
    if reqs != [] {
      FoldComposes(step, sts[1..], reqs[1..], outs[1..]);
      assert outs == [outs[0]] + outs[1..];
    }
  }

  /** A fold split in two: the second part starts on the state the first left. */
  lemma {:induction false} FoldAppend<S, R, O>(step: (S, R) -> (O, S), st: S, a: seq<R>, b: seq<R>,
                                               oa: seq<O>, sa: S, ob: seq<O>, sb: S)
    requires Fold(step, st, a) == (oa, sa) && Fold(step, sa, b) == (ob, sb)
    ensures Fold(step, st, a + b) == (oa + ob, sb)
    decreases |a|
  {
    if a == [] {
      assert a + b == b && oa + ob == ob;
    } else {
      assert (a + b)[0] == a[0] && (a + b)[1..] == a[1..] + b;
      var (o, st') := step(st, a[0]);
      FoldAppend(step, st', a[1..], b, oa[1..], sa, ob, sb);
      assert oa == [o] + oa[1..];
      assert [o] + (oa[1..] + ob) == oa + ob;
    }
  }

  /** Three steps of a fold composed. */
  lemma FoldOfThree<S, R, O>(step: (S, R) -> (O, S), st0: S, r0: R, o0: O, st1: S, r1: R, o1: O,
                             st2: S, r2: R, o2: O, st3: S)
    requires step(st0, r0) == (o0, st1) && step(st1, r1) == (o1, st2) && step(st2, r2) == (o2, st3)
    ensures Fold(step, st0, [r0, r1, r2]) == ([o0, o1, o2], st3)
  {
    var sts, reqs, outs := [st0, st1, st2, st3], [r0, r1, r2], [o0, o1, o2];
    forall i | 0 <= i < |reqs| ensures step(sts[i], reqs[i]) == (outs[i], sts[i + 1]) {
      if i == 0 {} else if i == 1 {} else {}
    }
    FoldComposes(step, sts, reqs, outs);
  }

  /** Three steps composed. */
  lemma RunOfThree(st0: StoreState, r0: Request, o0: Outcome, st1: StoreState, r1: Request, o1: Outcome,
                   st2: StoreState, r2: Request, o2: Outcome, st3: StoreState)
    requires Handle(st0, r0) == (o0, st1) && Handle(st1, r1) == (o1, st2) && Handle(st2, r2) == (o2, st3)
    ensures Run(st0, [r0, r1, r2]) == ([o0, o1, o2], st3)
  {
    FoldOfThree(Handle, st0, r0, o0, st1, r1, o1, st2, r2, o2, st3);
  }

  /** Two folds of three requests, one after the other. */
  lemma FoldOfThreeThenThree<S, R, O>(step: (S, R) -> (O, S), st0: S, r0: R, r1: R, r2: R, o0: O, o1: O, o2: O,
                                      st1: S, r3: R, r4: R, r5: R, o3: O, o4: O, o5: O, st2: S)
    requires Fold(step, st0, [r0, r1, r2]) == ([o0, o1, o2], st1)
    requires Fold(step, st1, [r3, r4, r5]) == ([o3, o4, o5], st2)
    ensures Fold(step, st0, [r0, r1, r2, r3, r4, r5]) == ([o0, o1, o2, o3, o4, o5], st2)
  {
    FoldAppend(step, st0, [r0, r1, r2], [r3, r4, r5], [o0, o1, o2], st1, [o3, o4, o5], st2);
    assert [r0, r1, r2] + [r3, r4, r5] == [r0, r1, r2, r3, r4, r5];
    assert [o0, o1, o2] + [o3, o4, o5] == [o0, o1, o2, o3, o4, o5];
  }

  /** One step of a fold, then a fold of six. */
  lemma FoldOfOneThenSix<S, R, O>(step: (S, R) -> (O, S), st0: S, r0: R, o0: O, st1: S,
                                  r1: R, r2: R, r3: R, r4: R, r5: R, r6: R,
                                  o1: O, o2: O, o3: O, o4: O, o5: O, o6: O, st2: S)
    requires step(st0, r0) == (o0, st1)
    requires Fold(step, st1, [r1, r2, r3, r4, r5, r6]) == ([o1, o2, o3, o4, o5, o6], st2)
    ensures Fold(step, st0, [r0, r1, r2, r3, r4, r5, r6]) == ([o0, o1, o2, o3, o4, o5, o6], st2)
  {
    FoldComposes(step, [st0, st1], [r0], [o0]);
    FoldAppend(step, st0, [r0], [r1, r2, r3, r4, r5, r6], [o0], st1, [o1, o2, o3, o4, o5, o6], st2);
    assert [r0] + [r1, r2, r3, r4, r5, r6] == [r0, r1, r2, r3, r4, r5, r6];
    assert [o0] + [o1, o2, o3, o4, o5, o6] == [o0, o1, o2, o3, o4, o5, o6];
  }

  /** Two runs of three requests, one after the other. */
  lemma RunOfThreeThenThree(st0: StoreState, r0: Request, r1: Request, r2: Request, o0: Outcome, o1: Outcome, o2: Outcome,
                            st1: StoreState, r3: Request, r4: Request, r5: Request, o3: Outcome, o4: Outcome, o5: Outcome,
                            st2: StoreState)
    requires Run(st0, [r0, r1, r2]) == ([o0, o1, o2], st1)
    requires Run(st1, [r3, r4, r5]) == ([o3, o4, o5], st2)
    ensures Run(st0, [r0, r1, r2, r3, r4, r5]) == ([o0, o1, o2, o3, o4, o5], st2)
  {
    FoldOfThreeThenThree(Handle, st0, r0, r1, r2, o0, o1, o2, st1, r3, r4, r5, o3, o4, o5, st2);
  }

  /** One request, then a run of six. */
  lemma RunOfOneThenSix(st0: StoreState, r0: Request, o0: Outcome, st1: StoreState,
                        r1: Request, r2: Request, r3: Request, r4: Request, r5: Request, r6: Request,
                        o1: Outcome, o2: Outcome, o3: Outcome, o4: Outcome, o5: Outcome, o6: Outcome,
                        st2: StoreState)
    requires Handle(st0, r0) == (o0, st1)
    requires Run(st1, [r1, r2, r3, r4, r5, r6]) == ([o1, o2, o3, o4, o5, o6], st2)
    ensures Run(st0, [r0, r1, r2, r3, r4, r5, r6]) == ([o0, o1, o2, o3, o4, o5, o6], st2)
  {
    FoldOfOneThenSix(Handle, st0, r0, o0, st1, r1, r2, r3, r4, r5, r6, o1, o2, o3, o4, o5, o6, st2);
  }

  // ---------------------------------------------------------------------
  // The test suites replayed, request by request

  const ValidUrlOne := "http://localhost:1234/test"
  const ValidUrlTwo := "http://localhost:1234/test-two"
  const ValidUrlThree := "http://localhost:1234/test-three"
  const SubscribeTopic := "sameRandomTopic"
  const MalformedUrl := "someStringThatIsNotAString"

  /** The body `{url: u}`. */
  function UrlBody(u: string): (b: Json)
    ensures Property(b, "url") == Some(Str(u))
  {
    Obj(map["url" := Str(u)])
  }

  /** test/subscribe.test.js:28-36: an empty body. */
  lemma SubscribeEmptyBody(st: StoreState, t: string, now: int)
    requires t != ""
    ensures Handle(st, SubscribeRequest(Some(t), Obj(map[]), now, None, NoFault)) ==
              (Outcome(Reply(400, ErrorBody(BodyBlankMessage)), []), st)
  {
    assert KeyCount(Obj(map[])) == 0;
  }

  /** test/subscribe.test.js:38-48: a blank url. */
  lemma SubscribeBlankUrl(st: StoreState, t: string, now: int)
    requires t != ""
    ensures Handle(st, SubscribeRequest(Some(t), UrlBody(""), now, None, NoFault)) ==
              (Outcome(Reply(400, ErrorBody(UrlBlankMessage)), []), st)
  {
    assert KeyCount(UrlBody("")) == 1;
  }

  /** test/subscribe.test.js:50-60: a url that is not an http(s) URL. */
  lemma SubscribeMalformedUrl(st: StoreState, t: string, bad: string, now: int)
    requires t != "" && bad != "" && !Util.IsValidHttpUrl(bad)
    ensures Handle(st, SubscribeRequest(Some(t), UrlBody(bad), now, None, NoFault)) ==
              (Outcome(Reply(400, ErrorBody(UrlInvalidMessage)), []), st)
  {
    InvalidUrlRejected(st, t, UrlBody(bad), now, None, NoFault);
  }

  /** test/subscribe.test.js:62-74 and 88-100: a valid url string for a new
      pair on a bound, working store gives 200 `{url, topic}` and appends the
      document. */
  lemma SubscribeFresh(st: StoreState, t: string, u: string, now: int)
    requires WellFormed(st) && st.initialised && t != "" && Util.IsValidHttpUrl(u)
    requires forall y :: y in st.records ==> !(y.topic == t && y.url == u)
    ensures Handle(st, SubscribeRequest(Some(t), UrlBody(u), now, None, NoFault)) ==
              (Outcome(Reply(200, CreatedBody(Str(u), t)), []),
               StoreState(st.records + [Subscription(st.nextId, t, u, now, now)], st.nextId + 1, true))
  {
    UrlStringAccepted(t, u);
    ProceedNewPair(st, t, Str(u), u, now);
  }

  /** test/subscribe.test.js:76-86: a url string whose pair is stored gives
      "already exists" and leaves the store alone. */
  lemma SubscribeAgain(st: StoreState, t: string, u: string, now: int, x: Subscription)
    requires st.initialised && t != "" && Util.IsValidHttpUrl(u)
    requires x in st.records && x.topic == t && x.url == u
    ensures Handle(st, SubscribeRequest(Some(t), UrlBody(u), now, None, NoFault)) ==
              (Outcome(Reply(200, ErrorBody(AlreadyExistsMessage)), []), st)
  {
    UrlStringAccepted(t, u);
    ProceedExisting(st, t, Str(u), u, now, NoFault, x);
  }

  /** test/publish.test.js:39-47: an array body. */
  lemma PublishArrayBody(st: StoreState, t: string)
    requires t != ""
    ensures Handle(st, PublishRequest(Some(t), Arr([]), None)) ==
              (Outcome(Reply(400, ErrorBody(PublisherController.InvalidBodyMessage)), []), st)
  {
    ArrayBodyRejected(st, t, [], None);
  }

  /** test/publish.test.js:91-125: a publish on a working store answers with
      the number of documents for the topic and hands the payload to each of
      their urls, in store order. */
  lemma PublishToTopic(st: StoreState, t: string, body: Json, subs: seq<Subscription>)
    requires t != "" && IsPlainObject(body) && st.initialised
    requires Matching(st.records, TopicQuery(t)) == subs
    ensures Handle(st, PublishRequest(Some(t), body, None)) ==
              (Outcome(Reply(200, PublishedBody(|subs|, Payload(t, body))), Deliveries(subs, Payload(t, body))), st)
  {
    PublishReachesSubscribers(st, t, body);
  }

  /** The first subscription on a freshly connected store gets id 0. */
  lemma SubscribeFirst(t: string, u: string, now: int)
    requires t != "" && Util.IsValidHttpUrl(u)
    ensures Handle(Connected(), SubscribeRequest(Some(t), UrlBody(u), now, None, NoFault)) ==
              (Outcome(Reply(200, CreatedBody(Str(u), t)), []),
               StoreState([Subscription(0, t, u, now, now)], 1, true))
  {
    SubscribeFresh(StoreState([], 0, true), t, u, now);
  }

  /** The documents `rs` carry ids 0, 1, ... in order and none has topic `t` and url `u`. */
  predicate IndexedWithout(rs: seq<Subscription>, t: string, u: string)
  {
    (forall i :: 0 <= i < |rs| ==> rs[i].id == i) &&
    (forall y :: y in rs ==> !(y.topic == t && y.url == u))
  }

  /** A new pair on a store whose documents carry ids 0, 1, ... in order
      gets the next id; `rs'` is the store's documents afterwards. */
  lemma SubscribeNext(rs: seq<Subscription>, rs': seq<Subscription>, t: string, u: string, now: int)
    requires IndexedWithout(rs, t, u) && t != "" && Util.IsValidHttpUrl(u)
    requires rs' == rs + [Subscription(|rs|, t, u, now, now)]
    ensures Handle(StoreState(rs, |rs|, true), SubscribeRequest(Some(t), UrlBody(u), now, None, NoFault)) ==
              (Outcome(Reply(200, CreatedBody(Str(u), t)), []), StoreState(rs', |rs| + 1, true))
  {
    SubscribeFresh(StoreState(rs, |rs|, true), t, u, now);
  }

  /** One document with id 0 and a pair it does not hold. */
  lemma OneIndexed(x: Subscription, t: string, u: string, z: Subscription)
    requires x.id == 0 && !(x.topic == t && x.url == u)
    ensures IndexedWithout([x], t, u) && [x] + [z] == [x, z]
  {
  }

  /** Two documents with ids 0 and 1 and a pair neither holds. */
  lemma TwoIndexed(x: Subscription, y: Subscription, t: string, u: string, z: Subscription)
    requires x.id == 0 && y.id == 1 && !(x.topic == t && x.url == u) && !(y.topic == t && y.url == u)
    ensures IndexedWithout([x, y], t, u) && [x, y] + [z] == [x, y, z]
  {
  }

  /** A second, different pair on a store holding one document gets id 1. */
  lemma SubscribeSecond(x: Subscription, t: string, u: string, now: int)
    requires x.id == 0 && t != "" && Util.IsValidHttpUrl(u) && !(x.topic == t && x.url == u)
    ensures Handle(StoreState([x], 1, true), SubscribeRequest(Some(t), UrlBody(u), now, None, NoFault)) ==
              (Outcome(Reply(200, CreatedBody(Str(u), t)), []),
               StoreState([x, Subscription(1, t, u, now, now)], 2, true))
  {
    var z := Subscription(1, t, u, now, now);
    OneIndexed(x, t, u, z);
    SubscribeNext([x], [x, z], t, u, now);
  }

  /** A third pair, new to a store holding two documents, gets id 2. */
  lemma SubscribeThird(x: Subscription, y: Subscription, t: string, u: string, now: int)
    requires x.id == 0 && y.id == 1 && t != "" && Util.IsValidHttpUrl(u)
    requires !(x.topic == t && x.url == u) && !(y.topic == t && y.url == u)
    ensures Handle(StoreState([x, y], 2, true), SubscribeRequest(Some(t), UrlBody(u), now, None, NoFault)) ==
              (Outcome(Reply(200, CreatedBody(Str(u), t)), []),
               StoreState([x, y, Subscription(2, t, u, now, now)], 3, true))
  {
    var z := Subscription(2, t, u, now, now);
    TwoIndexed(x, y, t, u, z);
    SubscribeNext([x, y], [x, y, z], t, u, now);
  }

  /** Repeating the only stored pair. */
  lemma SubscribeRepeat(x: Subscription, now: int)
    requires x.topic != "" && Util.IsValidHttpUrl(x.url)
    ensures Handle(StoreState([x], 1, true), SubscribeRequest(Some(x.topic), UrlBody(x.url), now, None, NoFault)) ==
              (Outcome(Reply(200, ErrorBody(AlreadyExistsMessage)), []), StoreState([x], 1, true))
  {
    SubscribeAgain(StoreState([x], 1, true), x.topic, x.url, now, x);
  }

  /** test/subscribe.test.js:28-60: the three rejected requests leave the
      store as it was. */
  lemma SubscribeRejections(st: StoreState, t: string, bad: string)
    requires t != "" && bad != "" && !Util.IsValidHttpUrl(bad)
    ensures Run(st, [SubscribeRequest(Some(t), Obj(map[]), 1, None, NoFault),
                     SubscribeRequest(Some(t), UrlBody(""), 2, None, NoFault),
                     SubscribeRequest(Some(t), UrlBody(bad), 3, None, NoFault)]) ==
            ([Outcome(Reply(400, ErrorBody(BodyBlankMessage)), []),
              Outcome(Reply(400, ErrorBody(UrlBlankMessage)), []),
              Outcome(Reply(400, ErrorBody(UrlInvalidMessage)), [])], st)
  {
    SubscribeEmptyBody(st, t, 1);
    SubscribeBlankUrl(st, t, 2);
    SubscribeMalformedUrl(st, t, bad, 3);
    RunOfThree(st, SubscribeRequest(Some(t), Obj(map[]), 1, None, NoFault), Outcome(Reply(400, ErrorBody(BodyBlankMessage)), []),
               st, SubscribeRequest(Some(t), UrlBody(""), 2, None, NoFault), Outcome(Reply(400, ErrorBody(UrlBlankMessage)), []),
               st, SubscribeRequest(Some(t), UrlBody(bad), 3, None, NoFault), Outcome(Reply(400, ErrorBody(UrlInvalidMessage)), []),
               st);
  }

  /** test/subscribe.test.js:62-100: a new pair, the same again, and a
      second url for the topic. */
  lemma SubscribeAcceptances(t: string, u1: string, u2: string)
    requires t != "" && Util.IsValidHttpUrl(u1) && Util.IsValidHttpUrl(u2) && u1 != u2
    ensures Run(Connected(), [SubscribeRequest(Some(t), UrlBody(u1), 4, None, NoFault),
                              SubscribeRequest(Some(t), UrlBody(u1), 5, None, NoFault),
                              SubscribeRequest(Some(t), UrlBody(u2), 6, None, NoFault)]) ==
            ([Outcome(Reply(200, CreatedBody(Str(u1), t)), []),
              Outcome(Reply(200, ErrorBody(AlreadyExistsMessage)), []),
              Outcome(Reply(200, CreatedBody(Str(u2), t)), [])],
             StoreState([Subscription(0, t, u1, 4, 4), Subscription(1, t, u2, 6, 6)], 2, true))
  {
    var x := Subscription(0, t, u1, 4, 4);
    SubscribeFirst(t, u1, 4);
    SubscribeRepeat(x, 5);
    SubscribeSecond(x, t, u2, 6);
    RunOfThree(Connected(), SubscribeRequest(Some(t), UrlBody(u1), 4, None, NoFault), Outcome(Reply(200, CreatedBody(Str(u1), t)), []),
               StoreState([x], 1, true), SubscribeRequest(Some(t), UrlBody(u1), 5, None, NoFault), Outcome(Reply(200, ErrorBody(AlreadyExistsMessage)), []),
               StoreState([x], 1, true), SubscribeRequest(Some(t), UrlBody(u2), 6, None, NoFault), Outcome(Reply(200, CreatedBody(Str(u2), t)), []),
               StoreState([x, Subscription(1, t, u2, 6, 6)], 2, true));
  }

  /**
   * test/subscribe.test.js:28-100 on a freshly connected store: an empty
   * body, a blank url, a malformed url, a new subscription, the same again
   * and a second url for the topic. `t` is the suite's topic, `u1` and `u2`
   * its two urls and `bad` its malformed url.
   */
  lemma SubscribeSuiteRun(t: string, u1: string, u2: string, bad: string)
    requires t != "" && Util.IsValidHttpUrl(u1) && Util.IsValidHttpUrl(u2) && u1 != u2
    requires bad != "" && !Util.IsValidHttpUrl(bad)
    ensures Run(Connected(), [SubscribeRequest(Some(t), Obj(map[]), 1, None, NoFault),
                              SubscribeRequest(Some(t), UrlBody(""), 2, None, NoFault),
                              SubscribeRequest(Some(t), UrlBody(bad), 3, None, NoFault),
                              SubscribeRequest(Some(t), UrlBody(u1), 4, None, NoFault),
                              SubscribeRequest(Some(t), UrlBody(u1), 5, None, NoFault),
                              SubscribeRequest(Some(t), UrlBody(u2), 6, None, NoFault)]) ==
            ([Outcome(Reply(400, ErrorBody(BodyBlankMessage)), []),
              Outcome(Reply(400, ErrorBody(UrlBlankMessage)), []),
              Outcome(Reply(400, ErrorBody(UrlInvalidMessage)), []),
              Outcome(Reply(200, CreatedBody(Str(u1), t)), []),
              Outcome(Reply(200, ErrorBody(AlreadyExistsMessage)), []),
              Outcome(Reply(200, CreatedBody(Str(u2), t)), [])],
             StoreState([Subscription(0, t, u1, 4, 4), Subscription(1, t, u2, 6, 6)], 2, true))
  {
    SubscribeRejections(Connected(), t, bad);
    SubscribeAcceptances(t, u1, u2);
    RunOfThreeThenThree(
      Connected(),
      SubscribeRequest(Some(t), Obj(map[]), 1, None, NoFault),
      SubscribeRequest(Some(t), UrlBody(""), 2, None, NoFault),
      SubscribeRequest(Some(t), UrlBody(bad), 3, None, NoFault),
      Outcome(Reply(400, ErrorBody(BodyBlankMessage)), []),
      Outcome(Reply(400, ErrorBody(UrlBlankMessage)), []),
      Outcome(Reply(400, ErrorBody(UrlInvalidMessage)), []),
      Connected(),
      SubscribeRequest(Some(t), UrlBody(u1), 4, None, NoFault),
      SubscribeRequest(Some(t), UrlBody(u1), 5, None, NoFault),
      SubscribeRequest(Some(t), UrlBody(u2), 6, None, NoFault),
      Outcome(Reply(200, CreatedBody(Str(u1), t)), []),
      Outcome(Reply(200, ErrorBody(AlreadyExistsMessage)), []),
      Outcome(Reply(200, CreatedBody(Str(u2), t)), []),
      StoreState([Subscription(0, t, u1, 4, 4), Subscription(1, t, u2, 6, 6)], 2, true));
  }

  /** The suite with its own topic and urls. */
  lemma SubscribeSuite(t: string, u1: string, u2: string, bad: string)
    requires t == SubscribeTopic && u1 == ValidUrlOne && u2 == ValidUrlTwo && bad == MalformedUrl
    ensures Run(Connected(), [SubscribeRequest(Some(t), Obj(map[]), 1, None, NoFault),
                              SubscribeRequest(Some(t), UrlBody(""), 2, None, NoFault),
                              SubscribeRequest(Some(t), UrlBody(bad), 3, None, NoFault),
                              SubscribeRequest(Some(t), UrlBody(u1), 4, None, NoFault),
                              SubscribeRequest(Some(t), UrlBody(u1), 5, None, NoFault),
                              SubscribeRequest(Some(t), UrlBody(u2), 6, None, NoFault)]) ==
            ([Outcome(Reply(400, ErrorBody(BodyBlankMessage)), []),
              Outcome(Reply(400, ErrorBody(UrlBlankMessage)), []),
              Outcome(Reply(400, ErrorBody(UrlInvalidMessage)), []),
              Outcome(Reply(200, CreatedBody(Str(u1), t)), []),
              Outcome(Reply(200, ErrorBody(AlreadyExistsMessage)), []),
              Outcome(Reply(200, CreatedBody(Str(u2), t)), [])],
             StoreState([Subscription(0, t, u1, 4, 4), Subscription(1, t, u2, 6, 6)], 2, true))
  {
    SuiteUrlsValid(u1, u2, ValidUrlThree);
    Util.TestStringRejected();
    SubscribeSuiteRun(t, u1, u2, bad);
  }

  /** The three valid urls of the suites pass the URL check. */
  lemma SuiteUrlsValid(u1: string, u2: string, u3: string)
    requires u1 == ValidUrlOne && u2 == ValidUrlTwo && u3 == ValidUrlThree
    ensures Util.IsValidHttpUrl(u1) && Util.IsValidHttpUrl(u2) && Util.IsValidHttpUrl(u3)
    ensures u1 != u2 && u1 != u3 && u2 != u3
  {
    Util.TestUrlOneAccepted(u1);
    Util.TestUrlTwoAccepted(u2);
    Util.TestUrlThreeAccepted(u3);
    assert |u1| != |u2| && |u1| != |u3| && |u2| != |u3|;
  }

  /** The sample body of test/publish.test.js:32-38. */
  const SampleData := Obj(map["key" := Str("Sample Data"),
                              "data" := Obj(map["where" := Str("there"), "in" := Arr([Num(1), Num(2), Num(3)])])])

  /** The documents of three stored ones that a topic selects, in order. */
  lemma MatchingOfThree(x: Subscription, y: Subscription, z: Subscription, t: string)
    ensures Matching([x, y, z], TopicQuery(t)) ==
              (if x.topic == t then [x] else []) + (if y.topic == t then [y] else []) + (if z.topic == t then [z] else [])
  {
    var q := TopicQuery(t);
    MatchingAppend([], x, q);
    MatchingAppend([x], y, q);
    MatchingAppend([x, y], z, q);
    assert [] + [x] == [x] && [x] + [y] == [x, y] && [x, y] + [z] == [x, y, z];
  }

  /** The deliveries for one or two documents, written out. */
  lemma DeliveriesOfTwo(x: Subscription, y: Subscription, data: Json)
    ensures Deliveries([x], data) == [Delivery(x.url, data)]
    ensures Deliveries([x, y], data) == [Delivery(x.url, data), Delivery(y.url, data)]
  {
  }

  /** The documents of three stored ones that a topic selects, in the three
      cases the publish suite meets. */
  lemma MatchingCases(x: Subscription, y: Subscription, z: Subscription, t: string)
    ensures x.topic != t && y.topic != t && z.topic != t ==> Matching([x, y, z], TopicQuery(t)) == []
    ensures x.topic != t && y.topic != t && z.topic == t ==> Matching([x, y, z], TopicQuery(t)) == [z]
    ensures x.topic == t && y.topic == t && z.topic != t ==> Matching([x, y, z], TopicQuery(t)) == [x, y]
  {
    MatchingOfThree(x, y, z, t);
    assert [] + [] + [z] == [z];
    assert [x] + [y] + [] == [x, y];
  }

  /** test/publish.test.js:91-101: a topic none of the three documents has. */
  lemma PublishToNone(x: Subscription, y: Subscription, z: Subscription, t: string, body: Json)
    requires t != "" && IsPlainObject(body) && x.topic != t && y.topic != t && z.topic != t
    ensures Handle(StoreState([x, y, z], 3, true), PublishRequest(Some(t), body, None)) ==
              (Outcome(Reply(200, PublishedBody(0, Payload(t, body))), []), StoreState([x, y, z], 3, true))
  {
    MatchingCases(x, y, z, t);
    PublishToTopic(StoreState([x, y, z], 3, true), t, body, []);
  }

  /** test/publish.test.js:103-113: a topic only the last document has. */
  lemma PublishToOne(x: Subscription, y: Subscription, z: Subscription, t: string, body: Json)
    requires t != "" && IsPlainObject(body) && x.topic != t && y.topic != t && z.topic == t
    ensures Handle(StoreState([x, y, z], 3, true), PublishRequest(Some(t), body, None)) ==
              (Outcome(Reply(200, PublishedBody(1, Payload(t, body))), [Delivery(z.url, Payload(t, body))]),
               StoreState([x, y, z], 3, true))
  {
    MatchingCases(x, y, z, t);
    DeliveriesOfTwo(z, z, Payload(t, body));
    PublishToTopic(StoreState([x, y, z], 3, true), t, body, [z]);
  }

  /** test/publish.test.js:115-125: a topic the first two documents have. */
  lemma PublishToTwo(x: Subscription, y: Subscription, z: Subscription, t: string, body: Json)
    requires t != "" && IsPlainObject(body) && x.topic == t && y.topic == t && z.topic != t
    ensures Handle(StoreState([x, y, z], 3, true), PublishRequest(Some(t), body, None)) ==
              (Outcome(Reply(200, PublishedBody(2, Payload(t, body))),
                       [Delivery(x.url, Payload(t, body)), Delivery(y.url, Payload(t, body))]),
               StoreState([x, y, z], 3, true))
  {
    MatchingCases(x, y, z, t);
    DeliveriesOfTwo(x, y, Payload(t, body));
    PublishToTopic(StoreState([x, y, z], 3, true), t, body, [x, y]);
  }

  /** test/publish.test.js:49-89: two urls for one topic, then one for another. */
  lemma PublishSuiteSubscriptions(multi: string, one: string, u1: string, u2: string, u3: string)
    requires multi != "" && one != "" && multi != one
    requires Util.IsValidHttpUrl(u1) && Util.IsValidHttpUrl(u2) && Util.IsValidHttpUrl(u3) && u1 != u2
    ensures Run(Connected(), [SubscribeRequest(Some(multi), UrlBody(u1), 1, None, NoFault),
                              SubscribeRequest(Some(multi), UrlBody(u2), 2, None, NoFault),
                              SubscribeRequest(Some(one), UrlBody(u3), 3, None, NoFault)]) ==
            ([Outcome(Reply(200, CreatedBody(Str(u1), multi)), []),
              Outcome(Reply(200, CreatedBody(Str(u2), multi)), []),
              Outcome(Reply(200, CreatedBody(Str(u3), one)), [])],
             StoreState([Subscription(0, multi, u1, 1, 1), Subscription(1, multi, u2, 2, 2),
                         Subscription(2, one, u3, 3, 3)], 3, true))
  {
    var x := Subscription(0, multi, u1, 1, 1);
    var y := Subscription(1, multi, u2, 2, 2);
    SubscribeFirst(multi, u1, 1);
    SubscribeSecond(x, multi, u2, 2);
    SubscribeThird(x, y, one, u3, 3);
    RunOfThree(Connected(), SubscribeRequest(Some(multi), UrlBody(u1), 1, None, NoFault), Outcome(Reply(200, CreatedBody(Str(u1), multi)), []),
               StoreState([x], 1, true), SubscribeRequest(Some(multi), UrlBody(u2), 2, None, NoFault), Outcome(Reply(200, CreatedBody(Str(u2), multi)), []),
               StoreState([x, y], 2, true), SubscribeRequest(Some(one), UrlBody(u3), 3, None, NoFault), Outcome(Reply(200, CreatedBody(Str(u3), one)), []),
               StoreState([x, y, Subscription(2, one, u3, 3, 3)], 3, true));
  }

  /** test/publish.test.js:91-125: publishing to topics with 0, 1 and 2 subscribers. */
  lemma PublishSuitePublishes(x: Subscription, y: Subscription, z: Subscription,
                              multi: string, one: string, none: string, body: Json)
    requires x.topic == multi && y.topic == multi && z.topic == one
    requires one != "" && multi != "" && none != "" && multi != one && none != multi && none != one
    requires IsPlainObject(body)
    ensures var st := StoreState([x, y, z], 3, true);
            Run(st, [PublishRequest(Some(none), body, None),
                     PublishRequest(Some(one), body, None),
                     PublishRequest(Some(multi), body, None)]) ==
            ([Outcome(Reply(200, PublishedBody(0, Payload(none, body))), []),
              Outcome(Reply(200, PublishedBody(1, Payload(one, body))), [Delivery(z.url, Payload(one, body))]),
              Outcome(Reply(200, PublishedBody(2, Payload(multi, body))),
                      [Delivery(x.url, Payload(multi, body)), Delivery(y.url, Payload(multi, body))])], st)
  {
    var st := StoreState([x, y, z], 3, true);
    PublishToNone(x, y, z, none, body);
    PublishToOne(x, y, z, one, body);
    PublishToTwo(x, y, z, multi, body);
    RunOfThree(st, PublishRequest(Some(none), body, None), Outcome(Reply(200, PublishedBody(0, Payload(none, body))), []),
               st, PublishRequest(Some(one), body, None),
               Outcome(Reply(200, PublishedBody(1, Payload(one, body))), [Delivery(z.url, Payload(one, body))]),
               st, PublishRequest(Some(multi), body, None),
               Outcome(Reply(200, PublishedBody(2, Payload(multi, body))),
                       [Delivery(x.url, Payload(multi, body)), Delivery(y.url, Payload(multi, body))]),
               st);
  }

  /**
   * test/publish.test.js:39-125 on a freshly connected store: an array body,
   * the three subscriptions, then a publish to a topic with no subscriber,
   * to the topic with one and to the topic with two. Only the last two hand
   * the payload on, to the subscribed urls in the order they subscribed.
   */
  lemma PublishSuiteRun(multi: string, one: string, none: string, u1: string, u2: string, u3: string, body: Json)
    requires multi != "" && one != "" && none != "" && multi != one && none != multi && none != one
    requires Util.IsValidHttpUrl(u1) && Util.IsValidHttpUrl(u2) && Util.IsValidHttpUrl(u3) && u1 != u2
    requires IsPlainObject(body)
    ensures Run(Connected(), [PublishRequest(Some(multi), Arr([]), None),
                              SubscribeRequest(Some(multi), UrlBody(u1), 1, None, NoFault),
                              SubscribeRequest(Some(multi), UrlBody(u2), 2, None, NoFault),
                              SubscribeRequest(Some(one), UrlBody(u3), 3, None, NoFault),
                              PublishRequest(Some(none), body, None),
                              PublishRequest(Some(one), body, None),
                              PublishRequest(Some(multi), body, None)]) ==
            ([Outcome(Reply(400, ErrorBody(PublisherController.InvalidBodyMessage)), []),
              Outcome(Reply(200, CreatedBody(Str(u1), multi)), []),
              Outcome(Reply(200, CreatedBody(Str(u2), multi)), []),
              Outcome(Reply(200, CreatedBody(Str(u3), one)), []),
              Outcome(Reply(200, PublishedBody(0, Payload(none, body))), []),
              Outcome(Reply(200, PublishedBody(1, Payload(one, body))), [Delivery(u3, Payload(one, body))]),
              Outcome(Reply(200, PublishedBody(2, Payload(multi, body))),
                      [Delivery(u1, Payload(multi, body)), Delivery(u2, Payload(multi, body))])],
             StoreState([Subscription(0, multi, u1, 1, 1), Subscription(1, multi, u2, 2, 2),
                         Subscription(2, one, u3, 3, 3)], 3, true))
  {
    var x := Subscription(0, multi, u1, 1, 1);
    var y := Subscription(1, multi, u2, 2, 2);
    var z := Subscription(2, one, u3, 3, 3);
    var st := StoreState([x, y, z], 3, true);
    PublishArrayBody(Connected(), multi);
    PublishSuiteSubscriptions(multi, one, u1, u2, u3);
    PublishSuitePublishes(x, y, z, multi, one, none, body);
    RunOfThreeThenThree(
      Connected(),
      SubscribeRequest(Some(multi), UrlBody(u1), 1, None, NoFault),
      SubscribeRequest(Some(multi), UrlBody(u2), 2, None, NoFault),
      SubscribeRequest(Some(one), UrlBody(u3), 3, None, NoFault),
      Outcome(Reply(200, CreatedBody(Str(u1), multi)), []),
      Outcome(Reply(200, CreatedBody(Str(u2), multi)), []),
      Outcome(Reply(200, CreatedBody(Str(u3), one)), []),
      st,
      PublishRequest(Some(none), body, None),
      PublishRequest(Some(one), body, None),
      PublishRequest(Some(multi), body, None),
      Outcome(Reply(200, PublishedBody(0, Payload(none, body))), []),
      Outcome(Reply(200, PublishedBody(1, Payload(one, body))), [Delivery(u3, Payload(one, body))]),
      Outcome(Reply(200, PublishedBody(2, Payload(multi, body))),
              [Delivery(u1, Payload(multi, body)), Delivery(u2, Payload(multi, body))]),
      st);
    RunOfOneThenSix(
      Connected(), PublishRequest(Some(multi), Arr([]), None),
      Outcome(Reply(400, ErrorBody(PublisherController.InvalidBodyMessage)), []), Connected(),
      SubscribeRequest(Some(multi), UrlBody(u1), 1, None, NoFault),
      SubscribeRequest(Some(multi), UrlBody(u2), 2, None, NoFault),
      SubscribeRequest(Some(one), UrlBody(u3), 3, None, NoFault),
      PublishRequest(Some(none), body, None),
      PublishRequest(Some(one), body, None),
      PublishRequest(Some(multi), body, None),
      Outcome(Reply(200, CreatedBody(Str(u1), multi)), []),
      Outcome(Reply(200, CreatedBody(Str(u2), multi)), []),
      Outcome(Reply(200, CreatedBody(Str(u3), one)), []),
      Outcome(Reply(200, PublishedBody(0, Payload(none, body))), []),
      Outcome(Reply(200, PublishedBody(1, Payload(one, body))), [Delivery(u3, Payload(one, body))]),
      Outcome(Reply(200, PublishedBody(2, Payload(multi, body))),
              [Delivery(u1, Payload(multi, body)), Delivery(u2, Payload(multi, body))]),
      st);
  }

  const MultipleSubscriberTopic := "multipleSubscriberTopic"
  const OneSubscriberTopic := "oneSubscriberTopic"
  const NoSubscriberTopic := "noSubscriberTopic"

  /** The sample body is a plain object. */
  lemma SampleDataIsPlain(body: Json)
    requires body == SampleData
    ensures IsPlainObject(body)
  {
    var keys := body.fields.Keys;
    assert keys == {"key", "data"};
    assert "constructor" != "key" && "constructor" != "data" by {
      assert |"constructor"| != |"key"| && |"constructor"| != |"data"|;
    }
  }

  /** The suite with its own topics, urls and sample body. */
  lemma PublishSuite(multi: string, one: string, none: string, u1: string, u2: string, u3: string, body: Json)
    requires multi == MultipleSubscriberTopic && one == OneSubscriberTopic && none == NoSubscriberTopic
    requires u1 == ValidUrlOne && u2 == ValidUrlTwo && u3 == ValidUrlThree && body == SampleData
    ensures Run(Connected(), [PublishRequest(Some(multi), Arr([]), None),
                              SubscribeRequest(Some(multi), UrlBody(u1), 1, None, NoFault),
                              SubscribeRequest(Some(multi), UrlBody(u2), 2, None, NoFault),
                              SubscribeRequest(Some(one), UrlBody(u3), 3, None, NoFault),
                              PublishRequest(Some(none), body, None),
                              PublishRequest(Some(one), body, None),
                              PublishRequest(Some(multi), body, None)]) ==
            ([Outcome(Reply(400, ErrorBody(PublisherController.InvalidBodyMessage)), []),
              Outcome(Reply(200, CreatedBody(Str(u1), multi)), []),
              Outcome(Reply(200, CreatedBody(Str(u2), multi)), []),
              Outcome(Reply(200, CreatedBody(Str(u3), one)), []),
              Outcome(Reply(200, PublishedBody(0, Payload(none, body))), []),
              Outcome(Reply(200, PublishedBody(1, Payload(one, body))), [Delivery(u3, Payload(one, body))]),
              Outcome(Reply(200, PublishedBody(2, Payload(multi, body))),
                      [Delivery(u1, Payload(multi, body)), Delivery(u2, Payload(multi, body))])],
             StoreState([Subscription(0, multi, u1, 1, 1), Subscription(1, multi, u2, 2, 2),
                         Subscription(2, one, u3, 3, 3)], 3, true))
  {
    SuiteUrlsValid(u1, u2, u3);
    SampleDataIsPlain(body);
    assert |multi| != |one| && |none| != |multi| && |none| != |one|;
    PublishSuiteRun(multi, one, none, u1, u2, u3, body);
  }
}
