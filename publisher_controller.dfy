/**
 * `PublisherController.publish` (src/api/publisher_controller.js): the
 * handler of `POST /publish/:topic`. It validates the topic and the body,
 * looks up the topic's subscribers, wraps the body as `{topic, data}`, hands
 * one delivery per subscriber to `async.map` and answers with the number of
 * deliveries at once, without waiting for them.
 *
 * `PublishStep` specifies one request on a `StoreState` and returns the reply
 * together with the deliveries handed on; the method `Publish` runs it
 * against a `SubscriptionDao` object, which it does not change.
 */
module PublisherController {
  import opened Wrappers
  import opened Js
  import opened Http
  import opened Dao

  const InvalidBodyMessage := "Invalid request body."
  const LookupFailedMessage := "Finding subscribers to publish to failed!"

  /** One POST that `async.map` hands to `doHttpPost`: `{url, body}`. */
  datatype Delivery = Delivery(url: string, body: Json)

  /** The payload `{topic, data: body}` sent to every subscriber and echoed back. */
  function Payload(topic: string, body: Json): (p: Json)
    ensures p.Obj? && p.fields.Keys == {"topic", "data"}
    ensures p.fields["topic"] == Str(topic) && p.fields["data"] == body
  {
    Obj(map["topic" := Str(topic), "data" := body])
  }

  /** `subscriptions.data.map(s => ({url: s.url, body: data}))`. */
  function Deliveries(subs: seq<Subscription>, data: Json): (plan: seq<Delivery>)
    ensures |plan| == |subs|
    ensures forall i :: 0 <= i < |subs| ==> plan[i].url == subs[i].url && plan[i].body == data
  {
    seq(|subs|, i requires 0 <= i < |subs| => Delivery(subs[i].url, data))
  }

  /** `Publish to ${n} subscriber(s) completed!`. */
  function StatusMessage(n: nat): (s: string)
    ensures |s| == 36 + |Decimal(n)|
    ensures s[..11] == "Publish to " && s[|s| - 25..] == " subscriber(s) completed!"
    ensures s[11..|s| - 25] == Decimal(n)
  {
    var s := "Publish to " + Decimal(n) + " subscriber(s) completed!";
    assert s[..11] == "Publish to ";
    assert s[11..|s| - 25] == Decimal(n);
    s
  }

  /** The success body `{status, data}`. */
  function PublishedBody(n: nat, data: Json): (b: Json)
    ensures b.Obj? && b.fields.Keys == {"status", "data"}
    ensures b.fields["status"] == Str(StatusMessage(n)) && b.fields["data"] == data
  {
    Obj(map["status" := Str(StatusMessage(n)), "data" := data])
  }

  /** The query of `findSubscriptions(topic)`: the url key is left unset. */
  function TopicQuery(topic: string): Query
  {
    Query(Some(topic), None)
  }

  /**
   * One `publish` request on the store `st`, where `storeError` is a failure
   * of the lookup's `find`: the reply and the deliveries handed to
   * `async.map` (none unless the reply is the success reply).
   */
  function PublishStep(st: StoreState, topic: Option<string>, body: Json, storeError: Option<string>)
    : (r: (Reply, seq<Delivery>))
    ensures TopicBlank(topic) ==> r == (TopicRejection(), [])
    ensures !TopicBlank(topic) && !IsPlainObject(body) ==> r == (Reply(400, ErrorBody(InvalidBodyMessage)), [])
    ensures !TopicBlank(topic) && IsPlainObject(body) && (!st.initialised || storeError.Some?) ==>
              r == (Reply(500, Str(LookupFailedMessage)), [])
    ensures r.0.Reply? && r.0.status == 200 <==>
              !TopicBlank(topic) && IsPlainObject(body) && st.initialised && storeError.None?
    ensures r.0.Reply? && r.0.status == 200 ==>
              r.0 == Reply(200, PublishedBody(|r.1|, Payload(topic.value, body)))
    ensures forall d :: d in r.1 ==>
              d.body == Payload(topic.value, body) &&
              exists x :: x in st.records && x.topic == topic.value && x.url == d.url
  {
    if TopicBlank(topic) then (TopicRejection(), [])
    else if !IsPlainObject(body) then (Reply(400, ErrorBody(InvalidBodyMessage)), [])
    else match Find(st, topic, None, storeError)
      case Error(_) => (Reply(500, Str(LookupFailedMessage)), [])
      case Data(subs) =>
        var data := Payload(topic.value, body);
        var plan := Deliveries(subs, data);
        assert forall d :: d in plan ==> exists x :: x in subs && x.url == d.url by {
          forall d | d in plan ensures exists x :: x in subs && x.url == d.url {
            var i :| 0 <= i < |plan| && plan[i] == d;
            assert subs[i] in subs;
          }
        }
        (Reply(200, PublishedBody(|plan|, data)), plan)
  }

  // ---------------------------------------------------------------------
  // Properties

  /** Matching keeps pairs unique, so at most one document per url for a topic. */
  lemma {:induction false} MatchingKeepsNoDuplicates(rs: seq<Subscription>, q: Query)
    requires NoDuplicatePairs(rs)
    ensures NoDuplicatePairs(Matching(rs, q))
    decreases |rs|
  {
    if rs != [] {
      var init := rs[..|rs| - 1];
      var last := rs[|rs| - 1];
      assert NoDuplicatePairs(init) by {
        forall i, j | 0 <= i < j < |init| ensures !(init[i].topic == init[j].topic && init[i].url == init[j].url) {
          assert init[i] == rs[i] && init[j] == rs[j];
        }
      }
      MatchingKeepsNoDuplicates(init, q);
      var m := Matching(init, q);
      if Matches(last, q) {
        forall i, j | 0 <= i < j < |m + [last]|
          ensures !((m + [last])[i].topic == (m + [last])[j].topic && (m + [last])[i].url == (m + [last])[j].url)
        {
          if j == |m| {
            assert m[i] in init;
            var k :| 0 <= k < |init| && init[k] == m[i];
            assert rs[k] == m[i] && rs[|rs| - 1] == last;
          } else {
            assert (m + [last])[i] == m[i] && (m + [last])[j] == m[j];
          }
        }
      }
    }
  }

  /** A successful publish hands exactly one delivery to every subscriber of
      the topic, in store order, and reports their number. */
  lemma PublishReachesSubscribers(st: StoreState, topic: string, body: Json)
    requires topic != "" && IsPlainObject(body) && st.initialised
    ensures var subs := Matching(st.records, TopicQuery(topic));
            var r := PublishStep(st, Some(topic), body, None);
            r.1 == Deliveries(subs, Payload(topic, body)) &&
            r.0 == Reply(200, PublishedBody(|subs|, Payload(topic, body)))
    ensures forall x :: x in st.records && x.topic == topic ==>
              Delivery(x.url, Payload(topic, body)) in PublishStep(st, Some(topic), body, None).1
  {
    var subs := Matching(st.records, TopicQuery(topic));
    var plan := Deliveries(subs, Payload(topic, body));
    forall x | x in st.records && x.topic == topic
      ensures Delivery(x.url, Payload(topic, body)) in plan
    {
      assert Matches(x, TopicQuery(topic));
      var i :| 0 <= i < |subs| && subs[i] == x;
      assert plan[i] == Delivery(x.url, Payload(topic, body));
    }
  }

  /** With unique topic-url pairs no subscriber gets the same publish twice. */
  lemma PublishDeliversOnce(st: StoreState, topic: string, body: Json, storeError: Option<string>)
    requires NoDuplicatePairs(st.records)
    ensures var plan := PublishStep(st, Some(topic), body, storeError).1;
            forall i, j :: 0 <= i < j < |plan| ==> plan[i].url != plan[j].url
  {
    var plan := PublishStep(st, Some(topic), body, storeError).1;
    if plan != [] {
      var subs := Matching(st.records, TopicQuery(topic));
      MatchingKeepsNoDuplicates(st.records, TopicQuery(topic));
      forall i, j | 0 <= i < j < |plan| ensures plan[i].url != plan[j].url {
        assert subs[i] in subs && subs[j] in subs;
        assert subs[i].topic == topic && subs[j].topic == topic;
      }
    }
  }

  /** The status text tells different subscriber counts apart. */
  lemma StatusMessageInjective(m: nat, n: nat)
    requires StatusMessage(m) == StatusMessage(n)
    ensures m == n
  {
    var a := StatusMessage(m);
    assert |a| == 36 + |Decimal(m)| && |a| == 36 + |Decimal(n)|;
    assert Decimal(m) == a[11..|a| - 25] == Decimal(n);
    DecimalInjective(m, n);
  }

  /** The status text for no subscribers. */
  lemma StatusMessageZero()
    ensures StatusMessage(0) == "Publish to 0 subscriber(s) completed!"
  {
    assert Decimal(0) == "0";
    assert "Publish to " + "0" + " subscriber(s) completed!" == "Publish to 0 subscriber(s) completed!";
  }

  /** A topic nobody subscribed to: status "Publish to 0 subscriber(s) completed!" and no deliveries. */
  lemma PublishWithoutSubscribers(st: StoreState, topic: string, body: Json)
    requires topic != "" && IsPlainObject(body) && st.initialised
    requires forall x :: x in st.records ==> x.topic != topic
    ensures var r := PublishStep(st, Some(topic), body, None);
            r == (Reply(200, PublishedBody(0, Payload(topic, body))), []) &&
            r.0.body.fields["status"] == Str("Publish to 0 subscriber(s) completed!")
  {
    NoneMatch(st.records, TopicQuery(topic));
    StatusMessageZero();
    var r := PublishStep(st, Some(topic), body, None);
    assert r.1 == Deliveries([], Payload(topic, body)) == [];
  }

  /** An array body, whose constructor is `Array`, is rejected. */
  lemma ArrayBodyRejected(st: StoreState, topic: string, items: seq<Json>, storeError: Option<string>)
    requires topic != ""
    ensures PublishStep(st, Some(topic), Arr(items), storeError) == (Reply(400, ErrorBody(InvalidBodyMessage)), [])
  {
  }

  /** An object body with its own "constructor" key is rejected like a non-object. */
  lemma ConstructorKeyRejected(st: StoreState, topic: string, body: Json, storeError: Option<string>)
    requires topic != "" && body.Obj? && "constructor" in body.fields
    ensures PublishStep(st, Some(topic), body, storeError) == (Reply(400, ErrorBody(InvalidBodyMessage)), [])
  {
  }

  // ---------------------------------------------------------------------
  // The handler against the DAO object

  /** `publish(req, resp)`: the reply it sends and the deliveries it hands to
      `async.map`. The DAO is only read. */
  method Publish(dao: SubscriptionDao, topic: Option<string>, body: Json, storeError: Option<string>)
    returns (reply: Reply, plan: seq<Delivery>)
    ensures (reply, plan) == PublishStep(dao.State(), topic, body, storeError)
  {
    if TopicBlank(topic) {
      return TopicRejection(), [];
    }
    if !IsPlainObject(body) {
      return Reply(400, ErrorBody(InvalidBodyMessage)), [];
    }
    var subscriptions := dao.FindSubscriptions(topic, None, storeError);
    if subscriptions.Error? {
      return Reply(500, Str(LookupFailedMessage)), [];
    }
    var data := Payload(topic.value, body);
    plan := Deliveries(subscriptions.data, data);
    reply := Reply(200, PublishedBody(|plan|, data));
  }
}
