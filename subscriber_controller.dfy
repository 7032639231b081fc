/**
 * `SubscriberController.subscribe` (src/api/subscriber_controller.js): the
 * handler of `POST /subscribe/:topic`. It validates the topic, the body and
 * its `url`, asks the DAO whether the topic-url pair is already stored, and
 * stores it if not.
 *
 * `SubscribeStep` specifies one request on a `StoreState`; the method
 * `Subscribe` runs the same steps against a `SubscriptionDao` object and is
 * proved against it.
 */
module SubscriberController {
  import opened Wrappers
  import opened Js
  import opened Http
  import opened Dao
  import Util

  const BodyBlankMessage := "Request body cannot be blank nor empty."
  const UrlBlankMessage := "URL cannot be blank."
  const UrlInvalidMessage := "Invalid URL provided."
  const VerifyFailedMessage := "Could not verify subscription"
  const AlreadyExistsMessage := "Subscription already exists!"
  const CreateFailedMessage := "Subscription could not be created"

  /** The outcome of the request checks: a reply, or the url value from the
      body together with the string it converts to. */
  datatype Checked = Rejected(reply: Reply) | Accepted(url: Json, urlText: string)

  /** `!requestBody || Object.keys(requestBody).length < 1`. */
  predicate BodyBlank(body: Json)
  {
    !Truthy(body) || KeyCount(body) < 1
  }

  /** The checks of the topic, the body and `requestBody.url`, in order. */
  function Validate(topic: Option<string>, body: Json): (c: Checked)
    ensures TopicBlank(topic) ==> c == Rejected(TopicRejection())
    ensures !TopicBlank(topic) && BodyBlank(body) ==> c == Rejected(Reply(400, ErrorBody(BodyBlankMessage)))
    ensures !TopicBlank(topic) && !BodyBlank(body) &&
            (Property(body, "url").None? || !Truthy(Property(body, "url").value)) ==>
              c == Rejected(Reply(400, ErrorBody(UrlBlankMessage)))
    ensures !TopicBlank(topic) && !BodyBlank(body) && Property(body, "url").Some? &&
            Truthy(Property(body, "url").value) && Util.IsValidHttpUrlOf(Property(body, "url").value) == Normal(false) ==>
              c == Rejected(Reply(400, ErrorBody(UrlInvalidMessage)))
    ensures c == Rejected(Unanswered) <==>
              !TopicBlank(topic) && !BodyBlank(body) && Property(body, "url").Some? &&
              Util.IsValidHttpUrlOf(Property(body, "url").value).Throw?
    ensures c.Accepted? <==>
              !TopicBlank(topic) && !BodyBlank(body) && Property(body, "url").Some? &&
              Util.IsValidHttpUrlOf(Property(body, "url").value) == Normal(true)
    ensures c.Accepted? ==>
              Property(body, "url") == Some(c.url) && ToJsString(c.url) == Some(c.urlText) &&
              Util.IsValidHttpUrl(c.urlText)
  {
    if TopicBlank(topic) then Rejected(TopicRejection())
    else if BodyBlank(body) then Rejected(Reply(400, ErrorBody(BodyBlankMessage)))
    else match Property(body, "url")
      case None => Rejected(Reply(400, ErrorBody(UrlBlankMessage)))
      case Some(url) =>
        if !Truthy(url) then Rejected(Reply(400, ErrorBody(UrlBlankMessage)))
        else match Util.IsValidHttpUrlOf(url)
          case Throw(_) => Rejected(Unanswered)
          case Normal(false) => Rejected(Reply(400, ErrorBody(UrlInvalidMessage)))
          case Normal(true) => Accepted(url, ToJsString(url).value)
  }

  /** The success body `{url, topic}`, echoing the url value of the request. */
  function CreatedBody(url: Json, topic: string): (b: Json)
    ensures b.Obj? && b.fields.Keys == {"url", "topic"}
    ensures b.fields["url"] == url && b.fields["topic"] == Str(topic)
  {
    Obj(map["url" := url, "topic" := Str(topic)])
  }

  /** The reply to the outcome of `addSubscription`: 500 when it threw, the
      DAO's error when it has a truthy one, else the success body. */
  function InsertReply(outcome: Completion<DaoResponse<Option<Subscription>>>, url: Json, topic: string): (r: Reply)
    ensures outcome.Throw? ==> r == Reply(500, ErrorBody(CreateFailedMessage))
    ensures outcome.Normal? && outcome.value.Data? ==> r == Reply(200, CreatedBody(url, topic))
    ensures outcome.Normal? && outcome.value.Error? ==>
              r == if outcome.value.error != "" then Reply(200, ErrorBody(outcome.value.error))
                   else Reply(200, CreatedBody(url, topic))
  {
    match outcome
    case Throw(_) => Reply(500, ErrorBody(CreateFailedMessage))
    case Normal(Error(e)) => if e != "" then Reply(200, ErrorBody(e)) else Reply(200, CreatedBody(url, topic))
    case Normal(Data(_)) => Reply(200, CreatedBody(url, topic))
  }

  /**
   * The lookup and the insert, once the checks have accepted the topic `t`
   * and the url value `url` with string form `u`: `now` is the insert's
   * timestamp, `storeError` a failure of the lookup's `find`, `fault` a
   * failure of the insert's store calls.
   */
  function Proceed(st: StoreState, t: string, url: Json, u: string, now: int,
                   storeError: Option<string>, fault: InsertFault): (r: (Reply, StoreState))
    ensures r.1.initialised == st.initialised
    ensures !st.initialised || storeError.Some? ==> r == (Reply(500, Str(VerifyFailedMessage)), st)
    ensures |st.records| <= |r.1.records| <= |st.records| + 1
    ensures r.1.records[..|st.records|] == st.records
    ensures |r.1.records| == |st.records| + 1 ==>
              r.1.records[|st.records|] == Subscription(st.nextId, t, u, now, now) &&
              forall y :: y in st.records ==> !(y.topic == t && y.url == u)
  {
    match Find(st, Some(t), Some(u), storeError)
    case Error(_) => (Reply(500, Str(VerifyFailedMessage)), st)
    case Data(existing) =>
      if |existing| != 0 then (Reply(200, ErrorBody(AlreadyExistsMessage)), st)
      else
        assert forall y :: y in st.records ==> !Matches(y, Query(Some(t), Some(u)));
        var a := Add(st, Some(t), Some(u), now, fault);
        (InsertReply(a.outcome, url, t), a.state)
  }

  /** One `subscribe` request on the store `st`. */
  function SubscribeStep(st: StoreState, topic: Option<string>, body: Json, now: int,
                         storeError: Option<string>, fault: InsertFault): (r: (Reply, StoreState))
    ensures !Validate(topic, body).Accepted? ==> r == (Validate(topic, body).reply, st)
    ensures Validate(topic, body).Accepted? ==>
              r == Proceed(st, topic.value, Validate(topic, body).url, Validate(topic, body).urlText, now, storeError, fault)
  {
    match Validate(topic, body)
    case Rejected(reply) => (reply, st)
    case Accepted(url, u) => Proceed(st, topic.value, url, u, now, storeError, fault)
  }

  /** Every stored subscription has a non-blank topic and a valid http(s) url. */
  predicate AllValid(rs: seq<Subscription>)
  {
    forall i :: 0 <= i < |rs| ==> rs[i].topic != "" && Util.IsValidHttpUrl(rs[i].url)
  }

  /** The store invariant the handler keeps. */
  predicate Inv(st: StoreState)
  {
    WellFormed(st) && NoDuplicatePairs(st.records) && AllValid(st.records)
  }

  // ---------------------------------------------------------------------
  // Properties of the lookup and insert

  /** Appending a document whose pair is new keeps pairs unique. */
  lemma AppendKeepsNoDuplicates(rs: seq<Subscription>, x: Subscription)
    requires NoDuplicatePairs(rs)
    requires forall y :: y in rs ==> !(y.topic == x.topic && y.url == x.url)
    ensures NoDuplicatePairs(rs + [x])
  {
    var rs' := rs + [x];
    forall i, j | 0 <= i < j < |rs'| ensures !(rs'[i].topic == rs'[j].topic && rs'[i].url == rs'[j].url) {
      if j == |rs| {
        assert rs'[i] == rs[i];
        assert rs[i] in rs;
      }
    }
  }

  /** The lookup and insert keep ids and topic-url pairs unique, whatever the
      store's failures. */
  lemma ProceedKeepsUnique(st: StoreState, t: string, url: Json, u: string, now: int,
                           storeError: Option<string>, fault: InsertFault)
    requires WellFormed(st) && NoDuplicatePairs(st.records)
    ensures var st' := Proceed(st, t, url, u, now, storeError, fault).1;
            WellFormed(st') && NoDuplicatePairs(st'.records)
  {
    var st' := Proceed(st, t, url, u, now, storeError, fault).1;
    AddKeepsWellFormed(st, Some(t), Some(u), now, fault);
    if |st'.records| == |st.records| + 1 {
      var x := st'.records[|st.records|];
      assert st'.records == st.records + [x];
      AppendKeepsNoDuplicates(st.records, x);
    } else {
      assert st'.records == st.records;
    }
  }

  /** A pair not yet stored, on a bound and working store: 200 `{url, topic}`
      and the new document appended with the next id. */
  lemma ProceedNewPair(st: StoreState, t: string, url: Json, u: string, now: int)
    requires WellFormed(st) && st.initialised && t != "" && u != ""
    requires forall y :: y in st.records ==> !(y.topic == t && y.url == u)
    ensures Proceed(st, t, url, u, now, None, NoFault) ==
              (Reply(200, CreatedBody(url, t)),
               StoreState(st.records + [Subscription(st.nextId, t, u, now, now)], st.nextId + 1, true))
  {
    var q := Query(Some(t), Some(u));
    NoneMatch(st.records, q);
    assert Find(st, Some(t), Some(u), None) == Data([]);
    var x := Subscription(st.nextId, t, u, now, now);
    var a := Add(st, Some(t), Some(u), now, NoFault);
    assert a.state == StoreState(st.records + [x], st.nextId + 1, true);
    assert a.outcome == Normal(Data(Some(x)));
  }

  /** A pair already stored answers "already exists" and changes nothing. */
  lemma ProceedExisting(st: StoreState, t: string, url: Json, u: string, now: int,
                        fault: InsertFault, x: Subscription)
    requires st.initialised && x in st.records && x.topic == t && x.url == u
    ensures Proceed(st, t, url, u, now, None, fault) == (Reply(200, ErrorBody(AlreadyExistsMessage)), st)
  {
    assert Matches(x, Query(Some(t), Some(u)));
  }

  /**
   * A failure of `findOne` after the insert makes the handler answer 500
   * "could not be created" although the subscription is stored; a failure of
   * `insertOne` answers the same and stores nothing.
   */
  lemma ProceedInsertFailures(st: StoreState, t: string, url: Json, u: string, now: int)
    requires st.initialised && t != "" && u != ""
    requires forall y :: y in st.records ==> !(y.topic == t && y.url == u)
    ensures Proceed(st, t, url, u, now, None, InsertFails) == (Reply(500, ErrorBody(CreateFailedMessage)), st)
    ensures var r := Proceed(st, t, url, u, now, None, ReadBackFails);
            r.0 == Reply(500, ErrorBody(CreateFailedMessage)) &&
            r.1.records == st.records + [Subscription(st.nextId, t, u, now, now)]
  {
    NoneMatch(st.records, Query(Some(t), Some(u)));
    AddFailureEffects(st, t, u, now);
  }

  /** With a non-blank topic and url the DAO's invalid-arguments error is never
      forwarded. */
  lemma ProceedNeverInvalidArguments(st: StoreState, t: string, url: Json, u: string, now: int,
                                     storeError: Option<string>, fault: InsertFault)
    requires t != "" && u != ""
    ensures Proceed(st, t, url, u, now, storeError, fault).0 != Reply(200, ErrorBody(InvalidArguments))
  {
    assert ErrorBody(AlreadyExistsMessage).fields["error"] != ErrorBody(InvalidArguments).fields["error"];
  }

  /** Before `injectDb` has bound the collection no request changes the store,
      and every request that passes the checks gets 500 "Could not verify
      subscription". */
  lemma SubscribeBeforeInject(st: StoreState, topic: Option<string>, body: Json, now: int,
                              storeError: Option<string>, fault: InsertFault)
    requires !st.initialised
    ensures SubscribeStep(st, topic, body, now, storeError, fault).1 == st
    ensures Validate(topic, body).Accepted? ==>
              SubscribeStep(st, topic, body, now, storeError, fault).0 == Reply(500, Str(VerifyFailedMessage))
  {
  }

  // ---------------------------------------------------------------------
  // Properties of one request

  /** Appending a document with a non-blank topic and a valid url keeps every
      stored url valid. */
  lemma AppendKeepsAllValid(rs: seq<Subscription>, x: Subscription)
    requires AllValid(rs) && x.topic != "" && Util.IsValidHttpUrl(x.url)
    ensures AllValid(rs + [x])
  {
    assert forall i :: 0 <= i < |rs| ==> (rs + [x])[i] == rs[i];
  }

  /** The lookup and insert keep every stored url valid when the accepted one is. */
  lemma ProceedKeepsAllValid(st: StoreState, t: string, url: Json, u: string, now: int,
                             storeError: Option<string>, fault: InsertFault)
    requires AllValid(st.records) && t != "" && Util.IsValidHttpUrl(u)
    ensures AllValid(Proceed(st, t, url, u, now, storeError, fault).1.records)
  {
    var st' := Proceed(st, t, url, u, now, storeError, fault).1;
    if |st'.records| == |st.records| + 1 {
      var x := st'.records[|st.records|];
      assert st'.records == st.records + [x];
      AppendKeepsAllValid(st.records, x);
    } else {
      assert st'.records == st.records;
    }
  }

  /** Each request keeps ids unique, topic-url pairs unique and every stored
      url valid, whatever the store's failures. */
  lemma SubscribeKeepsInv(st: StoreState, topic: Option<string>, body: Json, now: int,
                          storeError: Option<string>, fault: InsertFault)
    requires Inv(st)
    ensures Inv(SubscribeStep(st, topic, body, now, storeError, fault).1)
  {
    var c := Validate(topic, body);
    if c.Accepted? {
      ProceedKeepsUnique(st, topic.value, c.url, c.urlText, now, storeError, fault);
      ProceedKeepsAllValid(st, topic.value, c.url, c.urlText, now, storeError, fault);
    }
  }

  /** The handler never forwards the DAO's invalid-arguments error: the topic
      and url it passes are never blank. */
  lemma DaoBlankBranchUnreachable(st: StoreState, topic: Option<string>, body: Json, now: int,
                                  storeError: Option<string>, fault: InsertFault)
    ensures SubscribeStep(st, topic, body, now, storeError, fault).0 != Reply(200, ErrorBody(InvalidArguments))
  {
    var c := Validate(topic, body);
    if c.Accepted? {
      ProceedNeverInvalidArguments(st, topic.value, c.url, c.urlText, now, storeError, fault);
    } else {
      assert ErrorBody(BodyBlankMessage).fields["error"] != ErrorBody(InvalidArguments).fields["error"];
      assert ErrorBody(UrlBlankMessage).fields["error"] != ErrorBody(InvalidArguments).fields["error"];
      assert ErrorBody(UrlInvalidMessage).fields["error"] != ErrorBody(InvalidArguments).fields["error"];
    }
  }

  /** A non-blank topic with the body `{url: u}` for a valid http(s) URL `u`
      passes every check. */
  lemma UrlStringAccepted(topic: string, u: string)
    requires topic != "" && Util.IsValidHttpUrl(u)
    ensures Validate(Some(topic), Obj(map["url" := Str(u)])) == Accepted(Str(u), u)
  {
    var body := Obj(map["url" := Str(u)]);
    assert KeyCount(body) == 1;
    assert Property(body, "url") == Some(Str(u));
  }

  /** A url that is a non-empty string but not an http(s) URL gets 400
      "Invalid URL provided." and nothing changes. */
  lemma InvalidUrlRejected(st: StoreState, topic: string, body: Json, now: int,
                           storeError: Option<string>, fault: InsertFault)
    requires topic != "" && body.Obj? && "url" in body.fields
    requires body.fields["url"].Str? && body.fields["url"].s != "" && !Util.IsValidHttpUrl(body.fields["url"].s)
    ensures SubscribeStep(st, Some(topic), body, now, storeError, fault) ==
              (Reply(400, ErrorBody(UrlInvalidMessage)), st)
  {
  }

  /** A url object with its own "toString" key makes `isValidHttpUrl` throw,
      so the handler never answers, and nothing changes. */
  lemma ToStringUrlUnanswered(st: StoreState, topic: string, body: Json, now: int,
                              storeError: Option<string>, fault: InsertFault)
    requires topic != "" && body.Obj? && "url" in body.fields
    requires body.fields["url"].Obj? && "toString" in body.fields["url"].fields
    ensures SubscribeStep(st, Some(topic), body, now, storeError, fault) == (Unanswered, st)
  {
  }

  // ---------------------------------------------------------------------
  // The handler against the DAO object

  /** `subscribe(req, resp)`: the reply it sends and the DAO's new state. */
  method Subscribe(dao: SubscriptionDao, topic: Option<string>, body: Json, now: int,
                   storeError: Option<string>, fault: InsertFault) returns (reply: Reply)
    modifies dao
    ensures (reply, dao.State()) == SubscribeStep(old(dao.State()), topic, body, now, storeError, fault)
  {
    var checked := CheckRequest(topic, body);
    if checked.Rejected? {
      return checked.reply;
    }
    reply := ProceedOn(dao, topic.value, checked.url, checked.urlText, now, storeError, fault);
  }

  /** The guards of `subscribe`, in the order the handler tests them. */
  method CheckRequest(topic: Option<string>, body: Json) returns (c: Checked)
    ensures c == Validate(topic, body)
  {
    if TopicBlank(topic) {
      return Rejected(TopicRejection());
    }
    if !Truthy(body) || KeyCount(body) < 1 {
      return Rejected(Reply(400, ErrorBody(BodyBlankMessage)));
    }
    var url := Property(body, "url");
    if url.None? || !Truthy(url.value) {
      return Rejected(Reply(400, ErrorBody(UrlBlankMessage)));
    }
    var valid := Util.IsValidHttpUrlOf(url.value);
    if valid.Throw? {
      return Rejected(Unanswered);
    }
    if !valid.value {
      return Rejected(Reply(400, ErrorBody(UrlInvalidMessage)));
    }
    c := Accepted(url.value, ToJsString(url.value).value);
  }

  /** The lookup and insert of `subscribe` for a validated topic `t` and url `u`. */
  method ProceedOn(dao: SubscriptionDao, t: string, url: Json, u: string, now: int,
                   storeError: Option<string>, fault: InsertFault) returns (reply: Reply)
    modifies dao
    ensures (reply, dao.State()) == Proceed(old(dao.State()), t, url, u, now, storeError, fault)
  {
    var existing := dao.FindSubscriptions(Some(t), Some(u), storeError);
    if existing.Error? {
      return Reply(500, Str(VerifyFailedMessage));
    }
    if |existing.data| != 0 {
      return Reply(200, ErrorBody(AlreadyExistsMessage));
    }
    var added := dao.AddSubscription(Some(t), Some(u), now, fault);
    reply := InsertReply(added, url, t);
  }
}
