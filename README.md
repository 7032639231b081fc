# Topic subscription relay, modelled in Dafny

The service is a small publish/subscribe relay over HTTP.

- `POST /subscribe/:topic` with a body `{url}` registers a subscriber URL for a topic. The subscription DAO stores it in a MongoDB collection. A topic-url pair that is already stored is not stored twice.
- `POST /publish/:topic` with a JSON object body looks up the topic's subscribers. It hands every subscriber one POST of the payload `{topic, data: body}`. It answers at once with the number of subscribers, without waiting for the POSTs.
- `Util.isValidHttpUrl` decides which subscriber URLs are acceptable: they must parse as URLs, and their protocol must be `http:` or `https:`.

The model is organised as follows.

- `Wrappers` defines `Option`, and `Completion`: a normal value or a thrown exception.
- `Js` holds JSON request bodies and the bits of JavaScript the handlers rely on: truthiness, `Object.keys(..).length`, property reads, `String(v)` and the decimal printing of a count.
- `WhatwgUrl` is a simplified basic URL parser following the WHATWG URL Standard (section 4.4), plus the `protocol` getter (section 6.1).
- `Util` holds `isValidHttpUrl`, on strings and on whatever JSON value a body supplies.
- `Http` holds replies: status and JSON body, or no reply at all when the handler throws first.
- `Dao` holds the store:
  - The state is a value: the stored documents in insertion order, a fresh-id counter, and whether `injectDb` has bound the collection.
  - The functions `Inject`, `Find` and `Add` specify the DAO's three operations on that value.
  - The class `SubscriptionDao` implements the operations on mutable fields. Each of its methods is proved equal to its specification function.
- `SubscriberController` and `PublisherController` model the two handlers:
  - Their pure specifications are `SubscribeStep` and `PublishStep`.
  - Their methods, `Subscribe` and `Publish`, run against a `SubscriptionDao` object and are proved equal to those specifications.
- `Relay` models sequences of requests handled one after another on one store. It proves the run invariants. It also replays the request sequences of the two test suites.

Everything the environment decides is a parameter of the operation that meets it:

- the insert's timestamp (`now`);
- whether the database connection hands out the collection;
- whether `find` fails, and with which error;
- whether `insertOne` fails, or `insertOne` succeeds and the `findOne` after it fails (`InsertFault`).

Points where the model follows the code rather than the documented intent:

- "Blank" means falsy (`!topic`, `!url`), as the code tests it. The topic is blank only when it is missing or the empty string. The url is blank when it is missing, "", null, false or 0. A topic or url made of spaces is not blank.
- `addSubscription`'s catch block returns `{ error: e }`, but only `err` is bound there. Every store failure inside its `try` therefore throws a ReferenceError instead of returning `{error}`.
  - The model reproduces this: `Add` yields `Throw(UndefinedE)`.
  - The subscribe handler catches the exception and answers 500 `{error: 'Subscription could not be created'}`.
  - A failing `findOne` comes after the insert. In that case the document stays stored, although the client is told that creation failed.
- The url check converts a non-string `url` with `String(v)`.
  - An object with its own `toString` key cannot be converted.
  - The check's catch block interpolates the value into its log message, which throws the same TypeError again.
  - The exception escapes the handler, which then never answers (`Unanswered`).
- The publish handler accepts a body exactly when its `constructor` is `Object`. For a parsed JSON body, that means an object without an own `constructor` key. An array, a string, a number, `null`, or an object that defines `constructor` is rejected.

## Model

| member | source | states |
|---|---|---|
| Dao.Inject | src/dao/subscription_dao.js:11-21 | the documents and the id counter never change; the collection is bound afterwards exactly when it was bound before or the connection hands it out |
| Dao.InjectIdempotent | src/dao/subscription_dao.js:12-14 | once the collection is bound, a further `injectDb` with any connection leaves the store exactly as it is |
| Dao.SubscriptionDao.InjectDb | src/dao/subscription_dao.js:11-21 | the new DAO state is `Inject` of the old state |
| Dao.Add | src/dao/subscription_dao.js:29-45 | blank topic or url: the invalid-arguments error, and the store is unchanged; otherwise it throws exactly when the collection is unbound or a store call fails, and the exception is always the ReferenceError; at most one document is appended and none is altered; a document is appended exactly when the collection is bound and `insertOne` succeeds, and it carries the next id, the given topic and url, and `createdAt == updatedAt == now`; a `{data}` result is the appended document, looked up by its fresh id |
| Dao.AddFailureEffects | src/dao/subscription_dao.js:34-44 | an `insertOne` failure throws and leaves the store as it was; a `findOne` failure throws although the new document stays stored |
| Dao.AddKeepsWellFormed | src/dao/subscription_dao.js:35-39 | adding keeps every id below the counter and ids strictly increasing in store order, so ids stay unique |
| Dao.AddThenFind | src/dao/subscription_dao.js:35-40 | adding a new pair returns `{data}` holding the new document, and a lookup of that pair right after finds exactly that one document |
| Dao.SubscriptionDao.AddSubscription | src/dao/subscription_dao.js:29-45 | the result and the new DAO state are what `Add` gives on the old state; well-formed ids are preserved |
| Dao.Matching | src/dao/subscription_dao.js:66 | the selected documents are exactly the stored ones that satisfy every key the query sets; the result is never longer than the store |
| Dao.MatchingAll | src/dao/subscription_dao.js:55-61 | a query with neither key set selects every document, in order |
| Dao.MatchingPreservesOrder | src/dao/subscription_dao.js:66 | any two selected documents appear in the store in the same relative order; with unique ids, as `WellFormed` gives, the result is a subsequence of the store |
| Dao.Find | src/dao/subscription_dao.js:53-73 | an unbound collection gives the TypeError as `{error}`; a store failure gives its error as `{error}` rather than throwing; otherwise `{data}` holds exactly the stored documents that match the query built from the defined arguments |
| Dao.FindById | src/dao/subscription_dao.js:39 | `findOne({_id})` finds a document exactly when some stored document has that id, and what it finds is stored with that id |
| Dao.FreshIdFindsNew | src/dao/subscription_dao.js:36-39 | looking up a fresh id right after appending the document that carries it finds that document |
| Dao.SubscriptionDao.FindSubscriptions | src/dao/subscription_dao.js:53-73 | the response equals `Find` on the current DAO state; the method never changes the DAO |
| Util.IsValidHttpUrl | src/utils/util.js:17-30 | true exactly when the string is non-empty, `new URL` accepts it and its scheme is http or https; an accepted URL always has a host that passes the host checks |
| Util.ProtocolIsHttp | src/utils/util.js:29 | the `protocol` getter yields "http:" or "https:" exactly when the scheme is http or https, respectively |
| Util.ValidIffHttpProtocol | src/utils/util.js:18-29 | the check holds exactly when the input is non-empty, `new URL` accepts it and its `protocol` is "http:" or "https:" |
| Util.IsValidHttpUrlOf | src/utils/util.js:17-30 | a string gets the string check; a falsy value gives false; the call throws exactly when the value is truthy and cannot be converted to a string; true implies that the value's string form passes the string check |
| Util.SchemelessRejected | src/utils/util.js:21-26 | a string with no ":" is rejected |
| Util.OtherSchemeRejected | src/utils/util.js:29 | a URL that parses with any scheme other than http or https is rejected |
| Util.HttpWithoutHostRejected | src/utils/util.js:22-29 | a URL that parses with an empty host is rejected |
| Util.OnlyTextCanPass | src/utils/util.js:18-29 | a number, a boolean, null or an object never passes the check |
| Util.LocalhostUrlAccepted | src/utils/util.js:22-29 | every "http://localhost:1234/..." with a path free of controls and spaces is accepted |
| Util.TestUrlOneAccepted | test/subscribe.test.js:25 | the suites' first subscriber URL is accepted |
| Util.TestUrlTwoAccepted | test/subscribe.test.js:26 | the suites' second subscriber URL is accepted |
| Util.TestUrlThreeAccepted | test/publish.test.js:29 | the publish suite's third subscriber URL is accepted |
| Util.TestStringRejected | test/subscribe.test.js:50-60 | "someStringThatIsNotAString" is rejected |
| WhatwgUrl.TrimLeadingSplits | src/utils/util.js:22 | leading trimming keeps a suffix of the input and drops only C0 controls and spaces |
| WhatwgUrl.TrimTrailingSplits | src/utils/util.js:22 | trailing trimming keeps a prefix of the input and drops only C0 controls and spaces |
| WhatwgUrl.RemoveTabNewline | src/utils/util.js:22 | the result holds exactly the input's characters that are not tabs or newlines |
| WhatwgUrl.NoColonNoUrl | src/utils/util.js:22 | without a ":" there is no scheme, and with no base URL the parse fails |
| WhatwgUrl.NonLetterStartNoUrl | src/utils/util.js:22 | an input whose first character after the leading C0 controls and spaces is not an ASCII letter fails to parse |
| WhatwgUrl.SplitScheme | src/utils/util.js:22 | a scheme that is found is lower-case: it starts with a letter and holds only letters, digits, "+", "-" and "." |
| WhatwgUrl.Parse | src/utils/util.js:22 | a parsed scheme is lower-case; a URL with scheme ftp, http, https, ws or wss always has a host that passes the host checks |
| WhatwgUrl.ParseWithAuthority | src/utils/util.js:22 | after a special scheme, parsing is the authority parse |
| Js.KeyCount | src/api/subscriber_controller.js:15 | `Object.keys(..).length` of an object counts its fields, of an array its items, of a string its characters; booleans and numbers have none. Null is never passed: `!requestBody` is tested first, and `Object.keys(null)` would throw |
| Js.DigitsValueOfDecimal | src/api/publisher_controller.js:50 | reading the printed count back gives the count |
| Js.DecimalInjective | src/api/publisher_controller.js:50 | different counts print differently |
| Http.ErrorBody | src/api/subscriber_controller.js:10 | the body has the single key "error", holding the message |
| SubscriberController.Validate | src/api/subscriber_controller.js:9-27 | the first failing check decides: a blank topic gives 400 topic error; then a body that is falsy or has no keys gives 400 "Request body cannot be blank nor empty."; then a missing or falsy url gives 400 "URL cannot be blank."; then a truthy url for which the url check returns false, such as a non-URL string, a number, `true` or `{}`, gives 400 "Invalid URL provided."; the handler is left unanswered exactly when the url check throws; the request is accepted exactly when the url check returns true, and then the url's string form is a valid http(s) URL |
| SubscriberController.CheckRequest | src/api/subscriber_controller.js:9-27 | runs the guards in the handler's order and gives what `Validate` gives |
| SubscriberController.Proceed | src/api/subscriber_controller.js:31-67 | an unbound collection or a failed lookup gives 500 "Could not verify subscription" and leaves the store unchanged; otherwise the collection state is kept, at most one document is appended and none is altered; an appended document is the new pair with the next id, and it was not stored before |
| SubscriberController.InsertReply | src/api/subscriber_controller.js:54-67 | a thrown insert gives 500 "Subscription could not be created"; `{data}` gives 200 `{url, topic}`; a truthy `{error}` is forwarded with status 200 |
| SubscriberController.CreatedBody | src/api/subscriber_controller.js:67 | the body has exactly the keys url and topic, and echoes the request's url value and the topic |
| SubscriberController.ProceedNewPair | src/api/subscriber_controller.js:54-67 | on a bound, working store, a pair not yet stored gives 200 `{url, topic}`, and exactly the new document gets appended with the next id |
| SubscriberController.ProceedExisting | src/api/subscriber_controller.js:47-50 | a pair already stored gives 200 "Subscription already exists!" and leaves the store unchanged |
| SubscriberController.ProceedInsertFailures | src/api/subscriber_controller.js:54-59 | a failing `insertOne` gives 500 and stores nothing; a failing `findOne` gives the same 500, but the document stays stored |
| SubscriberController.SubscribeBeforeInject | src/api/subscriber_controller.js:32-46 | before `injectDb` no request changes the store, and every request that passes the checks gets 500 |
| SubscriberController.SubscribeStep | src/api/subscriber_controller.js:5-68 | a rejected request gets the check's reply and leaves the store unchanged; an accepted one proceeds to the lookup and insert with the validated topic and url |
| SubscriberController.AppendKeepsNoDuplicates | src/api/subscriber_controller.js:31-50 | appending a pair that is not stored keeps topic-url pairs unique |
| SubscriberController.ProceedKeepsUnique | src/api/subscriber_controller.js:31-67 | whatever the store's failures, the lookup and insert keep ids unique and topic-url pairs unique |
| SubscriberController.ProceedKeepsAllValid | src/api/subscriber_controller.js:24-67 | every stored document keeps a non-blank topic and a valid http(s) url |
| SubscriberController.SubscribeKeepsInv | src/api/subscriber_controller.js:5-68 | each request preserves the store invariant: unique ids, unique topic-url pairs, valid urls |
| SubscriberController.ProceedNeverInvalidArguments | src/api/subscriber_controller.js:54-65 | with a non-blank topic and url, the DAO's invalid-arguments error is never the reply |
| SubscriberController.DaoBlankBranchUnreachable | src/api/subscriber_controller.js:54-65 | no request ever gets the DAO's invalid-arguments error as its reply |
| SubscriberController.UrlStringAccepted | src/api/subscriber_controller.js:20-27 | a non-blank topic with body `{url: u}`, for a valid http(s) `u`, passes every check |
| SubscriberController.InvalidUrlRejected | src/api/subscriber_controller.js:24-27 | a non-empty url string that is not an http(s) URL gets 400 "Invalid URL provided.", and the store is unchanged |
| SubscriberController.ToStringUrlUnanswered | src/api/subscriber_controller.js:24 | a url object with its own "toString" key leaves the request unanswered, and the store is unchanged |
| SubscriberController.Subscribe | src/api/subscriber_controller.js:5-68 | the reply and the new DAO state are what `SubscribeStep` gives on the old state |
| SubscriberController.ProceedOn | src/api/subscriber_controller.js:31-67 | the reply and the new DAO state are what `Proceed` gives on the old state |
| PublisherController.Payload | src/api/publisher_controller.js:39 | the payload has exactly the keys topic and data, holding the topic and the request body |
| PublisherController.Deliveries | src/api/publisher_controller.js:40 | one delivery per subscription, in order, each carrying that subscription's url and the payload |
| PublisherController.StatusMessage | src/api/publisher_controller.js:50 | the text is "Publish to ", the count in decimal, then " subscriber(s) completed!" |
| PublisherController.StatusMessageInjective | src/api/publisher_controller.js:50 | different counts give different status texts |
| PublisherController.StatusMessageZero | test/publish.test.js:99 | the text for no subscribers is "Publish to 0 subscriber(s) completed!" |
| PublisherController.PublishedBody | src/api/publisher_controller.js:49-52 | the body has exactly the keys status and data |
| PublisherController.PublishStep | src/api/publisher_controller.js:6-53 | a blank topic gives 400 and no deliveries; then a body that is not a plain object gives 400 "Invalid request body."; then an unbound collection or a failed lookup gives 500 "Finding subscribers to publish to failed!"; the reply is 200 exactly when all three pass, and its status counts the deliveries and its data is the payload; every delivery carries the payload to a url stored for the topic |
| PublisherController.PublishReachesSubscribers | src/api/publisher_controller.js:24-52 | a successful publish delivers the payload to every stored subscription of the topic, in store order, and the status counts them |
| PublisherController.MatchingKeepsNoDuplicates | src/api/publisher_controller.js:24 | selecting a topic's documents keeps topic-url pairs unique |
| PublisherController.PublishDeliversOnce | src/api/publisher_controller.js:39-40 | when stored pairs are unique, no url receives the same publish twice |
| PublisherController.PublishWithoutSubscribers | src/api/publisher_controller.js:39-52 | a topic nobody subscribed to gets status "Publish to 0 subscriber(s) completed!" and no deliveries |
| PublisherController.ArrayBodyRejected | src/api/publisher_controller.js:16-19 | an array body gets 400 "Invalid request body." and no deliveries |
| PublisherController.ConstructorKeyRejected | src/api/publisher_controller.js:16-19 | an object body with its own "constructor" key gets 400 and no deliveries |
| PublisherController.Publish | src/api/publisher_controller.js:6-53 | the reply and the deliveries handed to `async.map` are what `PublishStep` gives on the DAO's state; the method never changes the DAO |
| Relay.Handle | src/api/publisher_controller.js:24-52 | a publish leaves the store unchanged; a subscribe hands on no deliveries |
| Relay.Connected | test/subscribe.test.js:9-13 | `injectDb` on a fresh connection gives a bound, empty store that satisfies the invariant |
| Relay.RunKeepsInv | src/api/subscriber_controller.js:31-67 | any sequence of requests keeps ids unique, topic-url pairs unique and every stored url valid |
| Relay.RunOnlyAppends | src/dao/subscription_dao.js:36-38 | no sequence of requests removes or alters a stored document |
| Relay.SubscribedUrlReceivesPublish | src/api/publisher_controller.js:24-40 | once a url is subscribed to a topic, a successful publish to that topic delivers the payload to it |
| Relay.RepeatedPublishSameOutcome | src/api/publisher_controller.js:24-52 | publishing the same request twice gives the same reply and the same deliveries, and leaves the store as it was |
| Relay.SubscribeEmptyBody | test/subscribe.test.js:28-36 | an empty body gets 400 "Request body cannot be blank nor empty." and the store is unchanged |
| Relay.SubscribeBlankUrl | test/subscribe.test.js:38-48 | a blank url gets 400 "URL cannot be blank." and the store is unchanged |
| Relay.SubscribeMalformedUrl | test/subscribe.test.js:50-60 | a url that is not http(s) gets 400 "Invalid URL provided." and the store is unchanged |
| Relay.SubscribeFresh | test/subscribe.test.js:62-74 | a valid url for a new pair gets 200 `{url, topic}`, and the document is appended with the next id |
| Relay.SubscribeAgain | test/subscribe.test.js:76-86 | a pair already stored gets 200 "Subscription already exists!" and the store is unchanged |
| Relay.SubscribeNext | test/subscribe.test.js:88-100 | on a store with ids 0, 1, ... and without the pair, the new pair gets the next index as its id |
| Relay.SubscribeRejections | test/subscribe.test.js:28-60 | the three rejected requests give their three 400 replies in order and leave the store unchanged |
| Relay.SubscribeAcceptances | test/subscribe.test.js:62-100 | on a connected store: a new pair, the same again, and a second url for the topic give created, already-exists and created, leaving two documents with ids 0 and 1 |
| Relay.SubscribeSuite | test/subscribe.test.js:28-100 | the suite's six requests on a freshly connected store give the six expected replies and leave its two subscriptions stored |
| Relay.SuiteUrlsValid | test/publish.test.js:27-29 | the suites' three subscriber urls are valid and pairwise different |
| Relay.PublishArrayBody | test/publish.test.js:39-47 | an array body gets 400 "Invalid request body." and no deliveries |
| Relay.PublishToTopic | test/publish.test.js:91-125 | a publish on a working store answers with the count and the payload, and delivers to the topic's subscribers in store order |
| Relay.PublishToNone | test/publish.test.js:91-101 | a topic with no subscriber gets count 0 and no deliveries |
| Relay.PublishToOne | test/publish.test.js:103-113 | the topic with one subscriber gets count 1 and a delivery to that url |
| Relay.PublishToTwo | test/publish.test.js:115-125 | the topic with two subscribers gets count 2 and deliveries to both urls, in the order they subscribed |
| Relay.SampleDataIsPlain | test/publish.test.js:31-37 | the suite's sample body is a plain object |
| Relay.PublishSuiteRun | test/publish.test.js:39-125 | on a freshly connected store, the suite's array body, three subscriptions and three publishes give the expected replies and deliveries |
| Relay.PublishSuite | test/publish.test.js:39-125 | the same with the suite's own topics, urls and sample body |

## Left out

- HTTP transport and Express routing, including body parsing, the 404 fallback and the echo route. src/index.js and src/app.js are not part of this model. The handlers take the `:topic` parameter and the parsed body as values, and they return the reply.
- MongoDB itself.
  - The collection is a sequence of documents in insertion order. The model assumes that `find` returns documents in that order.
  - `ObjectId` is a counter; `new Date()` is the `now` parameter.
  - Timestamps are stored as integers, not as `Date` objects.
- Environment variables and the database name. Whether the connection hands out the collection is a boolean parameter.
- `Util.log` and `console.error`: they only write logs.
- `Util.doHttpPost`, the `got` client, and the concurrent sends through `async.map`.
  - A publish is modelled by the list of deliveries it hands on.
  - The responses of the sends are not modelled. The reply does not depend on them, because the `async.map` callback only logs.
- Relay.Run: after a request ends in `Unanswered`, the run goes on handling the next request on the unchanged store. In the source, the TypeError escapes the async handler. Express 4 does not catch a rejected handler promise, so it becomes an unhandled promise rejection. Under Node's default mode since version 15, that ends the server process. The model does not capture that termination, so `Relay.RunKeepsInv` and `Relay.SubscribedUrlReceivesPublish` cover runs that a real server would not complete. Each still holds for the requests handled before the first `Unanswered`.
- Js.KeyCount: its contract says nothing about null. `Object.keys(null)` throws, and the handler never calls it on null.
- Concurrency. Requests are handled one whole request at a time. The race between two concurrent subscribes of the same pair is not modelled, because the check-then-insert is not atomic. The no-duplicates invariant is proved for sequential runs only.
- The catch blocks around `findSubscriptions` in both handlers: the 500 'Could not verify subscription.' and the 500 'Failed to fetch subscribers'. `findSubscriptions` catches every store failure itself and returns `{error}`, so these branches are unreachable. The same holds for the `data === undefined` and non-array `data` tests, since `{data}` always holds an array.
- SubscriberController.Proceed: the lookup is modelled with the url's string form as the query value. The source passes the url value itself. The two differ only for an array url whose string form is a valid URL. For such a url, the source also stores the array, where the model stores its string form.
- WhatwgUrl.Parse: the host parser is reduced to its checks for forbidden code points and for a closing bracket.
  - Not modelled: percent-decoding, IDNA/punycode, IPv4 number parsing, IPv6 address syntax, the "file" scheme and the path, query and fragment states.
  - A URL that the full parser would reject only for one of those reasons is accepted here.
  - The http(s) URLs used by the test suites are unaffected.
- WhatwgUrl.TrimLeading, WhatwgUrl.TrimTrailing: their own ensures state only length and membership. The exact split is proved separately, in TrimLeadingSplits and TrimTrailingSplits.
- JSON numbers are integers only. Floating point and number formatting beyond integers are not modelled. Getters and proxies cannot occur in a parsed body, so they are not modelled either.
