/**
  The lookup Lambda: it reads the `dataType` tag of an invocation event, picks
  the id property that belongs to that category, indexes that category's map
  in the store, and answers 200 with the record, 400 for a bad tag or a missing
  id, or 404 when the id is not a key of the map.
 */
module McpLambda {
  import opened Wrappers
  import opened McpData

  /** An invocation event. Every id property may be absent (`undefined`).
      `id` is the generic id of the base event type; the handler never reads it. */
  datatype Event = Event(
    dataType: string,
    id: Option<string>,
    customerId: Option<string>,
    productId: Option<string>,
    articleId: Option<string>)

  /** Why a request did not produce a record. */
  datatype Failure =
    | InvalidDataType(dataType: string)
    | MissingId(category: Category)
    | NotFound(category: Category, id: string)
    | Internal(details: string)

  /** What the handler decided, before it is shaped into an HTTP response. */
  datatype Outcome = Found(record: Record) | Failed(failure: Failure)

  /** A JSON body: the record itself, or an object with an `error` field and,
      for the 500 answer only, a `details` field. */
  datatype Body =
    | Payload(record: Record)
    | ErrorBody(error: string, details: Option<string>)

  datatype HttpResponse = HttpResponse(statusCode: int, headers: map<string, string>, body: Body)

  const JsonHeaders: map<string, string> := map["Content-Type" := "application/json"]

  const InvalidPrefix := "Invalid dataType: "
  const NotFoundPrefix := "Data not found for "
  const IdInfix := " with ID "
  const InternalMessage := "Internal Server Error"

  /** The `switch (dataType)`: exact, case-sensitive comparison with the three tags. */
  function ParseCategory(dataType: string): (r: Option<Category>)
    ensures r.Some? ==> Tag(r.value) == dataType
    ensures r.None? ==> forall c: Category :: Tag(c) != dataType
  {
    if dataType == "customerPlanInfo" then Some(CustomerPlans)
    else if dataType == "productInfo" then Some(Products)
    else if dataType == "knowledgeBase" then Some(KnowledgeBase)
    else None
  }

  /** The one event property the handler reads for category `c`: the property named `IdField(c)`. */
  function IdOf(event: Event, c: Category): (r: Option<string>)
    ensures IdField(c) == "customerId" ==> r == event.customerId
    ensures IdField(c) == "productId" ==> r == event.productId
    ensures IdField(c) == "articleId" ==> r == event.articleId
  {
    match c
    case CustomerPlans => event.customerId
    case Products => event.productId
    case KnowledgeBase => event.articleId
  }

  /** JavaScript truthiness of a `string | undefined`: `undefined` and `""` are falsy. */
  predicate Truthy(v: Option<string>): (b: bool)
    ensures !b <==> v == None || v == Some("")
  {
    v.Some? && v.value != ""
  }

  /** The fixed 400 message for a missing id, one literal per category. */
  function MissingIdMessage(c: Category): string
  {
    match c
    case CustomerPlans => "Missing customerId for customerPlanInfo"
    case Products => "Missing productId for productInfo"
    case KnowledgeBase => "Missing articleId for knowledgeBase"
  }

  /** The `error` string of each failure, in the form of the source's templates. */
  function ErrorMessage(f: Failure): (msg: string)
    ensures f.InvalidDataType? ==> msg == "Invalid dataType: " + f.dataType
    ensures f.MissingId? ==> msg == MissingIdMessage(f.category)
    ensures f.NotFound? ==> msg == "Data not found for " + Tag(f.category) + " with ID " + f.id
    ensures f.Internal? ==> msg == "Internal Server Error"
  {
    match f
    case InvalidDataType(d) => InvalidPrefix + d
    case MissingId(c) => MissingIdMessage(c)
    case NotFound(c, id) => NotFoundPrefix + Tag(c) + IdInfix + id
    case Internal(_) => InternalMessage
  }

  /** The status code of each failure kind. */
  function StatusCode(f: Failure): (code: int)
    ensures code == 400 <==> f.InvalidDataType? || f.MissingId?
    ensures code == 404 <==> f.NotFound?
    ensures code == 500 <==> f.Internal?
    ensures code != 200
  {
    match f
    case InvalidDataType(_) => 400
    case MissingId(_) => 400
    case NotFound(_, _) => 404
    case Internal(_) => 500
  }

  /** The handler's decision for one event against the store. */
  function Handle(store: Store, event: Event): (r: Outcome)
    ensures r.Failed? ==> !r.failure.Internal?
    ensures r.Found? ==> exists c: Category :: Tag(c) == event.dataType && Truthy(IdOf(event, c))
    ensures r.Failed? && r.failure.NotFound? ==>
      && Tag(r.failure.category) == event.dataType
      && r.failure.id != ""
      && r.failure.id !in Keys(store, r.failure.category)
  {
    match ParseCategory(event.dataType)
    case None => Failed(InvalidDataType(event.dataType))
    case Some(c) =>
      var id := IdOf(event, c);
      if !Truthy(id) then Failed(MissingId(c))
      else
        match Lookup(store, c, id.value)
        case Some(rec) => Found(rec)
        case None => Failed(NotFound(c, id.value))
  }

  /** Shapes a decision into the response object the Lambda returns. */
  function Render(o: Outcome): (h: HttpResponse)
    ensures h.headers == JsonHeaders
    ensures h.body.Payload? <==> h.statusCode == 200
    ensures h.body.Payload? <==> o.Found?
    ensures o.Found? ==> h.body.record == o.record
    ensures h.body.ErrorBody? ==> (h.body.details.Some? <==> h.statusCode == 500)
    ensures h.statusCode in {200, 400, 404, 500}
  {
    match o
    case Found(rec) => HttpResponse(200, JsonHeaders, Payload(rec))
    case Failed(f) =>
      var details := if f.Internal? then Some(f.details) else None;
      HttpResponse(StatusCode(f), JsonHeaders, ErrorBody(ErrorMessage(f), details))
  }

  /** The Lambda handler: decide, then shape. Its answer meets the rule-by-rule contract. */
  function Invoke(store: Store, event: Event): (r: HttpResponse)
    ensures Conforms(store, event, r)
  {
    Render(Handle(store, event))
  }

  // ---------------------------------------------------------------------------
  // Reading an error body back: the `error`/`details` pair names the failure.
  // ---------------------------------------------------------------------------

  function ParseMissing(msg: string): Option<Failure>
  {
    if msg == MissingIdMessage(CustomerPlans) then Some(MissingId(CustomerPlans))
    else if msg == MissingIdMessage(Products) then Some(MissingId(Products))
    else if msg == MissingIdMessage(KnowledgeBase) then Some(MissingId(KnowledgeBase))
    else None
  }

  /** Splits "<tag> with ID <id>" into a category and an id. */
  function ParseNotFound(rest: string): Option<Failure>
  {
    if Tag(CustomerPlans) + IdInfix <= rest then
      Some(NotFound(CustomerPlans, rest[|Tag(CustomerPlans) + IdInfix|..]))
    else if Tag(Products) + IdInfix <= rest then
      Some(NotFound(Products, rest[|Tag(Products) + IdInfix|..]))
    else if Tag(KnowledgeBase) + IdInfix <= rest then
      Some(NotFound(KnowledgeBase, rest[|Tag(KnowledgeBase) + IdInfix|..]))
    else None
  }

  /** Recovers the failure from an error body, or None for anything the handler cannot emit. */
  function ParseErrorBody(b: Body): Option<Failure>
  {
    match b
    case Payload(_) => None
    case ErrorBody(msg, details) =>
      if details.Some? then
        (if msg == InternalMessage then Some(Internal(details.value)) else None)
      else if InvalidPrefix <= msg then Some(InvalidDataType(msg[|InvalidPrefix|..]))
      else if NotFoundPrefix <= msg then ParseNotFound(msg[|NotFoundPrefix|..])
      else ParseMissing(msg)
  }

  lemma AppendAssociative(a: string, b: string, c: string, d: string)
    ensures a + b + c + d == a + (b + c + d)
  {
  }

  lemma PrefixSplit(p: string, s: string)
    requires p <= s
    ensures s == p + s[|p|..]
  {
    assert s[..|p|] == p;
  }

  lemma {:induction false} NotFoundRoundTrip(c: Category, id: string)
    ensures ParseNotFound(Tag(c) + IdInfix + id) == Some(NotFound(c, id))
  {
    var rest := Tag(c) + IdInfix + id;
    assert Tag(c) + IdInfix <= rest;
    forall c' | c' != c
      ensures !(Tag(c') + IdInfix <= rest)
    {
      TagAndFieldInjective(c, c');
      assert rest[0] == Tag(c)[0] && (Tag(c') + IdInfix)[0] == Tag(c')[0];
    }
    assert rest[|Tag(c) + IdInfix|..] == id;
  }

  lemma InvalidDataTypeRoundTrip(d: string)
    ensures ParseErrorBody(Render(Failed(InvalidDataType(d))).body) == Some(InvalidDataType(d))
  {
    var msg := InvalidPrefix + d;
    assert InvalidPrefix <= msg;
    assert msg[|InvalidPrefix|..] == d;
  }

  /** A missing-id message starts with neither the bad-tag nor the not-found prefix. */
  lemma MissingIdMessageUnprefixed(c: Category)
    ensures !(InvalidPrefix <= MissingIdMessage(c)) && !(NotFoundPrefix <= MissingIdMessage(c))
  {
    assert MissingIdMessage(c)[0] == 'M';
    assert InvalidPrefix[0] == 'I' && NotFoundPrefix[0] == 'D';
  }

  /** ParseMissing recognises each fixed missing-id message as its own category. */
  lemma ParseMissingRecognises(c: Category)
    ensures ParseMissing(MissingIdMessage(c)) == Some(MissingId(c))
  {
    // The three messages have different lengths, so ParseMissing picks out exactly one.
    assert |MissingIdMessage(CustomerPlans)| == 39;
    assert |MissingIdMessage(Products)| == 33;
    assert |MissingIdMessage(KnowledgeBase)| == 35;
  }

  lemma MissingIdRoundTrip(c: Category)
    ensures ParseErrorBody(Render(Failed(MissingId(c))).body) == Some(MissingId(c))
  {
    MissingIdMessageUnprefixed(c);
    ParseMissingRecognises(c);
    assert Render(Failed(MissingId(c))).body == ErrorBody(MissingIdMessage(c), None);
  }

  lemma NotFoundBodyRoundTrip(c: Category, id: string)
    ensures ParseErrorBody(Render(Failed(NotFound(c, id))).body) == Some(NotFound(c, id))
  {
    var msg := ErrorMessage(NotFound(c, id));
    NotFoundMessageSplit(c, id);
    assert msg[0] == 'D' && InvalidPrefix[0] == 'I';
    assert NotFoundPrefix <= msg;
    assert msg[|NotFoundPrefix|..] == Tag(c) + IdInfix + id;
    NotFoundRoundTrip(c, id);
  }

  /** Every failure's error body reads back as that same failure. */
  lemma {:induction false} ErrorBodyRoundTrip(f: Failure)
    ensures ParseErrorBody(Render(Failed(f)).body) == Some(f)
  {
    match f
    case Internal(_) =>
    case InvalidDataType(d) => InvalidDataTypeRoundTrip(d);
    case MissingId(c) => MissingIdRoundTrip(c);
    case NotFound(c, id) => NotFoundBodyRoundTrip(c, id);
  }

  lemma ParseNotFoundExactly(rest: string, f: Failure)
    requires ParseNotFound(rest) == Some(f)
    ensures f.NotFound? && rest == Tag(f.category) + IdInfix + f.id
  {
    PrefixSplit(Tag(f.category) + IdInfix, rest);
  }

  lemma ParseMissingExactly(msg: string, f: Failure)
    requires ParseMissing(msg) == Some(f)
    ensures f.MissingId? && msg == MissingIdMessage(f.category)
  {
  }

  /** The 404 message is the not-found prefix followed by "<tag> with ID <id>". */
  lemma NotFoundMessageSplit(c: Category, id: string)
    ensures ErrorMessage(NotFound(c, id)) == NotFoundPrefix + (Tag(c) + IdInfix + id)
  {
    AppendAssociative(NotFoundPrefix, Tag(c), IdInfix, id);
  }

  lemma NotFoundBodyParsedExactly(msg: string, f: Failure)
    requires NotFoundPrefix <= msg && ParseNotFound(msg[|NotFoundPrefix|..]) == Some(f)
    ensures f.NotFound? && msg == ErrorMessage(f)
  {
    var rest := msg[|NotFoundPrefix|..];
    PrefixSplit(NotFoundPrefix, msg);
    ParseNotFoundExactly(rest, f);
    NotFoundMessageSplit(f.category, f.id);
  }

  /** Conversely, a body that reads back as a failure is exactly that failure's body. */
  lemma ErrorBodyParsedExactly(b: Body, f: Failure)
    requires ParseErrorBody(b) == Some(f)
    ensures b == Render(Failed(f)).body
  {
    var msg := b.error;
    if b.details.None? {
      if InvalidPrefix <= msg {
        PrefixSplit(InvalidPrefix, msg);
      } else if NotFoundPrefix <= msg {
        NotFoundBodyParsedExactly(msg, f);
      } else {
        ParseMissingExactly(msg, f);
      }
    }
  }

  /** Two distinct failures never share an error body: the body names the failure. */
  lemma ErrorBodiesDistinct(f1: Failure, f2: Failure)
    requires f1 != f2
    ensures Render(Failed(f1)).body != Render(Failed(f2)).body
  {
    ErrorBodyRoundTrip(f1);
    ErrorBodyRoundTrip(f2);
  }

  // ---------------------------------------------------------------------------
  // The handler's behaviour, one rule at a time.
  // ---------------------------------------------------------------------------

  lemma UnknownDataTypeRejected(store: Store, event: Event)
    requires event.dataType !in {"customerPlanInfo", "productInfo", "knowledgeBase"}
    ensures Invoke(store, event) ==
      HttpResponse(400, JsonHeaders, ErrorBody("Invalid dataType: " + event.dataType, None))
  {
  }

  /** Tags are matched exactly: a differently cased tag is rejected. */
  lemma TagMatchIsCaseSensitive(store: Store, event: Event)
    requires event.dataType == "ProductInfo"
    ensures Invoke(store, event) ==
      HttpResponse(400, JsonHeaders, ErrorBody("Invalid dataType: ProductInfo", None))
  {
    CaseSensitiveMessage();
  }

  lemma CaseSensitiveMessage()
    ensures ErrorMessage(InvalidDataType("ProductInfo")) == "Invalid dataType: ProductInfo"
  {
  }

  lemma MissingCustomerIdMessage()
    ensures MissingIdMessage(CustomerPlans) == "Missing " + IdField(CustomerPlans) + " for " + Tag(CustomerPlans)
  {
  }

  lemma MissingProductIdMessage()
    ensures MissingIdMessage(Products) == "Missing " + IdField(Products) + " for " + Tag(Products)
  {
  }

  lemma MissingArticleIdMessage()
    ensures MissingIdMessage(KnowledgeBase) == "Missing " + IdField(KnowledgeBase) + " for " + Tag(KnowledgeBase)
  {
  }

  /** The three fixed missing-id messages follow one pattern: field name, then tag. */
  lemma MissingIdMessageNamesFieldAndCategory(c: Category)
    ensures MissingIdMessage(c) == "Missing " + IdField(c) + " for " + Tag(c)
  {
    match c
    case CustomerPlans => MissingCustomerIdMessage();
    case Products => MissingProductIdMessage();
    case KnowledgeBase => MissingArticleIdMessage();
  }

  /** An absent or empty id is rejected with 400 before any lookup, so it never
      yields 404, even when the empty string is a key of the map. */
  lemma MissingIdRejected(store: Store, event: Event, c: Category)
    requires event.dataType == Tag(c)
    requires IdOf(event, c) == None || IdOf(event, c) == Some("")
    ensures Invoke(store, event) ==
      HttpResponse(400, JsonHeaders, ErrorBody(MissingIdMessage(c), None))
  {
  }

  /** Only the id property of the requested category is read: the generic `id`
      and the other categories' id properties have no effect. */
  lemma OnlyOwnIdFieldRead(store: Store, e1: Event, e2: Event)
    requires e1.dataType == e2.dataType
    requires forall c: Category :: Tag(c) == e1.dataType ==> IdOf(e1, c) == IdOf(e2, c)
    ensures Invoke(store, e1) == Invoke(store, e2)
  {
  }

  /** A productInfo request that carries only a customerId is still missing its productId. */
  lemma ProductRequestIgnoresCustomerId(store: Store, customerId: string)
    ensures Invoke(store, Event("productInfo", None, Some(customerId), None, None)) ==
      HttpResponse(400, JsonHeaders, ErrorBody("Missing productId for productInfo", None))
  {
  }

  lemma StoredIdFound(store: Store, event: Event, c: Category)
    requires event.dataType == Tag(c)
    requires Truthy(IdOf(event, c)) && IdOf(event, c).value in Keys(store, c)
    ensures Invoke(store, event) ==
      HttpResponse(200, JsonHeaders, Payload(Lookup(store, c, IdOf(event, c).value).value))
  {
  }

  lemma AbsentIdNotFound(store: Store, event: Event, c: Category)
    requires event.dataType == Tag(c)
    requires Truthy(IdOf(event, c)) && IdOf(event, c).value !in Keys(store, c)
    ensures Invoke(store, event) ==
      HttpResponse(404, JsonHeaders,
        ErrorBody("Data not found for " + Tag(c) + " with ID " + IdOf(event, c).value, None))
  {
  }

  /** Only the requested category's map is consulted: an id stored under another
      category changes nothing. */
  lemma OnlyOwnMapConsulted(s1: Store, s2: Store, event: Event)
    requires forall c: Category :: Tag(c) == event.dataType ==> SameSection(s1, s2, c)
    ensures Invoke(s1, event) == Invoke(s2, event)
  {
    match ParseCategory(event.dataType)
    case None =>
    case Some(c) =>
      if Truthy(IdOf(event, c)) {
        LookupReadsOnlyItsSection(s1, s2, c, IdOf(event, c).value);
      }
  }

  /** A product id absent from the product map. */
  lemma UnknownProductExample(store: Store)
    requires "P123" !in store.productInfo
    ensures Invoke(store, Event("productInfo", None, None, Some("P123"), None)) ==
      HttpResponse(404, JsonHeaders, ErrorBody("Data not found for productInfo with ID P123", None))
  {
    UnknownProductMessage();
  }

  lemma UnknownProductMessage()
    ensures ErrorMessage(NotFound(Products, "P123")) == "Data not found for productInfo with ID P123"
  {
    var head := NotFoundPrefix + Tag(Products);
    assert head == "Data not found for productInfo";
    assert IdInfix + "P123" == " with ID P123";
    assert ErrorMessage(NotFound(Products, "P123")) == head + (IdInfix + "P123");
  }

  /** The shape of the catch-all 500 answer. */
  lemma InternalErrorResponse(details: string)
    ensures Render(Failed(Internal(details))) ==
      HttpResponse(500, JsonHeaders, ErrorBody("Internal Server Error", Some(details)))
  {
  }

  // ---------------------------------------------------------------------------
  // A declarative statement of the handler's contract, and its equivalence with
  // the dispatcher.
  // ---------------------------------------------------------------------------

  /** What the contract demands of a request whose tag names category `c`. */
  ghost predicate ConformsFor(store: Store, event: Event, h: HttpResponse, c: Category)
  {
    event.dataType == Tag(c) ==>
      var id := IdOf(event, c);
      if id == None || id == Some("") then
        h.statusCode == 400 && h.body == ErrorBody(MissingIdMessage(c), None)
      else if id.value in Keys(store, c) then
        h.statusCode == 200 && h.body == Payload(Lookup(store, c, id.value).value)
      else
        h.statusCode == 404 && h.body == ErrorBody("Data not found for " + Tag(c) + " with ID " + id.value, None)
  }

  /** The handler's contract as a relation between request, store and response. */
  ghost predicate Conforms(store: Store, event: Event, h: HttpResponse)
  {
    && h.headers == JsonHeaders
    && (event.dataType !in {"customerPlanInfo", "productInfo", "knowledgeBase"} ==>
          h.statusCode == 400 && h.body == ErrorBody("Invalid dataType: " + event.dataType, None))
    && ConformsFor(store, event, h, CustomerPlans)
    && ConformsFor(store, event, h, Products)
    && ConformsFor(store, event, h, KnowledgeBase)
  }

  /** The contract leaves no freedom: the handler's answer is the only one that meets it. */
  lemma ConformingResponseIsHandlers(store: Store, event: Event, h: HttpResponse)
    requires Conforms(store, event, h)
    ensures h == Invoke(store, event)
  {
    match ParseCategory(event.dataType)
    case None =>
    case Some(c) => assert ConformsFor(store, event, h, c);
  }
}
