/**
 * The search endpoints of the router: request normalization, the similarity query sent to
 * the vector store, and the response envelope. Image conversion, image decoding, the
 * embedding model, the filter serializer and the vector store are collaborators passed in.
 */
module Dogfinder {

  import opened Wrappers
  import opened Json
  import opened Predicates
  import opened DogDto
  import opened SearchRequest
  import opened FilterBuilder
  import Decimal

  /** The arguments the core passes to `vecotrDBClient.query`. */
  datatype VectorQuery<E, W> = VectorQuery(
    className: string,
    embedding: Option<E>,
    limit: int,
    offset: Option<int>,
    filter: W,
    properties: seq<string>)

  /**
   * The collaborators the router calls, each of which may raise (a raise is an `Err`):
   * `convertImage` stands for `handle_uploaded_images([img])[0]` (resize and convert, giving the
   * new base64 payload and its content type), `openImage` for `create_pil_images([b64])[0]`,
   * `embed` for `embed_query(image, embedding_model)`, `toDict` for `Filter.to_dict` and
   * `query` for the vector store's query.
   */
  datatype Collaborators<!I, !E, !W, R> = Collaborators(
    convertImage: string -> Result<(string, string)>,
    openImage: string -> Result<I>,
    embed: I -> Result<E>,
    toDict: Filter -> Result<W>,
    query: VectorQuery<E, W> -> Result<seq<R>>)

  /** The filter `build_filter` gives for a request with these attributes. */
  function SearchFilter(a: SearchAttributes): Filter {
    And(FilterOperands(a))
  }

  /** The similarity query for a request: its embedding, its serialized filter, `top` results, no offset. */
  function SimilarityQuery<E, W>(top: int, properties: seq<string>, embedding: E, filter: W): VectorQuery<E, W> {
    VectorQuery("Dog", Some(embedding), top, None, filter, properties)
  }

  /**
   * What `query_vector_db` yields: the store's answer to the similarity query, as it is, or
   * the first failure among decoding the image, embedding it, serializing the filter and querying.
   */
  function QueryOutcome<I, E, W, R>(a: SearchAttributes, base64Image: string, top: int,
                                    properties: seq<string>, c: Collaborators<I, E, W, R>): (r: Result<seq<R>>)
    ensures c.openImage(base64Image).Err? ==> r == Err(c.openImage(base64Image).message)
    ensures c.openImage(base64Image).Ok? && c.embed(c.openImage(base64Image).value).Err? ==>
      r == Err(c.embed(c.openImage(base64Image).value).message)
    ensures c.openImage(base64Image).Ok? && c.embed(c.openImage(base64Image).value).Ok? &&
            c.toDict(SearchFilter(a)).Err? ==>
      r == Err(c.toDict(SearchFilter(a)).message)
    ensures c.openImage(base64Image).Ok? && c.embed(c.openImage(base64Image).value).Ok? &&
            c.toDict(SearchFilter(a)).Ok? ==>
      r == c.query(SimilarityQuery(top, properties, c.embed(c.openImage(base64Image).value).value,
                                   c.toDict(SearchFilter(a)).value))
  {
    match c.openImage(base64Image)
    case Err(m) => Err(m)
    case Ok(image) =>
      match c.embed(image)
      case Err(m) => Err(m)
      case Ok(embedding) =>
        match c.toDict(SearchFilter(a))
        case Err(m) => Err(m)
        case Ok(filter) => c.query(SimilarityQuery(top, properties, embedding, filter))
  }

  /**
   * `query_vector_db`: decode the request's image, embed it, build the filter and query the
   * store with the request's `top` and `return_properties`; the store's results come back
   * unchanged, in the store's order.
   */
  method QueryVectorDb<I, E, W, R>(req: DogSearchRequest, c: Collaborators<I, E, W, R>) returns (r: Result<seq<R>>)
    ensures r == QueryOutcome(req.Attributes(), req.base64Image, req.top, req.returnProperties, c)
  {
    var image := c.openImage(req.base64Image);
    if image.Err? {
      return Err(image.message);
    }
    var embedding := c.embed(image.value);
    if embedding.Err? {
      return Err(embedding.message);
    }
    var filter := BuildFilter(req);
    var serialized := c.toDict(filter.value);
    if serialized.Err? {
      return Err(serialized.message);
    }
    r := c.query(VectorQuery("Dog", Some(embedding.value), req.top, None, serialized.value, req.returnProperties));
  }

  /** The body of the endpoints' response: status, message and `{ total, results }`. */
  datatype Envelope<R> = Envelope(status: int, message: string, total: int, results: seq<R>)

  /**
   * The response for a search outcome: 200 with the results and their count, or, for any
   * failure, 500 with no results and a count of 0.
   */
  function Respond<R>(r: Result<seq<R>>): (e: Envelope<R>)
    ensures e.total == |e.results|
    ensures e.status == 200 <==> r.Ok?
    ensures r.Ok? ==> e.results == r.value
    ensures r.Err? ==> e.status == 500 && e.results == []
    ensures r.Ok? ==> e.message == "Queried " + Decimal.Format(|r.value|) + " results from the vecotrdb"
    ensures r.Err? ==> e.message == "Error while querying the vecotrdb: " + r.message
  {
    match r
    case Ok(results) =>
      Envelope(200, "Queried " + Decimal.Format(|results|) + " results from the vecotrdb", |results|, results)
    case Err(m) =>
      Envelope(500, "Error while querying the vecotrdb: " + m, 0, [])
  }

  /**
   * The path both search endpoints share: convert the uploaded image, then force the record
   * type and the verification flag, store the converted image in the request, and search.
   * A failing conversion leaves the request as it was.
   */
  method SearchIn<I, E, W, R>(req: DogSearchRequest, dogType: DogType, c: Collaborators<I, E, W, R>)
    returns (response: Envelope<R>)
    modifies req
    ensures c.convertImage(old(req.base64Image)).Err? ==>
      && unchanged(req)
      && response == Respond(Err(c.convertImage(old(req.base64Image)).message))
    ensures c.convertImage(old(req.base64Image)).Ok? ==>
      && req.dogType == Some(dogType)
      && req.isVerified == Some(true)
      && req.base64Image == c.convertImage(old(req.base64Image)).value.0
      && req.breed == old(req.breed) && req.sex == old(req.sex) && req.size == old(req.size)
      && req.color == old(req.color) && req.chipNumber == old(req.chipNumber)
      && req.name == old(req.name) && req.location == old(req.location)
      && req.top == old(req.top) && req.returnProperties == old(req.returnProperties)
      && response == Respond(QueryOutcome(req.Attributes(), req.base64Image, req.top, req.returnProperties, c))
  {
    var converted := c.convertImage(req.base64Image);
    if converted.Err? {
      return Respond(Err(converted.message));
    }
    req.dogType := Some(dogType);
    req.base64Image := converted.value.0;
    req.isVerified := Some(true);
    var results := QueryVectorDb(req, c);
    response := Respond(results);
  }

  /** `search_in_found_dogs`: a search among the records of found dogs. */
  method SearchInFoundDogs<I, E, W, R>(req: DogSearchRequest, c: Collaborators<I, E, W, R>)
    returns (response: Envelope<R>)
    modifies req
    ensures c.convertImage(old(req.base64Image)).Err? ==>
      && unchanged(req)
      && response == Respond(Err(c.convertImage(old(req.base64Image)).message))
    ensures c.convertImage(old(req.base64Image)).Ok? ==>
      && req.dogType == Some(Found)
      && req.isVerified == Some(true)
      && req.base64Image == c.convertImage(old(req.base64Image)).value.0
      && req.breed == old(req.breed) && req.sex == old(req.sex) && req.size == old(req.size)
      && req.color == old(req.color) && req.chipNumber == old(req.chipNumber)
      && req.name == old(req.name) && req.location == old(req.location)
      && req.top == old(req.top) && req.returnProperties == old(req.returnProperties)
      && response == Respond(QueryOutcome(req.Attributes(), req.base64Image, req.top, req.returnProperties, c))
  {
    response := SearchIn(req, Found, c);
  }

  /** `search_in_lost_dogs`: a search among the records of lost dogs. */
  method SearchInLostDogs<I, E, W, R>(req: DogSearchRequest, c: Collaborators<I, E, W, R>)
    returns (response: Envelope<R>)
    modifies req
    ensures c.convertImage(old(req.base64Image)).Err? ==>
      && unchanged(req)
      && response == Respond(Err(c.convertImage(old(req.base64Image)).message))
    ensures c.convertImage(old(req.base64Image)).Ok? ==>
      && req.dogType == Some(Lost)
      && req.isVerified == Some(true)
      && req.base64Image == c.convertImage(old(req.base64Image)).value.0
      && req.breed == old(req.breed) && req.sex == old(req.sex) && req.size == old(req.size)
      && req.color == old(req.color) && req.chipNumber == old(req.chipNumber)
      && req.name == old(req.name) && req.location == old(req.location)
      && req.top == old(req.top) && req.returnProperties == old(req.returnProperties)
      && response == Respond(QueryOutcome(req.Attributes(), req.base64Image, req.top, req.returnProperties, c))
  {
    response := SearchIn(req, Lost, c);
  }

  /**
   * After the endpoint forces the record type, the filter's first operand is the type
   * predicate with that type's value (`type = "found"` or `type = "lost"`).
   */
  lemma ForcedTypeLeadsFilter(a: SearchAttributes, dogType: DogType)
    ensures FilterOperands(a.(dogType := Some(dogType)))[0] == EqualText("type", dogType.Value())
  {
    FilterOperandsUnrolled(a.(dogType := Some(dogType)));
  }

  /** A successful search answers with exactly what the store returned; a failed one with nothing. */
  lemma SearchEnvelope<I, E, W, R>(a: SearchAttributes, base64Image: string, top: int,
                                   properties: seq<string>, c: Collaborators<I, E, W, R>, results: seq<R>)
    requires c.openImage(base64Image).Ok? && c.embed(c.openImage(base64Image).value).Ok?
    requires c.toDict(SearchFilter(a)).Ok?
    requires c.query(SimilarityQuery(top, properties, c.embed(c.openImage(base64Image).value).value,
                                     c.toDict(SearchFilter(a)).value)) == Ok(results)
    ensures Respond(QueryOutcome(a, base64Image, top, properties, c)).status == 200
    ensures Respond(QueryOutcome(a, base64Image, top, properties, c)).total == |results|
    ensures Respond(QueryOutcome(a, base64Image, top, properties, c)).results == results
    ensures Respond(QueryOutcome(a, base64Image, top, properties, c)).message ==
      "Queried " + Decimal.Format(|results|) + " results from the vecotrdb"
  {
  }

  // ---------------------------------------------------------------- get_unverified_documents

  /** The fixed filter of `get_unverified_documents`: an `And` of the single predicate `isVerified = false`. */
  const UnverifiedFilter: Filter := And([Leaf(["isVerified"], "Equal", Boolean(false), ValueBoolean)])

  /** The listing query: no embedding, at most 10000 records, no offset, the serialized unverified filter. */
  function UnverifiedQuery<E, W>(filter: W, properties: seq<string>): VectorQuery<E, W> {
    VectorQuery("Dog", None, 10000, None, filter, properties)
  }

  /**
   * `get_unverified_documents`: the store's unverified records, in the store's order, with
   * their count; or, when serializing the filter or querying fails, the failure envelope.
   */
  function GetUnverifiedDocuments<E, W, R>(query: VectorQuery<E, W> -> Result<seq<R>>, toDict: Filter -> Result<W>,
                                           returnProperties: seq<string>): (e: Envelope<R>)
    ensures e.total == |e.results|
    ensures toDict(UnverifiedFilter).Err? ==>
      && e.status == 500 && e.total == 0 && e.results == []
      && e.message == "Error while querying the vecotrdb: " + toDict(UnverifiedFilter).message
    ensures toDict(UnverifiedFilter).Ok? && query(UnverifiedQuery(toDict(UnverifiedFilter).value, returnProperties)).Ok? ==>
      var results := query(UnverifiedQuery(toDict(UnverifiedFilter).value, returnProperties)).value;
      && e.status == 200 && e.results == results && e.total == |results|
      && e.message == "Queried " + Decimal.Format(|results|) + " results from the vecotrdb"
    ensures toDict(UnverifiedFilter).Ok? && query(UnverifiedQuery(toDict(UnverifiedFilter).value, returnProperties)).Err? ==>
      && e.status == 500 && e.total == 0 && e.results == []
      && e.message == "Error while querying the vecotrdb: "
                      + query(UnverifiedQuery(toDict(UnverifiedFilter).value, returnProperties)).message
  {
    match toDict(UnverifiedFilter)
    case Err(m) => Respond(Err(m))
    case Ok(filter) => Respond(query(UnverifiedQuery(filter, returnProperties)))
  }

  /** The unverified filter selects a stored dog exactly when the dog is not verified. */
  lemma UnverifiedFilterMeaning(d: DogDto)
    ensures WellFormed(UnverifiedFilter)
    ensures Holds(UnverifiedFilter, ToVectorDbJson(d)) <==> !d.isVerified
  {
    HoldsSingleton(Leaf(["isVerified"], "Equal", Boolean(false), ValueBoolean), ToVectorDbJson(d));
  }

  /** A freshly built record is listed as unverified, and a search for its own type can find it. */
  lemma NewDogIsListedAndSearchable(images: seq<DogImageDto>, dogType: DogType)
    ensures Holds(UnverifiedFilter, ToVectorDbJson(NewDogDto(images, dogType)))
    ensures Holds(And(FilterOperands(SearchAttributes(Some(dogType), None, None, None, None, None, None, None))),
                  ToVectorDbJson(NewDogDto(images, dogType)))
  {
    UnverifiedFilterMeaning(NewDogDto(images, dogType));
    StoredDogMatchesSearch(SearchAttributes(Some(dogType), None, None, None, None, None, None, None), NewDogDto(images, dogType));
  }
}
