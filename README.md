# dog_finder search core, in Dafny

dog_finder is a web service that matches lost and found dogs by photo. A report stores a dog
record in a vector store, keyed by the embedding of the dog's photo. A search sends a photo
and some optional attributes (type, breed, sex, size, color, chip number, name, location). It
gets back the stored records whose photos are most similar and whose attributes agree with the
request.

This project models the part of the router that turns a search request into a vector-store
query, and the dog record it searches over:

- `DogDto` (`dog_dto.dfy`): the `DogType` and `DogSex` enums and their string values, the image
  and dog records with their declared defaults, the `dogFoundOn` date serializer
  (`date.isoformat`, with a parser proving it round-trips), and `to_vectordb_json`, the ten
  properties a record stores in the vector store.
- `Predicates` (`predicates.dfy`): the filter tree (`Predicate` leaves under `and_`), plus a
  reading `Holds` of what a filter selects from a stored record.
- `SearchRequest` (`search_request.dfy`): the mutable search request the endpoints receive.
- `FilterBuilder` (`filter_builder.dfy`): `build_filter` as an imperative method, proved equal to
  the operand list `FilterOperands`. Lemmas then state the filter's shape, its order, its size,
  that it is injective, that it never looks at `isVerified`, and exactly which stored dogs it
  selects.
- `Dogfinder` (`dogfinder.dfy`): `query_vector_db`, the two search endpoints (which overwrite the
  request's type, image and verification flag), the 200/500 response envelope, and the fixed
  filter of `get_unverified_documents`.
- `Decimal`, `Json`, `Wrappers`: digit strings (`%0Nd`, `str(n)`), JSON scalars, and
  `Option`/`Result`.

Collaborators the core calls but does not define are parameters, gathered in
`Dogfinder.Collaborators`:

- image conversion (`handle_uploaded_images`);
- image decoding (`create_pil_images`);
- the embedding model (`embed_query`);
- the filter serializer (`Filter.to_dict`);
- the vector store's `query`.

Each of them may fail. A failure is an `Err`, and the endpoints turn it into the 500 envelope,
as the source's `except Exception` does.

## Model

| member | source | states |
|---|---|---|
| DogDto.DogType.Value | app/DTO/dog_dto.py:6-8 | a dog type's value is `"found"` or `"lost"` |
| DogDto.DogTypeFromValue | app/DTO/dog_dto.py:6-8 | a string names a dog type iff it is `"found"` or `"lost"`, and the member found has that value |
| DogDto.DogSex.Value | app/DTO/dog_dto.py:10-12 | a sex's value is `"male"` or `"female"` |
| DogDto.DogSexFromValue | app/DTO/dog_dto.py:10-12 | a string names a sex iff it is `"male"` or `"female"`, and the member found has that value |
| DogDto.EnumValuesRoundTrip | app/DTO/dog_dto.py:6-12 | every enum member is recovered from its value, so the values are distinct |
| DogDto.TypeText | app/routers/dogfinder.py:462-463 | an optional type's value is present iff the type is, and reading that value back gives the type again |
| DogDto.SexText | app/routers/dogfinder.py:470-471 | an optional sex's value is present iff the sex is, and reading that value back gives the sex again |
| DogDto.DaysInMonth | app/DTO/dog_dto.py:42 | a month of a Gregorian date has 28 to 31 days |
| DogDto.IsoFormat | app/DTO/dog_dto.py:45-47 | `isoformat` gives ten characters: four digits, `-`, two digits, `-`, two digits |
| DogDto.ParseIsoDate | app/DTO/dog_dto.py:45-47 | a string read back as a date is exactly that date's `isoformat` |
| DogDto.IsoFormatRoundTrip | app/DTO/dog_dto.py:45-47 | every representable date survives `isoformat` and parsing back |
| DogDto.SerializeDogFoundOn | app/DTO/dog_dto.py:45-47 | no date serializes to `None`, a date to its ten-character ISO form, which parses back to the date |
| DogDto.NewDogImageDto | app/DTO/dog_dto.py:14-17 | a new image has no id, the given payload and content type `webp` |
| DogDto.NewDogDto | app/DTO/dog_dto.py:19-42 | a new record keeps its images and type; it is neither matched nor verified, and every optional field is `None` |
| DogDto.ToVectorDbJson | app/DTO/dog_dto.py:51-69 | the projection has exactly the ten keys; the type and sex appear as their enum values, the flags as booleans, and missing values as `null` |
| DogDto.ProjectionDeterminedByIndexedFields | app/DTO/dog_dto.py:55-69 | two records project equally iff they agree on the ten indexed fields |
| Json.OptionalText | app/DTO/dog_dto.py:60-66 | an optional text is `null` iff it is `None`, and otherwise the text |
| Json.OptionalTextInjective | app/DTO/dog_dto.py:60-66 | two optional texts give the same JSON iff they are equal |
| Decimal.Parse | app/DTO/dog_dto.py:47 | a digit string's value is below 10 to the power of its length |
| Decimal.Padded | app/DTO/dog_dto.py:47 | a zero-padded number has exactly the requested width and only digits |
| Decimal.ParsePadded | app/DTO/dog_dto.py:47 | parsing a zero-padded number gives the number back |
| Decimal.PaddedParse | app/DTO/dog_dto.py:47 | padding a parsed digit string to its own width gives the string back |
| Decimal.Format | app/routers/dogfinder.py:226 | `str(n)` is a non-empty digit string with no leading zero |
| Decimal.ParseFormat | app/routers/dogfinder.py:226 | parsing `str(n)` gives `n` back |
| Predicates.ValueJson | app/routers/dogfinder.py:463 | a predicate's operand as JSON: a text as a string, a boolean as a boolean, never `null` |
| Predicates.ValueJsonInjective | app/routers/dogfinder.py:463 | two operands give the same JSON iff they are equal |
| Predicates.HoldsAndAppend | app/routers/dogfinder.py:502-503 | an `and_` over two concatenated operand lists holds iff it holds over each |
| Predicates.HoldsSingleton | app/routers/dogfinder.py:261 | an `and_` of a single predicate selects what that predicate selects |
| SearchRequest.DogSearchRequest.constructor | app/routers/dogfinder.py:213 | a new request holds the given attributes, image, `top`, verification flag and return properties |
| FilterBuilder.Rank | app/routers/dogfinder.py:461-491 | the eight attributes are ranked 0 to 7 in the order the builder visits them, and every other property gets 8 |
| FilterBuilder.AttributeFields | app/routers/dogfinder.py:461-491 | the builder visits exactly eight attributes |
| FilterBuilder.AppendIfSet | app/routers/dogfinder.py:466-467 | one builder step appends an `Equal` text predicate iff the attribute is set, and otherwise leaves the list alone |
| FilterBuilder.BuildFilter | app/routers/dogfinder.py:454-506 | the result is never `None`; it is the `And` of the set attributes' predicates followed by `isMatched = false` |
| FilterBuilder.FilterOperandsUnrolled | app/routers/dogfinder.py:459-499 | the operands, attribute by attribute, in the builder's order, then `isMatched = false` |
| FilterBuilder.FilterOperandsOfRequest | app/routers/dogfinder.py:459-499 | the same, read off the request object's fields |
| FilterBuilder.PresentPredicatesAppend | app/routers/dogfinder.py:459-491 | visiting one more field appends exactly that field's contribution |
| FilterBuilder.AttributeFieldsAreFieldsOf | app/routers/dogfinder.py:461-491 | the visited fields sit at their own rank and carry the request's values |
| FilterBuilder.PresentPredicatesOrdered | app/routers/dogfinder.py:461-491 | every predicate the visited fields give is an attribute predicate, and their ranks strictly increase |
| FilterBuilder.FilterOperandsShape | app/routers/dogfinder.py:459-503 | the last operand is `isMatched = false`; all others are `Equal` text predicates on a set attribute with the request's value, in strictly increasing attribute order |
| FilterBuilder.OperandCount | app/routers/dogfinder.py:459-499 | there is one operand per set attribute, plus one |
| FilterBuilder.SetCountAppend | app/routers/dogfinder.py:461-491 | counting one more field adds one iff that field is set |
| FilterBuilder.PresentPredicatesLength | app/routers/dogfinder.py:461-491 | the visited fields give one predicate per set field |
| FilterBuilder.SetAttributeIsConstrained | app/routers/dogfinder.py:461-491 | no set attribute is skipped: its `Equal` predicate is among the operands |
| FilterBuilder.FilterIgnoresVerification | app/routers/dogfinder.py:493-499 | the filter is well formed, and no operand looks at `isVerified` |
| FilterBuilder.FilterDeterminesAttributes | app/routers/dogfinder.py:459-499 | two requests give the same operands iff their attributes are equal |
| FilterBuilder.OneSideImplies | app/routers/dogfinder.py:459-499 | with equal operands, an attribute one request sets has the same value in the other |
| FilterBuilder.SameValuesSameAttributes | app/routers/dogfinder.py:461-491 | requests that agree on every compared value have equal attributes |
| FilterBuilder.HoldsContribution | app/routers/dogfinder.py:466-467 | a step's contribution holds of a record iff, when the attribute is set, the record has it with that value |
| FilterBuilder.HoldsPresentPredicates | app/routers/dogfinder.py:461-491 | the visited predicates hold of a record iff every set field is a property of the record with its value |
| FilterBuilder.SetAttributeHasRank | app/routers/dogfinder.py:461-491 | an attribute the request sets is one of the eight, visited at its rank |
| FilterBuilder.SearchFilterMeaning | app/routers/dogfinder.py:454-506 | the filter holds of a record iff the record has every set attribute with the request's value and `isMatched` is false |
| FilterBuilder.StoredDogMatchesSearch | app/routers/dogfinder.py:454-506 | a dog stored through `to_vectordb_json` passes the filter iff it agrees with every set attribute and is not matched |
| FilterBuilder.SatisfiesMeansAgrees | app/DTO/dog_dto.py:55-69 | for a stored dog, having every set attribute's value means agreeing with the request, and the converse |
| FilterBuilder.SatisfiesImpliesAgrees | app/DTO/dog_dto.py:55-69 | a stored dog with every set attribute's value agrees with the request |
| FilterBuilder.AgreesImpliesSatisfies | app/DTO/dog_dto.py:55-69 | a dog that agrees with the request has every set attribute's value once stored |
| FilterBuilder.TextAttributeAgrees | app/DTO/dog_dto.py:55-69 | a satisfied attribute's stored property is the request's text |
| FilterBuilder.EnumValueAgrees | app/DTO/dog_dto.py:51-52 | for type and sex, equal stored values mean equal enum members |
| FilterBuilder.SearchDisregardsVerification | app/routers/dogfinder.py:493-496 | whether a stored dog is verified never changes whether a search returns it |
| FilterBuilder.MatchedDogNeverSelected | app/routers/dogfinder.py:498-499 | a dog already matched is never selected |
| Dogfinder.QueryOutcome | app/routers/dogfinder.py:510-524 | the first failure of decoding, embedding or serializing the filter is the outcome; otherwise it is the store's answer to the similarity query with the serialized filter |
| Dogfinder.QueryVectorDb | app/routers/dogfinder.py:510-524 | the store is queried on class `Dog` with the image's embedding, the serialized built filter, `top` as the limit, no offset and the request's return properties; its answer is returned unchanged |
| Dogfinder.Respond | app/routers/dogfinder.py:226-229 | status 200 iff the search succeeded, with the results and their count; otherwise 500, no results, a count of 0 and the error in the message |
| Dogfinder.SearchIn | app/routers/dogfinder.py:214-232 | a failed conversion leaves the request alone and answers 500; otherwise the type, image and `isVerified = True` are set, nothing else changes, and the answer is the envelope of the query |
| Dogfinder.SearchInFoundDogs | app/routers/dogfinder.py:212-232 | the same, with the type forced to `found` |
| Dogfinder.SearchInLostDogs | app/routers/dogfinder.py:234-255 | the same, with the type forced to `lost` |
| Dogfinder.ForcedTypeLeadsFilter | app/routers/dogfinder.py:219 | once an endpoint forces the type, the filter's first operand is `type = "found"` or `type = "lost"` |
| Dogfinder.SearchEnvelope | app/routers/dogfinder.py:224-226 | when decoding, embedding, serializing and the store all succeed, the response is 200 with exactly the store's results, their count and the success message |
| Dogfinder.GetUnverifiedDocuments | app/routers/dogfinder.py:257-269 | the total is always the number of results; a successful query gives 200, the store's results and the success message; a failure to serialize the filter or to query gives 500, no results, a count of 0 and the error message |
| Dogfinder.UnverifiedFilterMeaning | app/routers/dogfinder.py:261 | the unverified filter is well formed and selects a stored dog iff the dog is not verified |
| Dogfinder.NewDogIsListedAndSearchable | app/DTO/dog_dto.py:23-24 | a new record is listed as unverified, and a search narrowed only by its type selects it |

## Left out

- Web framework, authentication, `async`, logging and `@timeit`: none of them changes what is computed.
- Service startup, the vector-store schema and the other endpoints of `app/routers/dogfinder.py` (report, match, verify and similar) are not part of this model.
- `handle_uploaded_images`, `create_pil_images` and `embed_query` are opaque collaborators. Their resizing, WebP conversion, base64 handling and the embedding model are not modelled. The content type that conversion returns is ignored by the searches, as in the source.
- `app/models/predicates.py` is not part of this model. The filter is kept as a tree, `Filter.to_dict` is a parameter, and the wire format it produces is not modelled.
- The vector store's evaluation of a filter is not part of this model. `Holds` is this model's reading of the one operator the core builds (`Equal` on a one-segment path, under `and_`). The lemmas about which stored dogs a search selects hold under that reading.
- The declaration of `DogSearchRequest` (`app/viewmodels/dog_viewmodel.py`) is not part of this model. Its fields are those the router reads and writes. `size` and `color` are enums there; here they hold the enum's value (the `.value` the builder reads). `top` and `return_properties` are passed through unchecked.
- The store's `query` also takes a text `query` argument. `query_vector_db` leaves it at the client's default and `get_unverified_documents` passes `None`; the client's default is not visible, so that argument is not modelled.
- Dogfinder.Respond: the message text quotes the exception as `str(e)`; the model carries the failure's message as a string and does not model exception formatting.
- The date serializer's `if v` treats every `date` as true, so it is modelled by presence (`None` or a date). The date range is that of Python's `datetime.date`, years 1 to 9999.
