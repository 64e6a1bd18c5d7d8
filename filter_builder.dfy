/** `build_filter`: the filter tree a search request narrows the similarity search by. */
module FilterBuilder {

  import opened Wrappers
  import opened Json
  import opened Predicates
  import opened DogDto
  import opened SearchRequest

  /** The stored property each attribute is compared with, in the order the filter lists them. */
  const AttributeNames: seq<string> :=
    ["type", "breed", "sex", "size", "color", "chipNumber", "name", "location"]

  /** The text an attribute is compared by, if the request sets it (an enum's value for type and sex). */
  function AttributeValue(a: SearchAttributes, field: string): Option<string> {
    if field == "type" then TypeText(a.dogType)
    else if field == "breed" then a.breed
    else if field == "sex" then SexText(a.sex)
    else if field == "size" then a.size
    else if field == "color" then a.color
    else if field == "chipNumber" then a.chipNumber
    else if field == "name" then a.name
    else if field == "location" then a.location
    else None
  }

  /** The position of an attribute in `AttributeNames`; 8 for any other property. */
  function Rank(field: string): (k: nat)
    ensures k <= 8
    ensures k < 8 ==> AttributeNames[k] == field
    ensures k == 8 <==> field !in AttributeNames
  {
    if field == "type" then 0
    else if field == "breed" then 1
    else if field == "sex" then 2
    else if field == "size" then 3
    else if field == "color" then 4
    else if field == "chipNumber" then 5
    else if field == "name" then 6
    else if field == "location" then 7
    else 8
  }

  /** An attribute as the builder visits it: the stored property's name and the request's value. */
  datatype Field = Field(name: string, value: Option<string>)

  function AttributeFields(a: SearchAttributes): (fs: seq<Field>)
    ensures |fs| == 8
  {
    [Field("type", TypeText(a.dogType)), Field("breed", a.breed), Field("sex", SexText(a.sex)),
     Field("size", a.size), Field("color", a.color), Field("chipNumber", a.chipNumber),
     Field("name", a.name), Field("location", a.location)]
  }

  /** How many of the fields are set. */
  function SetCount(fs: seq<Field>): nat {
    if fs == [] then 0 else (if fs[0].value.Some? then 1 else 0) + SetCount(fs[1..])
  }

  /** How many of the eight attributes the request sets. */
  function Present(a: SearchAttributes): nat {
    SetCount(AttributeFields(a))
  }

  /** `Predicate([field], "Equal", text, FilterValueTypes.valueText)`. */
  function EqualText(field: string, text: string): Filter {
    Leaf([field], "Equal", Text(text), ValueText)
  }

  /** The predicate every search carries: only records not yet matched are returned. */
  const IsMatchedFalse: Filter := Leaf(["isMatched"], "Equal", Boolean(false), ValueBoolean)

  /** What one attribute adds: an `Equal` predicate if it is set, nothing if it is not. */
  function Contribution(f: Field): seq<Filter> {
    if f.value.Some? then [EqualText(f.name, f.value.value)] else []
  }

  /** The predicates of the set fields, in the order of the fields. */
  function PresentPredicates(fs: seq<Field>): seq<Filter> {
    if fs == [] then [] else PresentPredicates(fs[..|fs| - 1]) + Contribution(fs[|fs| - 1])
  }

  /** The operands of the `And` node `build_filter` returns for a request with these attributes. */
  function FilterOperands(a: SearchAttributes): seq<Filter> {
    PresentPredicates(AttributeFields(a)) + [IsMatchedFalse]
  }

  lemma PresentPredicatesAppend(fs: seq<Field>, f: Field)
    ensures PresentPredicates(fs + [f]) == PresentPredicates(fs) + Contribution(f)
  {
    assert (fs + [f])[..|fs|] == fs;
  }

  /** The operands attribute by attribute, as the builder appends them. */
  lemma FilterOperandsUnrolled(a: SearchAttributes)
    ensures FilterOperands(a) ==
      Contribution(Field("type", TypeText(a.dogType)))
      + Contribution(Field("breed", a.breed))
      + Contribution(Field("sex", SexText(a.sex)))
      + Contribution(Field("size", a.size))
      + Contribution(Field("color", a.color))
      + Contribution(Field("chipNumber", a.chipNumber))
      + Contribution(Field("name", a.name))
      + Contribution(Field("location", a.location))
      + [IsMatchedFalse]
  {
    var fs := AttributeFields(a);
    // Walk the eight fields from the front, one `PresentPredicatesAppend` step each.
    var visited: seq<Field> := [fs[0]];
    var expected := Contribution(fs[0]);
    assert PresentPredicates(visited) == expected by {
      PresentPredicatesAppend([], fs[0]);
      assert [] + [fs[0]] == visited;
    }
    PresentPredicatesAppend(visited, fs[1]);
    visited, expected := visited + [fs[1]], expected + Contribution(fs[1]);
    PresentPredicatesAppend(visited, fs[2]);
    visited, expected := visited + [fs[2]], expected + Contribution(fs[2]);
    PresentPredicatesAppend(visited, fs[3]);
    visited, expected := visited + [fs[3]], expected + Contribution(fs[3]);
    PresentPredicatesAppend(visited, fs[4]);
    visited, expected := visited + [fs[4]], expected + Contribution(fs[4]);
    PresentPredicatesAppend(visited, fs[5]);
    visited, expected := visited + [fs[5]], expected + Contribution(fs[5]);
    PresentPredicatesAppend(visited, fs[6]);
    visited, expected := visited + [fs[6]], expected + Contribution(fs[6]);
    PresentPredicatesAppend(visited, fs[7]);
    visited, expected := visited + [fs[7]], expected + Contribution(fs[7]);
    assert visited == fs;
  }



  /** The same, read off the request's fields. */
  lemma FilterOperandsOfRequest(req: DogSearchRequest)
    ensures FilterOperands(req.Attributes()) ==
      Contribution(Field("type", TypeText(req.dogType)))
      + Contribution(Field("breed", req.breed))
      + Contribution(Field("sex", SexText(req.sex)))
      + Contribution(Field("size", req.size))
      + Contribution(Field("color", req.color))
      + Contribution(Field("chipNumber", req.chipNumber))
      + Contribution(Field("name", req.name))
      + Contribution(Field("location", req.location))
      + [IsMatchedFalse]
  {
    FilterOperandsUnrolled(req.Attributes());
  }

  /** One step of the builder: `if value is not None: predicates.append(Predicate([field], "Equal", value, valueText))`. */
  method AppendIfSet(predicates: seq<Filter>, field: string, value: Option<string>) returns (r: seq<Filter>)
    ensures r == predicates + Contribution(Field(field, value))
  {
    r := predicates;
    if value.Some? {
      r := r + [EqualText(field, value.value)];
    }
  }

  /**
   * `build_filter`: appends one `Equal` predicate per set attribute, in the fixed attribute
   * order, then the `isMatched` predicate, and wraps the list in `and_`. The list is never
   * empty, so the `None` the source returns for an empty list never happens.
   */
  method BuildFilter(req: DogSearchRequest) returns (f: Option<Filter>)
    ensures f.Some? && f.value == And(FilterOperands(req.Attributes()))
  {
    var predicates: seq<Filter> := [];
    predicates := AppendIfSet(predicates, "type", TypeText(req.dogType));
    assert predicates == Contribution(Field("type", TypeText(req.dogType)));
    predicates := AppendIfSet(predicates, "breed", req.breed);
    predicates := AppendIfSet(predicates, "sex", SexText(req.sex));
    predicates := AppendIfSet(predicates, "size", req.size);
    predicates := AppendIfSet(predicates, "color", req.color);
    predicates := AppendIfSet(predicates, "chipNumber", req.chipNumber);
    predicates := AppendIfSet(predicates, "name", req.name);
    predicates := AppendIfSet(predicates, "location", req.location);
    // The isVerified predicate is disabled in the source, so the request's flag adds nothing.
    predicates := predicates + [IsMatchedFalse];
    FilterOperandsOfRequest(req);

    if |predicates| > 0 {
      f := Some(And(predicates));
    } else {
      f := None;
    }
  }



  // ---------------------------------------------------------------- properties of the filter

  /** The first path segment of a leaf: the stored property it looks at. */
  function Property(p: Filter): string {
    if p.Leaf? && |p.path| > 0 then p.path[0] else ""
  }

  /** An `Equal` text predicate on an attribute the request sets, compared with the request's value. */
  predicate IsAttributePredicate(a: SearchAttributes, p: Filter) {
    && p.Leaf? && |p.path| == 1
    && AttributeValue(a, p.path[0]).Some?
    && p == EqualText(p.path[0], AttributeValue(a, p.path[0]).value)
  }

  /** Fields that sit at their own rank and carry the request's value. */
  predicate FieldsOf(a: SearchAttributes, fs: seq<Field>) {
    forall j :: 0 <= j < |fs| ==> Rank(fs[j].name) == j && fs[j].value == AttributeValue(a, fs[j].name)
  }

  lemma AttributeFieldsAreFieldsOf(a: SearchAttributes)
    ensures FieldsOf(a, AttributeFields(a))
  {
  }

  /** The predicates of ranked fields are attribute predicates, in strictly increasing rank. */
  lemma {:induction false} PresentPredicatesOrdered(a: SearchAttributes, fs: seq<Field>)
    requires FieldsOf(a, fs)
    ensures forall i :: 0 <= i < |PresentPredicates(fs)| ==>
      IsAttributePredicate(a, PresentPredicates(fs)[i]) && Rank(Property(PresentPredicates(fs)[i])) < |fs|
    ensures forall i, j :: 0 <= i < j < |PresentPredicates(fs)| ==>
      Rank(Property(PresentPredicates(fs)[i])) < Rank(Property(PresentPredicates(fs)[j]))
  {
    if fs != [] {
      var init, last := fs[..|fs| - 1], fs[|fs| - 1];
      assert FieldsOf(a, init) by {
        forall j | 0 <= j < |init| ensures Rank(init[j].name) == j && init[j].value == AttributeValue(a, init[j].name) {
          assert init[j] == fs[j];
        }
      }
      PresentPredicatesOrdered(a, init);
      var front := PresentPredicates(init);
      assert PresentPredicates(fs) == front + Contribution(last);
      if last.value.Some? {
        var p := EqualText(last.name, last.value.value);
        assert IsAttributePredicate(a, p) && Rank(Property(p)) == |init|;
      }
    }
  }

  /**
   * The operands of the built filter: one `Equal` text predicate per set attribute, each on
   * the attribute's own property and with the request's value, in the attribute order (type,
   * breed, sex, size, color, chipNumber, name, location), and always `isMatched = false` last.
   */
  lemma FilterOperandsShape(a: SearchAttributes)
    ensures |FilterOperands(a)| >= 1 && FilterOperands(a)[|FilterOperands(a)| - 1] == IsMatchedFalse
    ensures forall i :: 0 <= i < |FilterOperands(a)| - 1 ==> IsAttributePredicate(a, FilterOperands(a)[i])
    ensures forall i, j :: 0 <= i < j < |FilterOperands(a)| - 1 ==>
      Rank(Property(FilterOperands(a)[i])) < Rank(Property(FilterOperands(a)[j]))
  {
    var fs := AttributeFields(a);
    AttributeFieldsAreFieldsOf(a);
    PresentPredicatesOrdered(a, fs);
    var ops := FilterOperands(a);
    assert forall i :: 0 <= i < |ops| - 1 ==> ops[i] == PresentPredicates(fs)[i];
  }

  /** One operand per set attribute, and one more: `1 + Present(a)` in all. */
  lemma OperandCount(a: SearchAttributes)
    ensures |FilterOperands(a)| == 1 + Present(a)
  {
    PresentPredicatesLength(AttributeFields(a));
  }

  lemma {:induction false} SetCountAppend(fs: seq<Field>, f: Field)
    ensures SetCount(fs + [f]) == SetCount(fs) + (if f.value.Some? then 1 else 0)
  {
    if fs != [] {
      assert (fs + [f])[1..] == fs[1..] + [f];
      SetCountAppend(fs[1..], f);
    }
  }

  /** One predicate per set field. */
  lemma {:induction false} PresentPredicatesLength(fs: seq<Field>)
    ensures |PresentPredicates(fs)| == SetCount(fs)
  {
    if fs != [] {
      var init := fs[..|fs| - 1];
      PresentPredicatesLength(init);
      SetCountAppend(init, fs[|fs| - 1]);
      assert init + [fs[|fs| - 1]] == fs;
    }
  }

  /** Every set attribute is compared with the request's value: no set attribute is skipped. */
  lemma SetAttributeIsConstrained(a: SearchAttributes, field: string)
    requires AttributeValue(a, field).Some?
    ensures EqualText(field, AttributeValue(a, field).value) in FilterOperands(a)
  {
    FilterOperandsUnrolled(a);
  }

  /** The filter is well formed, and nothing in it looks at `isVerified`. */
  lemma FilterIgnoresVerification(a: SearchAttributes)
    ensures WellFormed(And(FilterOperands(a)))
    ensures forall i :: 0 <= i < |FilterOperands(a)| ==>
      FilterOperands(a)[i].Leaf? && FilterOperands(a)[i].path != ["isVerified"]
  {
    FilterOperandsShape(a);
    var ops := FilterOperands(a);
    forall i | 0 <= i < |ops| ensures WellFormed(ops[i]) && ops[i].Leaf? && ops[i].path != ["isVerified"] {
      if i < |ops| - 1 {
        assert IsAttributePredicate(a, ops[i]);
        assert AttributeValue(a, "isVerified").None?;
      }
    }
  }

  /** Equal attributes give equal filters and, the other way round, the filter determines every attribute. */
  lemma FilterDeterminesAttributes(a: SearchAttributes, b: SearchAttributes)
    ensures FilterOperands(a) == FilterOperands(b) <==> a == b
  {
    if FilterOperands(a) == FilterOperands(b) {
      FilterOperandsShape(a);
      FilterOperandsShape(b);
      forall field: string ensures AttributeValue(a, field) == AttributeValue(b, field) {
        OneSideImplies(a, b, field);
        OneSideImplies(b, a, field);
      }
      SameValuesSameAttributes(a, b);
    }
  }

  lemma OneSideImplies(a: SearchAttributes, b: SearchAttributes, field: string)
    requires FilterOperands(a) == FilterOperands(b)
    requires forall i :: 0 <= i < |FilterOperands(b)| - 1 ==> IsAttributePredicate(b, FilterOperands(b)[i])
    requires |FilterOperands(b)| >= 1 && FilterOperands(b)[|FilterOperands(b)| - 1] == IsMatchedFalse
    ensures AttributeValue(a, field).Some? ==> AttributeValue(b, field) == AttributeValue(a, field)
  {
    if AttributeValue(a, field).Some? {
      var p := EqualText(field, AttributeValue(a, field).value);
      SetAttributeIsConstrained(a, field);
      var ops := FilterOperands(b);
      var i :| 0 <= i < |ops| && ops[i] == p;
      assert p != IsMatchedFalse;
      assert IsAttributePredicate(b, ops[i]);
    }
  }

  lemma SameValuesSameAttributes(a: SearchAttributes, b: SearchAttributes)
    requires forall field: string :: AttributeValue(a, field) == AttributeValue(b, field)
    ensures a == b
  {
    assert AttributeValue(a, "type") == AttributeValue(b, "type");
    assert AttributeValue(a, "sex") == AttributeValue(b, "sex");
    assert AttributeValue(a, "breed") == AttributeValue(b, "breed");
    assert AttributeValue(a, "size") == AttributeValue(b, "size");
    assert AttributeValue(a, "color") == AttributeValue(b, "color");
    assert AttributeValue(a, "chipNumber") == AttributeValue(b, "chipNumber");
    assert AttributeValue(a, "name") == AttributeValue(b, "name");
    assert AttributeValue(a, "location") == AttributeValue(b, "location");
  }

  // ---------------------------------------------------------------- what the filter selects

  /** Every attribute the request sets is a property of the record with the request's value. */
  ghost predicate SatisfiesAttributes(a: SearchAttributes, rec: map<string, JsonValue>) {
    forall field :: AttributeValue(a, field).Some? ==>
      field in rec && rec[field] == JString(AttributeValue(a, field).value)
  }

  lemma HoldsContribution(f: Field, rec: map<string, JsonValue>)
    ensures Holds(And(Contribution(f)), rec) <==>
      (f.value.Some? ==> f.name in rec && rec[f.name] == JString(f.value.value))
  {
    if f.value.Some? {
      assert Contribution(f)[0] == EqualText(f.name, f.value.value);
    }
  }

  /** The predicates of some fields hold of a record exactly when every set field is a property with its value. */
  lemma {:induction false} HoldsPresentPredicates(fs: seq<Field>, rec: map<string, JsonValue>)
    ensures Holds(And(PresentPredicates(fs)), rec) <==>
      forall j :: 0 <= j < |fs| && fs[j].value.Some? ==>
        fs[j].name in rec && rec[fs[j].name] == JString(fs[j].value.value)
  {
    if fs != [] {
      var init, last := fs[..|fs| - 1], fs[|fs| - 1];
      HoldsPresentPredicates(init, rec);
      HoldsAndAppend(PresentPredicates(init), Contribution(last), rec);
      HoldsContribution(last, rec);
      assert forall j :: 0 <= j < |init| ==> init[j] == fs[j];
    }
  }

  /** A property an attribute of the request sets is one of the eight, at its rank. */
  lemma SetAttributeHasRank(a: SearchAttributes, field: string)
    requires AttributeValue(a, field).Some?
    ensures Rank(field) < 8 && AttributeFields(a)[Rank(field)].name == field
  {
  }

  /**
   * A stored record passes the built filter exactly when it has every attribute the request
   * sets, with the request's value, and is not marked as matched.
   */
  lemma SearchFilterMeaning(a: SearchAttributes, rec: map<string, JsonValue>)
    ensures Holds(And(FilterOperands(a)), rec) <==>
      SatisfiesAttributes(a, rec) && "isMatched" in rec && rec["isMatched"] == JBool(false)
  {
    var fs := AttributeFields(a);
    HoldsAndAppend(PresentPredicates(fs), [IsMatchedFalse], rec);
    HoldsPresentPredicates(fs, rec);
    AttributeFieldsAreFieldsOf(a);
    if Holds(And(PresentPredicates(fs)), rec) {
      forall field | AttributeValue(a, field).Some?
        ensures field in rec && rec[field] == JString(AttributeValue(a, field).value)
      {
        SetAttributeHasRank(a, field);
      }
    }
    if SatisfiesAttributes(a, rec) {
      forall j | 0 <= j < |fs| && fs[j].value.Some?
        ensures fs[j].name in rec && rec[fs[j].name] == JString(fs[j].value.value)
      {
        assert fs[j].value == AttributeValue(a, fs[j].name);
      }
    }
    HoldsSingleton(IsMatchedFalse, rec);
  }

  /** The request's attributes, read as conditions on a stored dog record. */
  predicate AgreesWith(a: SearchAttributes, d: DogDto) {
    && (a.dogType.Some? ==> d.dogType == a.dogType.value)
    && (a.breed.Some? ==> d.breed == a.breed)
    && (a.sex.Some? ==> d.sex == a.sex)
    && (a.size.Some? ==> d.size == a.size)
    && (a.color.Some? ==> d.color == a.color)
    && (a.chipNumber.Some? ==> d.chipNumber == a.chipNumber)
    && (a.name.Some? ==> d.name == a.name)
    && (a.location.Some? ==> d.location == a.location)
  }

  /**
   * A dog stored through `to_vectordb_json` is selected by the search filter exactly when it
   * agrees with every attribute the request sets and is not yet matched.
   */
  lemma StoredDogMatchesSearch(a: SearchAttributes, d: DogDto)
    ensures Holds(And(FilterOperands(a)), ToVectorDbJson(d)) <==> AgreesWith(a, d) && !d.isMatched
  {
    SearchFilterMeaning(a, ToVectorDbJson(d));
    SatisfiesMeansAgrees(a, d);
  }

  lemma SatisfiesMeansAgrees(a: SearchAttributes, d: DogDto)
    ensures SatisfiesAttributes(a, ToVectorDbJson(d)) <==> AgreesWith(a, d)
  {
    if SatisfiesAttributes(a, ToVectorDbJson(d)) {
      SatisfiesImpliesAgrees(a, d);
    }
    if AgreesWith(a, d) {
      AgreesImpliesSatisfies(a, d);
    }
  }

  lemma SatisfiesImpliesAgrees(a: SearchAttributes, d: DogDto)
    requires SatisfiesAttributes(a, ToVectorDbJson(d))
    ensures AgreesWith(a, d)
  {
    var rec := ToVectorDbJson(d);
    EnumValueAgrees(a, d);
    assert AttributeValue(a, "type").Some? ==> rec["type"] == JString(AttributeValue(a, "type").value);
    assert AttributeValue(a, "sex").Some? ==> rec["sex"] == JString(AttributeValue(a, "sex").value);
    TextAttributeAgrees(a, d, "breed");
    TextAttributeAgrees(a, d, "size");
    TextAttributeAgrees(a, d, "color");
    TextAttributeAgrees(a, d, "chipNumber");
    TextAttributeAgrees(a, d, "name");
    TextAttributeAgrees(a, d, "location");
  }

  /** A satisfied text attribute is the stored field's value. */
  lemma TextAttributeAgrees(a: SearchAttributes, d: DogDto, field: string)
    requires SatisfiesAttributes(a, ToVectorDbJson(d))
    ensures AttributeValue(a, field).Some? ==> ToVectorDbJson(d)[field] == JString(AttributeValue(a, field).value)
  {
  }

  lemma AgreesImpliesSatisfies(a: SearchAttributes, d: DogDto)
    requires AgreesWith(a, d)
    ensures SatisfiesAttributes(a, ToVectorDbJson(d))
  {
    var rec := ToVectorDbJson(d);
    forall field | AttributeValue(a, field).Some?
      ensures field in rec && rec[field] == JString(AttributeValue(a, field).value)
    {
      EnumValueAgrees(a, d);
    }
  }

  /** For the two enum attributes, equal values mean equal members. */
  lemma EnumValueAgrees(a: SearchAttributes, d: DogDto)
    ensures a.dogType.Some? ==> (JString(a.dogType.value.Value()) == JString(d.dogType.Value()) <==> d.dogType == a.dogType.value)
    ensures a.sex.Some? ==> (JString(a.sex.value.Value()) == OptionalText(SexText(d.sex)) <==> d.sex == a.sex)
  {
    if a.dogType.Some? {
      assert TypeText(a.dogType).value == a.dogType.value.Value();
      assert TypeText(Some(d.dogType)).value == d.dogType.Value();
    }
  }

  /** Whether a stored dog is verified never changes whether a search returns it. */
  lemma SearchDisregardsVerification(a: SearchAttributes, d: DogDto, verified: bool)
    ensures Holds(And(FilterOperands(a)), ToVectorDbJson(d.(isVerified := verified)))
        == Holds(And(FilterOperands(a)), ToVectorDbJson(d))
  {
    StoredDogMatchesSearch(a, d);
    StoredDogMatchesSearch(a, d.(isVerified := verified));
  }

  /** A dog already marked as matched is never returned by a search. */
  lemma MatchedDogNeverSelected(a: SearchAttributes, d: DogDto)
    requires d.isMatched
    ensures !Holds(And(FilterOperands(a)), ToVectorDbJson(d))
  {
    StoredDogMatchesSearch(a, d);
  }
}
