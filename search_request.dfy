/**
 * The search request the two search endpoints receive (`DogSearchRequest`). Its declaration
 * (`app/viewmodels/dog_viewmodel.py`) is not part of this model; its fields are those the
 * router reads and writes. `size` and `color` are enums there; here they hold the enum's value.
 */
module SearchRequest {

  import opened Wrappers
  import opened DogDto

  /** The eight optional attributes a search can be narrowed by, in the order the filter lists them. */
  datatype SearchAttributes = SearchAttributes(
    dogType: Option<DogType>,
    breed: Option<string>,
    sex: Option<DogSex>,
    size: Option<string>,
    color: Option<string>,
    chipNumber: Option<string>,
    name: Option<string>,
    location: Option<string>)

  /** The request object; the endpoints assign to its fields before they search. */
  class DogSearchRequest {
    var dogType: Option<DogType>
    var breed: Option<string>
    var sex: Option<DogSex>
    var size: Option<string>
    var color: Option<string>
    var chipNumber: Option<string>
    var name: Option<string>
    var location: Option<string>
    var base64Image: string
    var top: int
    var isVerified: Option<bool>
    var returnProperties: seq<string>

    constructor (attributes: SearchAttributes, base64Image: string, top: int,
                 isVerified: Option<bool>, returnProperties: seq<string>)
      ensures Attributes() == attributes
      ensures this.base64Image == base64Image && this.top == top
      ensures this.isVerified == isVerified && this.returnProperties == returnProperties
    {
      dogType := attributes.dogType;
      breed := attributes.breed;
      sex := attributes.sex;
      size := attributes.size;
      color := attributes.color;
      chipNumber := attributes.chipNumber;
      name := attributes.name;
      location := attributes.location;
      this.base64Image := base64Image;
      this.top := top;
      this.isVerified := isVerified;
      this.returnProperties := returnProperties;
    }

    /** The filterable attributes as they stand now. */
    function Attributes(): (a: SearchAttributes)
      reads this
    {
      SearchAttributes(dogType, breed, sex, size, color, chipNumber, name, location)
    }
  }
}
