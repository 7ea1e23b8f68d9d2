/** The experience entity as the pages receive it from the catalog API, which
    is not part of this model: every field may be missing (`None`). Prices are
    whole currency units, ratings are tenths of a star (4.5 is 45). */
module Catalog {
  import opened Wrappers

  datatype Experience = Experience(
    id: Option<string>,
    title: Option<string>,
    shortDescription: Option<string>,
    price: Option<int>,
    pricePerPerson: Option<int>,
    maxPeople: Option<int>,
    location: Option<string>,
    duration: Option<string>,
    kind: Option<string>,
    rating: Option<int>,
    reviews: Option<int>,
    images: Option<seq<string>>,
    isPopular: Option<bool>)

  /** `a || b` on two possibly missing numbers. */
  function OrNumber(a: Option<int>, b: Option<int>): (r: Option<int>)
    ensures TruthyNumber(a) ==> r == a
    ensures !TruthyNumber(a) ==> r == b
  {
    if TruthyNumber(a) then a else b
  }
}
