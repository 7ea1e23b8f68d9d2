/** The listing card of frontend/src/components/NewExperienceCard.js: the
    guard against missing data, the destructuring defaults, the guarded
    star row, the like toggle, and the image and link fallbacks. */
module NewExperienceCard {
  import opened Wrappers
  import Catalog
  import Stars
  import Text

  /** What the `experience` prop can be: falsy, a truthy value that is not
      an object, or an experience object. */
  datatype Prop = Falsy | NotAnObject | Record(e: Catalog.Experience)

  /** The experience after the destructuring defaults. */
  datatype Card = Card(
    id: string,
    title: string,
    shortDescription: string,
    pricePerPerson: int,
    maxPeople: int,
    location: string,
    duration: string,
    kind: string,
    rating: int,
    reviews: int,
    images: seq<string>,
    isPopular: bool)

  /** `None` is the "Invalid experience data" card; otherwise each missing
      field takes its default. */
  function CardOf(p: Prop): (r: Option<Card>)
    ensures r.None? <==> !p.Record?
    ensures p.Record? ==>
      var e := p.e;
      && r.value.id == e.id.GetOr("")
      && r.value.title == e.title.GetOr("Experience")
      && r.value.shortDescription == e.shortDescription.GetOr("")
      && r.value.pricePerPerson == e.pricePerPerson.GetOr(0)
      && r.value.maxPeople == e.maxPeople.GetOr(1)
      && r.value.location == e.location.GetOr("Unknown")
      && r.value.duration == e.duration.GetOr("1 day")
      && r.value.kind == e.kind.GetOr("Adventure")
      && r.value.rating == e.rating.GetOr(0)
      && r.value.reviews == e.reviews.GetOr(0)
      && r.value.images == e.images.GetOr([])
      && r.value.isPopular == e.isPopular.GetOr(false)
  {
    match p
    case Falsy => None
    case NotAnObject => None
    case Record(e) =>
      Some(Card(e.id.GetOr(""), e.title.GetOr("Experience"), e.shortDescription.GetOr(""),
                e.pricePerPerson.GetOr(0), e.maxPeople.GetOr(1), e.location.GetOr("Unknown"),
                e.duration.GetOr("1 day"), e.kind.GetOr("Adventure"), e.rating.GetOr(0),
                e.reviews.GetOr(0), e.images.GetOr([]), e.isPopular.GetOr(false)))
  }

  /** An object with no fields at all shows every default. */
  lemma EmptyObjectDefaults()
    ensures CardOf(Record(Catalog.Experience(None, None, None, None, None, None, None, None, None, None, None, None, None)))
         == Some(Card("", "Experience", "", 0, 1, "Unknown", "1 day", "Adventure", 0, 0, [], false))
  {
  }

  /** A record that gives every field the card reads shows each of them
      unchanged. */
  lemma FullRecordKept(e: Catalog.Experience)
    requires e.id.Some? && e.title.Some? && e.shortDescription.Some? && e.pricePerPerson.Some?
    requires e.maxPeople.Some? && e.location.Some? && e.duration.Some? && e.kind.Some?
    requires e.rating.Some? && e.reviews.Some? && e.images.Some? && e.isPopular.Some?
    ensures CardOf(Record(e)) == Some(Card(e.id.value, e.title.value, e.shortDescription.value,
              e.pricePerPerson.value, e.maxPeople.value, e.location.value, e.duration.value,
              e.kind.value, e.rating.value, e.reviews.value, e.images.value, e.isPopular.value))
  {
  }

  /** Dropping one field from a record changes only that field of the
      card, to its default; the flat `price` is not read at all. */
  lemma MissingFieldTakesDefault(e: Catalog.Experience, price: Option<int>)
    ensures var c := CardOf(Record(e)).value;
      && CardOf(Record(e.(id := None))).value == c.(id := "")
      && CardOf(Record(e.(title := None))).value == c.(title := "Experience")
      && CardOf(Record(e.(shortDescription := None))).value == c.(shortDescription := "")
      && CardOf(Record(e.(pricePerPerson := None))).value == c.(pricePerPerson := 0)
      && CardOf(Record(e.(maxPeople := None))).value == c.(maxPeople := 1)
      && CardOf(Record(e.(location := None))).value == c.(location := "Unknown")
      && CardOf(Record(e.(duration := None))).value == c.(duration := "1 day")
      && CardOf(Record(e.(kind := None))).value == c.(kind := "Adventure")
      && CardOf(Record(e.(rating := None))).value == c.(rating := 0)
      && CardOf(Record(e.(reviews := None))).value == c.(reviews := 0)
      && CardOf(Record(e.(images := None))).value == c.(images := [])
      && CardOf(Record(e.(isPopular := None))).value == c.(isPopular := false)
      && CardOf(Record(e.(price := price))) == CardOf(Record(e))
  {
  }

  /** The guarded row: nothing for a rating that is not positive (a
      missing, non-numeric or `NaN` rating defaults to or behaves as 0),
      the usual star row otherwise. */
  function GuardedRow(rating: int): seq<Stars.Star>
  {
    if rating <= 0 then [] else Stars.Row(Some(rating))
  }

  /** `renderStars`: the guard, then the two loops of the shared row. */
  method RenderStars(rating: int) returns (stars: seq<Stars.Star>)
    ensures stars == GuardedRow(rating)
  {
    if rating <= 0 {
      return [];
    }
    stars := Stars.Render(Some(rating));
  }

  /** The row is empty exactly when the rating is not positive, and has
      five stars for a rating up to 5. */
  lemma GuardedRowShape(rating: int)
    ensures GuardedRow(rating) == [] <==> rating <= 0
    ensures 0 < rating <= 50 ==> |GuardedRow(rating)| == 5
  {
    if rating > 0 {
      Stars.RowCounts(rating);
      if Stars.IsFractional(rating) {
        assert Stars.Half in multiset(GuardedRow(rating));
      } else {
        assert Stars.FloorStars(rating) >= 1;
        assert Stars.Full in multiset(GuardedRow(rating));
      }
      if rating <= 50 {
        Stars.FiveStarsInRange(rating);
      }
    }
  }

  const Placeholder := "https://picsum.photos/seed/experience/400/300.jpg"

  /** The first image, or the placeholder for an empty list. */
  function ImageOf(c: Card): (src: string)
    ensures |c.images| > 0 ==> src == c.images[0]
    ensures |c.images| == 0 ==> src == Placeholder
  {
    if |c.images| > 0 then c.images[0] else Placeholder
  }

  /** `_id || '1'`. */
  function LinkId(c: Card): (id: string)
    ensures id != ""
    ensures c.id != "" ==> id == c.id
  {
    if c.id != "" then c.id else "1"
  }

  function DetailsLink(c: Card): (link: string)
    ensures link == "/experience/" + LinkId(c)
  {
    "/experience/" + LinkId(c)
  }

  function BookingLink(c: Card): (link: string)
    ensures link == "/booking?experienceId=" + LinkId(c)
  {
    "/booking?experienceId=" + LinkId(c)
  }

  /** The shown image is one of the card's images, and the placeholder
      appears only for a card without images (or whose first image is
      the placeholder's address). */
  lemma ImageFromCard(c: Card)
    ensures ImageOf(c) in c.images || (c.images == [] && ImageOf(c) == Placeholder)
    ensures ImageOf(c) == Placeholder ==> c.images == [] || c.images[0] == Placeholder
  {
  }

  /** The id can be read back from each link, and two cards share a link
      exactly when they share the link id. */
  lemma LinksReadBack(c: Card, d: Card)
    ensures DetailsLink(c)[|"/experience/"|..] == LinkId(c)
    ensures BookingLink(c)[|"/booking?experienceId="|..] == LinkId(c)
    ensures DetailsLink(c) == DetailsLink(d) <==> LinkId(c) == LinkId(d)
    ensures BookingLink(c) == BookingLink(d) <==> LinkId(c) == LinkId(d)
  {
    Text.SuffixAfterPrefix("/experience/", LinkId(c));
    Text.SuffixAfterPrefix("/experience/", LinkId(d));
    Text.SuffixAfterPrefix("/booking?experienceId=", LinkId(c));
    Text.SuffixAfterPrefix("/booking?experienceId=", LinkId(d));
  }

  /** A card without an id links to experience `1`. */
  lemma MissingIdLinksToOne(c: Card)
    requires c.id == ""
    ensures DetailsLink(c) == "/experience/1" && BookingLink(c) == "/booking?experienceId=1"
  {
  }

  /** The heart button's state. */
  class LikeButton {
    var isLiked: bool

    constructor ()
      ensures !isLiked
    {
      isLiked := false;
    }

    /** `toggleLike`. */
    method Toggle()
      modifies this
      ensures isLiked == !old(isLiked)
    {
      isLiked := !isLiked;
    }
  }
}
