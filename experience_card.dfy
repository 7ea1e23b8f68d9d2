/** The older listing card, frontend/src/components/ExperienceCard.js: the
    experience is destructured without defaults, so a missing rating or id
    shows through in the star row and in the links. */
module ExperienceCard {
  import opened Wrappers
  import Catalog
  import Stars
  import Text
  import NewExperienceCard

  /** `renderStars`: the shared row, a missing rating included (it gives a
      lone half star). */
  method RenderStars(e: Catalog.Experience) returns (stars: seq<Stars.Star>)
    ensures stars == Stars.Row(e.rating)
    ensures e.rating.None? ==> stars == [Stars.Half]
  {
    stars := Stars.Render(e.rating);
  }

  const Placeholder := "https://via.placeholder.com/400x300?text=No+Image"

  /** The first image, or the placeholder when the list is missing or
      empty. */
  function ImageOf(e: Catalog.Experience): (src: string)
    ensures e.images.Some? && |e.images.value| > 0 ==> src == e.images.value[0]
    ensures e.images.None? || |e.images.value| == 0 ==> src == Placeholder
  {
    if e.images.Some? && |e.images.value| > 0 then e.images.value[0] else Placeholder
  }

  /** `${_id}`: a missing id is written as `undefined`. */
  function IdText(e: Catalog.Experience): (s: string)
    ensures e.id.Some? ==> s == e.id.value
    ensures e.id.None? ==> s == "undefined"
  {
    if e.id.Some? then e.id.value else "undefined"
  }

  function DetailsLink(e: Catalog.Experience): (link: string)
    ensures link == "/experience/" + IdText(e)
  {
    "/experience/" + IdText(e)
  }

  function BookingLink(e: Catalog.Experience): (link: string)
    ensures link == "/booking?experienceId=" + IdText(e)
  {
    "/booking?experienceId=" + IdText(e)
  }

  /** Two experiences with different ids get different links. */
  lemma LinksIdentifyExperience(a: Catalog.Experience, b: Catalog.Experience)
    requires a.id.Some? && b.id.Some? && a.id != b.id
    ensures DetailsLink(a) != DetailsLink(b) && BookingLink(a) != BookingLink(b)
  {
    Text.SuffixAfterPrefix("/experience/", IdText(a));
    Text.SuffixAfterPrefix("/experience/", IdText(b));
    Text.SuffixAfterPrefix("/booking?experienceId=", IdText(a));
    Text.SuffixAfterPrefix("/booking?experienceId=", IdText(b));
  }

  /** The id text can be read back from each link, and two experiences
      share a link exactly when they share the id text. */
  lemma LinksReadBack(a: Catalog.Experience, b: Catalog.Experience)
    ensures DetailsLink(a)[|"/experience/"|..] == IdText(a)
    ensures BookingLink(a)[|"/booking?experienceId="|..] == IdText(a)
    ensures DetailsLink(a) == DetailsLink(b) <==> IdText(a) == IdText(b)
    ensures BookingLink(a) == BookingLink(b) <==> IdText(a) == IdText(b)
  {
    Text.SuffixAfterPrefix("/experience/", IdText(a));
    Text.SuffixAfterPrefix("/experience/", IdText(b));
    Text.SuffixAfterPrefix("/booking?experienceId=", IdText(a));
    Text.SuffixAfterPrefix("/booking?experienceId=", IdText(b));
  }

  /** A missing id is indistinguishable from the id `undefined`: both
      give the same links. */
  lemma MissingIdReadsUndefined(a: Catalog.Experience, b: Catalog.Experience)
    requires a.id.None? && b.id == Some("undefined")
    ensures DetailsLink(a) == DetailsLink(b) && BookingLink(a) == BookingLink(b)
    ensures DetailsLink(a) == "/experience/undefined"
  {
  }

  /** The two cards show the same image exactly when the experience has
      at least one; otherwise each shows its own placeholder. */
  lemma ImagesAgreeAcrossCards(e: Catalog.Experience)
    ensures NewExperienceCard.ImageOf(NewExperienceCard.CardOf(NewExperienceCard.Record(e)).value) == ImageOf(e)
        <==> e.images.Some? && |e.images.value| > 0
  {
  }

  /** The two cards link to the same page exactly when the experience has
      a non-empty id: without one the newer card links to `1` and this one
      to `undefined` (or to the empty id). */
  lemma LinksAgreeAcrossCards(e: Catalog.Experience)
    ensures NewExperienceCard.DetailsLink(NewExperienceCard.CardOf(NewExperienceCard.Record(e)).value) == DetailsLink(e)
        <==> e.id.Some? && e.id.value != ""
  {
    var c := NewExperienceCard.CardOf(NewExperienceCard.Record(e)).value;
    Text.SuffixAfterPrefix("/experience/", NewExperienceCard.LinkId(c));
    Text.SuffixAfterPrefix("/experience/", IdText(e));
  }
}
