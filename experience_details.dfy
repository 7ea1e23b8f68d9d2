/** The experience page of frontend/src/pages/ExperienceDetailsPage.js: the
    image carousel's index, what the previous and next buttons do to it
    (JavaScript's `%`, which truncates, and which gives `NaN` for a zero
    divisor), and the star row. The fetched experience is an input. */
module ExperienceDetails {
  import opened Wrappers
  import Catalog
  import Stars

  /** JavaScript's `a % n`: the sign of the dividend, `NaN` (`None`) when
      `n` is zero. */
  function JsRem(a: int, n: int): (r: Option<int>)
    ensures n == 0 <==> r.None?
    ensures n > 0 && a >= 0 ==> r == Some(a % n)
  {
    if n == 0 then None
    else if a >= 0 then Some(a % (if n < 0 then -n else n))
    else Some(-((-a) % (if n < 0 then -n else n)))
  }

  /** The index after "next": `(prev + 1) % n`; `NaN` stays `NaN`. */
  function NextIndex(prev: Option<int>, n: nat): (r: Option<int>)
    ensures prev.None? || n == 0 ==> r.None?
  {
    if prev.None? then None else JsRem(prev.value + 1, n)
  }

  /** The index after "previous": `(prev - 1 + n) % n`. */
  function PrevIndex(prev: Option<int>, n: nat): (r: Option<int>)
    ensures prev.None? || n == 0 ==> r.None?
  {
    if prev.None? then None else JsRem(prev.value - 1 + n, n)
  }

  predicate InRange(index: Option<int>, n: nat)
  {
    index.Some? && 0 <= index.value < n
  }

  /** On a valid index both buttons give the cyclic neighbour, in range. */
  lemma StepsStayInRange(i: int, n: nat)
    requires 0 <= i < n
    ensures NextIndex(Some(i), n) == Some((i + 1) % n) && InRange(NextIndex(Some(i), n), n)
    ensures PrevIndex(Some(i), n) == Some((i - 1 + n) % n) && InRange(PrevIndex(Some(i), n), n)
    ensures i + 1 < n ==> NextIndex(Some(i), n) == Some(i + 1)
    ensures i == n - 1 ==> NextIndex(Some(i), n) == Some(0)
    ensures i == 0 ==> PrevIndex(Some(i), n) == Some(n - 1)
    ensures i >= 1 ==> PrevIndex(Some(i), n) == Some(i - 1)
  {
    if i + 1 < n {
      ModUnique(i + 1, n, 0, i + 1);
    } else {
      ModUnique(i + 1, n, 1, 0);
    }
    if i >= 1 {
      ModUnique(i - 1 + n, n, 1, i - 1);
    } else {
      ModUnique(i - 1 + n, n, 0, n - 1);
    }
  }

  /** Previous undoes next and next undoes previous. */
  lemma NextPrevInverse(i: int, n: nat)
    requires 0 <= i < n
    ensures PrevIndex(NextIndex(Some(i), n), n) == Some(i)
    ensures NextIndex(PrevIndex(Some(i), n), n) == Some(i)
  {
    StepsStayInRange(i, n);
    if i + 1 < n {
      StepsStayInRange(i + 1, n);
    } else {
      StepsStayInRange(0, n);
    }
    if i >= 1 {
      StepsStayInRange(i - 1, n);
    } else {
      StepsStayInRange(n - 1, n);
    }
  }

  /** `k` presses of next. */
  function NextTimes(index: Option<int>, n: nat, k: nat): Option<int>
  {
    if k == 0 then index else NextIndex(NextTimes(index, n, k - 1), n)
  }

  /** Pressing next `k` times moves `k` places around the ring, so `n`
      presses come back to the start. */
  lemma {:induction false} NextTimesRotates(i: int, n: nat, k: nat)
    requires 0 <= i < n
    ensures NextTimes(Some(i), n, k) == Some((i + k) % n)
  {
    if k > 0 {
      NextTimesRotates(i, n, k - 1);
      var j := (i + k - 1) % n;
      StepsStayInRange(j, n);
      ModSucc(i + k - 1, n);
    }
  }

  /** `n` presses of next come back to the first image. */
  lemma FullTurnReturns(i: int, n: nat)
    requires 0 <= i < n
    ensures NextTimes(Some(i), n, n) == Some(i)
  {
    NextTimesRotates(i, n, n);
    ModUnique(i + n, n, 1, i);
  }

  lemma ModSucc(a: int, n: int)
    requires a >= 0 && n > 0
    ensures (a % n + 1) % n == (a + 1) % n
  {
    var q, r := a / n, a % n;
    if r + 1 < n {
      ModUnique(r + 1, n, 0, r + 1);
      ModUnique(a + 1, n, q, r + 1);
    } else {
      ModUnique(r + 1, n, 1, 0);
      assert a + 1 == (q + 1) * n;
      ModUnique(a + 1, n, q + 1, 0);
    }
  }

  /** Remainder and quotient are the only ones: `a == q * n + r` with
      `0 <= r < n` fixes both. */
  lemma ModUnique(a: int, n: int, q: int, r: int)
    requires n > 0 && 0 <= r < n && a == q * n + r
    ensures a % n == r && a / n == q
  {
    var q', r' := a / n, a % n;
    assert q' * n + r' == a;
    var d := q - q';
    assert d * n == r' - r;
    if d >= 1 {
      MulAtLeast(d, n);
    } else if d <= -1 {
      MulAtLeast(-d, n);
    }
  }

  lemma {:induction false} MulAtLeast(d: int, n: int)
    requires d >= 1 && n > 0
    ensures d * n >= n
    decreases d
  {
    if d > 1 {
      MulAtLeast(d - 1, n);
      assert d * n == (d - 1) * n + n;
    }
  }

  /** `images` is only tested for being there; an empty list makes the
      index `NaN`, and it stays `NaN` under both buttons. */
  lemma EmptyImagesMakeNaN(i: int)
    ensures NextIndex(Some(i), 0).None? && PrevIndex(Some(i), 0).None?
    ensures NextIndex(None, 0).None? && PrevIndex(None, 0).None?
  {
  }

  const LoadFailed := "Failed to load experience details"

  class Carousel {
    var experience: Option<Catalog.Experience>
    var loading: bool
    var error: string
    var index: Option<int>

    constructor ()
      ensures experience.None? && loading && error == "" && index == Some(0)
    {
      experience := None;
      loading := true;
      error := "";
      index := Some(0);
    }

    /** `fetchExperience`: the experience, or the error. */
    method Load(response: Option<Catalog.Experience>)
      modifies this
      ensures !loading && index == old(index)
      ensures response.Some? ==> experience == response && error == old(error)
      ensures response.None? ==> experience == old(experience) && error == LoadFailed
    {
      if response.Some? {
        experience := response;
      } else {
        error := LoadFailed;
      }
      loading := false;
    }

    /** `handleNextImage`. */
    method NextImage()
      modifies this
      ensures experience == old(experience) && loading == old(loading) && error == old(error)
      ensures experience.None? || experience.value.images.None? ==> index == old(index)
      ensures experience.Some? && experience.value.images.Some? ==>
        index == NextIndex(old(index), |experience.value.images.value|)
    {
      if experience.Some? && experience.value.images.Some? {
        index := NextIndex(index, |experience.value.images.value|);
      }
    }

    /** `handlePrevImage`. */
    method PrevImage()
      modifies this
      ensures experience == old(experience) && loading == old(loading) && error == old(error)
      ensures experience.None? || experience.value.images.None? ==> index == old(index)
      ensures experience.Some? && experience.value.images.Some? ==>
        index == PrevIndex(old(index), |experience.value.images.value|)
    {
      if experience.Some? && experience.value.images.Some? {
        index := PrevIndex(index, |experience.value.images.value|);
      }
    }

    /** `renderStars`: nothing without an experience, else its star row. */
    method RenderStars() returns (stars: Option<seq<Stars.Star>>)
      ensures experience.None? ==> stars.None?
      ensures experience.Some? ==> stars == Some(Stars.Row(experience.value.rating))
    {
      if experience.None? {
        return None;
      }
      var row := Stars.Render(experience.value.rating);
      stars := Some(row);
    }
  }
}
