/** The star-rating row that three components draw (ExperienceDetailsPage,
    ExperienceCard and, behind its own guard, NewExperienceCard): floor(r)
    full stars, then one half star when r is not a whole number, then
    5 - ceil(r) empty stars. A rating is held in tenths of a star; a missing
    or non-numeric rating is `None`, which JavaScript turns into `NaN`. */
module Stars {
  import opened Wrappers

  datatype Star = Full | Half | Empty

  /** `Math.floor(t / 10)` for a rating of `t` tenths. */
  function FloorStars(t: int): (f: int)
    ensures f * 10 <= t < f * 10 + 10
  {
    t / 10
  }

  /** `Math.ceil(t / 10)` for a rating of `t` tenths. */
  function CeilStars(t: int): (c: int)
    ensures c * 10 - 10 < t <= c * 10
  {
    -((-t) / 10)
  }

  /** `rating % 1 !== 0`: the rating is not a whole number of stars. */
  predicate IsFractional(t: int)
  {
    t % 10 != 0
  }

  /** How many times a JavaScript `for (i = 0; i < n; i++)` loop runs. */
  function Times(n: int): nat
  {
    if n > 0 then n else 0
  }

  function Repeat(s: Star, n: nat): (r: seq<Star>)
    ensures |r| == n && forall i | 0 <= i < n :: r[i] == s
  {
    seq(n, _ => s)
  }

  /** The row the components draw. With `NaN` both loops run zero times and
      `NaN % 1 !== 0` holds, so the row is a single half star. */
  function Row(rating: Option<int>): seq<Star>
  {
    match rating
    case None => [Half]
    case Some(t) =>
      Repeat(Full, Times(FloorStars(t)))
      + (if IsFractional(t) then [Half] else [])
      + Repeat(Empty, Times(5 - CeilStars(t)))
  }

  /** The row as the components build it: push the full stars in one loop,
      the half star, then the empty stars in a second loop. */
  method Render(rating: Option<int>) returns (stars: seq<Star>)
    ensures stars == Row(rating)
  {
    var fullStars: int, hasHalfStar: bool, emptyStars: int;
    if rating.Some? {
      fullStars := FloorStars(rating.value);
      hasHalfStar := IsFractional(rating.value);
      emptyStars := 5 - CeilStars(rating.value);
    } else {
      // every comparison with NaN is false, so both loops are skipped
      fullStars, hasHalfStar, emptyStars := 0, true, 0;
    }
    stars := [];
    var i := 0;
    while i < fullStars
      invariant 0 <= i && (i <= fullStars || i == 0)
      invariant stars == Repeat(Full, i)
    {
      stars := stars + [Full];
      i := i + 1;
    }
    if hasHalfStar {
      stars := stars + [Half];
    }
    ghost var before := stars;
    assert before == Repeat(Full, Times(fullStars)) + (if hasHalfStar then [Half] else []);
    i := 0;
    while i < emptyStars
      invariant 0 <= i && (i <= emptyStars || i == 0)
      invariant stars == before + Repeat(Empty, i)
    {
      stars := stars + [Empty];
      i := i + 1;
    }
    assert stars == before + Repeat(Empty, Times(emptyStars));
  }

  /** Which kind of star sits at a position: full stars occupy the first
      floor(r) places, a fractional rating puts its half star right after
      them, and every later place is empty. */
  lemma RowLayout(t: int, i: int)
    requires 0 <= i < |Row(Some(t))|
    ensures Row(Some(t))[i] == Full <==> i < Times(FloorStars(t))
    ensures Row(Some(t))[i] == Half <==> i == Times(FloorStars(t)) && IsFractional(t)
    ensures Row(Some(t))[i] == Empty <==> i >= Times(FloorStars(t)) + (if IsFractional(t) then 1 else 0)
  {
  }

  /** For a rating between 0 and 5 the row always has exactly five stars. */
  lemma FiveStarsInRange(t: int)
    requires 0 <= t <= 50
    ensures |Row(Some(t))| == 5
  {
    var f := FloorStars(t);
    var c := CeilStars(t);
    if IsFractional(t) {
      assert c == f + 1;
    } else {
      assert c == f;
    }
  }

  /** A rating above 5 stars draws more than five stars: nothing caps it. */
  lemma MoreThanFiveAbove(t: int)
    requires t > 50
    ensures |Row(Some(t))| > 5
  {
    assert FloorStars(t) >= 5;
  }

  /** Exactly one half star, and only for a fractional rating. */
  lemma HalfStarIffFractional(t: int)
    ensures Half in Row(Some(t)) <==> IsFractional(t)
  {
    var r := Row(Some(t));
    if Half in r {
      var i :| 0 <= i < |r| && r[i] == Half;
      RowLayout(t, i);
    }
  }
  lemma {:induction false} RepeatCount(s: Star, n: nat, o: Star)
    ensures multiset(Repeat(s, n))[o] == if o == s then n else 0
  {
    if n > 0 {
      RepeatCount(s, n - 1, o);
      assert Repeat(s, n) == Repeat(s, n - 1) + [s];
    }
  }

  /** How many of each kind a row holds: floor(r) full stars, one half
      star exactly for a fractional rating, and 5 - ceil(r) empty stars,
      none when that is negative. */
  lemma RowCounts(t: int)
    ensures multiset(Row(Some(t)))[Full] == Times(FloorStars(t))
    ensures multiset(Row(Some(t)))[Half] == if IsFractional(t) then 1 else 0
    ensures multiset(Row(Some(t)))[Empty] == Times(5 - CeilStars(t))
  {
    var full := Repeat(Full, Times(FloorStars(t)));
    var half: seq<Star> := if IsFractional(t) then [Half] else [];
    var empty := Repeat(Empty, Times(5 - CeilStars(t)));
    assert multiset(Row(Some(t))) == multiset(full) + multiset(half) + multiset(empty);
    RepeatCount(Full, Times(FloorStars(t)), Full);
    RepeatCount(Full, Times(FloorStars(t)), Half);
    RepeatCount(Full, Times(FloorStars(t)), Empty);
    RepeatCount(Empty, Times(5 - CeilStars(t)), Full);
    RepeatCount(Empty, Times(5 - CeilStars(t)), Half);
    RepeatCount(Empty, Times(5 - CeilStars(t)), Empty);
  }
}
