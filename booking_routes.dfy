/** The booking routes of backend/routes/bookings.js over an in-memory
    collection: create (POST /), list with filter, sort, pagination and
    statistics (GET /), fetch one (GET /:id), change status
    (PATCH /:id/status) and delete (DELETE /:id). Each handler's reply and
    its effect on the collection is a pure function below; the store's
    methods are proved to follow them. Authentication middleware is not part
    of this model. */
module BookingRoutes {
  import opened Wrappers
  import opened Http
  import opened Ordering
  import opened BookingModel

  // ---------------------------------------------------------------- create

  /** The POST body. `status` and `listing` stand for fields a client may
      send that the handler never reads. */
  datatype CreateRequest = CreateRequest(
    name: Option<string>,
    email: Option<string>,
    phone: Option<string>,
    tourPackage: Option<string>,
    date: Option<int>,
    numberOfPeople: Option<int>,
    specialRequests: Option<string>,
    totalAmount: Option<int>,
    status: Option<string>,
    listing: Option<string>)

  const MissingFields := "Please include all required fields"

  /** The handler's own check: all seven fields truthy (so 0 people or an
      amount of 0 is missing too). */
  predicate HasRequiredFields(r: CreateRequest)
  {
    && TruthyText(r.name) && TruthyText(r.email) && TruthyText(r.phone)
    && TruthyText(r.tourPackage) && r.date.Some?
    && TruthyNumber(r.numberOfPeople) && TruthyNumber(r.totalAmount)
  }

  /** The eight destructured fields; nothing else reaches the document. */
  function FieldsOf(r: CreateRequest): Fields
  {
    Fields(r.name, r.email, r.phone, r.tourPackage, r.date, r.numberOfPeople,
           r.specialRequests, r.totalAmount)
  }

  /** Reply and stored record of POST /: 400 when a required field is falsy;
      500 when the built document fails schema validation (a name of blanks,
      fewer than one person, an unknown package), which the `catch` turns
      into a server error; otherwise the document, stamped by the pre-save
      hook, is stored and returned with 201. `builtAt` is the clock when the
      document is built, `savedAt` when it is saved. */
  function CreateResult(r: CreateRequest, id: nat, builtAt: int, savedAt: int)
    : (res: (Response<Booking>, Option<Booking>))
    ensures res.1.Some? <==> res.0.Success?
    ensures !HasRequiredFields(r) ==> res.0 == Failure(400, MissingFields)
    ensures res.0.Failure? && HasRequiredFields(r) ==> res.0 == Failure(500, ServerError)
    ensures HasRequiredFields(r) && SchemaValid(NewDocument(id, FieldsOf(r), builtAt)) ==> res.0.Success?
    ensures res.0 == Failure(500, ServerError) ==>
              HasRequiredFields(r) && !SchemaValid(NewDocument(id, FieldsOf(r), builtAt))
    ensures res.1.Some? ==>
      && res.0 == Success(201, res.1.value)
      && Stored(res.1.value) && res.1.value.id == id
      && res.1.value.status == Pending
      && res.1.value.createdAt == builtAt && res.1.value.updatedAt == savedAt
  {
    if !HasRequiredFields(r) then (Failure(400, MissingFields), None)
    else
      var doc := NewDocument(id, FieldsOf(r), builtAt);
      if !SchemaValid(doc) then (Failure(500, ServerError), None)
      else
        var saved := PreSave(doc, savedAt);
        (Success(201, saved), Some(saved))
  }

  /** A client cannot choose the status of a new booking: whatever `status`
      (or any other unread field) it sends, the outcome is the same, and a
      stored booking starts Pending. */
  lemma CreateIgnoresClientStatus(r: CreateRequest, s: Option<string>, l: Option<string>,
                                  id: nat, builtAt: int, savedAt: int)
    ensures CreateResult(r.(status := s, listing := l), id, builtAt, savedAt)
         == CreateResult(r, id, builtAt, savedAt)
    ensures CreateResult(r, id, builtAt, savedAt).1.Some? ==>
              CreateResult(r, id, builtAt, savedAt).1.value.status == Pending
  {
    assert FieldsOf(r.(status := s, listing := l)) == FieldsOf(r);
  }

  /** When creation succeeds, the stored booking carries the request's fields,
      with the text fields trimmed, and only those. */
  lemma CreateStoresRequestFields(r: CreateRequest, id: nat, builtAt: int, savedAt: int)
    requires CreateResult(r, id, builtAt, savedAt).1.Some?
    ensures var b := CreateResult(r, id, builtAt, savedAt).1.value;
      && b.name == Some(Text.Trim(r.name.value))
      && b.email == Some(Text.Trim(r.email.value))
      && b.phone == Some(Text.Trim(r.phone.value))
      && b.specialRequests == TrimField(r.specialRequests)
      && b.tourPackage == r.tourPackage && b.tourPackage.value in TourPackages
      && b.date == r.date && b.numberOfPeople == r.numberOfPeople
      && b.numberOfPeople.value >= 1 && b.totalAmount == r.totalAmount
      && b.experienceId.None? && b.experienceTitle.None? && b.experienceImage.None?
      && b.startDate.None? && b.endDate.None? && b.totalPrice.None? && b.extraOptions == []
  {
    var doc := NewDocument(id, FieldsOf(r), builtAt);
    assert CreateResult(r, id, builtAt, savedAt).1.value == PreSave(doc, savedAt);
  }

  /** With a clock that does not run backwards, a new booking is never
      updated before it was created. */
  lemma CreateTimestampsOrdered(r: CreateRequest, id: nat, builtAt: int, savedAt: int)
    requires builtAt <= savedAt
    requires CreateResult(r, id, builtAt, savedAt).1.Some?
    ensures CreateResult(r, id, builtAt, savedAt).1.value.updatedAt
         >= CreateResult(r, id, builtAt, savedAt).1.value.createdAt
  {
  }

  /** Passing the handler's truthiness check is not enough: a negative
      people count is truthy, so it gets past the 400 check and is refused by
      the schema's `min: 1`, which the client sees as a 500. */
  lemma NegativePeopleIsServerError(r: CreateRequest, id: nat, builtAt: int, savedAt: int)
    requires HasRequiredFields(r) && r.numberOfPeople == Some(-1)
    ensures CreateResult(r, id, builtAt, savedAt).0 == Failure(500, ServerError)
  {
  }

  // ------------------------------------------------------------ by-id lookup

  function IdOf(x: Booking): nat
  {
    x.id
  }

  const NotFound := "Booking not found"

  /** GET /:id. */
  function GetResult(s: seq<Booking>, id: nat): (res: Response<Booking>)
    ensures res.Success? <==> exists i | 0 <= i < |s| :: s[i].id == id
    ensures res.Success? ==> res.code == 200 && res.body in s && res.body.id == id
    ensures res.Failure? ==> res == Failure(404, NotFound)
  {
    var k := IndexOfId(s, id, IdOf);
    if k.None? then Failure(404, NotFound) else Success(200, s[k.value])
  }

  // ---------------------------------------------------------- status update

  const InvalidStatus := "Invalid status"

  /** PATCH /:id/status: reply and new collection. A missing, empty or
      unknown status is refused with 400 before the collection is consulted;
      an unknown id gives 404; otherwise exactly the `status` of that one
      record changes (`findByIdAndUpdate` bypasses the pre-save hook, so
      `updatedAt` is untouched) and the updated record is returned. */
  function UpdateStatusResult(s: seq<Booking>, id: nat, status: Option<string>)
    : (res: (Response<Booking>, seq<Booking>))
    ensures |res.1| == |s|
    ensures (!TruthyText(status) || ParseStatus(status.value).None?) ==>
              res == (Failure(400, InvalidStatus), s)
    ensures TruthyText(status) && ParseStatus(status.value).Some? && IndexOfId(s, id, IdOf).None? ==>
              res == (Failure(404, NotFound), s)
    ensures TruthyText(status) && ParseStatus(status.value).Some? && IndexOfId(s, id, IdOf).Some? ==>
              res.0.Success? && res.1[IndexOfId(s, id, IdOf).value].status == ParseStatus(status.value).value
    ensures res.0.Success? ==>
      var k := IndexOfId(s, id, IdOf).value;
      && res.0 == Success(200, res.1[k])
      && StatusName(res.1[k].status) == status.value
      && res.1[k] == s[k].(status := res.1[k].status)
      && forall i | 0 <= i < |s| && i != k :: res.1[i] == s[i]
  {
    if !TruthyText(status) then (Failure(400, InvalidStatus), s)
    else
      var target := ParseStatus(status.value);
      if target.None? then (Failure(400, InvalidStatus), s)
      else
        var k := IndexOfId(s, id, IdOf);
        if k.None? then (Failure(404, NotFound), s)
        else
          var updated := s[k.value].(status := target.value);
          (Success(200, updated), s[k.value := updated])
  }

  /** Setting the same status twice is the same as setting it once. */
  lemma UpdateStatusIdempotent(s: seq<Booking>, id: nat, status: Option<string>)
    ensures var once := UpdateStatusResult(s, id, status);
            UpdateStatusResult(once.1, id, status) == once
  {
    var once := UpdateStatusResult(s, id, status);
    if once.0.Success? {
      var k := IndexOfId(s, id, IdOf).value;
      assert forall i | 0 <= i < |s| :: once.1[i].id == s[i].id;
      assert IndexOfId(once.1, id, IdOf) == Some(k);
      assert once.1[k := once.1[k]] == once.1;
    }
  }

  /** An update keeps every record of the collection stored-valid, with the
      same ids. */
  lemma UpdateStatusKeepsStored(s: seq<Booking>, id: nat, status: Option<string>)
    requires forall i | 0 <= i < |s| :: Stored(s[i])
    ensures var res := UpdateStatusResult(s, id, status);
            forall i | 0 <= i < |s| :: Stored(res.1[i]) && res.1[i].id == s[i].id
  {
  }

  // ----------------------------------------------------------------- delete

  /** DELETE /:id: 404 and no change for an unknown id, otherwise exactly
      that record is removed and the others keep their order. */
  function DeleteResult(s: seq<Booking>, id: nat): (res: (Response<string>, seq<Booking>))
    ensures IndexOfId(s, id, IdOf).None? ==> res == (Failure(404, NotFound), s)
    ensures IndexOfId(s, id, IdOf).Some? ==>
      var k := IndexOfId(s, id, IdOf).value;
      && res.0 == Success(200, "Booking removed")
      && res.1 == s[..k] + s[k + 1..]
      && multiset(res.1) + multiset{s[k]} == multiset(s)
  {
    var k := IndexOfId(s, id, IdOf);
    if k.None? then (Failure(404, NotFound), s)
    else
      assert s == s[..k.value] + [s[k.value]] + s[k.value + 1..];
      (Success(200, "Booking removed"), s[..k.value] + s[k.value + 1..])
  }

  /** With distinct ids, after a successful delete the id is gone and every
      other record is still there. */
  lemma DeleteRemovesOnlyThatId(s: seq<Booking>, id: nat)
    requires IdsDistinct(s, IdOf)
    ensures var res := DeleteResult(s, id);
      && (forall i | 0 <= i < |res.1| :: res.1[i].id != id)
      && (forall b | b in s && b.id != id :: b in res.1)
      && |res.1| == if IndexOfId(s, id, IdOf).Some? then |s| - 1 else |s|
  {
    var res := DeleteResult(s, id);
    var k := IndexOfId(s, id, IdOf);
    if k.Some? {
      var kk := k.value;
      forall i | 0 <= i < |res.1| ensures res.1[i].id != id {
        if i < kk {
          assert res.1[i] == s[i];
        } else {
          assert res.1[i] == s[i + 1];
        }
      }
      forall b | b in s && b.id != id ensures b in res.1 {
        var j :| 0 <= j < |s| && s[j] == b;
        if j < kk {
          assert res.1[j] == b;
        } else {
          assert j != kk;
          assert res.1[j - 1] == b;
        }
      }
    }
  }

  // ------------------------------------------------------------------- list

  /** The query string of GET /, already converted to numbers and dates. */
  datatype ListQuery = ListQuery(
    page: Option<int>,
    limit: Option<int>,
    status: Option<string>,
    startDate: Option<int>,
    endDate: Option<int>)

  /** The `filter` object the handler builds: status equality when a status
      is given, `date >= startDate` and/or `date <= endDate`. */
  predicate Matches(b: Booking, q: ListQuery)
  {
    && (TruthyText(q.status) ==> StatusName(b.status) == q.status.value)
    && (q.startDate.Some? ==> b.date.Some? && b.date.value >= q.startDate.value)
    && (q.endDate.Some? ==> b.date.Some? && b.date.value <= q.endDate.value)
  }

  /** The records the `filter` object selects; `FilterConcat` shows each is
      kept as often as it occurs and in the collection's order. */
  function Filter(s: seq<Booking>, q: ListQuery): (r: seq<Booking>)
    ensures |r| <= |s|
    ensures forall b | b in r :: b in s && Matches(b, q)
    ensures forall b | b in s && Matches(b, q) :: b in r
  {
    if s == [] then []
    else
      var rest := Filter(s[1..], q);
      if Matches(s[0], q) then [s[0]] + rest else rest
  }

  /** Filtering a concatenation filters each part and keeps them in
      order. */
  lemma {:induction false} FilterConcat(a: seq<Booking>, b: seq<Booking>, q: ListQuery)
    ensures Filter(a + b, q) == Filter(a, q) + Filter(b, q)
  {
    if a == [] {
      assert a + b == b;
    } else {
      var ab := a + b;
      assert ab[0] == a[0] && ab[1..] == a[1..] + b;
      FilterConcat(a[1..], b, q);
    }
  }

  /** A single record is kept exactly when it matches. */
  lemma FilterOne(x: Booking, q: ListQuery)
    ensures Filter([x], q) == if Matches(x, q) then [x] else []
  {
    assert [x][1..] == [];
  }

  /** A matching record is kept as often as it occurs; any other is
      dropped. */
  lemma {:induction false} FilterCounts(s: seq<Booking>, q: ListQuery, b: Booking)
    ensures multiset(Filter(s, q))[b] == if Matches(b, q) then multiset(s)[b] else 0
  {
    if s != [] {
      FilterCounts(s[1..], q, b);
      assert s == [s[0]] + s[1..];
      assert multiset(s) == multiset{s[0]} + multiset(s[1..]);
    }
  }

  function CreatedAt(b: Booking): int
  {
    b.createdAt
  }

  function Abs(n: int): nat
  {
    if n < 0 then -n else n
  }

  /** `.skip(skip).limit(limit)`: a limit of 0 means no limit, and a negative
      limit counts like its absolute value. */
  function PageOf(s: seq<Booking>, skip: nat, limit: int): (r: seq<Booking>)
    ensures limit != 0 ==> |r| <= Abs(limit)
    ensures skip <= |s| && limit != 0 ==> r == s[skip..if skip + Abs(limit) <= |s| then skip + Abs(limit) else |s|]
    ensures skip <= |s| && limit == 0 ==> r == s[skip..]
    ensures skip >= |s| ==> r == []
  {
    var from := if skip < |s| then skip else |s|;
    var n := if limit == 0 then |s| else Abs(limit);
    var to := if from + n <= |s| then from + n else |s|;
    s[from..to]
  }

  /** `Math.ceil(count / limit)`; `None` for the `Infinity`/`NaN` of a zero
      limit (both sent as `null`). */
  function TotalPages(count: nat, limit: int): (r: Option<int>)
    ensures limit == 0 <==> r.None?
    ensures limit > 0 ==> r.Some? && r.value >= 0
    ensures PagesCover(r, count, limit)
  {
    if limit == 0 then None
    else if limit > 0 then Some((count + limit - 1) / limit)
    else Some(-(count / (-limit)))
  }

  /** `pages` pages of `limit` records hold `count` records with no page
      to spare; without a limit there is no page count. */
  predicate PagesCover(pages: Option<int>, count: nat, limit: int)
  {
    && (limit == 0 ==> pages.None?)
    && (limit > 0 ==> pages.Some? && pages.value * limit >= count && (pages.value - 1) * limit < count)
  }

  /** The single `$group` document of the statistics pipeline. */
  datatype Stats = Stats(
    totalRevenue: int,
    totalBookings: nat,
    pendingBookings: nat,
    confirmedBookings: nat,
    completedBookings: nat,
    cancelledBookings: nat)

  function AmountOf(b: Booking): int
  {
    b.totalAmount.GetOr(0)
  }

  function CountStatus(s: seq<Booking>, st: Status): (n: nat)
    ensures n <= |s|
  {
    if s == [] then 0 else (if s[0].status == st then 1 else 0) + CountStatus(s[1..], st)
  }

  /** The `$group` stage folded over the whole collection (`$sum` skips a
      missing amount). */
  function StatsOf(s: seq<Booking>): (st: Stats)
    ensures st.totalBookings == |s|
    ensures st.totalRevenue == SumOf(s, AmountOf)
    ensures st.pendingBookings == CountStatus(s, Pending)
    ensures st.confirmedBookings == CountStatus(s, Confirmed)
    ensures st.completedBookings == CountStatus(s, Completed)
    ensures st.cancelledBookings == CountStatus(s, Cancelled)
  {
    if s == [] then Stats(0, 0, 0, 0, 0, 0)
    else
      var r := StatsOf(s[1..]);
      var b := s[0];
      Stats(r.totalRevenue + AmountOf(b), r.totalBookings + 1,
            r.pendingBookings + (if b.status == Pending then 1 else 0),
            r.confirmedBookings + (if b.status == Confirmed then 1 else 0),
            r.completedBookings + (if b.status == Completed then 1 else 0),
            r.cancelledBookings + (if b.status == Cancelled then 1 else 0))
  }

  /** Every booking has exactly one of the four statuses, so the per-status
      counts add up to the total. */
  lemma {:induction false} StatusCountsSum(s: seq<Booking>)
    ensures StatsOf(s).pendingBookings + StatsOf(s).confirmedBookings
          + StatsOf(s).completedBookings + StatsOf(s).cancelledBookings
         == StatsOf(s).totalBookings
  {
    if s != [] {
      StatusCountsSum(s[1..]);
    }
  }

  /** `stats[0] || {}`: an empty collection aggregates to no document. */
  function StatsReply(s: seq<Booking>): (r: Option<Stats>)
    ensures r.None? <==> s == []
    ensures r.Some? ==> r.value == StatsOf(s)
  {
    if s == [] then None else Some(StatsOf(s))
  }

  /** One `$group` result of the package-popularity pipeline; a booking
      without a package is grouped under `null` (`None`). */
  datatype PackageCount = PackageCount(package: Option<string>, count: nat)

  function CountOf(g: PackageCount): int
  {
    g.count
  }

  function CountPackage(s: seq<Booking>, p: Option<string>): (n: nat)
    ensures n <= |s|
  {
    if s == [] then 0 else (if s[0].tourPackage == p then 1 else 0) + CountPackage(s[1..], p)
  }

  predicate Distinct<T(==)>(k: seq<T>)
  {
    forall i, j | 0 <= i < j < |k| :: k[i] != k[j]
  }

  /** The distinct package values that occur in `s`. */
  function PackageKeys(s: seq<Booking>): (k: seq<Option<string>>)
    ensures Distinct(k)
    ensures forall i | 0 <= i < |s| :: s[i].tourPackage in k
    ensures forall i | 0 <= i < |k| :: exists j | 0 <= j < |s| :: s[j].tourPackage == k[i]
  {
    if s == [] then []
    else
      var rest := PackageKeys(s[1..]);
      assert forall i | 1 <= i < |s| :: s[i] == s[1..][i - 1];
      if s[0].tourPackage in rest then rest else [s[0].tourPackage] + rest
  }

  function GroupsFor(s: seq<Booking>, keys: seq<Option<string>>): (g: seq<PackageCount>)
    ensures |g| == |keys|
    ensures forall i | 0 <= i < |g| :: g[i] == PackageCount(keys[i], CountPackage(s, keys[i]))
  {
    if keys == [] then []
    else [PackageCount(keys[0], CountPackage(s, keys[0]))] + GroupsFor(s, keys[1..])
  }

  /** The package-popularity pipeline: group by package, sort by count,
      largest first: one entry per distinct package, none exactly for an
      empty collection. */
  function PackageStats(s: seq<Booking>): (r: seq<PackageCount>)
    ensures |r| == |PackageKeys(s)|
    ensures SortedDesc(r, CountOf)
    ensures r == [] <==> s == []
  {
    SortDesc(GroupsFor(s, PackageKeys(s)), CountOf)
  }

  function Occurrences(keys: seq<Option<string>>, p: Option<string>): nat
  {
    if keys == [] then 0 else (if keys[0] == p then 1 else 0) + Occurrences(keys[1..], p)
  }

  lemma {:induction false} OccurrencesOfDistinct(keys: seq<Option<string>>, p: Option<string>)
    requires Distinct(keys) && p in keys
    ensures Occurrences(keys, p) == 1
  {
    if keys[0] == p {
      OccurrencesAbsent(keys[1..], p);
    } else {
      OccurrencesOfDistinct(keys[1..], p);
    }
  }

  lemma {:induction false} OccurrencesAbsent(keys: seq<Option<string>>, p: Option<string>)
    requires p !in keys
    ensures Occurrences(keys, p) == 0
  {
    if keys != [] {
      OccurrencesAbsent(keys[1..], p);
    }
  }

  /** Adding one booking in front adds one to the count of its own package
      and nothing to the others. */
  lemma {:induction false} GroupSumCons(b: Booking, t: seq<Booking>, keys: seq<Option<string>>)
    ensures SumOf(GroupsFor([b] + t, keys), CountOf)
         == Occurrences(keys, b.tourPackage) + SumOf(GroupsFor(t, keys), CountOf)
  {
    if keys != [] {
      assert ([b] + t)[1..] == t;
      GroupSumCons(b, t, keys[1..]);
    }
  }

  lemma {:induction false} GroupSumCovers(s: seq<Booking>, keys: seq<Option<string>>)
    requires Distinct(keys)
    requires forall i | 0 <= i < |s| :: s[i].tourPackage in keys
    ensures SumOf(GroupsFor(s, keys), CountOf) == |s|
  {
    if s == [] {
      GroupSumEmpty(keys);
    } else {
      var t := s[1..];
      assert s == [s[0]] + t;
      assert forall i | 0 <= i < |t| :: t[i] == s[i + 1];
      GroupSumCovers(t, keys);
      GroupSumCons(s[0], t, keys);
      OccurrencesOfDistinct(keys, s[0].tourPackage);
    }
  }

  lemma {:induction false} GroupSumEmpty(keys: seq<Option<string>>)
    ensures SumOf(GroupsFor([], keys), CountOf) == 0
  {
    if keys != [] {
      GroupSumEmpty(keys[1..]);
    }
  }

  /** Package popularity accounts for every booking exactly once and is
      ordered by count, largest first. */
  lemma PackageStatsTotal(s: seq<Booking>)
    ensures SumOf(PackageStats(s), CountOf) == |s|
    ensures SortedDesc(PackageStats(s), CountOf)
  {
    var keys := PackageKeys(s);
    GroupSumCovers(s, keys);
    SortSum(GroupsFor(s, keys), CountOf, CountOf);
  }

  /** Each entry of package popularity carries the true, non-zero number of
      bookings of its package. */
  lemma PackageStatsCounts(s: seq<Booking>, i: int)
    requires 0 <= i < |PackageStats(s)|
    ensures PackageStats(s)[i].count == CountPackage(s, PackageStats(s)[i].package) > 0
  {
    var keys := PackageKeys(s);
    var g := GroupsFor(s, keys);
    var p := PackageStats(s);
    assert p[i] in multiset(g);
    var m :| 0 <= m < |g| && g[m] == p[i];
    assert p[i].package == keys[m] && p[i].count == CountPackage(s, keys[m]);
    var j :| 0 <= j < |s| && s[j].tourPackage == keys[m];
    CountPackagePositive(s, j);
  }

  /** Every booking's package, or `null` when it has none, has an entry. */
  lemma PackageStatsCovers(s: seq<Booking>, i: int)
    requires 0 <= i < |s|
    ensures exists j | 0 <= j < |PackageStats(s)| :: PackageStats(s)[j].package == s[i].tourPackage
  {
    var keys := PackageKeys(s);
    var g := GroupsFor(s, keys);
    var p := PackageStats(s);
    var m :| 0 <= m < |keys| && keys[m] == s[i].tourPackage;
    assert g[m] in multiset(p);
    var j :| 0 <= j < |p| && p[j] == g[m];
    assert p[j].package == s[i].tourPackage;
  }

  lemma {:induction false} CountPackagePositive(s: seq<Booking>, j: int)
    requires 0 <= j < |s|
    ensures CountPackage(s, s[j].tourPackage) > 0
  {
    if j > 0 {
      assert s[1..][j - 1] == s[j];
      CountPackagePositive(s[1..], j - 1);
    }
  }

  /** The JSON reply of GET /. */
  datatype ListReply = ListReply(
    bookings: seq<Booking>,
    totalPages: Option<int>,
    currentPage: int,
    totalItems: nat,
    stats: Option<Stats>,
    packageStats: seq<PackageCount>)

  /** `(page - 1) * limit`, with the defaults 1 and 10. */
  function SkipOf(q: ListQuery): int
  {
    (q.page.GetOr(1) - 1) * q.limit.GetOr(10)
  }

  /** GET /: filter, sort by `createdAt` newest first, skip
      `(page - 1) * limit` and take `limit` (defaults 1 and 10). A negative
      skip makes the query fail, which the `catch` reports as 500. The
      statistics and package counts run over the whole collection: the
      pipelines have no `$match` stage. */
  function ListResult(s: seq<Booking>, q: ListQuery): (res: Response<ListReply>)
    ensures res.Failure? <==> SkipOf(q) < 0
    ensures res.Failure? ==> res == Failure(500, ServerError)
    ensures res.Success? ==>
      && res.code == 200 && res.body.currentPage == q.page.GetOr(1)
      && (forall b | b in res.body.bookings :: b in s && Matches(b, q))
      && SortedDesc(res.body.bookings, CreatedAt)
      && (q.limit.GetOr(10) != 0 ==> |res.body.bookings| <= Abs(q.limit.GetOr(10)))
      && res.body.totalItems == |Filter(s, q)|
      && PagesCover(res.body.totalPages, |Filter(s, q)|, q.limit.GetOr(10))
      && res.body.stats == StatsReply(s)
      && res.body.packageStats == PackageStats(s)
    ensures res.Success? ==>
      SkipOf(q) >= 0
      && res.body.bookings == PageOf(SortDesc(Filter(s, q), CreatedAt), SkipOf(q), q.limit.GetOr(10))
  {
    var page := q.page.GetOr(1);
    var limit := q.limit.GetOr(10);
    var skip := SkipOf(q);
    if skip < 0 then Failure(500, ServerError)
    else
      var matching := Filter(s, q);
      PageOfKeepsOrder(SortDesc(matching, CreatedAt), skip, limit);
      SortDescMembers(matching, CreatedAt);
      Success(200, ListReply(
        PageOf(SortDesc(matching, CreatedAt), skip, limit),
        TotalPages(|matching|, limit),
        page,
        |matching|,
        StatsReply(s),
        PackageStats(s)))
  }

  /** `skip` and `limit` take a contiguous run, so the page is drawn from
      the sorted list and keeps its order. */
  lemma PageOfKeepsOrder(s: seq<Booking>, skip: nat, limit: int)
    requires SortedDesc(s, CreatedAt)
    ensures SortedDesc(PageOf(s, skip, limit), CreatedAt)
    ensures forall b | b in PageOf(s, skip, limit) :: b in s
  {
    var pg := PageOf(s, skip, limit);
    var from := if skip < |s| then skip else |s|;
    forall i | 0 <= i < |pg| ensures pg[i] == s[from + i] && pg[i] in s {
    }
  }

  /** The statistics do not depend on the query's filter or page. */
  lemma StatsIgnoreFilter(s: seq<Booking>, q1: ListQuery, q2: ListQuery)
    requires ListResult(s, q1).Success? && ListResult(s, q2).Success?
    ensures ListResult(s, q1).body.stats == ListResult(s, q2).body.stats
    ensures ListResult(s, q1).body.stats == StatsReply(s)
  {
  }

  /** Twenty-five bookings, no filter, ten per page: page 3 holds the last
      five and there are three pages. */
  lemma ThirdPageOfTwentyFive(s: seq<Booking>)
    requires |s| == 25
    ensures var r := ListResult(s, ListQuery(Some(3), Some(10), None, None, None));
      r.Success? && |r.body.bookings| == 5 && r.body.totalPages == Some(3)
      && r.body.totalItems == 25
      && r.body.bookings == SortDesc(s, CreatedAt)[20..]
  {
    var q := ListQuery(Some(3), Some(10), None, None, None);
    FilterAll(s, q);
    var sorted := SortDesc(s, CreatedAt);
    assert PageOf(sorted, 20, 10) == sorted[20..];
    assert TotalPages(25, 10) == Some(3);
  }

  lemma {:induction false} FilterAll(s: seq<Booking>, q: ListQuery)
    requires forall i | 0 <= i < |s| :: Matches(s[i], q)
    ensures Filter(s, q) == s
  {
    if s != [] {
      FilterAll(s[1..], q);
      assert s == [s[0]] + s[1..];
    }
  }

  /** Two pending, one confirmed and one cancelled booking aggregate to
      those counts, nothing completed, four in all, and the revenue is the
      sum of the amounts. */
  lemma StatsExample(a: Booking, b: Booking, c: Booking, d: Booking)
    requires a.status == Pending && b.status == Pending
    requires c.status == Confirmed && d.status == Cancelled
    ensures StatsReply([a, b, c, d]) == Some(Stats(
      AmountOf(a) + AmountOf(b) + AmountOf(c) + AmountOf(d), 4, 2, 1, 0, 1))
  {
    assert [a, b, c, d][1..] == [b, c, d];
    assert [b, c, d][1..] == [c, d];
    assert [c, d][1..] == [d];
    assert [d][1..] == [];
    assert StatsOf([d]) == Stats(AmountOf(d), 1, 0, 0, 0, 1);
    assert StatsOf([c, d]) == Stats(AmountOf(c) + AmountOf(d), 2, 0, 1, 0, 1);
    assert StatsOf([b, c, d]) == Stats(AmountOf(b) + AmountOf(c) + AmountOf(d), 3, 1, 1, 0, 1);
  }

  // ------------------------------------------------------------------ store

  /** A stored booking whose id is above every id in the collection can be
      added without breaking what the collection keeps. */
  lemma AppendFresh(s: seq<Booking>, n: nat, b: Booking)
    requires forall i | 0 <= i < |s| :: Stored(s[i]) && s[i].id < n
    requires IdsDistinct(s, IdOf)
    requires Stored(b) && b.id == n
    ensures forall i | 0 <= i < |s + [b]| :: Stored((s + [b])[i]) && (s + [b])[i].id < n + 1
    ensures IdsDistinct(s + [b], IdOf)
  {
  }

  /** The booking collection. */
  class BookingStore {
    var records: seq<Booking>
    var nextId: nat

    ghost predicate Valid()
      reads this
    {
      && (forall i | 0 <= i < |records| :: Stored(records[i]) && records[i].id < nextId)
      && IdsDistinct(records, IdOf)
    }

    constructor ()
      ensures Valid() && records == [] && nextId == 0
    {
      records := [];
      nextId := 0;
    }

    /** POST /. */
    method Create(r: CreateRequest, builtAt: int, savedAt: int) returns (res: Response<Booking>)
      requires Valid()
      modifies this
      ensures Valid()
      ensures var out := CreateResult(r, old(nextId), builtAt, savedAt);
        && res == out.0
        && records == old(records) + (if out.1.Some? then [out.1.value] else [])
    {
      var out := CreateResult(r, nextId, builtAt, savedAt);
      res := out.0;
      if out.1.Some? {
        AppendFresh(records, nextId, out.1.value);
        records := records + [out.1.value];
        nextId := nextId + 1;
      }
    }

    /** GET /:id. */
    method Get(id: nat) returns (res: Response<Booking>)
      requires Valid()
      ensures res == GetResult(records, id)
    {
      res := GetResult(records, id);
    }

    /** GET /. */
    method List(q: ListQuery) returns (res: Response<ListReply>)
      requires Valid()
      ensures res == ListResult(records, q)
    {
      res := ListResult(records, q);
    }

    /** PATCH /:id/status. */
    method UpdateStatus(id: nat, status: Option<string>) returns (res: Response<Booking>)
      requires Valid()
      modifies this
      ensures Valid() && nextId == old(nextId)
      ensures var out := UpdateStatusResult(old(records), id, status);
        res == out.0 && records == out.1
    {
      var out := UpdateStatusResult(records, id, status);
      UpdateStatusKeepsStored(records, id, status);
      res := out.0;
      records := out.1;
    }

    /** DELETE /:id. */
    method Delete(id: nat) returns (res: Response<string>)
      requires Valid()
      modifies this
      ensures Valid() && nextId == old(nextId)
      ensures var out := DeleteResult(old(records), id);
        res == out.0 && records == out.1
    {
      var out := DeleteResult(records, id);
      res := out.0;
      records := out.1;
    }
  }
}
