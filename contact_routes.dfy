/** The contact-message routes of backend/routes/contacts.js over an
    in-memory collection: list newest first (GET /), create (POST /) and
    delete (DELETE /:id). The Contact schema file is not part of this model,
    so a document that passes the handler's own check is taken to save. */
module ContactRoutes {
  import opened Wrappers
  import opened Http
  import opened Ordering

  datatype Contact = Contact(
    id: nat,
    name: Option<string>,
    email: Option<string>,
    phone: Option<string>,
    message: Option<string>,
    date: int)

  datatype ContactRequest = ContactRequest(
    name: Option<string>,
    email: Option<string>,
    phone: Option<string>,
    message: Option<string>)

  const MissingFields := "Please include name, email, and message"
  const NotFound := "Contact not found"
  const Removed := "Contact removed"

  /** The handler's check: name, email and message truthy; phone optional. */
  predicate HasRequiredFields(r: ContactRequest)
  {
    TruthyText(r.name) && TruthyText(r.email) && TruthyText(r.message)
  }

  /** POST /: 400 and nothing stored when a required field is falsy;
      otherwise the four fields, dated `now`, are stored and returned
      with 201. */
  function CreateResult(r: ContactRequest, id: nat, now: int): (res: (Response<Contact>, Option<Contact>))
    ensures res.1.Some? <==> HasRequiredFields(r)
    ensures !HasRequiredFields(r) ==> res.0 == Failure(400, MissingFields)
    ensures res.1.Some? ==>
      && res.0 == Success(201, res.1.value)
      && res.1.value.id == id && res.1.value.date == now
      && res.1.value.name == r.name && res.1.value.email == r.email
      && res.1.value.phone == r.phone && res.1.value.message == r.message
  {
    if !HasRequiredFields(r) then (Failure(400, MissingFields), None)
    else
      var c := Contact(id, r.name, r.email, r.phone, r.message, now);
      (Success(201, c), Some(c))
  }

  /** The phone number is optional: leaving it out never changes whether a
      message is accepted. */
  lemma PhoneOptional(r: ContactRequest, p: Option<string>, id: nat, now: int)
    ensures CreateResult(r.(phone := p), id, now).0.Success? <==> CreateResult(r, id, now).0.Success?
  {
  }

  function DateOf(c: Contact): int
  {
    c.date
  }

  /** GET /: every contact, newest first. */
  function ListResult(s: seq<Contact>): (res: Response<seq<Contact>>)
    ensures res.Success? && res.code == 200
    ensures multiset(res.body) == multiset(s)
    ensures SortedDesc(res.body, DateOf)
  {
    Success(200, SortDesc(s, DateOf))
  }

  function IdOf(x: Contact): nat
  {
    x.id
  }

  /** DELETE /:id: 404 and no change for an unknown id, otherwise exactly
      that contact is removed and the others keep their order. */
  function DeleteResult(s: seq<Contact>, id: nat): (res: (Response<string>, seq<Contact>))
    ensures IndexOfId(s, id, IdOf).None? ==> res == (Failure(404, NotFound), s)
    ensures IndexOfId(s, id, IdOf).Some? ==>
      var k := IndexOfId(s, id, IdOf).value;
      && res.0 == Success(200, Removed)
      && res.1 == s[..k] + s[k + 1..]
      && multiset(res.1) + multiset{s[k]} == multiset(s)
  {
    var k := IndexOfId(s, id, IdOf);
    if k.None? then (Failure(404, NotFound), s)
    else
      assert s == s[..k.value] + [s[k.value]] + s[k.value + 1..];
      (Success(200, Removed), s[..k.value] + s[k.value + 1..])
  }

  /** With distinct ids, a delete leaves no contact with that id and keeps
      every other one. */
  lemma DeleteRemovesOnlyThatId(s: seq<Contact>, id: nat)
    requires IdsDistinct(s, IdOf)
    ensures var res := DeleteResult(s, id);
      && (forall c | c in res.1 :: c.id != id)
      && (forall c | c in s && c.id != id :: c in res.1)
  {
    var res := DeleteResult(s, id);
    var k := IndexOfId(s, id, IdOf);
    if k.Some? {
      var kk := k.value;
      forall c | c in res.1 ensures c.id != id {
        var i :| 0 <= i < |res.1| && res.1[i] == c;
        if i < kk {
          assert res.1[i] == s[i];
        } else {
          assert res.1[i] == s[i + 1];
        }
      }
      forall c | c in s && c.id != id ensures c in res.1 {
        var j :| 0 <= j < |s| && s[j] == c;
        if j < kk {
          assert res.1[j] == c;
        } else {
          assert res.1[j - 1] == c;
        }
      }
    }
  }

  /** The contact collection. */
  class ContactStore {
    var records: seq<Contact>
    var nextId: nat

    ghost predicate Valid()
      reads this
    {
      && (forall i | 0 <= i < |records| :: records[i].id < nextId)
      && IdsDistinct(records, IdOf)
    }

    constructor ()
      ensures Valid() && records == [] && nextId == 0
    {
      records := [];
      nextId := 0;
    }

    /** POST / at time `now`. */
    method Create(r: ContactRequest, now: int) returns (res: Response<Contact>)
      requires Valid()
      modifies this
      ensures Valid()
      ensures var out := CreateResult(r, old(nextId), now);
        && res == out.0
        && records == old(records) + (if out.1.Some? then [out.1.value] else [])
    {
      var out := CreateResult(r, nextId, now);
      res := out.0;
      if out.1.Some? {
        records := records + [out.1.value];
        nextId := nextId + 1;
      }
    }

    /** GET /. */
    method List() returns (res: Response<seq<Contact>>)
      requires Valid()
      ensures res == ListResult(records)
    {
      res := ListResult(records);
    }

    /** DELETE /:id. */
    method Delete(id: nat) returns (res: Response<string>)
      requires Valid()
      modifies this
      ensures Valid() && nextId == old(nextId)
      ensures var out := DeleteResult(old(records), id);
        res == out.0 && records == out.1
    {
      var out := DeleteResult(records, id);
      res := out.0;
      records := out.1;
    }
  }
}
