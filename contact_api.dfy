/** The contact handlers: the `ContactCreate` record, the table of stored
    contacts and the create, list, get, update, delete and upcoming-birthdays
    operations, with the database replaced by an in-memory map from id to row. */
module ContactApi {
  import opened Results
  import opened Dates

  /** The integer primary key of a stored contact. */
  type ContactId = int

  /** The request body of create and update. */
  datatype ContactCreate = ContactCreate(
    firstName: string,
    lastName: string,
    email: string,
    phoneNumber: string,
    birthday: Date,
    extraInfo: Option<string>)

  /** A stored row: its id and the `ContactCreate` fields. */
  datatype Contact = Contact(
    id: ContactId,
    firstName: string,
    lastName: string,
    email: string,
    phoneNumber: string,
    birthday: Date,
    extraInfo: Option<string>)

  /** The fields of a row that a request body sets, without the id. */
  function Payload(c: Contact): ContactCreate
  {
    ContactCreate(c.firstName, c.lastName, c.email, c.phoneNumber, c.birthday, c.extraInfo)
  }

  /** The stored rows, by id. */
  type Table = map<ContactId, Contact>

  /** What a handler raises: an `HTTPException` with its status and detail, or
      the database's integrity error when a commit would store an email twice. */
  datatype ApiError = HttpError(status: nat, detail: string) | IntegrityError

  const ContactNotFound: ApiError := HttpError(404, "Contact not found")
  const DeletedMessage: string := "Contact deleted successfully"

  // ---------------------------------------------------------------------------
  // Attributes by name, for `contact.dict().items()` and `setattr`

  datatype FieldName = FirstName | LastName | Email | PhoneNumber | Birthday | ExtraInfo

  datatype FieldValue = Text(text: string) | Day(day: Date) | OptionalText(maybe: Option<string>)

  /** The value a field of type `str`, `date` or optional `str` may hold. */
  predicate Fits(f: FieldName, v: FieldValue)
  {
    match f
    case Birthday => v.Day?
    case ExtraInfo => v.OptionalText?
    case _ => v.Text?
  }

  /** The value of field `f` of a request body. */
  function Field(c: ContactCreate, f: FieldName): (v: FieldValue)
    ensures Fits(f, v)
  {
    match f
    case FirstName => Text(c.firstName)
    case LastName => Text(c.lastName)
    case Email => Text(c.email)
    case PhoneNumber => Text(c.phoneNumber)
    case Birthday => Day(c.birthday)
    case ExtraInfo => OptionalText(c.extraInfo)
  }

  /** `getattr(row, f)`. */
  function GetAttr(row: Contact, f: FieldName): (v: FieldValue)
    ensures Fits(f, v)
  {
    Field(Payload(row), f)
  }

  /** `setattr(row, f, v)`: field `f` becomes `v`, every other field and the id
      stay as they were. */
  function SetAttr(row: Contact, f: FieldName, v: FieldValue): (r: Contact)
    requires Fits(f, v)
    ensures GetAttr(r, f) == v
    ensures r.id == row.id
    ensures forall g :: g != f ==> GetAttr(r, g) == GetAttr(row, g)
  {
    match f
    case FirstName => row.(firstName := v.text)
    case LastName => row.(lastName := v.text)
    case Email => row.(email := v.text)
    case PhoneNumber => row.(phoneNumber := v.text)
    case Birthday => row.(birthday := v.day)
    case ExtraInfo => row.(extraInfo := v.maybe)
  }

  /** `contact.dict().items()`: every field of the request body once, in
      declaration order, with its value. */
  function Items(c: ContactCreate): (items: seq<(FieldName, FieldValue)>)
    ensures |items| == 6
    ensures forall i, j :: 0 <= i < j < |items| ==> items[i].0 != items[j].0
    ensures forall i :: 0 <= i < |items| ==> items[i].1 == Field(c, items[i].0)
    ensures forall i :: 0 <= i < |items| ==> Fits(items[i].0, items[i].1)
  {
    [(FirstName, Text(c.firstName)), (LastName, Text(c.lastName)), (Email, Text(c.email)),
     (PhoneNumber, Text(c.phoneNumber)), (Birthday, Day(c.birthday)),
     (ExtraInfo, OptionalText(c.extraInfo))]
  }

  /** The `setattr` loop of update: every field of the request body is written
      onto the row, so the row ends up holding exactly the body, under its own id. */
  method Overwrite(row: Contact, body: ContactCreate) returns (updated: Contact)
    ensures updated.id == row.id
    ensures Payload(updated) == body
  {
    var items := Items(body);
    updated := row;
    for i := 0 to |items|
      invariant updated.id == row.id
      invariant forall j :: 0 <= j < i ==> GetAttr(updated, items[j].0) == items[j].1
    {
      updated := SetAttr(updated, items[i].0, items[i].1);
    }
    assert GetAttr(updated, FirstName) == items[0].1;
    assert GetAttr(updated, LastName) == items[1].1;
    assert GetAttr(updated, Email) == items[2].1;
    assert GetAttr(updated, PhoneNumber) == items[3].1;
    assert GetAttr(updated, Birthday) == items[4].1;
    assert GetAttr(updated, ExtraInfo) == items[5].1;
  }

  // ---------------------------------------------------------------------------
  // Queries

  /** `query.filter(getattr(Contact, f) == v)`: the rows whose field `f` equals `v`. */
  function Where(query: Table, f: FieldName, v: FieldValue): (r: Table)
    ensures forall id :: id in r <==> id in query && GetAttr(query[id], f) == v
    ensures forall id :: id in r ==> r[id] == query[id]
  {
    map id | id in query && GetAttr(query[id], f) == v :: query[id]
  }

  /** Python truthiness of an optional string parameter: `None` and `""` are false. */
  predicate Truthy(s: Option<string>)
  {
    s.Some? && s.value != ""
  }

  /** A contact satisfies every filter that is supplied and non-empty. */
  predicate MatchesFilters(c: Contact, name: Option<string>, surname: Option<string>, email: Option<string>)
  {
    && (Truthy(name) ==> c.firstName == name.value)
    && (Truthy(surname) ==> c.lastName == surname.value)
    && (Truthy(email) ==> c.email == email.value)
  }

  /** `get_contact`: the row stored under `id`, or 404 when there is none. */
  function GetContact(rows: Table, id: ContactId): (r: Result<Contact, ApiError>)
    ensures r.Ok? <==> id in rows
    ensures r.Ok? ==> r.value == rows[id]
    ensures r.Err? ==> r.error == ContactNotFound
  {
    if id in rows then Ok(rows[id]) else Err(ContactNotFound)
  }

  /** `get_upcoming_birthdays`: the rows whose birthday lies between this
      week's Monday and the following Monday, both included, compared as full
      dates; `OverflowError` when the window's end is past the last `date`. */
  function UpcomingBirthdays(rows: Table, today: Date): (r: Result<Table, DateError>)
    ensures r.Err? <==> UpcomingWindow(today).Err?
    ensures r.Ok? ==> forall id :: id in r.value <==>
      id in rows && InWindow(UpcomingWindow(today).value, rows[id].birthday)
    ensures r.Ok? ==> forall id :: id in r.value ==> r.value[id] == rows[id]
  {
    match UpcomingWindow(today)
    case Err(e) => Err(e)
    case Ok(w) => Ok(map id | id in rows && w.start <= rows[id].birthday && rows[id].birthday <= w.end :: rows[id])
  }

  /** Seen from today, a listed birthday lies between this week's Monday,
      `weekday()` days back, and the Monday after, `7 - weekday()` days ahead. */
  lemma UpcomingBirthdaysNearToday(rows: Table, today: Date, id: ContactId)
    requires UpcomingBirthdays(rows, today).Ok?
    requires id in UpcomingBirthdays(rows, today).value
    ensures var b := rows[id].birthday;
      today - Weekday(today) <= b <= today - Weekday(today) + 7
  {
  }

  /** Storing a row changes the birthday list only in that row: it is listed
      exactly when its birthday is in the window. */
  lemma UpcomingBirthdaysAfterStore(rows: Table, row: Contact, today: Date)
    requires UpcomingWindow(today).Ok?
    ensures var before := UpcomingBirthdays(rows, today).value;
      var after := UpcomingBirthdays(rows[row.id := row], today).value;
      after == if InWindow(UpcomingWindow(today).value, row.birthday)
               then before[row.id := row] else before - {row.id}
  {
  }

  /** Removing a row removes it from the birthday list and nothing else. */
  lemma UpcomingBirthdaysAfterRemove(rows: Table, id: ContactId, today: Date)
    requires UpcomingWindow(today).Ok?
    ensures UpcomingBirthdays(rows - {id}, today).value == UpcomingBirthdays(rows, today).value - {id}
  {
  }

  /** The ids of the rows holding `email`. */
  function EmailOwners(rows: Table, email: string): set<ContactId>
  {
    set id | id in rows && rows[id].email == email
  }

  /** No two rows hold the same email (the unique constraint on the column). */
  ghost predicate EmailsUnique(rows: Table)
  {
    forall a, b :: a in rows && b in rows && rows[a].email == rows[b].email ==> a == b
  }

  // ---------------------------------------------------------------------------
  // The table and the handlers that change it

  class ContactTable {
    /** The stored rows. */
    var rows: Table
    /** The id the next inserted row receives (the primary key's sequence). */
    var nextId: ContactId

    ghost predicate Valid()
      reads this
    {
      && 1 <= nextId
      && (forall id :: id in rows ==> 1 <= id < nextId && rows[id].id == id)
      && EmailsUnique(rows)
    }

    constructor ()
      ensures Valid()
      ensures rows == map[] && nextId == 1
    {
      rows := map[];
      nextId := 1;
    }

    /** `create_contact`: stores the body as a new row under an id not in use,
        unless another row already holds its email, in which case the commit
        fails and nothing is stored. */
    method Create(body: ContactCreate) returns (r: Result<Contact, ApiError>)
      requires Valid()
      modifies this
      ensures Valid()
      ensures EmailOwners(old(rows), body.email) != {} ==>
        r == Err(IntegrityError) && rows == old(rows) && nextId == old(nextId)
      ensures EmailOwners(old(rows), body.email) == {} ==>
        && r.Ok?
        && r.value.id !in old(rows)
        && Payload(r.value) == body
        && rows == old(rows)[r.value.id := r.value]
        && nextId == old(nextId) + 1
    {
      if EmailOwners(rows, body.email) != {} {
        return Err(IntegrityError);
      }
      forall a | a in rows
        ensures rows[a].email != body.email
      {
        assert a !in EmailOwners(rows, body.email);
      }
      var row := Contact(nextId, body.firstName, body.lastName, body.email,
                         body.phoneNumber, body.birthday, body.extraInfo);
      rows := rows[nextId := row];
      nextId := nextId + 1;
      r := Ok(row);
    }

    /** `get_contacts`: the query starts from every row and is narrowed by each
        filter that is supplied and non-empty, so the result holds exactly the
        rows that satisfy all of them. */
    method Contacts(name: Option<string>, surname: Option<string>, email: Option<string>)
      returns (found: Table)
      ensures forall id :: id in found <==> id in rows && MatchesFilters(rows[id], name, surname, email)
      ensures forall id :: id in found ==> found[id] == rows[id]
      ensures !Truthy(name) && !Truthy(surname) && !Truthy(email) ==> found == rows
    {
      var query := rows;
      if Truthy(name) {
        query := Where(query, FirstName, Text(name.value));
      }
      if Truthy(surname) {
        query := Where(query, LastName, Text(surname.value));
      }
      if Truthy(email) {
        query := Where(query, Email, Text(email.value));
      }
      found := query;
    }

    /** `update_contact`: 404 and no change when `id` is absent; otherwise every
        body field is written onto the row, which keeps its id, and no other row
        changes, unless another row already holds the new email, in which case
        the commit fails and nothing changes. */
    method Update(id: ContactId, body: ContactCreate) returns (r: Result<Contact, ApiError>)
      requires Valid()
      modifies this
      ensures Valid()
      ensures nextId == old(nextId)
      ensures id !in old(rows) ==> r == Err(ContactNotFound) && rows == old(rows)
      ensures id in old(rows) && EmailOwners(old(rows), body.email) - {id} != {} ==>
        r == Err(IntegrityError) && rows == old(rows)
      ensures id in old(rows) && EmailOwners(old(rows), body.email) - {id} == {} ==>
        && r.Ok?
        && r.value.id == id
        && Payload(r.value) == body
        && rows == old(rows)[id := r.value]
    {
      var current := GetContact(rows, id);
      if current.Err? {
        return Err(current.error);
      }
      var updated := Overwrite(current.value, body);
      if EmailOwners(rows, body.email) - {id} != {} {
        return Err(IntegrityError);
      }
      forall a | a in rows && a != id
        ensures rows[a].email != updated.email
      {
        assert a !in EmailOwners(rows, body.email) - {id};
      }
      rows := rows[id := updated];
      r := Ok(updated);
    }

    /** `delete_contact`: 404 and no change when `id` is absent; otherwise
        exactly that row is removed. */
    method Delete(id: ContactId) returns (r: Result<string, ApiError>)
      requires Valid()
      modifies this
      ensures Valid()
      ensures nextId == old(nextId)
      ensures id !in old(rows) ==> r == Err(ContactNotFound) && rows == old(rows)
      ensures id in old(rows) ==> r == Ok(DeletedMessage) && rows == old(rows) - {id}
    {
      var current := GetContact(rows, id);
      if current.Err? {
        return Err(current.error);
      }
      ghost var before := rows;
      rows := rows - {id};
      forall a, b | a in rows && b in rows && rows[a].email == rows[b].email
        ensures a == b
      {
        assert before[a].email == before[b].email;
      }
      r := Ok(DeletedMessage);
    }
  }
}
