# Contact API and access-token claims, modelled in Dafny

This project models the logic of a small contact-management REST API.

- **Contact handlers (`api.py`).** A table of contacts keyed by integer id. Each row holds the `ContactCreate` fields: first name, last name, email, phone number, birthday and optional extra info.
  - Create inserts a row under a fresh id.
  - Get and delete answer 404 ("Contact not found") for an absent id.
  - Update overwrites every field with the `setattr` loop.
  - List narrows the query by each non-empty filter (first name, last name, email).
  - The upcoming-birthdays query lists the rows whose birthday lies from this week's Monday to the following Monday, both ends included.
- **Token claims (`auth.py`).** `create_access_token` copies the claims, adds an `exp` claim (thirty minutes unless a non-zero delta is given) and encodes the copy; it raises `OverflowError` when the expiry is past the last `datetime`. `verify_token` raises the caller's exception when decoding fails or when the payload has no non-`None` `user_id`. Otherwise it returns the payload unchanged.

Files and modules:

- `results.dfy`, module `Results`: `Option` (Python's `None`) and `Result` (a value or a raised error).
- `dates.dfy`, module `Dates`: dates as proleptic Gregorian day ordinals, from 1 (Monday 0001-01-01) to 3652059 (9999-12-31).
  - `weekday()` is `(ordinal + 6) % 7`.
  - `date ± timedelta` raises `OverflowError` outside that range.
  - The birthday window is built from these.
- `contact_api.dfy`, module `ContactApi`: the records, attribute access by field name, the queries as functions, and the class `ContactTable`. Its methods change the stored rows in place.
- `auth.dfy`, module `Auth`: claim values, a `Dict` class for the copied-then-updated claims dictionary, expiry, token issue and token check.

Parameters instead of the outside world:

- `date.today()` is the `today` parameter.
- `datetime.utcnow()` is the `now` parameter, in seconds.
- `jwt.encode` and `jwt.decode` are the function parameters `encode` and `decode`. `decode` returns `None` where the library raises `JWTError`.
- The database is the map `ContactTable.rows`.
- The primary-key sequence is the counter `ContactTable.nextId`.
- The unique constraint on the email column (`models.py:12`) is the table invariant `EmailsUnique`. A commit that would break it is the `IntegrityError` result, and it leaves the table unchanged.

Points where the code's behaviour is easy to misread:

- The birthday query's inclusive `start_date + 7` bound also lists the following Monday, so the window spans eight days, not one Monday-to-Sunday week (`WindowSpansEightDays`, `WindowEndsOnNextMonday`).
- The query compares whole dates, year included. A contact born in an earlier year is therefore listed only if that exact date falls in the window.
- The handlers have no owner field and no owner filter, so every contact is visible to and changeable by every caller, and the model has no owner either.
- `verify_token` turns every decoding failure (bad signature, expired, malformed) into the one exception the caller supplies.

## Model

| member | source | states |
|---|---|---|
| `Dates.Weekday` | api.py:66 | `weekday()` is below 7 and counts the days since the last Monday: `ordinal - weekday` is a Monday-aligned ordinal (≡ 1 mod 7) |
| `Dates.AddDays` | api.py:66-67 | `date + timedelta(days=n)` succeeds exactly when the result is a valid date (ordinal 1..3652059), and then it is `n` days later; otherwise `OverflowError` |
| `Dates.UpcomingWindow` | api.py:65-67 | the window exists exactly when `start + 7` is a valid date. `start_date` is a Monday (weekday 0), `start <= today <= start + 6`, `end_date == start + 7`. The step back to Monday never overflows |
| `Dates.DatesFromCount` | api.py:68 | the inclusive date range `lo..hi` holds `hi - lo + 1` dates |
| `Dates.WindowSpansEightDays` | api.py:67-68 | the inclusive window covers exactly 8 calendar days |
| `Dates.WindowCoversCurrentWeek` | api.py:65-68 | Monday through Sunday of today's week are in the window; the Sunday before is not |
| `Dates.WindowEndsOnNextMonday` | api.py:67-68 | the window's end is a Monday; the only day past this week's Sunday is that Monday; the window's two ends are its only Mondays |
| `ContactApi.Field` | api.py:10-16 | reading a field of a request body by name gives a value of that field's declared type |
| `ContactApi.GetAttr` | api.py:49-50 | reading a field by name gives a value of that field's declared type |
| `ContactApi.SetAttr` | api.py:50 | `setattr(row, key, value)` makes that field `value` and leaves the id and every other field unchanged |
| `ContactApi.Items` | api.py:10-16 | `contact.dict().items()` lists the six `ContactCreate` fields once each, each paired with the body's own value for that field |
| `ContactApi.Overwrite` | api.py:49-50 | after the `setattr` loop the row holds exactly the request body, under its own id |
| `ContactApi.Where` | api.py:30 | `query.filter(field == value)` keeps exactly the rows of the query whose field equals the value, unchanged |
| `ContactApi.GetContact` | api.py:38-42 | returns the stored row when the id is present and raises 404 "Contact not found" exactly when it is absent |
| `ContactApi.UpcomingBirthdays` | api.py:64-69 | lists exactly the rows with `start_date <= birthday <= end_date`, unchanged; raises `OverflowError` exactly when the window's end is past the last date |
| `ContactApi.UpcomingBirthdaysNearToday` | api.py:66-68 | every listed birthday lies between `today - weekday()` and seven days after that |
| `ContactApi.UpcomingBirthdaysAfterStore` | api.py:68 | storing a row changes the birthday list only in that row, which is listed exactly when its birthday is in the window |
| `ContactApi.UpcomingBirthdaysAfterRemove` | api.py:68 | removing a row removes exactly that row from the birthday list |
| `ContactApi.ContactTable.constructor` | models.py:6-15 | an empty contacts table that satisfies the table invariant: every row is stored under its own id, and no two rows share an email |
| `ContactApi.ContactTable.Create` | api.py:19-24 | adds exactly one row, under an id not previously present, holding the body; the other rows are unchanged. When another row already holds the email (`models.py:12`), it fails with `IntegrityError` and changes nothing. Table invariant kept |
| `ContactApi.ContactTable.Contacts` | api.py:27-35 | returns exactly the rows satisfying every supplied, non-empty filter, and every row when no filter is supplied; the table is not changed |
| `ContactApi.ContactTable.Update` | api.py:45-52 | an absent id gives 404 and no change. Otherwise the row keeps its id, takes every body field, and no other row changes. The exception is an email already held by another row: then `IntegrityError` and no change |
| `ContactApi.ContactTable.Delete` | api.py:55-61 | a present id removes exactly that row and returns the success message; an absent id gives 404 and no change |
| `Auth.Dict.Copy` | auth.py:13 | `data.copy()` is a new dictionary with the same entries |
| `Auth.Dict.Update` | auth.py:18 | `update` adds or overwrites the given keys and keeps the rest |
| `Auth.AddSeconds` | auth.py:15-17 | `datetime + timedelta` succeeds exactly when the result is a `datetime` (0001-01-01 to 9999-12-31), and is then `d` seconds later; otherwise `OverflowError` |
| `Auth.ExpiresAt` | auth.py:6-17 | for a non-zero delta, `exp == now + expires_delta`; when the delta is omitted or zero, `exp == now + 30 minutes`; in either case `OverflowError` exactly when that sum is not a `datetime` |
| `Auth.IssuedClaims` | auth.py:13-18 | the claims hold every key of `data` plus `exp`; every key other than `exp` keeps its value; `exp` is set or overwritten to the expiry |
| `Auth.CreateAccessToken` | auth.py:12-20 | raises `OverflowError` exactly when the expiry overflows; otherwise the token is the encoding of exactly those claims, built on a copy; the caller's dictionary is not in the method's modifies frame, so it is unchanged |
| `Auth.VerifyToken` | auth.py:22-30 | raises the supplied exception when decoding fails or the payload has no non-`None` `user_id`; otherwise returns the decoded payload unchanged |
| `Auth.IssuedTokenVerifies` | auth.py:12-30 | if decoding a freshly issued token gives back the same keys and the same value under every key but `exp`, the token passes `verify_token` exactly when `data` has a non-`None` `user_id`, and the payload returned carries every claim of `data` other than `exp` unchanged, plus `exp` |

## Left out

- Persistence and routing: SQLAlchemy sessions, `commit`/`refresh`, FastAPI routes and `Depends`, and pydantic validation are replaced by the in-memory table. Request bodies are taken as well-typed.
- Row order: `query.all()` has no `ORDER BY`, so query results are modelled as maps from id to row, with no order.
- ContactApi.ContactTable.Create: the id comes from a counter that never reuses ids. The contract promises only that the id was not in use. The database's own id policy is not modelled.
- The field-name mismatch between `extra_info` in `ContactCreate` (`api.py:16`) and `additional_info` on the row (`models.py:15`) is not modelled. As written, `Contact(**contact.dict())` rejects the unknown keyword, and the update loop sets an attribute that is not stored. The model treats `extra_info` as a stored column.
- `Depends(SessionLocal())` at `api.py:64` passes a session instance where a factory is expected. This wiring defect is not modelled.
- Clocks: `date.today()` and `datetime.utcnow()` are parameters. Time in `Auth` is whole seconds, so the microsecond resolution of `datetime` and `timedelta` is not modelled. The range limits of both types are modelled.
- JWT encoding, HS256 signing, the empty `SECRET_KEY`, and the library's own `exp` check are inside the `encode`/`decode` parameters. No encode/decode round trip is asserted. The library turns the `exp` `datetime` into a number, so `IssuedTokenVerifies` assumes only that decoding keeps the keys and every value other than `exp`.
- Password hashing (`models.py:28-32`) is left out: it is a thin wrapper over a library.
- `main.py` is not part of this model: Cloudinary configuration and upload, CORS and rate-limit middleware, the stub `create_contact`, and the content-type check.
- Birthdays are compared as full dates, as the code does. No month-and-day anniversary matching is modelled.
