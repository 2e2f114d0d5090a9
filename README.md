# Python API record store, modelled in Dafny

The service is a small Flask application (`datadog-setup/app.py`; `origin_python_api/app.py`
is the same file byte for byte, so every citation below holds for both). Its only state is
`data_store`, a process-wide list of records kept in insertion order. Five handlers use it:

- `POST /api/data` (`create_data`) checks that the request is JSON and that the decoded body
  is truthy in Python's sense. If so, it appends `{id, data, created_at, created_by}` and
  answers 201 with `total_items`.
- `GET /api/data/<item_id>` (`get_data_by_id`) returns the first record with that id (200),
  or 404.
- `GET /api/data` (`get_data`) lists the records with their `count`.
- `GET /api/status` (`get_status`) reports `total_items` and fixed service metadata.
- `DELETE /api/data` (`clear_data`) empties the list and reports the old count in its
  message `Cleared N items`.

The project has five modules:

- `Wrappers` holds `Option`.
- `Json` holds the decoded JSON value and Python truthiness.
- `Decimal` holds `str()` of a non-negative int and its inverse. The DELETE response
  reports the count only inside its message text.
- `Records` holds the record, the first-match lookup and id uniqueness.
- `Api` holds the `Store` class (the `data_store` list as a `seq<Record>` field), the
  handlers, and two client methods that chain handlers.

`create_data` and `clear_data` change the store, so they are methods with `modifies`. The
three read-only handlers are functions that read the store.

Three points where the code does something other than its own messages and names suggest:

- The 400 answer with "Request body cannot be empty" (line 92) is never given for an empty
  body. `request.get_json()` at line 87 raises `BadRequest` for an empty or undecodable body,
  and the `except Exception` at lines 121-127 answers 500 with the exception text as
  `details`. Only a body that decodes to a value Python treats as false reaches line 92.
- The check at line 89 is Python truthiness, not an emptiness test. Any truthy JSON value is
  stored, including arrays, strings and numbers. Besides `{}` and `null`, it also rejects `0`,
  `false`, `""` and `[]`.
- The code does not enforce id uniqueness. It holds only while every `uuid4()` is fresh, so
  the model states it as an implication, not as a precondition or an invariant.

## Model

| member | source | states |
|---|---|---|
| `Json.FalsyExactly` | datadog-setup/app.py:87-93 | the body is rejected as empty exactly when it decodes to one of `null`, `false`, `0`, `0.0`, `""`, `[]`, `{}` |
| `Decimal.NatToDecimal` | datadog-setup/app.py:181 | the count in the DELETE message is a non-empty digit string with no leading zero except for 0 |
| `Decimal.DecimalRoundTrip` | datadog-setup/app.py:181 | reading the rendered count back gives the count |
| `Records.IndexOfId` | datadog-setup/app.py:135 | the search yields None exactly when no record has the id; otherwise it yields the position of the first record with that id |
| `Records.FindById` | datadog-setup/app.py:135 | `next(..., None)` gives None exactly when no record has the id; otherwise it gives a stored record with that id and no earlier record has it |
| `Records.FindUnique` | datadog-setup/app.py:135 | when ids are unique, looking up any stored record's id returns that record |
| `Records.AppendFreshKeepsUnique` | datadog-setup/app.py:96-104 | appending a record whose id is not yet stored keeps all ids distinct |
| `Records.FindAppendedFresh` | datadog-setup/app.py:96-135 | after appending a record with a new id, looking that id up returns that record |
| `Records.FindAppendedOther` | datadog-setup/app.py:104-135 | appending a record never changes the lookup result for any other id |
| `Api.ClearedMessageReportsCount` | datadog-setup/app.py:179-183 | the count can be read back from the message `Cleared N items` |
| `Api.Store.constructor` | datadog-setup/app.py:24 | the store starts empty |
| `Api.Store.CreateData` | datadog-setup/app.py:76-127 | non-JSON gets 400, an undecodable body gets 500 and a falsy body gets 400, each with its error text and with the store unchanged; otherwise exactly one record `{newId, body, now, remote_addr}` is appended at the end, earlier records are unchanged, and the answer is 201 with `total_items` = old length + 1; 201 happens exactly when both checks pass; the ids stay unique if they were unique and the new id is fresh |
| `Api.Store.GetData` | datadog-setup/app.py:56-74 | 200 with exactly the stored records in insertion order, and `count` equal to their number |
| `Api.Store.GetDataById` | datadog-setup/app.py:129-147 | 200 exactly when some record has the id, with the first such record; otherwise 404 with `Item with ID <id> not found`; the store is only read |
| `Api.Store.GetStatus` | datadog-setup/app.py:149-168 | 200, `total_items` equals the number of stored records, and the service name, status, version, uptime, environment and timestamp are as shown |
| `Api.Store.ClearData` | datadog-setup/app.py:170-183 | the store is empty afterwards, and the answer is 200 with a message from which the previous count reads back |
| `Api.PostThenGet` | datadog-setup/app.py:97-135 | an accepted POST with a fresh id, then a GET by that id, returns 200 with the record just created, whose `data` is the posted payload |
| `Api.ClearThenList` | datadog-setup/app.py:170-183 | a DELETE, then a list, gives no records and `count` 0, whatever was stored before |

## Left out

- Flask routing, `jsonify`, the response headers (Cache-Control, Pragma, Expires, Content-Type) and the 404/500 error handlers (lines 185-201) are framework plumbing, so they are not modelled.
- `uuid.uuid4()`, `datetime.now().isoformat()` and `request.remote_addr` become the parameters `newId`, `now` and the request's `remoteAddr`, because they are randomness, clock and network reads. Id freshness is a premise of the uniqueness statements, not something the model generates.
- `request.is_json` and the JSON decoding itself are inputs (`Request.isJson`, `Body`), because they are library code. The model does not parse bytes.
- Api.Store.CreateData: the `except Exception` branch is modelled only for a body `get_json()` cannot decode. Other failures inside library calls are not modelled, because nothing in the handler itself raises.
- Floats are exact reals, so the model cannot represent `NaN`, `Infinity` or `-Infinity`. Python's `json` decoder accepts these bodies and treats them as true, so they take the 201 path like any nonzero number and are stored. Float rounding is not modelled either.
- `os.environ` is a parameter `env` of `GetStatus`, because it is a process environment read. `EnvironmentName` applies the `development` default to it.
- `os.sys.version` and `os.name` in the status `system_info` are not modelled, because they are environment reads with no logic.
- The constant-only `health_check` and `root` handlers (lines 26-54) are not modelled, because they hold no logic and never touch the store.
- Logging and the stdout/stderr flushes are not modelled, because they have no effect on responses or state.
- Concurrency across Gunicorn workers is not modelled. Every handler is one atomic step on one store, because the code has no locking to model.
