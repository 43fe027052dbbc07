# Hook0 API: outbound event adapter and organization listing

A Dafny model of two small parts of the Hook0 webhook platform's API server.

- **Outbound event adapter** (`Hook0Client` module, `hook0_client.dfy`). The API reports some of
  its own domain events to a Hook0 instance through the Hook0 client library. It covers three things:
  - `Initialize` builds the client at start-up. It does so only when the endpoint URL,
    the application id and the application secret are all configured. A missing setting or a
    failed construction leaves the platform without outbound notification, and neither is an error.
  - `Hook0ClientEvent` is the closed set of reportable events: `OrganizationCreated` and
    `EventTypeCreated`.
  - `MkHook0Event` turns one such event into the client library's generic envelope. The
    envelope holds the event id, event type, payload, content type, metadata, occurrence time
    and labels.
- **Organization listing** (`Organizations` module, `organizations.dfy`). The `List` handler takes
  the (organization id, role) pairs from the caller's authorization. It looks up each
  organization's name and returns one record per pair. When no row is found, the name falls
  back to the id's text form. A query error fails the whole request.

Foreign code appears as parameters, because every Dafny member here needs a body:
- `connect` stands for `Hook0Client::new`: a success-or-failure oracle.
- `Codec` stands for serde_json: `to_vec` on each record kind, and `to_value` on a UUID and on a string.
- `lookup` stands for the SQL query, read the way `fetch_optional` answers: a query error, no row, or the stored name.
- `idToString`, `roleToString` and `intoProblem` stand for `Uuid::to_string`, the role's `to_string`
  and `Hook0Problem::from`.
- `version` is the value of `crate_version!()`.

The Rust `Event` trait becomes an `EventType`/`Labels` pair of member functions on each record
datatype. The inner `to_event` becomes `ToEvent`, which receives what the trait methods supply.

Both conversions are Dafny functions, so they are deterministic: equal events and equal
parameters give equal envelopes. No lemma is needed to state this.

All seven configurations with a missing setting give `None`. `Initialize` promises only that it
returns the client `connect` produced; the client's `api_url()` and `application_id()` are only
logged (api/src/hook0_client.rs:18-22).

## Model

| member | source | states |
|---|---|---|
| `Hook0Client.Initialize` | api/src/hook0_client.rs:10-35 | if any of URL, application id or secret is absent, the result is `None` (never an error); with all three present, the result is `Some` exactly when the client constructor succeeds, and then it is the very client the constructor returned |
| `Hook0Client.EventOrganizationCreated.EventType` | api/src/hook0_client.rs:86-88 | an organization creation announces itself as `"api.organization.created"`, which is distinct from the event-type creation's identifier |
| `Hook0Client.EventOrganizationCreated.Labels` | api/src/hook0_client.rs:90-92 | an organization creation carries no label: a subscriber filtering on any key finds nothing |
| `Hook0Client.FromOrganizationCreated` | api/src/hook0_client.rs:95-99 | the record is wrapped, unchanged, in the `OrganizationCreated` variant |
| `Hook0Client.EventEventTypeCreated.EventType` | api/src/hook0_client.rs:113-115 | an event-type creation announces itself as `"api.event_type.created"`, which is distinct from the organization creation's identifier |
| `Hook0Client.EventEventTypeCreated.Labels` | api/src/hook0_client.rs:117-122 | exactly one label, and filtering on `"application_id"` yields the serialised application id of the event |
| `Hook0Client.FromEventTypeCreated` | api/src/hook0_client.rs:125-129 | the record is wrapped, unchanged, in the `EventTypeCreated` variant |
| `Hook0Client.ToEvent` | api/src/hook0_client.rs:45-61 | whatever the event kind: no event id (the delivery client assigns it), content type `"application/json"`, and metadata present with exactly one entry, keyed `"hook0_version"` and holding the serialised crate version; the event type, payload, occurrence time and labels are the values the event kind supplied |
| `Hook0Client.MkHook0Event` | api/src/hook0_client.rs:44-69 | per variant: the event type string, a payload that is the serialisation of the whole record, and the labels (none, or the single `application_id` label); `occurred_at` is `None` for an organization creation but the event's own `created_at` for an event-type creation; the shared fields as in `ToEvent` |
| `Hook0Client.RecoverMkHook0Event` | api/src/hook0_client.rs:49-59 | nothing of the event is lost: given parsers that read back what the serialiser wrote, reading the kind from `event_type` and the record from the payload reconstructs the original event |
| `Hook0Client.EventTypeIdentifiesVariant` | api/src/hook0_client.rs:86-115 | two envelopes have the same `event_type` if and only if their events are of the same variant, so the variant can be recovered from `event_type` |
| `Hook0Client.ApplicationIdLabelFilter` | api/src/hook0_client.rs:90-122 | filtering an envelope's labels on `"application_id"` yields the event's application id for an event-type creation and nothing for an organization creation |
| `Organizations.List` | api/src/handlers/organizations.rs:29-70 | lookups follow the input order, one per pair, and none follows a failed one; the request fails exactly when some lookup fails, with the first failure's error and no partial list; on success there is one record per input pair, in order (so an empty input gives an empty list), with the input's id, the role's text form, and the stored name, or the id's text form when no row exists |

## Left out

- Logging (`info!`, `warn!`, `error!`): it has no functional effect, including the error logged when a name falls back to the id.
- The internals of the Hook0 client library (`Hook0Client::new`, `api_url()`, `application_id()`, `Payload::from_binary`). Construction is an oracle. The payload is the byte sequence given to `from_binary`.
- The JSON encoding itself (`to_vec`, `to_value`) and its `.unwrap()`: serialisation is an uninterpreted total function, taken as infallible for these fixed record shapes.
- async/await, the sqlx query and connection pool, and the actix/paperclip handler attributes and `Json`/`Data` wrappers. The query is the three-valued `lookup`, treated as a function of the id during one request.
- The `AuthProof` internals: the (id, role) pairs are an input sequence, and the role type is a type parameter with its text form supplied.
- `Hook0Problem::from`: its mapping of database errors to API problems is not part of this model, so it is the `intoProblem` parameter.
- The representations of `Uuid` (an integer below 2^128), `DateTime` (nanoseconds since the epoch) and `crate_version!()` (a string parameter).
