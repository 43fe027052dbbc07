/**
 * The outbound notification adapter of the Hook0 API: the optional start-up
 * construction of the Hook0 client, and the conversion of the API's own domain
 * events into the generic event envelope that client sends.
 *
 * The client library and serde_json are foreign code. Their operations are
 * parameters here: `connect` stands for `Hook0Client::new`, and a `Codec`
 * bundles the serialisers (`to_vec`, `to_value`) the builder calls.
 */
module Hook0Client {
  import opened Wrappers
  import opened Primitives

  type Url = string

  /** An instant in UTC, as nanoseconds since the Unix epoch. */
  datatype DateTime = DateTime(nanosSinceEpoch: int)

  /** A `serde_json::Value`. */
  datatype JsonValue =
    | JsonNull
    | JsonBool(b: bool)
    | JsonNumber(n: int)
    | JsonString(s: string)
    | JsonArray(items: seq<JsonValue>)
    | JsonObject(members: seq<(string, JsonValue)>)

  /** A key/value pair of an envelope's metadata or labels. */
  type Label = (string, JsonValue)

  /** The wire identifiers of the two event kinds; downstream consumers rely on them. */
  const OrganizationCreatedType: string := "api.organization.created"
  const EventTypeCreatedType: string := "api.event_type.created"

  const ApplicationIdLabel: string := "application_id"
  const VersionMetadataKey: string := "hook0_version"
  const JsonContentType: string := "application/json"

  // ---------------------------------------------------------------------------
  // Client initialisation
  // ---------------------------------------------------------------------------

  /** All three settings the client needs are present. */
  predicate Configured(apiUrl: Option<Url>, applicationId: Option<Uuid>, applicationSecret: Option<Uuid>)
  {
    apiUrl.Some? && applicationId.Some? && applicationSecret.Some?
  }

  /**
   * Builds the client when it is fully configured. A missing setting is not an
   * error, and neither is a failed construction: both give `None`.
   */
  function Initialize<Client, ClientError>(
    apiUrl: Option<Url>,
    applicationId: Option<Uuid>,
    applicationSecret: Option<Uuid>,
    connect: (Url, Uuid, Uuid) -> Result<Client, ClientError>
  ): (r: Option<Client>)
    ensures !Configured(apiUrl, applicationId, applicationSecret) ==> r == None
    ensures Configured(apiUrl, applicationId, applicationSecret) ==>
      (r.Some? <==> connect(apiUrl.value, applicationId.value, applicationSecret.value).Success?)
    ensures r.Some? ==>
      Configured(apiUrl, applicationId, applicationSecret) &&
      connect(apiUrl.value, applicationId.value, applicationSecret.value) == Success(r.value)
  {
    match (apiUrl, applicationId, applicationSecret)
    case (Some(url), Some(id), Some(secret)) =>
      (match connect(url, id, secret)
       case Success(client) => Some(client)
       case Failure(_) => None)
    case _ => None
  }

  // ---------------------------------------------------------------------------
  // Serialisation, left uninterpreted
  // ---------------------------------------------------------------------------

  /** The serde_json calls the builder makes: `to_vec` on each record kind and `to_value`. */
  datatype Codec = Codec(
    encodeOrganizationCreated: EventOrganizationCreated -> seq<Byte>,
    encodeEventTypeCreated: EventEventTypeCreated -> seq<Byte>,
    uuidToValue: Uuid -> JsonValue,
    strToValue: string -> JsonValue)

  // ---------------------------------------------------------------------------
  // Domain events
  // ---------------------------------------------------------------------------

  /** The value of the first label keyed `key`, as a subscriber filtering on labels reads it. */
  function LabelValue(labels: seq<Label>, key: string): (v: Option<JsonValue>)
    ensures v.Some? <==> exists i :: 0 <= i < |labels| && labels[i].0 == key
    ensures v.Some? ==> exists i :: 0 <= i < |labels| && labels[i] == (key, v.value)
                          && forall j :: 0 <= j < i ==> labels[j].0 != key
  {
    if labels == [] then None
    else if labels[0].0 == key then Some(labels[0].1)
    else LabelValue(labels[1..], key)
  }

  datatype EventOrganizationCreated = EventOrganizationCreated(
    organizationId: Uuid,
    name: string,
    createdAt: DateTime,
    createdBy: Uuid)
  {
    /** The event kind this record announces: never that of an event-type creation. */
    function EventType(): (t: string)
      ensures t == OrganizationCreatedType && t != EventTypeCreatedType
    {
      OrganizationCreatedType
    }

    /** An organization creation carries no label, so a filter on any key finds nothing. */
    function Labels(): (r: seq<Label>)
      ensures forall key :: LabelValue(r, key) == None
    {
      []
    }
  }

  datatype EventEventTypeCreated = EventEventTypeCreated(
    applicationId: Uuid,
    serviceName: string,
    resourceTypeName: string,
    verbName: string,
    eventTypeName: string,
    createdAt: DateTime,
    createdBy: Option<Uuid>)
  {
    /** The event kind this record announces: never that of an organization creation. */
    function EventType(): (t: string)
      ensures t == EventTypeCreatedType && t != OrganizationCreatedType
    {
      EventTypeCreatedType
    }

    /** A single label, through which a subscriber can filter on the application. */
    function Labels(codec: Codec): (r: seq<Label>)
      ensures |r| == 1
      ensures LabelValue(r, ApplicationIdLabel) == Some(codec.uuidToValue(applicationId))
    {
      [(ApplicationIdLabel, codec.uuidToValue(applicationId))]
    }
  }

  /** The closed set of events the API reports about itself. */
  datatype Hook0ClientEvent =
    | OrganizationCreated(organizationCreated: EventOrganizationCreated)
    | EventTypeCreated(eventTypeCreated: EventEventTypeCreated)

  /** `From<EventOrganizationCreated>`: the record becomes its own variant, unchanged. */
  function FromOrganizationCreated(e: EventOrganizationCreated): (r: Hook0ClientEvent)
    ensures r.OrganizationCreated? && r.organizationCreated == e
  {
    OrganizationCreated(e)
  }

  /** `From<EventEventTypeCreated>`: the record becomes its own variant, unchanged. */
  function FromEventTypeCreated(e: EventEventTypeCreated): (r: Hook0ClientEvent)
    ensures r.EventTypeCreated? && r.eventTypeCreated == e
  {
    EventTypeCreated(e)
  }

  // ---------------------------------------------------------------------------
  // The envelope
  // ---------------------------------------------------------------------------

  /** `hook0_client::Event`, the envelope handed to the delivery client. */
  datatype Envelope = Envelope(
    eventId: Option<Uuid>,
    eventType: string,
    payload: seq<Byte>,
    payloadContentType: string,
    metadata: Option<seq<Label>>,
    occurredAt: Option<DateTime>,
    labels: seq<Label>)

  /**
   * Assembles an envelope from what an event kind supplies. Whatever the kind,
   * the id is left to the delivery client, the payload is declared as JSON and
   * the metadata is exactly one entry tagging the emitting version.
   */
  function ToEvent(
    eventType: string,
    payload: seq<Byte>,
    labels: seq<Label>,
    occurredAt: Option<DateTime>,
    codec: Codec,
    version: string
  ): (r: Envelope)
    ensures r.eventId == None
    ensures r.payloadContentType == JsonContentType
    ensures r.metadata.Some? && |r.metadata.value| == 1
    ensures r.eventType == eventType && r.payload == payload
    ensures r.occurredAt == occurredAt && r.labels == labels
    ensures LabelValue(r.metadata.value, VersionMetadataKey) == Some(codec.strToValue(version))
  {
    Envelope(
      None,
      eventType,
      payload,
      JsonContentType,
      Some([(VersionMetadataKey, codec.strToValue(version))]),
      occurredAt,
      labels)
  }

  /**
   * Converts a domain event into its envelope. Only an event-type creation
   * states when it occurred; an organization creation leaves it to the
   * delivery client.
   */
  function MkHook0Event(event: Hook0ClientEvent, codec: Codec, version: string): (r: Envelope)
    ensures r.eventId == None
    ensures r.payloadContentType == JsonContentType
    ensures r.metadata == Some([(VersionMetadataKey, codec.strToValue(version))])
    ensures event.OrganizationCreated? ==>
      && r.eventType == "api.organization.created"
      && r.payload == codec.encodeOrganizationCreated(event.organizationCreated)
      && r.occurredAt == None
      && r.labels == []
    ensures event.EventTypeCreated? ==>
      && r.eventType == "api.event_type.created"
      && r.payload == codec.encodeEventTypeCreated(event.eventTypeCreated)
      && r.occurredAt == Some(event.eventTypeCreated.createdAt)
      && r.labels == [("application_id", codec.uuidToValue(event.eventTypeCreated.applicationId))]
  {
    match event
    case OrganizationCreated(e) =>
      ToEvent(e.EventType(), codec.encodeOrganizationCreated(e), e.Labels(), None, codec, version)
    case EventTypeCreated(e) =>
      ToEvent(e.EventType(), codec.encodeEventTypeCreated(e), e.Labels(codec), Some(e.createdAt), codec, version)
  }

  // ---------------------------------------------------------------------------
  // Reading an envelope back
  // ---------------------------------------------------------------------------

  /** Parsers for the two payload shapes, as a consumer of the envelopes would hold them. */
  datatype Decoder = Decoder(
    decodeOrganizationCreated: seq<Byte> -> Option<EventOrganizationCreated>,
    decodeEventTypeCreated: seq<Byte> -> Option<EventEventTypeCreated>)

  /** Each parser reads back exactly the record the serialiser wrote. */
  ghost predicate Inverts(codec: Codec, decoder: Decoder)
  {
    && (forall e :: decoder.decodeOrganizationCreated(codec.encodeOrganizationCreated(e)) == Some(e))
    && (forall e :: decoder.decodeEventTypeCreated(codec.encodeEventTypeCreated(e)) == Some(e))
  }

  /** What a consumer reconstructs: the kind from `event_type`, the record from the payload. */
  function Recover(envelope: Envelope, decoder: Decoder): Option<Hook0ClientEvent>
  {
    if envelope.eventType == OrganizationCreatedType then
      match decoder.decodeOrganizationCreated(envelope.payload)
      case Some(e) => Some(FromOrganizationCreated(e))
      case None => None
    else if envelope.eventType == EventTypeCreatedType then
      match decoder.decodeEventTypeCreated(envelope.payload)
      case Some(e) => Some(FromEventTypeCreated(e))
      case None => None
    else None
  }

  /**
   * The envelope loses nothing of the event: its kind is read off `event_type`
   * and the whole record off the payload, given a serialiser that can be parsed back.
   */
  lemma RecoverMkHook0Event(event: Hook0ClientEvent, codec: Codec, version: string, decoder: Decoder)
    requires Inverts(codec, decoder)
    ensures Recover(MkHook0Event(event, codec, version), decoder) == Some(event)
  {
  }

  /** Two events get the same `event_type` exactly when they are of the same kind. */
  lemma EventTypeIdentifiesVariant(a: Hook0ClientEvent, b: Hook0ClientEvent, codec: Codec, version: string)
    ensures MkHook0Event(a, codec, version).eventType == MkHook0Event(b, codec, version).eventType
        <==> (a.OrganizationCreated? <==> b.OrganizationCreated?)
  {
  }

  /** A subscriber filtering on `application_id` finds the application of an event-type creation, and nothing for an organization creation. */
  lemma ApplicationIdLabelFilter(event: Hook0ClientEvent, codec: Codec, version: string)
    ensures LabelValue(MkHook0Event(event, codec, version).labels, ApplicationIdLabel)
         == if event.EventTypeCreated? then Some(codec.uuidToValue(event.eventTypeCreated.applicationId)) else None
  {
  }
}
