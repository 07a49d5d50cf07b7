/** The launch queue: the records of a /v2/queue response with their Go JSON
    tags (omitempty fields are dropped when empty), the queue fetch, and the
    reset of an application's launch delay.

    For each record there is a decoder, an encoder, a predicate `...Doc` on
    JSON documents that holds exactly of the documents that survive a decode
    followed by an encode (the `...DocExactly` lemmas), and the two round
    trips. */
module Queues {
  import opened Wrappers
  import opened GoJson
  import opened Client

  datatype Queue = Queue(items: Slice<Item>)

  /** One pending launch, tied to an application or a pod. */
  datatype Item = Item(
    count: GoInt,                                            // omitempty
    delay: Option<Delay>,                                    // omitempty
    since: Time,
    application: Option<Opaque>,                             // "app", omitempty
    pod: Option<Opaque>,                                     // omitempty
    processedOffersSummary: Option<ProcessedOffersSummary>,  // omitempty
    lastUnusedOffers: Slice<LastUnusedOffers>)               // omitempty

  datatype Delay = Delay(timeLeftSeconds: GoInt, overdue: bool)

  datatype ProcessedOffersSummary = ProcessedOffersSummary(
    processedOffersCount: GoInt,
    unusedOffersCount: GoInt,
    lastUnusedOfferAt: Option<Time>,                 // omitempty
    lastUsedOfferAt: Option<Time>,                   // omitempty
    rejectSummaryLastOffers: Slice<RejectSummary>,   // omitempty
    rejectSummaryLaunchAttempt: Slice<RejectSummary>) // omitempty

  datatype LastUnusedOffers = LastUnusedOffers(offer: Offer, timestamp: Time, reason: Slice<string>)

  datatype Offer = Offer(
    id: string,
    agentId: string,
    hostname: string,
    resources: Slice<OfferResources>,
    attributes: Slice<Attributes>)

  /** An offered resource; `setItems` is the JSON field "set". */
  datatype OfferResources = OfferResources(
    name: string,
    scalar: GoInt,
    ranges: Slice<Range>,
    setItems: Slice<string>,
    role: string)

  datatype Attributes = Attributes(name: string, scalar: GoInt, ranges: Slice<Range>, setItems: Slice<string>)

  datatype Range = Range(begin: GoInt, end: GoInt)

  /** How often offers were declined for one reason. */
  datatype RejectSummary = RejectSummary(reason: string, declined: GoInt, processed: GoInt)

  // ---------------------------------------------------------------------------
  // Range

  /** null and an object without any of the record's keys decode to the zero
      value; anything but an object or null is a type mismatch. An object
      decodes exactly when each tagged key fits its field, and then each field
      receives its key's value (unknown keys are ignored). */
  function DecodeRange(j: Json): (r: Result<Range, DecodeError>)
    ensures j.JNull? ==> r == Ok(Range(0, 0))
    ensures j.JObj? && j.fields.Keys !! {"begin", "end"} ==> r == Ok(Range(0, 0))
    ensures !j.JNull? && !j.JObj? ==> r == Err(TypeMismatch(KindOf(j), "Range"))
    ensures j.JObj? ==> (r.Ok? <==>
      && FieldFits(j.fields, "begin", DecodeInt)
      && FieldFits(j.fields, "end", DecodeInt))
    ensures j.JObj? && r.Ok? ==>
      && FieldGets(j.fields, "begin", DecodeInt, 0, r.value.begin)
      && FieldGets(j.fields, "end", DecodeInt, 0, r.value.end)
  {
    match j
    case JNull => Ok(Range(0, 0))
    case JObj(m) =>
      var begin :- Field(m, "begin", DecodeInt, 0);
      var end :- Field(m, "end", DecodeInt, 0);
      Ok(Range(begin, end))
    case _ => Err(TypeMismatch(KindOf(j), "Range"))
  }

  /** Every field is written under its tag; none is omitempty. */
  function EncodeRange(r: Range): (j: Json)
    ensures j.JObj? && j.fields.Keys == {"begin", "end"}
  {
    JObj(map["begin" := EncodeInt(r.begin), "end" := EncodeInt(r.end)])
  }

  predicate RangeDoc(j: Json) {
    && j.JObj?
    && j.fields.Keys == {"begin", "end"}
    && IntDoc(j.fields["begin"]) && IntDoc(j.fields["end"])
  }

  lemma RangeDocsRoundTrip()
    ensures DocsRoundTrip(RangeDoc, DecodeRange, EncodeRange)
  {
  }

  function DecodeRanges(j: Json): Result<Slice<Range>, DecodeError> {
    DecodeSlice(j, DecodeRange)
  }

  // ---------------------------------------------------------------------------
  // Attributes and OfferResources

  /** null and an object without any of the record's keys decode to the zero
      value; anything but an object or null is a type mismatch. An object
      decodes exactly when each tagged key fits its field, and then each field
      receives its key's value (unknown keys are ignored). */
  function DecodeAttributes(j: Json): (r: Result<Attributes, DecodeError>)
    ensures j.JNull? ==> r == Ok(Attributes("", 0, Nil, Nil))
    ensures j.JObj? && j.fields.Keys !! {"name", "scalar", "ranges", "set"} ==> r == Ok(Attributes("", 0, Nil, Nil))
    ensures !j.JNull? && !j.JObj? ==> r == Err(TypeMismatch(KindOf(j), "Attributes"))
    ensures j.JObj? ==> (r.Ok? <==>
      && FieldFits(j.fields, "name", DecodeString)
      && FieldFits(j.fields, "scalar", DecodeInt)
      && FieldFits(j.fields, "ranges", DecodeRanges)
      && FieldFits(j.fields, "set", DecodeStrings))
    ensures j.JObj? && r.Ok? ==>
      && FieldGets(j.fields, "name", DecodeString, "", r.value.name)
      && FieldGets(j.fields, "scalar", DecodeInt, 0, r.value.scalar)
      && FieldGets(j.fields, "ranges", DecodeRanges, Nil, r.value.ranges)
      && FieldGets(j.fields, "set", DecodeStrings, Nil, r.value.setItems)
  {
    match j
    case JNull => Ok(Attributes("", 0, Nil, Nil))
    case JObj(m) =>
      var name :- Field(m, "name", DecodeString, "");
      var scalar :- Field(m, "scalar", DecodeInt, 0);
      var ranges :- Field(m, "ranges", DecodeRanges, Nil);
      var setItems :- Field(m, "set", DecodeStrings, Nil);
      Ok(Attributes(name, scalar, ranges, setItems))
    case _ => Err(TypeMismatch(KindOf(j), "Attributes"))
  }

  /** Every field is written under its tag; none is omitempty. */
  function EncodeAttributes(a: Attributes): (j: Json)
    ensures j.JObj? && j.fields.Keys == {"name", "scalar", "ranges", "set"}
  {
    JObj(map[
      "name" := EncodeString(a.name),
      "scalar" := EncodeInt(a.scalar),
      "ranges" := EncodeSlice(a.ranges, EncodeRange),
      "set" := EncodeSlice(a.setItems, EncodeString)])
  }

  predicate AttributesDoc(j: Json) {
    && j.JObj?
    && j.fields.Keys == {"name", "scalar", "ranges", "set"}
    && j.fields["name"].JStr?
    && IntDoc(j.fields["scalar"])
    && SliceDoc(j.fields["ranges"], RangeDoc)
    && SliceDoc(j.fields["set"], StringDoc)
  }

  lemma AttributesDocRoundTrip(j: Json)
    requires AttributesDoc(j)
    ensures DecodeAttributes(j).Ok? && EncodeAttributes(DecodeAttributes(j).value) == j
  {
    RangeDocsRoundTrip();
    StringDocsRoundTrip();
    SliceDocRoundTrip(j.fields["ranges"], RangeDoc, DecodeRange, EncodeRange);
    SliceDocRoundTrip(j.fields["set"], StringDoc, DecodeString, EncodeString);
  }

  lemma AttributesDocsRoundTrip()
    ensures DocsRoundTrip(AttributesDoc, DecodeAttributes, EncodeAttributes)
  {
    forall j | AttributesDoc(j)
      ensures DecodeAttributes(j).Ok? && EncodeAttributes(DecodeAttributes(j).value) == j
    {
      AttributesDocRoundTrip(j);
    }
  }

  /** null and an object without any of the record's keys decode to the zero
      value; anything but an object or null is a type mismatch. An object
      decodes exactly when each tagged key fits its field, and then each field
      receives its key's value (unknown keys are ignored). */
  function DecodeOfferResources(j: Json): (r: Result<OfferResources, DecodeError>)
    ensures j.JNull? ==> r == Ok(OfferResources("", 0, Nil, Nil, ""))
    ensures j.JObj? && j.fields.Keys !! {"name", "scalar", "ranges", "set", "role"} ==> r == Ok(OfferResources("", 0, Nil, Nil, ""))
    ensures !j.JNull? && !j.JObj? ==> r == Err(TypeMismatch(KindOf(j), "OfferResources"))
    ensures j.JObj? ==> (r.Ok? <==>
      && FieldFits(j.fields, "name", DecodeString)
      && FieldFits(j.fields, "scalar", DecodeInt)
      && FieldFits(j.fields, "ranges", DecodeRanges)
      && FieldFits(j.fields, "set", DecodeStrings)
      && FieldFits(j.fields, "role", DecodeString))
    ensures j.JObj? && r.Ok? ==>
      && FieldGets(j.fields, "name", DecodeString, "", r.value.name)
      && FieldGets(j.fields, "scalar", DecodeInt, 0, r.value.scalar)
      && FieldGets(j.fields, "ranges", DecodeRanges, Nil, r.value.ranges)
      && FieldGets(j.fields, "set", DecodeStrings, Nil, r.value.setItems)
      && FieldGets(j.fields, "role", DecodeString, "", r.value.role)
  {
    match j
    case JNull => Ok(OfferResources("", 0, Nil, Nil, ""))
    case JObj(m) =>
      var name :- Field(m, "name", DecodeString, "");
      var scalar :- Field(m, "scalar", DecodeInt, 0);
      var ranges :- Field(m, "ranges", DecodeRanges, Nil);
      var setItems :- Field(m, "set", DecodeStrings, Nil);
      var role :- Field(m, "role", DecodeString, "");
      Ok(OfferResources(name, scalar, ranges, setItems, role))
    case _ => Err(TypeMismatch(KindOf(j), "OfferResources"))
  }

  /** Every field is written under its tag; none is omitempty. */
  function EncodeOfferResources(r: OfferResources): (j: Json)
    ensures j.JObj? && j.fields.Keys == {"name", "scalar", "ranges", "set", "role"}
  {
    JObj(map[
      "name" := EncodeString(r.name),
      "scalar" := EncodeInt(r.scalar),
      "ranges" := EncodeSlice(r.ranges, EncodeRange),
      "set" := EncodeSlice(r.setItems, EncodeString),
      "role" := EncodeString(r.role)])
  }

  predicate OfferResourcesDoc(j: Json) {
    && j.JObj?
    && j.fields.Keys == {"name", "scalar", "ranges", "set", "role"}
    && j.fields["name"].JStr?
    && IntDoc(j.fields["scalar"])
    && SliceDoc(j.fields["ranges"], RangeDoc)
    && SliceDoc(j.fields["set"], StringDoc)
    && j.fields["role"].JStr?
  }

  lemma OfferResourcesDocRoundTrip(j: Json)
    requires OfferResourcesDoc(j)
    ensures DecodeOfferResources(j).Ok? && EncodeOfferResources(DecodeOfferResources(j).value) == j
  {
    RangeDocsRoundTrip();
    StringDocsRoundTrip();
    SliceDocRoundTrip(j.fields["ranges"], RangeDoc, DecodeRange, EncodeRange);
    SliceDocRoundTrip(j.fields["set"], StringDoc, DecodeString, EncodeString);
  }

  lemma OfferResourcesDocsRoundTrip()
    ensures DocsRoundTrip(OfferResourcesDoc, DecodeOfferResources, EncodeOfferResources)
  {
    forall j | OfferResourcesDoc(j)
      ensures DecodeOfferResources(j).Ok? && EncodeOfferResources(DecodeOfferResources(j).value) == j
    {
      OfferResourcesDocRoundTrip(j);
    }
  }

  // ---------------------------------------------------------------------------
  // Offer and LastUnusedOffers

  function DecodeResourcesList(j: Json): Result<Slice<OfferResources>, DecodeError> {
    DecodeSlice(j, DecodeOfferResources)
  }

  function DecodeAttributesList(j: Json): Result<Slice<Attributes>, DecodeError> {
    DecodeSlice(j, DecodeAttributes)
  }

  /** null and an object without any of the record's keys decode to the zero
      value; anything but an object or null is a type mismatch. An object
      decodes exactly when each tagged key fits its field, and then each field
      receives its key's value (unknown keys are ignored). */
  function DecodeOffer(j: Json): (r: Result<Offer, DecodeError>)
    ensures j.JNull? ==> r == Ok(Offer("", "", "", Nil, Nil))
    ensures j.JObj? && j.fields.Keys !! {"id", "agentId", "hostname", "resources", "attributes"} ==> r == Ok(Offer("", "", "", Nil, Nil))
    ensures !j.JNull? && !j.JObj? ==> r == Err(TypeMismatch(KindOf(j), "Offer"))
    ensures j.JObj? ==> (r.Ok? <==>
      && FieldFits(j.fields, "id", DecodeString)
      && FieldFits(j.fields, "agentId", DecodeString)
      && FieldFits(j.fields, "hostname", DecodeString)
      && FieldFits(j.fields, "resources", DecodeResourcesList)
      && FieldFits(j.fields, "attributes", DecodeAttributesList))
    ensures j.JObj? && r.Ok? ==>
      && FieldGets(j.fields, "id", DecodeString, "", r.value.id)
      && FieldGets(j.fields, "agentId", DecodeString, "", r.value.agentId)
      && FieldGets(j.fields, "hostname", DecodeString, "", r.value.hostname)
      && FieldGets(j.fields, "resources", DecodeResourcesList, Nil, r.value.resources)
      && FieldGets(j.fields, "attributes", DecodeAttributesList, Nil, r.value.attributes)
  {
    match j
    case JNull => Ok(Offer("", "", "", Nil, Nil))
    case JObj(m) =>
      var id :- Field(m, "id", DecodeString, "");
      var agentId :- Field(m, "agentId", DecodeString, "");
      var hostname :- Field(m, "hostname", DecodeString, "");
      var resources :- Field(m, "resources", DecodeResourcesList, Nil);
      var attributes :- Field(m, "attributes", DecodeAttributesList, Nil);
      Ok(Offer(id, agentId, hostname, resources, attributes))
    case _ => Err(TypeMismatch(KindOf(j), "Offer"))
  }

  /** Every field is written under its tag; none is omitempty. */
  function EncodeOffer(o: Offer): (j: Json)
    ensures j.JObj? && j.fields.Keys == {"id", "agentId", "hostname", "resources", "attributes"}
  {
    JObj(map[
      "id" := EncodeString(o.id),
      "agentId" := EncodeString(o.agentId),
      "hostname" := EncodeString(o.hostname),
      "resources" := EncodeSlice(o.resources, EncodeOfferResources),
      "attributes" := EncodeSlice(o.attributes, EncodeAttributes)])
  }

  predicate OfferDoc(j: Json) {
    && j.JObj?
    && j.fields.Keys == {"id", "agentId", "hostname", "resources", "attributes"}
    && j.fields["id"].JStr? && j.fields["agentId"].JStr? && j.fields["hostname"].JStr?
    && SliceDoc(j.fields["resources"], OfferResourcesDoc)
    && SliceDoc(j.fields["attributes"], AttributesDoc)
  }

  lemma OfferDocRoundTrip(j: Json)
    requires OfferDoc(j)
    ensures DecodeOffer(j).Ok? && EncodeOffer(DecodeOffer(j).value) == j
  {
    OfferResourcesDocsRoundTrip();
    AttributesDocsRoundTrip();
    SliceDocRoundTrip(j.fields["resources"], OfferResourcesDoc, DecodeOfferResources, EncodeOfferResources);
    SliceDocRoundTrip(j.fields["attributes"], AttributesDoc, DecodeAttributes, EncodeAttributes);
  }

  /** null and an object without any of the record's keys decode to the zero
      value; anything but an object or null is a type mismatch. An object
      decodes exactly when each tagged key fits its field, and then each field
      receives its key's value (unknown keys are ignored). */
  function DecodeLastUnusedOffers(j: Json): (r: Result<LastUnusedOffers, DecodeError>)
    ensures j.JNull? ==> r == Ok(LastUnusedOffers(Offer("", "", "", Nil, Nil), ZeroTime, Nil))
    ensures j.JObj? && j.fields.Keys !! {"offer", "timestamp", "reason"} ==> r == Ok(LastUnusedOffers(Offer("", "", "", Nil, Nil), ZeroTime, Nil))
    ensures !j.JNull? && !j.JObj? ==> r == Err(TypeMismatch(KindOf(j), "LastUnusedOffers"))
    ensures j.JObj? ==> (r.Ok? <==>
      && FieldFits(j.fields, "offer", DecodeOffer)
      && FieldFits(j.fields, "timestamp", DecodeTime)
      && FieldFits(j.fields, "reason", DecodeStrings))
    ensures j.JObj? && r.Ok? ==>
      && FieldGets(j.fields, "offer", DecodeOffer, Offer("", "", "", Nil, Nil), r.value.offer)
      && FieldGets(j.fields, "timestamp", DecodeTime, ZeroTime, r.value.timestamp)
      && FieldGets(j.fields, "reason", DecodeStrings, Nil, r.value.reason)
  {
    match j
    case JNull => Ok(LastUnusedOffers(Offer("", "", "", Nil, Nil), ZeroTime, Nil))
    case JObj(m) =>
      var offer :- Field(m, "offer", DecodeOffer, Offer("", "", "", Nil, Nil));
      var timestamp :- Field(m, "timestamp", DecodeTime, ZeroTime);
      var reason :- Field(m, "reason", DecodeStrings, Nil);
      Ok(LastUnusedOffers(offer, timestamp, reason))
    case _ => Err(TypeMismatch(KindOf(j), "LastUnusedOffers"))
  }

  /** Every field is written under its tag; none is omitempty. */
  function EncodeLastUnusedOffers(u: LastUnusedOffers): (j: Json)
    ensures j.JObj? && j.fields.Keys == {"offer", "timestamp", "reason"}
  {
    JObj(map[
      "offer" := EncodeOffer(u.offer),
      "timestamp" := EncodeTime(u.timestamp),
      "reason" := EncodeSlice(u.reason, EncodeString)])
  }

  predicate LastUnusedOffersDoc(j: Json) {
    && j.JObj?
    && j.fields.Keys == {"offer", "timestamp", "reason"}
    && OfferDoc(j.fields["offer"])
    && j.fields["timestamp"].JStr?
    && SliceDoc(j.fields["reason"], StringDoc)
  }

  lemma LastUnusedOffersDocRoundTrip(j: Json)
    requires LastUnusedOffersDoc(j)
    ensures DecodeLastUnusedOffers(j).Ok? && EncodeLastUnusedOffers(DecodeLastUnusedOffers(j).value) == j
  {
    OfferDocRoundTrip(j.fields["offer"]);
    StringDocsRoundTrip();
    SliceDocRoundTrip(j.fields["reason"], StringDoc, DecodeString, EncodeString);
  }

  lemma LastUnusedOffersDocsRoundTrip()
    ensures DocsRoundTrip(LastUnusedOffersDoc, DecodeLastUnusedOffers, EncodeLastUnusedOffers)
  {
    forall j | LastUnusedOffersDoc(j)
      ensures DecodeLastUnusedOffers(j).Ok? && EncodeLastUnusedOffers(DecodeLastUnusedOffers(j).value) == j
    {
      LastUnusedOffersDocRoundTrip(j);
    }
  }

  // ---------------------------------------------------------------------------
  // Delay and RejectSummary

  /** null and an object without any of the record's keys decode to the zero
      value; anything but an object or null is a type mismatch. An object
      decodes exactly when each tagged key fits its field, and then each field
      receives its key's value (unknown keys are ignored). */
  function DecodeDelay(j: Json): (r: Result<Delay, DecodeError>)
    ensures j.JNull? ==> r == Ok(Delay(0, false))
    ensures j.JObj? && j.fields.Keys !! {"timeLeftSeconds", "overdue"} ==> r == Ok(Delay(0, false))
    ensures !j.JNull? && !j.JObj? ==> r == Err(TypeMismatch(KindOf(j), "Delay"))
    ensures j.JObj? ==> (r.Ok? <==>
      && FieldFits(j.fields, "timeLeftSeconds", DecodeInt)
      && FieldFits(j.fields, "overdue", DecodeBool))
    ensures j.JObj? && r.Ok? ==>
      && FieldGets(j.fields, "timeLeftSeconds", DecodeInt, 0, r.value.timeLeftSeconds)
      && FieldGets(j.fields, "overdue", DecodeBool, false, r.value.overdue)
  {
    match j
    case JNull => Ok(Delay(0, false))
    case JObj(m) =>
      var timeLeftSeconds :- Field(m, "timeLeftSeconds", DecodeInt, 0);
      var overdue :- Field(m, "overdue", DecodeBool, false);
      Ok(Delay(timeLeftSeconds, overdue))
    case _ => Err(TypeMismatch(KindOf(j), "Delay"))
  }

  /** Every field is written under its tag; none is omitempty. */
  function EncodeDelay(d: Delay): (j: Json)
    ensures j.JObj? && j.fields.Keys == {"timeLeftSeconds", "overdue"}
  {
    JObj(map["timeLeftSeconds" := EncodeInt(d.timeLeftSeconds), "overdue" := EncodeBool(d.overdue)])
  }

  predicate DelayDoc(j: Json) {
    && j.JObj?
    && j.fields.Keys == {"timeLeftSeconds", "overdue"}
    && IntDoc(j.fields["timeLeftSeconds"])
    && j.fields["overdue"].JBool?
  }

  /** null and an object without any of the record's keys decode to the zero
      value; anything but an object or null is a type mismatch. An object
      decodes exactly when each tagged key fits its field, and then each field
      receives its key's value (unknown keys are ignored). */
  function DecodeRejectSummary(j: Json): (r: Result<RejectSummary, DecodeError>)
    ensures j.JNull? ==> r == Ok(RejectSummary("", 0, 0))
    ensures j.JObj? && j.fields.Keys !! {"reason", "declined", "processed"} ==> r == Ok(RejectSummary("", 0, 0))
    ensures !j.JNull? && !j.JObj? ==> r == Err(TypeMismatch(KindOf(j), "RejectSummary"))
    ensures j.JObj? ==> (r.Ok? <==>
      && FieldFits(j.fields, "reason", DecodeString)
      && FieldFits(j.fields, "declined", DecodeInt)
      && FieldFits(j.fields, "processed", DecodeInt))
    ensures j.JObj? && r.Ok? ==>
      && FieldGets(j.fields, "reason", DecodeString, "", r.value.reason)
      && FieldGets(j.fields, "declined", DecodeInt, 0, r.value.declined)
      && FieldGets(j.fields, "processed", DecodeInt, 0, r.value.processed)
  {
    match j
    case JNull => Ok(RejectSummary("", 0, 0))
    case JObj(m) =>
      var reason :- Field(m, "reason", DecodeString, "");
      var declined :- Field(m, "declined", DecodeInt, 0);
      var processed :- Field(m, "processed", DecodeInt, 0);
      Ok(RejectSummary(reason, declined, processed))
    case _ => Err(TypeMismatch(KindOf(j), "RejectSummary"))
  }

  /** Every field is written under its tag; none is omitempty. */
  function EncodeRejectSummary(s: RejectSummary): (j: Json)
    ensures j.JObj? && j.fields.Keys == {"reason", "declined", "processed"}
  {
    JObj(map[
      "reason" := EncodeString(s.reason),
      "declined" := EncodeInt(s.declined),
      "processed" := EncodeInt(s.processed)])
  }

  predicate RejectSummaryDoc(j: Json) {
    && j.JObj?
    && j.fields.Keys == {"reason", "declined", "processed"}
    && j.fields["reason"].JStr?
    && IntDoc(j.fields["declined"]) && IntDoc(j.fields["processed"])
  }

  lemma RejectSummaryRoundTrip(r: RejectSummary)
    ensures DecodeRejectSummary(EncodeRejectSummary(r)) == Ok(r)
  {
    var m := EncodeRejectSummary(r).fields;
    assert Field(m, "reason", DecodeString, "") == Ok(r.reason);
    assert Field(m, "declined", DecodeInt, 0) == Ok(r.declined);
    assert Field(m, "processed", DecodeInt, 0) == Ok(r.processed);
  }

  lemma RejectSummaryDocsRoundTrip()
    ensures DocsRoundTrip(RejectSummaryDoc, DecodeRejectSummary, EncodeRejectSummary)
  {
  }

  // ---------------------------------------------------------------------------
  // ProcessedOffersSummary

  function DecodeTimePtr(j: Json): Result<Option<Time>, DecodeError> {
    DecodePtr(j, DecodeTime)
  }

  function DecodeRejectSummaries(j: Json): Result<Slice<RejectSummary>, DecodeError> {
    DecodeSlice(j, DecodeRejectSummary)
  }

  /** null and an object without any of the summary's keys decode to the zero
      summary; anything but an object or null is a type mismatch. An object
      decodes exactly when each tagged key fits its field, and then each field
      receives its key's value (unknown keys are ignored). */
  function DecodeSummary(j: Json): (r: Result<ProcessedOffersSummary, DecodeError>)
    ensures j.JNull? ==> r == Ok(ProcessedOffersSummary(0, 0, None, None, Nil, Nil))
    ensures j.JObj? && j.fields.Keys !! SummaryKeys ==> r == Ok(ProcessedOffersSummary(0, 0, None, None, Nil, Nil))
    ensures !j.JNull? && !j.JObj? ==> r == Err(TypeMismatch(KindOf(j), "ProcessedOffersSummary"))
    ensures j.JObj? ==> (r.Ok? <==>
      && FieldFits(j.fields, "processedOffersCount", DecodeInt)
      && FieldFits(j.fields, "unusedOffersCount", DecodeInt)
      && FieldFits(j.fields, "lastUnusedOfferAt", DecodeTimePtr)
      && FieldFits(j.fields, "lastUsedOfferAt", DecodeTimePtr)
      && FieldFits(j.fields, "rejectSummaryLastOffers", DecodeRejectSummaries)
      && FieldFits(j.fields, "rejectSummaryLaunchAttempt", DecodeRejectSummaries))
    ensures j.JObj? && r.Ok? ==>
      && FieldGets(j.fields, "processedOffersCount", DecodeInt, 0, r.value.processedOffersCount)
      && FieldGets(j.fields, "unusedOffersCount", DecodeInt, 0, r.value.unusedOffersCount)
      && FieldGets(j.fields, "lastUnusedOfferAt", DecodeTimePtr, None, r.value.lastUnusedOfferAt)
      && FieldGets(j.fields, "lastUsedOfferAt", DecodeTimePtr, None, r.value.lastUsedOfferAt)
      && FieldGets(j.fields, "rejectSummaryLastOffers", DecodeRejectSummaries, Nil, r.value.rejectSummaryLastOffers)
      && FieldGets(j.fields, "rejectSummaryLaunchAttempt", DecodeRejectSummaries, Nil, r.value.rejectSummaryLaunchAttempt)
  {
    match j
    case JNull => Ok(ProcessedOffersSummary(0, 0, None, None, Nil, Nil))
    case JObj(m) =>
      var processedOffersCount :- Field(m, "processedOffersCount", DecodeInt, 0);
      var unusedOffersCount :- Field(m, "unusedOffersCount", DecodeInt, 0);
      var lastUnusedOfferAt :- Field(m, "lastUnusedOfferAt", DecodeTimePtr, None);
      var lastUsedOfferAt :- Field(m, "lastUsedOfferAt", DecodeTimePtr, None);
      var lastOffers :- Field(m, "rejectSummaryLastOffers", DecodeRejectSummaries, Nil);
      var launchAttempt :- Field(m, "rejectSummaryLaunchAttempt", DecodeRejectSummaries, Nil);
      Ok(ProcessedOffersSummary(processedOffersCount, unusedOffersCount,
                                lastUnusedOfferAt, lastUsedOfferAt, lastOffers, launchAttempt))
    case _ => Err(TypeMismatch(KindOf(j), "ProcessedOffersSummary"))
  }

  /** Whether the encoder writes the field under `key`: the two counts always;
      the timestamps only when set and the reject lists only when non-empty. */
  predicate SummaryWrites(s: ProcessedOffersSummary, key: string) {
    if key == "processedOffersCount" || key == "unusedOffersCount" then true
    else if key == "lastUnusedOfferAt" then s.lastUnusedOfferAt.Some?
    else if key == "lastUsedOfferAt" then s.lastUsedOfferAt.Some?
    else if key == "rejectSummaryLastOffers" then s.rejectSummaryLastOffers.Len() > 0
    else if key == "rejectSummaryLaunchAttempt" then s.rejectSummaryLaunchAttempt.Len() > 0
    else false
  }

  /** The JSON the encoder writes under `key`, for a key it writes. */
  function SummaryValue(s: ProcessedOffersSummary, key: string): Json
    requires SummaryWrites(s, key)
  {
    if key == "processedOffersCount" then EncodeInt(s.processedOffersCount)
    else if key == "unusedOffersCount" then EncodeInt(s.unusedOffersCount)
    else if key == "lastUnusedOfferAt" then EncodeTime(s.lastUnusedOfferAt.value)
    else if key == "lastUsedOfferAt" then EncodeTime(s.lastUsedOfferAt.value)
    else if key == "rejectSummaryLastOffers" then EncodeSlice(s.rejectSummaryLastOffers, EncodeRejectSummary)
    else EncodeSlice(s.rejectSummaryLaunchAttempt, EncodeRejectSummary)
  }

  function EncodeSummary(s: ProcessedOffersSummary): (r: Json)
    ensures r.JObj?
    ensures "processedOffersCount" in r.fields && "unusedOffersCount" in r.fields
    ensures "lastUnusedOfferAt" in r.fields <==> s.lastUnusedOfferAt.Some?
    ensures "lastUsedOfferAt" in r.fields <==> s.lastUsedOfferAt.Some?
    ensures "rejectSummaryLastOffers" in r.fields <==> s.rejectSummaryLastOffers.Len() > 0
    ensures "rejectSummaryLaunchAttempt" in r.fields <==> s.rejectSummaryLaunchAttempt.Len() > 0
    ensures r.fields.Keys <= SummaryKeys
  {
    JObj(map key | key in SummaryKeys && SummaryWrites(s, key) :: SummaryValue(s, key))
  }

  const SummaryKeys: set<string> := {
    "processedOffersCount", "unusedOffersCount", "lastUnusedOfferAt", "lastUsedOfferAt",
    "rejectSummaryLastOffers", "rejectSummaryLaunchAttempt"}

  /** A summary the encoder gives back unchanged after decoding: no reject
      list is empty but non-nil (omitempty would drop it and decoding would
      bring it back as nil). */
  predicate SummaryLossless(s: ProcessedOffersSummary) {
    && (s.rejectSummaryLastOffers.Nil? || s.rejectSummaryLastOffers.Len() > 0)
    && (s.rejectSummaryLaunchAttempt.Nil? || s.rejectSummaryLaunchAttempt.Len() > 0)
  }

  predicate SummaryDoc(j: Json) {
    && j.JObj?
    && {"processedOffersCount", "unusedOffersCount"} <= j.fields.Keys <= SummaryKeys
    && IntDoc(j.fields["processedOffersCount"])
    && IntDoc(j.fields["unusedOffersCount"])
    && ("lastUnusedOfferAt" in j.fields ==> j.fields["lastUnusedOfferAt"].JStr?)
    && ("lastUsedOfferAt" in j.fields ==> j.fields["lastUsedOfferAt"].JStr?)
    && ("rejectSummaryLastOffers" in j.fields ==>
          NonEmptySliceDoc(j.fields["rejectSummaryLastOffers"], RejectSummaryDoc))
    && ("rejectSummaryLaunchAttempt" in j.fields ==>
          NonEmptySliceDoc(j.fields["rejectSummaryLaunchAttempt"], RejectSummaryDoc))
  }

  /** What the encoder writes under each key it writes. */
  lemma EncodeSummaryAt(s: ProcessedOffersSummary)
    ensures var m := EncodeSummary(s).fields;
      && m["processedOffersCount"] == EncodeInt(s.processedOffersCount)
      && m["unusedOffersCount"] == EncodeInt(s.unusedOffersCount)
      && ("lastUnusedOfferAt" in m ==> m["lastUnusedOfferAt"] == EncodeTime(s.lastUnusedOfferAt.value))
      && ("lastUsedOfferAt" in m ==> m["lastUsedOfferAt"] == EncodeTime(s.lastUsedOfferAt.value))
      && ("rejectSummaryLastOffers" in m ==>
            m["rejectSummaryLastOffers"] == EncodeSlice(s.rejectSummaryLastOffers, EncodeRejectSummary))
      && ("rejectSummaryLaunchAttempt" in m ==>
            m["rejectSummaryLaunchAttempt"] == EncodeSlice(s.rejectSummaryLaunchAttempt, EncodeRejectSummary))
  {
  }

  /** A reject list as the summary's encoding gives it back: nil when it was
      empty, itself otherwise. */
  lemma RejectListRoundTrip(m: map<string, Json>, key: string, l: Slice<RejectSummary>)
    requires key in m <==> l.Len() > 0
    requires key in m ==> m[key] == EncodeSlice(l, EncodeRejectSummary)
    ensures Field(m, key, DecodeRejectSummaries, Nil) == Ok(if l.Len() > 0 then l else Nil)
  {
    if l.Len() > 0 {
      forall k | 0 <= k < |l.elems|
        ensures DecodeRejectSummary(EncodeRejectSummary(l.elems[k])) == Ok(l.elems[k])
      {
        RejectSummaryRoundTrip(l.elems[k]);
      }
      SliceRoundTrip(l, DecodeRejectSummary, EncodeRejectSummary);
    }
  }

  lemma SummaryRoundTrip(s: ProcessedOffersSummary)
    ensures DecodeSummary(EncodeSummary(s)) == Ok(s) <==> SummaryLossless(s)
  {
    var m := EncodeSummary(s).fields;
    EncodeSummaryAt(s);
    var lastOffers := if s.rejectSummaryLastOffers.Len() > 0 then s.rejectSummaryLastOffers else Nil;
    var launchAttempt := if s.rejectSummaryLaunchAttempt.Len() > 0 then s.rejectSummaryLaunchAttempt else Nil;
    RejectListRoundTrip(m, "rejectSummaryLastOffers", s.rejectSummaryLastOffers);
    RejectListRoundTrip(m, "rejectSummaryLaunchAttempt", s.rejectSummaryLaunchAttempt);
    assert Field(m, "processedOffersCount", DecodeInt, 0) == Ok(s.processedOffersCount);
    assert Field(m, "unusedOffersCount", DecodeInt, 0) == Ok(s.unusedOffersCount);
    assert Field(m, "lastUnusedOfferAt", DecodeTimePtr, None) == Ok(s.lastUnusedOfferAt);
    assert Field(m, "lastUsedOfferAt", DecodeTimePtr, None) == Ok(s.lastUsedOfferAt);
    assert DecodeSummary(JObj(m)) == Ok(ProcessedOffersSummary(
      s.processedOffersCount, s.unusedOffersCount, s.lastUnusedOfferAt, s.lastUsedOfferAt,
      lastOffers, launchAttempt));
  }

  // What each field of a summary document decodes to, and that encoding the
  // field's value gives the document's field back.

  lemma DocIntField(m: map<string, Json>, key: string)
    requires key in m ==> IntDoc(m[key])
    ensures var f := Field(m, key, DecodeInt, 0);
      f.Ok? && (key in m ==> EncodeInt(f.value) == m[key])
  {
  }

  lemma DocTimePtrField(m: map<string, Json>, key: string)
    requires key in m ==> m[key].JStr?
    ensures var f := Field(m, key, DecodeTimePtr, None);
      f.Ok? && (f.value.Some? <==> key in m) && (key in m ==> EncodeTime(f.value.value) == m[key])
  {
  }

  lemma DocRejectListField(m: map<string, Json>, key: string)
    requires key in m ==> NonEmptySliceDoc(m[key], RejectSummaryDoc)
    ensures var f := Field(m, key, DecodeRejectSummaries, Nil);
      && f.Ok? && (f.value.Len() > 0 <==> key in m)
      && (key in m ==> EncodeSlice(f.value, EncodeRejectSummary) == m[key])
  {
    if key in m {
      RejectSummaryDocsRoundTrip();
      SliceDocRoundTrip(m[key], RejectSummaryDoc, DecodeRejectSummary, EncodeRejectSummary);
    }
  }

  /** A summary whose fields sit in `m` as the encoder writes them encodes to
      `m`. */
  lemma SummaryFieldsAre(s: ProcessedOffersSummary, m: map<string, Json>)
    requires "processedOffersCount" in m && "unusedOffersCount" in m && m.Keys <= SummaryKeys
    requires EncodeInt(s.processedOffersCount) == m["processedOffersCount"]
    requires EncodeInt(s.unusedOffersCount) == m["unusedOffersCount"]
    requires (s.lastUnusedOfferAt.Some? <==> "lastUnusedOfferAt" in m)
    requires "lastUnusedOfferAt" in m ==> EncodeTime(s.lastUnusedOfferAt.value) == m["lastUnusedOfferAt"]
    requires (s.lastUsedOfferAt.Some? <==> "lastUsedOfferAt" in m)
    requires "lastUsedOfferAt" in m ==> EncodeTime(s.lastUsedOfferAt.value) == m["lastUsedOfferAt"]
    requires (s.rejectSummaryLastOffers.Len() > 0 <==> "rejectSummaryLastOffers" in m)
    requires "rejectSummaryLastOffers" in m ==>
      EncodeSlice(s.rejectSummaryLastOffers, EncodeRejectSummary) == m["rejectSummaryLastOffers"]
    requires (s.rejectSummaryLaunchAttempt.Len() > 0 <==> "rejectSummaryLaunchAttempt" in m)
    requires "rejectSummaryLaunchAttempt" in m ==>
      EncodeSlice(s.rejectSummaryLaunchAttempt, EncodeRejectSummary) == m["rejectSummaryLaunchAttempt"]
    ensures EncodeSummary(s) == JObj(m)
  {
    var e := EncodeSummary(s).fields;
    forall k | k in SummaryKeys ensures (k in e <==> k in m) && (k in m ==> e[k] == m[k]) {
    }
    assert e.Keys == m.Keys;
    assert e == m;
  }

  lemma SummaryDocRoundTrip(j: Json)
    requires SummaryDoc(j)
    ensures DecodeSummary(j).Ok? && EncodeSummary(DecodeSummary(j).value) == j
  {
    var m := j.fields;
    DocIntField(m, "processedOffersCount");
    DocIntField(m, "unusedOffersCount");
    DocTimePtrField(m, "lastUnusedOfferAt");
    DocTimePtrField(m, "lastUsedOfferAt");
    DocRejectListField(m, "rejectSummaryLastOffers");
    DocRejectListField(m, "rejectSummaryLaunchAttempt");
    var s := ProcessedOffersSummary(
      Field(m, "processedOffersCount", DecodeInt, 0).value,
      Field(m, "unusedOffersCount", DecodeInt, 0).value,
      Field(m, "lastUnusedOfferAt", DecodeTimePtr, None).value,
      Field(m, "lastUsedOfferAt", DecodeTimePtr, None).value,
      Field(m, "rejectSummaryLastOffers", DecodeRejectSummaries, Nil).value,
      Field(m, "rejectSummaryLaunchAttempt", DecodeRejectSummaries, Nil).value);
    assert DecodeSummary(j) == Ok(s);
    SummaryFieldsAre(s, m);
  }

  // ---------------------------------------------------------------------------
  // Item

  function DecodeDelayPtr(j: Json): Result<Option<Delay>, DecodeError> {
    DecodePtr(j, DecodeDelay)
  }

  function DecodeOpaquePtr(j: Json): Result<Option<Opaque>, DecodeError> {
    DecodePtr(j, DecodeOpaque)
  }

  function DecodeSummaryPtr(j: Json): Result<Option<ProcessedOffersSummary>, DecodeError> {
    DecodePtr(j, DecodeSummary)
  }

  function DecodeLastUnusedOffersList(j: Json): Result<Slice<LastUnusedOffers>, DecodeError> {
    DecodeSlice(j, DecodeLastUnusedOffers)
  }

  const ZeroItem := Item(0, None, ZeroTime, None, None, None, Nil)

  /** null and an object without any of the item's keys (unknown keys are
      ignored) decode to the zero item; anything but an object or null is a
      type mismatch. An object decodes exactly when each tagged key fits its
      field, and then each field receives its key's value; DecodeItemObject
      decodes the object. */
  function DecodeItem(j: Json): (r: Result<Item, DecodeError>)
    ensures j.JNull? ==> r == Ok(ZeroItem)
    ensures j.JObj? && j.fields.Keys !! ItemKeys ==> r == Ok(ZeroItem)
    ensures !j.JNull? && !j.JObj? ==> r == Err(TypeMismatch(KindOf(j), "Item"))
    ensures j.JObj? ==> (r.Ok? <==>
      && FieldFits(j.fields, "count", DecodeInt)
      && FieldFits(j.fields, "delay", DecodeDelayPtr)
      && FieldFits(j.fields, "since", DecodeTime)
      && FieldFits(j.fields, "app", DecodeOpaquePtr)
      && FieldFits(j.fields, "pod", DecodeOpaquePtr)
      && FieldFits(j.fields, "processedOffersSummary", DecodeSummaryPtr)
      && FieldFits(j.fields, "lastUnusedOffers", DecodeLastUnusedOffersList))
    ensures j.JObj? && r.Ok? ==>
      && FieldGets(j.fields, "count", DecodeInt, 0, r.value.count)
      && FieldGets(j.fields, "delay", DecodeDelayPtr, None, r.value.delay)
      && FieldGets(j.fields, "since", DecodeTime, ZeroTime, r.value.since)
      && FieldGets(j.fields, "app", DecodeOpaquePtr, None, r.value.application)
      && FieldGets(j.fields, "pod", DecodeOpaquePtr, None, r.value.pod)
      && FieldGets(j.fields, "processedOffersSummary", DecodeSummaryPtr, None, r.value.processedOffersSummary)
      && FieldGets(j.fields, "lastUnusedOffers", DecodeLastUnusedOffersList, Nil, r.value.lastUnusedOffers)
  {
    match j
    case JNull => Ok(ZeroItem)
    case JObj(m) => DecodeItemObject(m)
    case _ => Err(TypeMismatch(KindOf(j), "Item"))
  }

  /** An object without any of the item's keys decodes to the zero item. An
      object decodes exactly when each tagged key fits its field, and then
      each field receives its key's value (unknown keys are ignored). */
  function DecodeItemObject(m: map<string, Json>): (r: Result<Item, DecodeError>)
    ensures m.Keys !! ItemKeys ==> r == Ok(ZeroItem)
    ensures r.Ok? <==>
      && FieldFits(m, "count", DecodeInt)
      && FieldFits(m, "delay", DecodeDelayPtr)
      && FieldFits(m, "since", DecodeTime)
      && FieldFits(m, "app", DecodeOpaquePtr)
      && FieldFits(m, "pod", DecodeOpaquePtr)
      && FieldFits(m, "processedOffersSummary", DecodeSummaryPtr)
      && FieldFits(m, "lastUnusedOffers", DecodeLastUnusedOffersList)
    ensures r.Ok? ==>
      && FieldGets(m, "count", DecodeInt, 0, r.value.count)
      && FieldGets(m, "delay", DecodeDelayPtr, None, r.value.delay)
      && FieldGets(m, "since", DecodeTime, ZeroTime, r.value.since)
      && FieldGets(m, "app", DecodeOpaquePtr, None, r.value.application)
      && FieldGets(m, "pod", DecodeOpaquePtr, None, r.value.pod)
      && FieldGets(m, "processedOffersSummary", DecodeSummaryPtr, None, r.value.processedOffersSummary)
      && FieldGets(m, "lastUnusedOffers", DecodeLastUnusedOffersList, Nil, r.value.lastUnusedOffers)
  {
    assert m.Keys !! ItemKeys ==>
      && "count" !in m && "delay" !in m && "since" !in m && "app" !in m && "pod" !in m
      && "processedOffersSummary" !in m && "lastUnusedOffers" !in m;
    var count :- Field(m, "count", DecodeInt, 0);
    var delay :- Field(m, "delay", DecodeDelayPtr, None);
    var since :- Field(m, "since", DecodeTime, ZeroTime);
    var application :- Field(m, "app", DecodeOpaquePtr, None);
    var pod :- Field(m, "pod", DecodeOpaquePtr, None);
    var summary :- Field(m, "processedOffersSummary", DecodeSummaryPtr, None);
    var lastUnusedOffers :- Field(m, "lastUnusedOffers", DecodeLastUnusedOffersList, Nil);
    Ok(Item(count, delay, since, application, pod, summary, lastUnusedOffers))
  }

  const ItemKeys: set<string> := {
    "count", "delay", "since", "app", "pod", "processedOffersSummary", "lastUnusedOffers"}

  /** Whether the encoder writes the field under `key`: `since` always; a zero
      count, a nil pointer and an empty list of unused offers are omitempty's
      empty values and are left out. */
  predicate ItemWrites(i: Item, key: string) {
    if key == "since" then true
    else if key == "count" then i.count != 0
    else if key == "delay" then i.delay.Some?
    else if key == "app" then i.application.Some?
    else if key == "pod" then i.pod.Some?
    else if key == "processedOffersSummary" then i.processedOffersSummary.Some?
    else if key == "lastUnusedOffers" then i.lastUnusedOffers.Len() > 0
    else false
  }

  /** The JSON the encoder writes under `key`, for a key it writes. */
  function ItemValue(i: Item, key: string): Json
    requires ItemWrites(i, key)
  {
    if key == "since" then EncodeTime(i.since)
    else if key == "count" then EncodeInt(i.count)
    else if key == "delay" then EncodeDelay(i.delay.value)
    else if key == "app" then EncodeOpaque(i.application.value)
    else if key == "pod" then EncodeOpaque(i.pod.value)
    else if key == "processedOffersSummary" then EncodeSummary(i.processedOffersSummary.value)
    else EncodeSlice(i.lastUnusedOffers, EncodeLastUnusedOffers)
  }

  function EncodeItem(i: Item): (r: Json)
    ensures r.JObj?
    ensures "since" in r.fields
    ensures "count" in r.fields <==> i.count != 0
    ensures "delay" in r.fields <==> i.delay.Some?
    ensures "app" in r.fields <==> i.application.Some?
    ensures "pod" in r.fields <==> i.pod.Some?
    ensures "processedOffersSummary" in r.fields <==> i.processedOffersSummary.Some?
    ensures "lastUnusedOffers" in r.fields <==> i.lastUnusedOffers.Len() > 0
    ensures r.fields.Keys <= ItemKeys
  {
    JObj(map key | key in ItemKeys && ItemWrites(i, key) :: ItemValue(i, key))
  }

  /** An item the encoder gives back unchanged after decoding. */
  predicate ItemLossless(i: Item) {
    && (i.lastUnusedOffers.Nil? || i.lastUnusedOffers.Len() > 0)
    && (i.processedOffersSummary.Some? ==> SummaryLossless(i.processedOffersSummary.value))
  }

  /** The documents of items that survive a decode followed by an encode:
      `since` present, no other key than the item's own, no zero count, no
      null pointer field and no empty list of unused offers. */
  predicate ItemDoc(j: Json) {
    && j.JObj?
    && "since" in j.fields && j.fields.Keys <= ItemKeys
    && j.fields["since"].JStr?
    && ("count" in j.fields ==> IntDoc(j.fields["count"]) && j.fields["count"].n != 0)
    && ("delay" in j.fields ==> DelayDoc(j.fields["delay"]))
    && ("app" in j.fields ==> j.fields["app"].JObj?)
    && ("pod" in j.fields ==> j.fields["pod"].JObj?)
    && ("processedOffersSummary" in j.fields ==> SummaryDoc(j.fields["processedOffersSummary"]))
    && ("lastUnusedOffers" in j.fields ==>
          NonEmptySliceDoc(j.fields["lastUnusedOffers"], LastUnusedOffersDoc))
  }

  /** What the encoder writes under each key it writes. */
  lemma EncodeItemAt(i: Item)
    ensures var m := EncodeItem(i).fields;
      && m["since"] == EncodeTime(i.since)
      && ("count" in m ==> m["count"] == EncodeInt(i.count))
      && ("delay" in m ==> m["delay"] == EncodeDelay(i.delay.value))
      && ("app" in m ==> m["app"] == EncodeOpaque(i.application.value))
      && ("pod" in m ==> m["pod"] == EncodeOpaque(i.pod.value))
      && ("processedOffersSummary" in m ==> m["processedOffersSummary"] == EncodeSummary(i.processedOffersSummary.value))
      && ("lastUnusedOffers" in m ==> m["lastUnusedOffers"] == EncodeSlice(i.lastUnusedOffers, EncodeLastUnusedOffers))
  {
  }

  /** Decoding an encoded item field by field: every field comes back, except
      that an empty list of unused offers comes back nil and the summary comes
      back as its own round trip gives it. */
  lemma DecodeEncodedItem(i: Item)
    ensures var m := EncodeItem(i).fields;
      && Field(m, "count", DecodeInt, 0) == Ok(i.count)
      && Field(m, "delay", DecodeDelayPtr, None) == Ok(i.delay)
      && Field(m, "since", DecodeTime, ZeroTime) == Ok(i.since)
      && Field(m, "app", DecodeOpaquePtr, None) == Ok(i.application)
      && Field(m, "pod", DecodeOpaquePtr, None) == Ok(i.pod)
      && Field(m, "lastUnusedOffers", DecodeLastUnusedOffersList, Nil)
         == Ok(if i.lastUnusedOffers.Len() > 0 then i.lastUnusedOffers else Nil)
      && (i.processedOffersSummary.None? ==> Field(m, "processedOffersSummary", DecodeSummaryPtr, None) == Ok(None))
      && (i.processedOffersSummary.Some? ==>
            Field(m, "processedOffersSummary", DecodeSummaryPtr, None)
            == DecodePtr(EncodeSummary(i.processedOffersSummary.value), DecodeSummary))
  {
    EncodeItemAt(i);
    LastUnusedOffersListRoundTrip(i.lastUnusedOffers);
  }

  lemma LastUnusedOffersListRoundTrip(l: Slice<LastUnusedOffers>)
    ensures DecodeLastUnusedOffersList(EncodeSlice(l, EncodeLastUnusedOffers)) == Ok(l)
  {
    if l.Of? {
      forall k | 0 <= k < |l.elems|
        ensures DecodeLastUnusedOffers(EncodeLastUnusedOffers(l.elems[k])) == Ok(l.elems[k])
      {
        LastUnusedOffersRoundTrip(l.elems[k]);
      }
    }
    SliceRoundTrip(l, DecodeLastUnusedOffers, EncodeLastUnusedOffers);
  }

  lemma ItemRoundTrip(i: Item)
    ensures DecodeItem(EncodeItem(i)) == Ok(i) <==> ItemLossless(i)
  {
    DecodeEncodedItem(i);
    var m := EncodeItem(i).fields;
    var luo := if i.lastUnusedOffers.Len() > 0 then i.lastUnusedOffers else Nil;
    if i.processedOffersSummary.Some? {
      var s := i.processedOffersSummary.value;
      SummaryRoundTrip(s);
      match DecodeSummary(EncodeSummary(s))
      case Err(_) =>
      case Ok(s') =>
        DecodeItemFields(m, Item(i.count, i.delay, i.since, i.application, i.pod, Some(s'), luo));
    } else {
      DecodeItemFields(m, Item(i.count, i.delay, i.since, i.application, i.pod, None, luo));
    }
  }

  /** Object `m` holds exactly the fields the encoder writes for `i`. */
  ghost predicate ItemFieldsOf(i: Item, m: map<string, Json>) {
    && m.Keys <= ItemKeys
    && ItemFieldOf(i, m, "count") && ItemFieldOf(i, m, "delay") && ItemFieldOf(i, m, "since")
    && ItemFieldOf(i, m, "app") && ItemFieldOf(i, m, "pod")
    && ItemFieldOf(i, m, "processedOffersSummary") && ItemFieldOf(i, m, "lastUnusedOffers")
  }

  /** Object `m` holds the field under `key` exactly when the encoder writes
      it for `i`, with the value it writes. */
  ghost predicate ItemFieldOf(i: Item, m: map<string, Json>, key: string) {
    (key in m <==> ItemWrites(i, key)) && (key in m ==> m[key] == ItemValue(i, key))
  }

  // What each field of an item document decodes to, and that encoding the
  // field's value gives the document's field back.

  lemma ItemDocCount(m: map<string, Json>)
    requires "count" in m ==> IntDoc(m["count"]) && m["count"].n != 0
    ensures var f := Field(m, "count", DecodeInt, 0);
      f.Ok? && (f.value != 0 <==> "count" in m) && ("count" in m ==> EncodeInt(f.value) == m["count"])
  {
  }

  lemma ItemDocDelay(m: map<string, Json>)
    requires "delay" in m ==> DelayDoc(m["delay"])
    ensures var f := Field(m, "delay", DecodeDelayPtr, None);
      f.Ok? && (f.value.Some? <==> "delay" in m) && ("delay" in m ==> EncodeDelay(f.value.value) == m["delay"])
  {
  }

  lemma ItemDocSince(m: map<string, Json>)
    requires "since" in m && m["since"].JStr?
    ensures var f := Field(m, "since", DecodeTime, ZeroTime);
      f.Ok? && EncodeTime(f.value) == m["since"]
  {
  }

  lemma ItemDocOpaque(m: map<string, Json>, key: string)
    requires key in m ==> m[key].JObj?
    ensures var f := Field(m, key, DecodeOpaquePtr, None);
      f.Ok? && (f.value.Some? <==> key in m) && (key in m ==> EncodeOpaque(f.value.value) == m[key])
  {
  }

  lemma ItemDocSummary(m: map<string, Json>)
    requires "processedOffersSummary" in m ==> SummaryDoc(m["processedOffersSummary"])
    ensures var f := Field(m, "processedOffersSummary", DecodeSummaryPtr, None);
      && f.Ok? && (f.value.Some? <==> "processedOffersSummary" in m)
      && ("processedOffersSummary" in m ==> EncodeSummary(f.value.value) == m["processedOffersSummary"])
  {
    if "processedOffersSummary" in m {
      SummaryDocRoundTrip(m["processedOffersSummary"]);
    }
  }

  lemma ItemDocOffers(m: map<string, Json>)
    requires "lastUnusedOffers" in m ==> NonEmptySliceDoc(m["lastUnusedOffers"], LastUnusedOffersDoc)
    ensures var f := Field(m, "lastUnusedOffers", DecodeLastUnusedOffersList, Nil);
      && f.Ok? && (f.value.Len() > 0 <==> "lastUnusedOffers" in m)
      && ("lastUnusedOffers" in m ==> EncodeSlice(f.value, EncodeLastUnusedOffers) == m["lastUnusedOffers"])
  {
    if "lastUnusedOffers" in m {
      LastUnusedOffersDocsRoundTrip();
      SliceDocRoundTrip(m["lastUnusedOffers"], LastUnusedOffersDoc, DecodeLastUnusedOffers, EncodeLastUnusedOffers);
    }
  }

  /** The item an item document decodes to, field by field. */
  lemma DecodeItemDoc(j: Json) returns (i: Item)
    requires ItemDoc(j)
    ensures DecodeItem(j) == Ok(i) && ItemFieldsOf(i, j.fields)
  {
    var m := j.fields;
    ItemDocCount(m);
    ItemDocDelay(m);
    ItemDocSince(m);
    ItemDocOpaque(m, "app");
    ItemDocOpaque(m, "pod");
    ItemDocSummary(m);
    ItemDocOffers(m);
    i := Item(
      Field(m, "count", DecodeInt, 0).value,
      Field(m, "delay", DecodeDelayPtr, None).value,
      Field(m, "since", DecodeTime, ZeroTime).value,
      Field(m, "app", DecodeOpaquePtr, None).value,
      Field(m, "pod", DecodeOpaquePtr, None).value,
      Field(m, "processedOffersSummary", DecodeSummaryPtr, None).value,
      Field(m, "lastUnusedOffers", DecodeLastUnusedOffersList, Nil).value);
    DecodeItemFields(m, i);
    ItemFieldsAre(i, m);
  }

  /** An object whose every item field decodes gives the item of those fields. */
  lemma DecodeItemFields(m: map<string, Json>, i: Item)
    requires Field(m, "count", DecodeInt, 0) == Ok(i.count)
    requires Field(m, "delay", DecodeDelayPtr, None) == Ok(i.delay)
    requires Field(m, "since", DecodeTime, ZeroTime) == Ok(i.since)
    requires Field(m, "app", DecodeOpaquePtr, None) == Ok(i.application)
    requires Field(m, "pod", DecodeOpaquePtr, None) == Ok(i.pod)
    requires Field(m, "processedOffersSummary", DecodeSummaryPtr, None) == Ok(i.processedOffersSummary)
    requires Field(m, "lastUnusedOffers", DecodeLastUnusedOffersList, Nil) == Ok(i.lastUnusedOffers)
    ensures DecodeItem(JObj(m)) == Ok(i)
  {
  }

  /** The per-field facts the lemmas above give, gathered into ItemFieldsOf. */
  lemma ItemFieldsAre(i: Item, m: map<string, Json>)
    requires "since" in m && m.Keys <= ItemKeys
    requires (i.count != 0 <==> "count" in m) && ("count" in m ==> EncodeInt(i.count) == m["count"])
    requires (i.delay.Some? <==> "delay" in m) && ("delay" in m ==> EncodeDelay(i.delay.value) == m["delay"])
    requires EncodeTime(i.since) == m["since"]
    requires (i.application.Some? <==> "app" in m) && ("app" in m ==> EncodeOpaque(i.application.value) == m["app"])
    requires (i.pod.Some? <==> "pod" in m) && ("pod" in m ==> EncodeOpaque(i.pod.value) == m["pod"])
    requires (i.processedOffersSummary.Some? <==> "processedOffersSummary" in m)
    requires "processedOffersSummary" in m ==>
      EncodeSummary(i.processedOffersSummary.value) == m["processedOffersSummary"]
    requires (i.lastUnusedOffers.Len() > 0 <==> "lastUnusedOffers" in m)
    requires "lastUnusedOffers" in m ==>
      EncodeSlice(i.lastUnusedOffers, EncodeLastUnusedOffers) == m["lastUnusedOffers"]
    ensures ItemFieldsOf(i, m)
  {
    assert ItemFieldOf(i, m, "count");
    assert ItemFieldOf(i, m, "delay");
    assert ItemFieldOf(i, m, "since");
    assert ItemFieldOf(i, m, "app");
    assert ItemFieldOf(i, m, "pod");
    assert ItemFieldOf(i, m, "processedOffersSummary");
    assert ItemFieldOf(i, m, "lastUnusedOffers");
  }

  /** An item whose fields sit in `m` as ItemFieldsOf says encodes to `m`. */
  lemma EncodeItemFieldsOf(i: Item, m: map<string, Json>)
    requires ItemFieldsOf(i, m)
    ensures EncodeItem(i) == JObj(m)
  {
    var e := EncodeItem(i).fields;
    forall k | k in ItemKeys ensures (k in e <==> k in m) && (k in m ==> e[k] == m[k]) {
      assert ItemFieldOf(i, m, k);
    }
    assert e.Keys == m.Keys;
    assert e == m;
  }

  lemma ItemDocRoundTrip(j: Json)
    requires ItemDoc(j)
    ensures DecodeItem(j).Ok? && EncodeItem(DecodeItem(j).value) == j
  {
    var i := DecodeItemDoc(j);
    EncodeItemFieldsOf(i, j.fields);
  }

  lemma ItemDocsRoundTrip()
    ensures DocsRoundTrip(ItemDoc, DecodeItem, EncodeItem)
  {
    forall j | ItemDoc(j)
      ensures DecodeItem(j).Ok? && EncodeItem(DecodeItem(j).value) == j
    {
      ItemDocRoundTrip(j);
    }
  }

  // ---------------------------------------------------------------------------
  // Values below an item: they carry no omitempty field and always round trip

  lemma RangeRoundTrip(r: Range)
    ensures DecodeRange(EncodeRange(r)) == Ok(r)
  {
    var m := EncodeRange(r).fields;
    assert Field(m, "begin", DecodeInt, 0) == Ok(r.begin);
    assert Field(m, "end", DecodeInt, 0) == Ok(r.end);
  }

  lemma RangesRoundTrip(l: Slice<Range>)
    ensures DecodeRanges(EncodeSlice(l, EncodeRange)) == Ok(l)
  {
    if l.Of? {
      forall k | 0 <= k < |l.elems| ensures DecodeRange(EncodeRange(l.elems[k])) == Ok(l.elems[k]) {
        RangeRoundTrip(l.elems[k]);
      }
    }
    SliceRoundTrip(l, DecodeRange, EncodeRange);
  }

  lemma StringsRoundTrip(l: Slice<string>)
    ensures DecodeStrings(EncodeSlice(l, EncodeString)) == Ok(l)
  {
    SliceRoundTrip(l, DecodeString, EncodeString);
  }

  lemma AttributesRoundTrip(a: Attributes)
    ensures DecodeAttributes(EncodeAttributes(a)) == Ok(a)
  {
    var m := EncodeAttributes(a).fields;
    RangesRoundTrip(a.ranges);
    StringsRoundTrip(a.setItems);
    assert Field(m, "name", DecodeString, "") == Ok(a.name);
    assert Field(m, "scalar", DecodeInt, 0) == Ok(a.scalar);
    assert Field(m, "ranges", DecodeRanges, Nil) == Ok(a.ranges);
    assert Field(m, "set", DecodeStrings, Nil) == Ok(a.setItems);
  }

  lemma OfferResourcesRoundTrip(r: OfferResources)
    ensures DecodeOfferResources(EncodeOfferResources(r)) == Ok(r)
  {
    var m := EncodeOfferResources(r).fields;
    RangesRoundTrip(r.ranges);
    StringsRoundTrip(r.setItems);
    assert Field(m, "name", DecodeString, "") == Ok(r.name);
    assert Field(m, "scalar", DecodeInt, 0) == Ok(r.scalar);
    assert Field(m, "ranges", DecodeRanges, Nil) == Ok(r.ranges);
    assert Field(m, "set", DecodeStrings, Nil) == Ok(r.setItems);
    assert Field(m, "role", DecodeString, "") == Ok(r.role);
  }

  lemma OfferRoundTrip(o: Offer)
    ensures DecodeOffer(EncodeOffer(o)) == Ok(o)
  {
    if o.resources.Of? {
      forall k | 0 <= k < |o.resources.elems|
        ensures DecodeOfferResources(EncodeOfferResources(o.resources.elems[k])) == Ok(o.resources.elems[k])
      {
        OfferResourcesRoundTrip(o.resources.elems[k]);
      }
    }
    if o.attributes.Of? {
      forall k | 0 <= k < |o.attributes.elems|
        ensures DecodeAttributes(EncodeAttributes(o.attributes.elems[k])) == Ok(o.attributes.elems[k])
      {
        AttributesRoundTrip(o.attributes.elems[k]);
      }
    }
    SliceRoundTrip(o.resources, DecodeOfferResources, EncodeOfferResources);
    SliceRoundTrip(o.attributes, DecodeAttributes, EncodeAttributes);
    var m := EncodeOffer(o).fields;
    assert Field(m, "id", DecodeString, "") == Ok(o.id);
    assert Field(m, "agentId", DecodeString, "") == Ok(o.agentId);
    assert Field(m, "hostname", DecodeString, "") == Ok(o.hostname);
    assert Field(m, "resources", DecodeResourcesList, Nil) == Ok(o.resources);
    assert Field(m, "attributes", DecodeAttributesList, Nil) == Ok(o.attributes);
  }

  lemma LastUnusedOffersRoundTrip(u: LastUnusedOffers)
    ensures DecodeLastUnusedOffers(EncodeLastUnusedOffers(u)) == Ok(u)
  {
    OfferRoundTrip(u.offer);
    SliceRoundTrip(u.reason, DecodeString, EncodeString);
  }

  // ---------------------------------------------------------------------------
  // Every encoding is a document, so the `...Doc` predicates are exactly the
  // documents that come back after a decode followed by an encode

  lemma RangesEncodingIsDoc(l: Slice<Range>)
    ensures SliceDoc(EncodeSlice(l, EncodeRange), RangeDoc)
  {
    EncodeSliceDoc(l, EncodeRange, RangeDoc);
  }

  lemma StringsEncodingIsDoc(l: Slice<string>)
    ensures SliceDoc(EncodeSlice(l, EncodeString), StringDoc)
  {
    EncodeSliceDoc(l, EncodeString, StringDoc);
  }

  lemma AttributesEncodingIsDoc(a: Attributes)
    ensures AttributesDoc(EncodeAttributes(a))
  {
    RangesEncodingIsDoc(a.ranges);
    StringsEncodingIsDoc(a.setItems);
  }

  lemma OfferResourcesEncodingIsDoc(r: OfferResources)
    ensures OfferResourcesDoc(EncodeOfferResources(r))
  {
    RangesEncodingIsDoc(r.ranges);
    StringsEncodingIsDoc(r.setItems);
  }

  lemma OfferEncodingIsDoc(o: Offer)
    ensures OfferDoc(EncodeOffer(o))
  {
    if o.resources.Of? {
      forall k | 0 <= k < |o.resources.elems|
        ensures OfferResourcesDoc(EncodeOfferResources(o.resources.elems[k]))
      {
        OfferResourcesEncodingIsDoc(o.resources.elems[k]);
      }
    }
    EncodeSliceDoc(o.resources, EncodeOfferResources, OfferResourcesDoc);
    if o.attributes.Of? {
      forall k | 0 <= k < |o.attributes.elems|
        ensures AttributesDoc(EncodeAttributes(o.attributes.elems[k]))
      {
        AttributesEncodingIsDoc(o.attributes.elems[k]);
      }
    }
    EncodeSliceDoc(o.attributes, EncodeAttributes, AttributesDoc);
  }

  lemma LastUnusedOffersEncodingIsDoc(u: LastUnusedOffers)
    ensures LastUnusedOffersDoc(EncodeLastUnusedOffers(u))
  {
    OfferEncodingIsDoc(u.offer);
    StringsEncodingIsDoc(u.reason);
  }

  lemma RejectListEncodingIsDoc(l: Slice<RejectSummary>)
    ensures l.Len() > 0 ==> NonEmptySliceDoc(EncodeSlice(l, EncodeRejectSummary), RejectSummaryDoc)
  {
    EncodeSliceDoc(l, EncodeRejectSummary, RejectSummaryDoc);
  }

  lemma SummaryEncodingIsDoc(s: ProcessedOffersSummary)
    ensures SummaryDoc(EncodeSummary(s))
  {
    EncodeSummaryAt(s);
    RejectListEncodingIsDoc(s.rejectSummaryLastOffers);
    RejectListEncodingIsDoc(s.rejectSummaryLaunchAttempt);
  }

  lemma LastUnusedOffersListEncodingIsDoc(l: Slice<LastUnusedOffers>)
    ensures l.Len() > 0 ==> NonEmptySliceDoc(EncodeSlice(l, EncodeLastUnusedOffers), LastUnusedOffersDoc)
  {
    if l.Of? {
      forall k | 0 <= k < |l.elems| ensures LastUnusedOffersDoc(EncodeLastUnusedOffers(l.elems[k])) {
        LastUnusedOffersEncodingIsDoc(l.elems[k]);
      }
    }
    EncodeSliceDoc(l, EncodeLastUnusedOffers, LastUnusedOffersDoc);
  }

  lemma ItemEncodingIsDoc(i: Item)
    ensures ItemDoc(EncodeItem(i))
  {
    EncodeItemAt(i);
    if i.processedOffersSummary.Some? {
      SummaryEncodingIsDoc(i.processedOffersSummary.value);
    }
    LastUnusedOffersListEncodingIsDoc(i.lastUnusedOffers);
  }

  lemma QueueEncodingIsDoc(q: Queue)
    ensures QueueDoc(EncodeQueue(q))
  {
    if q.items.Of? {
      forall k | 0 <= k < |q.items.elems| ensures ItemDoc(EncodeItem(q.items.elems[k])) {
        ItemEncodingIsDoc(q.items.elems[k]);
      }
    }
    EncodeSliceDoc(q.items, EncodeItem, ItemDoc);
  }

  lemma RangeDocExactly(j: Json)
    ensures RangeDoc(j) <==> DecodeRange(j).Ok? && EncodeRange(DecodeRange(j).value) == j
  {
    RangeDocsRoundTrip();
  }

  lemma DelayRoundTrip(d: Delay)
    ensures DecodeDelay(EncodeDelay(d)) == Ok(d)
  {
    var m := EncodeDelay(d).fields;
    assert Field(m, "timeLeftSeconds", DecodeInt, 0) == Ok(d.timeLeftSeconds);
    assert Field(m, "overdue", DecodeBool, false) == Ok(d.overdue);
  }

  lemma DelayDocExactly(j: Json)
    ensures DelayDoc(j) <==> DecodeDelay(j).Ok? && EncodeDelay(DecodeDelay(j).value) == j
  {
    if DelayDoc(j) {
      var m := j.fields;
      assert DecodeDelay(j) == Ok(Delay(m["timeLeftSeconds"].n as GoInt, m["overdue"].b));
    }
  }

  lemma RejectSummaryDocExactly(j: Json)
    ensures RejectSummaryDoc(j) <==>
      DecodeRejectSummary(j).Ok? && EncodeRejectSummary(DecodeRejectSummary(j).value) == j
  {
    RejectSummaryDocsRoundTrip();
  }

  lemma AttributesDocExactly(j: Json)
    ensures AttributesDoc(j) <==> DecodeAttributes(j).Ok? && EncodeAttributes(DecodeAttributes(j).value) == j
  {
    if AttributesDoc(j) {
      AttributesDocRoundTrip(j);
    }
    if DecodeAttributes(j).Ok? {
      AttributesEncodingIsDoc(DecodeAttributes(j).value);
    }
  }

  lemma OfferResourcesDocExactly(j: Json)
    ensures OfferResourcesDoc(j) <==>
      DecodeOfferResources(j).Ok? && EncodeOfferResources(DecodeOfferResources(j).value) == j
  {
    if OfferResourcesDoc(j) {
      OfferResourcesDocRoundTrip(j);
    }
    if DecodeOfferResources(j).Ok? {
      OfferResourcesEncodingIsDoc(DecodeOfferResources(j).value);
    }
  }

  lemma OfferDocExactly(j: Json)
    ensures OfferDoc(j) <==> DecodeOffer(j).Ok? && EncodeOffer(DecodeOffer(j).value) == j
  {
    if OfferDoc(j) {
      OfferDocRoundTrip(j);
    }
    if DecodeOffer(j).Ok? {
      OfferEncodingIsDoc(DecodeOffer(j).value);
    }
  }

  lemma LastUnusedOffersDocExactly(j: Json)
    ensures LastUnusedOffersDoc(j) <==>
      DecodeLastUnusedOffers(j).Ok? && EncodeLastUnusedOffers(DecodeLastUnusedOffers(j).value) == j
  {
    if LastUnusedOffersDoc(j) {
      LastUnusedOffersDocRoundTrip(j);
    }
    if DecodeLastUnusedOffers(j).Ok? {
      LastUnusedOffersEncodingIsDoc(DecodeLastUnusedOffers(j).value);
    }
  }

  lemma SummaryDocExactly(j: Json)
    ensures SummaryDoc(j) <==> DecodeSummary(j).Ok? && EncodeSummary(DecodeSummary(j).value) == j
  {
    if SummaryDoc(j) {
      SummaryDocRoundTrip(j);
    }
    if DecodeSummary(j).Ok? {
      SummaryEncodingIsDoc(DecodeSummary(j).value);
    }
  }

  lemma ItemDocExactly(j: Json)
    ensures ItemDoc(j) <==> DecodeItem(j).Ok? && EncodeItem(DecodeItem(j).value) == j
  {
    if ItemDoc(j) {
      ItemDocRoundTrip(j);
    }
    if DecodeItem(j).Ok? {
      ItemEncodingIsDoc(DecodeItem(j).value);
    }
  }

  // ---------------------------------------------------------------------------
  // Queue

  function DecodeItems(j: Json): Result<Slice<Item>, DecodeError> {
    DecodeSlice(j, DecodeItem)
  }

  /** null and an object without "queue" give a nil item list; a "queue" that
      does not decode as a list of items gives its error, and one that does
      becomes the items (other keys are ignored); anything but an object or
      null is a type mismatch. */
  function DecodeQueue(j: Json): (r: Result<Queue, DecodeError>)
    ensures j.JNull? ==> r == Ok(Queue(Nil))
    ensures j.JObj? && "queue" !in j.fields ==> r == Ok(Queue(Nil))
    ensures j.JObj? && "queue" in j.fields && DecodeItems(j.fields["queue"]).Err? ==>
      r == Err(DecodeItems(j.fields["queue"]).error)
    ensures !j.JNull? && !j.JObj? ==> r == Err(TypeMismatch(KindOf(j), "Queue"))
    ensures j.JObj? ==> (r.Ok? <==> FieldFits(j.fields, "queue", DecodeItems))
    ensures j.JObj? && r.Ok? ==> FieldGets(j.fields, "queue", DecodeItems, Nil, r.value.items)
  {
    match j
    case JNull => Ok(Queue(Nil))
    case JObj(m) =>
      var items :- Field(m, "queue", DecodeItems, Nil);
      Ok(Queue(items))
    case _ => Err(TypeMismatch(KindOf(j), "Queue"))
  }

  /** The queue is written under "queue": a nil list as null, otherwise an
      array holding each item's encoding in order. */
  function EncodeQueue(q: Queue): (j: Json)
    ensures j.JObj? && j.fields.Keys == {"queue"}
    ensures q.items.Nil? <==> j.fields["queue"] == JNull
    ensures q.items.Of? ==>
      && j.fields["queue"].JArr? && |j.fields["queue"].items| == |q.items.elems|
      && forall k :: 0 <= k < |q.items.elems| ==> j.fields["queue"].items[k] == EncodeItem(q.items.elems[k])
  {
    JObj(map["queue" := EncodeSlice(q.items, EncodeItem)])
  }

  predicate QueueLossless(q: Queue) {
    q.items.Of? ==> forall k :: 0 <= k < |q.items.elems| ==> ItemLossless(q.items.elems[k])
  }

  predicate QueueDoc(j: Json) {
    && j.JObj?
    && j.fields.Keys == {"queue"}
    && SliceDoc(j.fields["queue"], ItemDoc)
  }

  lemma LosslessQueueRoundTrip(q: Queue)
    requires QueueLossless(q)
    ensures DecodeQueue(EncodeQueue(q)) == Ok(q)
  {
    if q.items.Of? {
      var xs := q.items.elems;
      forall k | 0 <= k < |xs| ensures DecodeItem(EncodeItem(xs[k])) == Ok(xs[k]) {
        ItemRoundTrip(xs[k]);
      }
      SliceRoundTrip(q.items, DecodeItem, EncodeItem);
    }
  }

  /** A queue that comes back unchanged brings each of its items back
      unchanged. */
  lemma QueueRoundTripItem(q: Queue, k: int)
    requires q.items.Of? && 0 <= k < |q.items.elems|
    ensures DecodeQueue(EncodeQueue(q)) == Ok(q) ==>
      DecodeItem(EncodeItem(q.items.elems[k])) == Ok(q.items.elems[k])
  {
    var xs := q.items.elems;
    var js := EncodeArray(xs, EncodeItem);
    if DecodeQueue(EncodeQueue(q)) == Ok(q) {
      assert Field(EncodeQueue(q).fields, "queue", DecodeItems, Nil) == Ok(q.items);
      assert DecodeSlice(JArr(js), DecodeItem) == Ok(q.items);
      assert DecodeArray(js, DecodeItem) == Ok(xs);
      assert js[k] == EncodeItem(xs[k]);
    }
  }

  /** Encoding a queue and decoding the result gives the same queue, items in
      the same order, exactly when no item holds an empty but non-nil
      omitempty list. */
  lemma QueueRoundTrip(q: Queue)
    ensures DecodeQueue(EncodeQueue(q)) == Ok(q) <==> QueueLossless(q)
  {
    if QueueLossless(q) {
      LosslessQueueRoundTrip(q);
    } else {
      var k :| 0 <= k < |q.items.elems| && !ItemLossless(q.items.elems[k]);
      QueueRoundTripItem(q, k);
      ItemRoundTrip(q.items.elems[k]);
    }
  }

  /** Decoding a queue document and encoding the result gives the document
      back, provided every item satisfies ItemDoc. */
  lemma QueueDocRoundTrip(j: Json)
    requires QueueDoc(j)
    ensures DecodeQueue(j).Ok? && EncodeQueue(DecodeQueue(j).value) == j
  {
    ItemDocsRoundTrip();
    SliceDocRoundTrip(j.fields["queue"], ItemDoc, DecodeItem, EncodeItem);
  }

  /** The queue documents that come back after a decode and an encode are
      exactly those that meet QueueDoc. */
  lemma QueueDocExactly(j: Json)
    ensures QueueDoc(j) <==> DecodeQueue(j).Ok? && EncodeQueue(DecodeQueue(j).value) == j
  {
    if QueueDoc(j) {
      QueueDocRoundTrip(j);
    }
    if DecodeQueue(j).Ok? {
      QueueEncodingIsDoc(DecodeQueue(j).value);
    }
  }

  // ---------------------------------------------------------------------------
  // Operations

  const QueueRequest := Request(Get, MarathonApiQueue, None)

  /** The *Queue the fetch decodes into: a null body leaves it nil. */
  function DecodeQueuePtr(j: Json): Result<Option<Queue>, DecodeError> {
    DecodePtr(j, DecodeQueue)
  }

  /** Queue(): the call's error unchanged, or the queue decoded from the
      answer; a null answer gives no queue and no error, and an answer that
      does not decode as a queue gives its decode error. */
  function FetchQueue(send: Transport): (r: Result<Option<Queue>, ApiError>)
    ensures send(QueueRequest).Err? ==> r == Err(send(QueueRequest).error)
    ensures send(QueueRequest) == Ok(JNull) ==> r == Ok(None)
    ensures send(QueueRequest).Ok? && !send(QueueRequest).value.JNull? ==>
      r == (match DecodeQueue(send(QueueRequest).value)
            case Ok(q) => Ok(Some(q))
            case Err(d) => Err(DecodeFailure(d)))
  {
    CallInto(send, QueueRequest, DecodeQueuePtr)
  }

  /** The delay resource of an application: the queue base path and '/', the
      application id without its leading '/', and the suffix "/delay". */
  function QueueDelayPath(appId: string): (path: string)
    ensures |path| == |MarathonApiQueue| + 1 + |TrimRootPath(appId)| + 6
    ensures path[..|MarathonApiQueue| + 1] == MarathonApiQueue + "/"
    ensures path[|MarathonApiQueue| + 1..|path| - 6] == TrimRootPath(appId)
    ensures path[|path| - 6..] == "/delay"
  {
    var path := MarathonApiQueue + "/" + TrimRootPath(appId) + "/delay";
    assert path[|MarathonApiQueue| + 1..|path| - 6] == TrimRootPath(appId);
    path
  }

  function DeleteQueueDelayRequest(appId: string): (req: Request)
    ensures req.verb == Delete && req.body == None && req.path == QueueDelayPath(appId)
  {
    Request(Delete, QueueDelayPath(appId), None)
  }

  /** DeleteQueueDelay: the response is not decoded (there is no result
      target), so only the call's own error can come back. */
  function DeleteQueueDelay(send: Transport, appId: string): (err: Option<ApiError>)
    ensures err.Some? <==> send(DeleteQueueDelayRequest(appId)).Err?
    ensures err.Some? ==> err.value == send(DeleteQueueDelayRequest(appId)).error
  {
    match send(DeleteQueueDelayRequest(appId))
    case Err(e) => Some(e)
    case Ok(_) => None
  }

  /** "/fake-app" and "fake-app" reset the same delay. */
  lemma QueueDelayPathIgnoresRootSlash(appId: string)
    requires |appId| == 0 || appId[0] != '/'
    ensures QueueDelayPath("/" + appId) == QueueDelayPath(appId)
  {
    TrimRootPathOfSlash(appId);
  }

  lemma QueueDelayPathInjective(a: string, b: string)
    ensures QueueDelayPath(a) == QueueDelayPath(b) <==> TrimRootPath(a) == TrimRootPath(b)
  {
    if QueueDelayPath(a) == QueueDelayPath(b) {
      var pa, pb := QueueDelayPath(a), QueueDelayPath(b);
      var lo := |MarathonApiQueue| + 1;
      assert TrimRootPath(a) == pa[lo..|pa| - 6];
      assert TrimRootPath(b) == pb[lo..|pb| - 6];
    }
  }
}
