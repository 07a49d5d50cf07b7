# go-marathon: pod instances and the launch queue

A Dafny model of two files in the go-marathon client for the Marathon
scheduler's REST API.

- `pod_instance.go` holds the records that a pod-instance deletion returns.
  It also holds the two identifier types that accept two JSON shapes:
  - `PodInstanceID` accepts `{"idString": s}` or `"s"`;
  - `PodTaskCondition` accepts `{"str": s}` or `"s"`.
  The file also builds the `…::instances` URI and sends the two delete calls.
- `queue.go` holds the records of a `/v2/queue` response. Their Go JSON
  tags mark some fields `omitempty`. The file also has the queue fetch and the
  reset of an application's launch delay.

The files of the model:

- `wrappers.dfy` has `Option` and `Result`.
- `go_json.dfy` states, over an abstract JSON tree, the parts of Go's
  `encoding/json` that these types rely on:
  - decoding into fresh zero values;
  - null for pointers, slices and maps;
  - a missing key gives the zero value;
  - unknown keys are ignored;
  - a type mismatch is an error;
  - a decoded object's field receives its key's value (`FieldFits`,
    `FieldGets`);
  - nil-versus-empty slices.
- `client.dfy` has:
  - the two API base paths;
  - `trimRootPath`;
  - the HTTP transport, as a function parameter;
  - the (value, error) shape of a call that decodes its response into a target.
- `pod_instance.dfy` holds:
  - the two-shape decoders;
  - `*PodInstanceID` as a class whose `UnmarshalJSON` assigns through the
    pointer;
  - `PodTaskCondition`'s value-receiver `UnmarshalJSON`, as a method that
    changes nothing;
  - the record decoders;
  - the URI builder and the delete calls.
- `queue.dfy` holds, for every queue record:
  - a decoder and an encoder;
  - a `…Doc` predicate that holds exactly of the documents that come back
    unchanged after a decode and an encode (the `…DocExactly` lemmas);
  - both round trips (value → JSON → value and JSON → value → JSON).

  It also holds the queue fetch and the delay reset.

The omitempty encoders write a field exactly when `ItemWrites` or
`SummaryWrites` says so:
- a zero `count` is left out;
- a nil pointer is left out;
- a slice of length 0 is left out, whether it is nil or empty;
- `since` and the two summary counts are always written.

That one rule decides both round trips. A value comes back after encoding
and decoding exactly when it holds no empty but non-nil omitempty list
(`ItemLossless`). A document comes back after decoding and encoding exactly
when it meets `ItemDoc`:
- no key outside the record's own;
- no omitempty field holding its empty value.

Where the code and its design intent differ, the model follows the code.
- `PodTaskCondition.UnmarshalJSON` has a value receiver (pod_instance.go:102).
  Its assignments at lines 122 and 124 land on a copy. The intent is that
  either wire shape decodes to the condition `s`. In the code, a decoded
  `PodTaskStatus` or `PodInstanceStateHistory` always has the empty
  condition. An undecodable condition still fails the record.
  `DecodeTaskStatus`, `DecodeStateHistory` and `RunningConditionIsDropped`
  state this.
- Unknown keys are dropped on decoding. So a document with keys that
  `queue.go` does not declare does not come back unchanged. `ItemDoc` and
  the other `…Doc` predicates therefore admit only declared keys.

## Model

| member | source | states |
|---|---|---|
| GoJson.DecodeMap | pod_instance.go:29 | null gives a nil map and any other non-object is a mismatch against map. An object decodes exactly when every entry decodes, and then gives a non-nil map with the same keys, each holding its entry's decoded value. A failure carries the error of one failing entry |
| Client.TrimRootPath | pod_instance.go:159 | the result is the path with its one leading '/' removed when it has one, and the path itself otherwise |
| Client.CallInto | pod_instance.go:150-155 | a call returns the transport's error unchanged; or a decode failure when the response does not fit the target; or the target decoded from the response. It succeeds exactly when both the send and the decode succeed |
| PodInstances.DecodeInstanceId | pod_instance.go:46-72 | the object shape is tried first and wins whenever it decodes. `{"idString": s}` gives s, and extra keys are ignored. A missing or null idString gives "", and so does null. A bare string is the identifier. It fails exactly on a number, bool or array, or an object whose idString is neither a string nor null. The error is the bare-string attempt's |
| PodInstances.PodInstanceIdRef.UnmarshalJSON | pod_instance.go:46-72 | on success the referenced identifier becomes the decoded one and no error is returned. On failure the error is returned and the identifier is left unchanged |
| PodInstances.DecodeTaskCondition | pod_instance.go:102-127 | the condition the method computes on its copy: `{"str": s}` gives s and a bare string gives itself. A missing or null str, and null, give "". It fails exactly on a number, bool or array, or an object whose str holds another kind |
| PodInstances.PodTaskConditionVar.UnmarshalJSON | pod_instance.go:102-127 | the stored condition never changes. An error is returned exactly when the input decodes in neither shape, and it is the decoder's error |
| PodInstances.DecodeNetworkInfo | pod_instance.go:129-134 | null, and an object holding none of the network keys, give the zero network info; any other non-object is a mismatch against PodNetworkInfo. An object decodes exactly when the value under each of its tagged keys fits that field's type, and then every field receives its key's decoded value, or its zero value when the key is missing; unknown keys are ignored |
| PodInstances.DecodeTaskStatus | pod_instance.go:90-97 | null gives the zero status and any other non-object is a mismatch against PodTaskStatus. An object decodes exactly when the value under each of its tagged keys fits that field's type, and then every field receives its key's decoded value, or its zero value when the key is missing; unknown keys are ignored. The condition is the exception: it is always "", though a condition in neither shape still makes the record fail |
| PodInstances.DecodeStateHistory | pod_instance.go:35-41 | null gives the zero state history and any other non-object is a mismatch against PodInstanceStateHistory. An object decodes exactly when the value under each of its tagged keys fits that field's type, and then every field receives its key's decoded value, or its zero value when the key is missing; unknown keys are ignored. The condition is the exception: it is always "", though a condition in neither shape still makes the record fail |
| PodInstances.RunningConditionIsDropped | pod_instance.go:122-124 | "running", sent in either shape, decodes to "running"; the state history that carries it still comes out with condition "" |
| PodInstances.DecodePodInstance | pod_instance.go:25-33 | null gives the zero instance and any other non-object is a mismatch against PodInstance. An object decodes exactly when the value under each of its tagged keys fits that field's type, and then every field receives its key's decoded value, or its zero value when the key is missing; unknown keys are ignored; the identifier is what DecodeInstanceId gives for either shape. The state's condition is always "" |
| PodInstances.DecodeAgentInfo | pod_instance.go:74-81 | null, and an object holding none of the agent's keys, give the zero agent; any other non-object is a mismatch against PodAgentInfo. An object decodes exactly when the value under each of its tagged keys fits that field's type, and then every field receives its key's decoded value, or its zero value when the key is missing; unknown keys are ignored |
| PodInstances.DecodePodTask | pod_instance.go:83-88 | null, and an object holding none of the task's keys, give the zero task; any other non-object is a mismatch against PodTask. An object decodes exactly when the value under each of its tagged keys fits that field's type, and then every field receives its key's decoded value, or its zero value when the key is missing; unknown keys are ignored |
| PodInstances.BuildPodInstancesUri | pod_instance.go:158-160 | the URI is the pods base path, then "/", then the pod path with its leading '/' removed, then "::instances" |
| PodInstances.PodInstancesUriIgnoresRootSlash | pod_instance.go:158-160 | "/name" and "name" give the same instances URI |
| PodInstances.PodInstancesUriInjective | pod_instance.go:158-160 | two pod names give the same URI exactly when they are equal once the leading '/' is removed |
| PodInstances.DeletePodInstanceRequest | pod_instance.go:149-151 | a DELETE of the pod's instances URI followed by "/" and the instance, with no body |
| PodInstances.DeletePodInstancesRequest | pod_instance.go:138-140 | a DELETE of the pod's instances URI. The body is the instance list as a JSON array of its strings in order, or null exactly when the list is nil |
| PodInstances.DeletePodInstance | pod_instance.go:148-156 | a failed call gives no instance and the transport error. Success happens exactly when the call succeeds and its answer decodes as a PodInstance, and the result is that decoded instance. An answer that does not decode gives its decode error |
| PodInstances.DeletePodInstances | pod_instance.go:137-145 | a failed call gives no list and the transport error. Success happens exactly when the answer decodes as a list of instance pointers, and the result is that list in the server's order. An answer that does not decode gives its decode error |
| PodInstances.DeletedInstanceIdEchoed | pod_instance_test.go:29-40 | when the server answers with the deleted instance, its identifier in either shape, the returned instance carries the requested identifier |
| PodInstances.DeletedInstancesIdEchoed | pod_instance_test.go:42-50 | a one-element answer echoing the requested instance gives a one-element list whose instance has that identifier |
| Queues.EncodeSummary | queue.go:46-53 | the encoding always has both counts. It has each timestamp exactly when it is set, each reject list exactly when it is non-empty, and no other key |
| Queues.EncodeSummaryAt | queue.go:46-53 | each key the summary encoder writes holds the encoding of its field |
| Queues.DecodeSummary | queue.go:46-53 | null, and an object holding none of the summary's keys, give the zero summary; any other non-object is a mismatch against ProcessedOffersSummary. An object decodes exactly when the value under each of its tagged keys fits that field's type, and then every field receives its key's decoded value, or its zero value when the key is missing; unknown keys are ignored |
| Queues.SummaryRoundTrip | queue.go:46-53 | encoding a summary and decoding the result gives the summary back exactly when neither reject list is empty but non-nil |
| Queues.SummaryDocRoundTrip | queue.go:46-53 | a summary document decodes, and encoding the result gives the document back |
| Queues.SummaryEncodingIsDoc | queue.go:46-53 | every encoded summary meets SummaryDoc |
| Queues.SummaryDocExactly | queue.go:46-53 | a document meets SummaryDoc exactly when it decodes and encoding the result gives it back |
| Queues.DecodeItem | queue.go:29-38 | null, and an object holding none of the item's keys, give the zero item; any other non-object is a mismatch against Item. An object decodes exactly when the value under each of its tagged keys fits that field's type, and then every field receives its key's decoded value, or its zero value when the key is missing; unknown keys are ignored |
| Queues.DecodeItemObject | queue.go:29-38 | the same per-key statement for the item's object: no item key gives the zero item; the object decodes exactly when each tagged key fits, and each field then receives its key's value |
| Queues.EncodeItem | queue.go:30-38 | `since` is always written. `count` is written exactly when it is non-zero; delay, app, pod and processedOffersSummary exactly when the pointer is set; lastUnusedOffers exactly when it is non-empty. No other key is written |
| Queues.EncodeItemAt | queue.go:30-38 | each key the item encoder writes holds the encoding of its field |
| Queues.DecodeEncodedItem | queue.go:30-38 | decoding an encoded item gives every field back, with two exceptions: an empty list of unused offers comes back nil, and the summary comes back as its own round trip gives it |
| Queues.ItemRoundTrip | queue.go:30-38 | encoding an item and decoding the result gives the item back exactly when it holds no empty but non-nil omitempty list, its summary's included |
| Queues.DecodeItemDoc | queue.go:30-38 | an item document decodes to an item whose written fields are exactly the document's keys, each with the document's value |
| Queues.EncodeItemFieldsOf | queue.go:30-38 | an item whose written fields are exactly an object's keys and values encodes to that object |
| Queues.ItemDocRoundTrip | queue.go:30-38 | an item document decodes, and encoding the result gives the document back |
| Queues.ItemEncodingIsDoc | queue.go:29-38 | every encoded item meets ItemDoc |
| Queues.ItemDocExactly | queue.go:29-38 | a document meets ItemDoc exactly when it decodes and encoding the result gives it back |
| Queues.DecodeRange | queue.go:84-87 | null, and an object holding none of the record's keys, give the zero Range; any other non-object is a mismatch against Range. An object decodes exactly when the value under each of its tagged keys fits that field's type, and then every field receives its key's decoded value, or its zero value when the key is missing; unknown keys are ignored |
| Queues.EncodeRange | queue.go:84-87 | every field is written under its tag and no other key is; none of them is omitempty. RangeRoundTrip and RangeDocExactly relate it to the decoder |
| Queues.RangeRoundTrip | queue.go:84-87 | a range comes back unchanged after encoding and decoding |
| Queues.DecodeRejectSummary | queue.go:90-94 | null, and an object holding none of the record's keys, give the zero RejectSummary; any other non-object is a mismatch against RejectSummary. An object decodes exactly when the value under each of its tagged keys fits that field's type, and then every field receives its key's decoded value, or its zero value when the key is missing; unknown keys are ignored |
| Queues.EncodeRejectSummary | queue.go:90-94 | every field is written under its tag and no other key is; none of them is omitempty. RejectSummaryRoundTrip and RejectSummaryDocExactly relate it to the decoder |
| Queues.RejectSummaryRoundTrip | queue.go:90-94 | a reject summary comes back unchanged after encoding and decoding |
| Queues.DecodeAttributes | queue.go:77-82 | null, and an object holding none of the record's keys, give the zero Attributes; any other non-object is a mismatch against Attributes. An object decodes exactly when the value under each of its tagged keys fits that field's type, and then every field receives its key's decoded value, or its zero value when the key is missing; unknown keys are ignored |
| Queues.EncodeAttributes | queue.go:77-82 | every field is written under its tag and no other key is; none of them is omitempty. AttributesRoundTrip and AttributesDocExactly relate it to the decoder |
| Queues.AttributesRoundTrip | queue.go:77-82 | attributes come back unchanged after encoding and decoding, nil and empty lists alike |
| Queues.DecodeOfferResources | queue.go:69-75 | null, and an object holding none of the record's keys, give the zero OfferResources; any other non-object is a mismatch against OfferResources. An object decodes exactly when the value under each of its tagged keys fits that field's type, and then every field receives its key's decoded value, or its zero value when the key is missing; unknown keys are ignored |
| Queues.EncodeOfferResources | queue.go:69-75 | every field is written under its tag and no other key is; none of them is omitempty. OfferResourcesRoundTrip and OfferResourcesDocExactly relate it to the decoder |
| Queues.OfferResourcesRoundTrip | queue.go:69-75 | an offered resource comes back unchanged after encoding and decoding |
| Queues.DecodeOffer | queue.go:61-67 | null, and an object holding none of the record's keys, give the zero Offer; any other non-object is a mismatch against Offer. An object decodes exactly when the value under each of its tagged keys fits that field's type, and then every field receives its key's decoded value, or its zero value when the key is missing; unknown keys are ignored |
| Queues.EncodeOffer | queue.go:61-67 | every field is written under its tag and no other key is; none of them is omitempty. OfferRoundTrip and OfferDocExactly relate it to the decoder |
| Queues.OfferRoundTrip | queue.go:61-67 | an offer comes back unchanged after encoding and decoding |
| Queues.DecodeLastUnusedOffers | queue.go:55-59 | null, and an object holding none of the record's keys, give the zero LastUnusedOffers; any other non-object is a mismatch against LastUnusedOffers. An object decodes exactly when the value under each of its tagged keys fits that field's type, and then every field receives its key's decoded value, or its zero value when the key is missing; unknown keys are ignored |
| Queues.EncodeLastUnusedOffers | queue.go:55-59 | every field is written under its tag and no other key is; none of them is omitempty. LastUnusedOffersRoundTrip and LastUnusedOffersDocExactly relate it to the decoder |
| Queues.LastUnusedOffersRoundTrip | queue.go:55-59 | an unused-offer record comes back unchanged after encoding and decoding |
| Queues.AttributesDocRoundTrip | queue.go:77-82 | an attributes document decodes, and encoding the result gives it back |
| Queues.OfferResourcesDocRoundTrip | queue.go:69-75 | an offered-resource document decodes, and encoding the result gives it back |
| Queues.OfferDocRoundTrip | queue.go:61-67 | an offer document decodes, and encoding the result gives it back |
| Queues.LastUnusedOffersDocRoundTrip | queue.go:55-59 | an unused-offer document decodes, and encoding the result gives it back |
| Queues.RangeDocExactly | queue.go:84-87 | a document meets RangeDoc exactly when it decodes and encoding the result gives it back |
| Queues.DecodeDelay | queue.go:40-44 | null, and an object holding none of the record's keys, give the zero Delay; any other non-object is a mismatch against Delay. An object decodes exactly when the value under each of its tagged keys fits that field's type, and then every field receives its key's decoded value, or its zero value when the key is missing; unknown keys are ignored |
| Queues.EncodeDelay | queue.go:40-44 | every field is written under its tag and no other key is; none of them is omitempty. DelayRoundTrip and DelayDocExactly relate it to the decoder |
| Queues.DelayRoundTrip | queue.go:40-44 | a delay comes back unchanged after encoding and decoding |
| Queues.DelayDocExactly | queue.go:40-44 | a document meets DelayDoc exactly when it decodes and encoding the result gives it back |
| Queues.RejectSummaryDocExactly | queue.go:90-94 | a document meets RejectSummaryDoc exactly when it decodes and encoding the result gives it back |
| Queues.AttributesDocExactly | queue.go:77-82 | a document meets AttributesDoc exactly when it decodes and encoding the result gives it back |
| Queues.OfferResourcesDocExactly | queue.go:69-75 | a document meets OfferResourcesDoc exactly when it decodes and encoding the result gives it back |
| Queues.OfferDocExactly | queue.go:61-67 | a document meets OfferDoc exactly when it decodes and encoding the result gives it back |
| Queues.LastUnusedOffersDocExactly | queue.go:55-59 | a document meets LastUnusedOffersDoc exactly when it decodes and encoding the result gives it back |
| Queues.DecodeQueue | queue.go:24-27 | null, and an object without "queue", give a queue with a nil item list; any other non-object is a mismatch against Queue. An object decodes exactly when its "queue" value, if any, decodes as a list of items, and the queue then holds those items in order; other keys are ignored. A failing "queue" value gives its decode error |
| Queues.EncodeQueue | queue.go:24-27 | the encoding has the one key "queue". It holds null exactly when the item list is nil, and otherwise an array of each item's encoding, in order |
| Queues.LosslessQueueRoundTrip | queue.go:25-27 | a queue whose items are all lossless comes back unchanged, items in the same order |
| Queues.QueueRoundTrip | queue.go:25-38 | encoding a queue and decoding the result gives the same queue, items in order, exactly when every item is lossless |
| Queues.QueueDocRoundTrip | queue_test.go:52-67 | a queue document whose items all meet ItemDoc decodes, and encoding the result gives the document back |
| Queues.QueueEncodingIsDoc | queue.go:24-27 | every encoded queue meets QueueDoc |
| Queues.QueueDocExactly | queue.go:24-27 | a document meets QueueDoc exactly when it decodes and encoding the result gives it back |
| Queues.FetchQueue | queue.go:96-104 | a failed fetch gives the transport error unchanged, and a null answer gives no queue and no error. Any other answer gives the queue it decodes to, or that decode's error |
| Queues.DeleteQueueDelayRequest | queue.go:108-110 | a DELETE of the application's delay path, with no body |
| Queues.DeleteQueueDelay | queue.go:106-111 | the answer is not decoded. An error comes back exactly when the call fails, and it is the call's own error |
| Queues.QueueDelayPath | queue.go:109 | the path is the queue base path, then "/", then the application id with its leading '/' removed, then "/delay" |
| Queues.QueueDelayPathIgnoresRootSlash | queue.go:109 | "/app" and "app" reset the same delay |
| Queues.QueueDelayPathInjective | queue.go:109 | two applications give the same delay path exactly when they are equal once the leading '/' is removed |

## Left out

- The HTTP transport (`apiGet`, `apiDelete`) is a function parameter from request to JSON answer or error. Its own behaviour and the fake endpoint of the tests are not modelled.
- JSON text is not modelled. Parsing, indentation, Go's case-insensitive key matching, object key order and duplicate keys all belong to `encoding/json`; the model works on a JSON tree.
- Numbers are integers. A JSON float, or a number outside Go's 64-bit `int`, is a decode error, as `encoding/json` reports it.
- `time.Time` is kept as its text. RFC 3339 parsing and formatting, and their canonicalisation, are left out, so a timestamp survives unchanged.
- Application, Pod, EnabledUnreachableStrategy and IPAddress are not part of this model. Each is a placeholder that keeps its JSON object, which makes it lossless by assumption.
- Go's error texts are not modelled. The error is the kind found and the target type, without a field path. When several fields fail, the model reports the first in declaration order; for map entries it reports an unspecified failing one.
- Go's decoder keeps going after a type mismatch and fills the other fields; the model returns only the error.
- The values of marathonAPIPods and marathonAPIQueue are taken as "v2/pods" and "v2/queue", because the file that declares them is not part of this model. No property depends on the values.
- trimRootPath: its definition is not part of this model, so it is taken to strip exactly one leading '/'.
- The tests read `InstanceID.ID`, but in `pod_instance.go:44` an instance ID is a plain string, so the model uses the string itself.
- DecodePodInstance, DecodeTasksMap, DeletePodInstance and DeletePodInstances are ghost functions. Decoding a map that has a failing entry picks that entry by choice, not in iteration order.
