/** The parts of Go's encoding/json behaviour that the client's types rely on,
    stated over an abstract JSON tree instead of JSON text.

    A decoder here always decodes into a freshly zeroed Go value, which is what
    every call site in the modelled code does: a JSON null leaves a value type at
    its zero value and sets a pointer, slice or map to nil; a missing object key
    leaves its field at zero; unknown keys are ignored. */
module GoJson {
  import opened Wrappers

  /** A JSON document. Numbers are integers; objects are unordered. */
  datatype Json =
    | JNull
    | JBool(b: bool)
    | JNum(n: int)
    | JStr(s: string)
    | JArr(items: seq<Json>)
    | JObj(fields: map<string, Json>)

  /** Go's `int` on a 64-bit platform. */
  const MinInt: int := -0x8000_0000_0000_0000
  const MaxInt: int := 0x7FFF_FFFF_FFFF_FFFF
  newtype GoInt = x: int | MinInt <= x <= MaxInt

  /** Go's UnmarshalTypeError: a JSON value of kind `found` cannot be stored in
      a Go value of type `target`. */
  datatype DecodeError = TypeMismatch(found: string, target: string)

  type Decoder<T> = Json -> Result<T, DecodeError>

  /** The word Go's decoder uses for the kind of a JSON value in its errors. */
  function KindOf(j: Json): string {
    match j
    case JNull => "null"
    case JBool(_) => "bool"
    case JNum(_) => "number"
    case JStr(_) => "string"
    case JArr(_) => "array"
    case JObj(_) => "object"
  }

  // ---------------------------------------------------------------------------
  // Scalars

  function DecodeString(j: Json): Result<string, DecodeError> {
    match j
    case JNull => Ok("")
    case JStr(s) => Ok(s)
    case _ => Err(TypeMismatch(KindOf(j), "string"))
  }

  function EncodeString(s: string): Json {
    JStr(s)
  }

  /** A number outside the range of a 64-bit int is refused, like any other
      value that does not fit its target. */
  function DecodeInt(j: Json): Result<GoInt, DecodeError> {
    match j
    case JNull => Ok(0)
    case JNum(n) =>
      if MinInt <= n <= MaxInt then Ok(n as GoInt) else Err(TypeMismatch("number", "int"))
    case _ => Err(TypeMismatch(KindOf(j), "int"))
  }

  function EncodeInt(x: GoInt): Json {
    JNum(x as int)
  }

  function DecodeBool(j: Json): Result<bool, DecodeError> {
    match j
    case JNull => Ok(false)
    case JBool(b) => Ok(b)
    case _ => Err(TypeMismatch(KindOf(j), "bool"))
  }

  function EncodeBool(b: bool): Json {
    JBool(b)
  }

  /** A time.Time, kept as its RFC 3339 text; parsing and formatting are not
      modelled. */
  datatype Time = Time(text: string)

  /** Go's zero time.Time, as its JSON encoder writes it. */
  const ZeroTime := Time("0001-01-01T00:00:00Z")

  function DecodeTime(j: Json): Result<Time, DecodeError> {
    match j
    case JNull => Ok(ZeroTime)
    case JStr(s) => Ok(Time(s))
    case _ => Err(TypeMismatch(KindOf(j), "time.Time"))
  }

  function EncodeTime(t: Time): Json {
    JStr(t.text)
  }

  /** A struct type whose definition is not part of this model (Application,
      Pod, EnabledUnreachableStrategy, IPAddress): its object is kept as it is. */
  datatype Opaque = Opaque(fields: map<string, Json>)

  function DecodeOpaque(j: Json): Result<Opaque, DecodeError> {
    match j
    case JNull => Ok(Opaque(map[]))
    case JObj(m) => Ok(Opaque(m))
    case _ => Err(TypeMismatch(KindOf(j), "struct"))
  }

  function EncodeOpaque(o: Opaque): Json {
    JObj(o.fields)
  }

  // ---------------------------------------------------------------------------
  // Struct fields, pointers, slices and maps

  /** The value a struct field receives from object `m`: missing keys leave it
      at its zero value. The ensures only unfold the definition, as a case
      split for callers. */
  function Field<T>(m: map<string, Json>, key: string, dec: Decoder<T>, zero: T): (r: Result<T, DecodeError>)
    ensures key !in m ==> r == Ok(zero)
    ensures key in m ==> r == dec(m[key])
  {
    if key in m then dec(m[key]) else Ok(zero)
  }

  /** The object's value under `key`, if it has one, decodes into the field's
      type. */
  predicate FieldFits<T>(m: map<string, Json>, key: string, dec: Decoder<T>) {
    key in m ==> dec(m[key]).Ok?
  }

  /** `v` is what the struct field tagged `key` receives: the decoded value
      when the key is present and the zero value when it is missing. */
  predicate FieldGets<T(==)>(m: map<string, Json>, key: string, dec: Decoder<T>, zero: T, v: T) {
    if key in m then dec(m[key]) == Ok(v) else v == zero
  }

  /** A pointer field: null makes it nil, anything else is decoded into a
      freshly allocated value. The ensures only unfold the definition, as a
      case split for callers. */
  function DecodePtr<T>(j: Json, dec: Decoder<T>): (r: Result<Option<T>, DecodeError>)
    ensures j.JNull? ==> r == Ok(None)
    ensures !j.JNull? && dec(j).Ok? ==> r == Ok(Some(dec(j).value))
    ensures !j.JNull? && dec(j).Err? ==> r == Err(dec(j).error)
  {
    if j.JNull? then Ok(None) else
      var v :- dec(j);
      Ok(Some(v))
  }

  /** A Go slice, which may be nil (encoded as null) or hold zero or more
      elements (encoded as an array). */
  datatype Slice<T> = Nil | Of(elems: seq<T>) {
    /** Go's len(s); omitempty drops a slice whose length is 0. */
    function Len(): nat {
      if Nil? then 0 else |elems|
    }
  }

  /** The elements of a JSON array decoded in order; the first element that
      fails gives the error. */
  function DecodeArray<T>(js: seq<Json>, dec: Decoder<T>): (r: Result<seq<T>, DecodeError>)
    ensures r.Ok? <==> forall i :: 0 <= i < |js| ==> dec(js[i]).Ok?
    ensures r.Ok? ==> |r.value| == |js| && forall i :: 0 <= i < |js| ==> dec(js[i]) == Ok(r.value[i])
    ensures r.Err? ==> exists i :: 0 <= i < |js| && dec(js[i]) == Err(r.error)
                                   && forall k :: 0 <= k < i ==> dec(js[k]).Ok?
    decreases |js|
  {
    if js == [] then Ok([]) else
      var head :- dec(js[0]);
      var tail :- DecodeArray(js[1..], dec);
      Ok([head] + tail)
  }

  function EncodeArray<T>(xs: seq<T>, enc: T -> Json): (r: seq<Json>)
    ensures |r| == |xs| && forall i :: 0 <= i < |xs| ==> r[i] == enc(xs[i])
    decreases |xs|
  {
    if xs == [] then [] else [enc(xs[0])] + EncodeArray(xs[1..], enc)
  }

  /** A slice field: null makes it nil, an array (even an empty one) makes it
      a non-nil slice. */
  function DecodeSlice<T>(j: Json, dec: Decoder<T>): Result<Slice<T>, DecodeError> {
    match j
    case JNull => Ok(Nil)
    case JArr(js) =>
      var xs :- DecodeArray(js, dec);
      Ok(Of(xs))
    case _ => Err(TypeMismatch(KindOf(j), "slice"))
  }

  function DecodeStrings(j: Json): Result<Slice<string>, DecodeError> {
    DecodeSlice(j, DecodeString)
  }

  function EncodeSlice<T>(s: Slice<T>, enc: T -> Json): Json {
    match s
    case Nil => JNull
    case Of(xs) => JArr(EncodeArray(xs, enc))
  }

  /** A map[string]T field: null makes it nil; an object is decoded entry by
      entry, and a failing entry makes the whole map fail. */
  ghost function DecodeMap<T>(j: Json, dec: Decoder<T>): (r: Result<Option<map<string, T>>, DecodeError>)
    ensures r.Ok? && r.value.Some? ==>
      j.JObj? && r.value.value.Keys == j.fields.Keys
      && forall k :: k in j.fields ==> dec(j.fields[k]) == Ok(r.value.value[k])
    ensures r.Err? ==> j.JObj? ==> exists k :: k in j.fields && dec(j.fields[k]) == Err(r.error)
    ensures j.JNull? ==> r == Ok(None)
    ensures j.JObj? ==> (r.Ok? <==> forall k :: k in j.fields ==> dec(j.fields[k]).Ok?)
    ensures j.JObj? && r.Ok? ==> r.value.Some?
    ensures !j.JNull? && !j.JObj? ==> r == Err(TypeMismatch(KindOf(j), "map"))
  {
    match j
    case JNull => Ok(None)
    case JObj(m) =>
      if forall k :: k in m ==> dec(m[k]).Ok? then
        Ok(Some(map k | k in m :: dec(m[k]).value))
      else
        var k :| k in m && dec(m[k]).Err?;
        Err(dec(m[k]).error)
    case _ => Err(TypeMismatch(KindOf(j), "map"))
  }

  // ---------------------------------------------------------------------------
  // Documents that decode and re-encode without change

  predicate IntDoc(j: Json) {
    j.JNum? && MinInt <= j.n <= MaxInt
  }

  predicate StringDoc(j: Json) {
    j.JStr?
  }

  /** A slice field that is always emitted: null, or an array of element
      documents. */
  predicate SliceDoc(j: Json, elemDoc: Json -> bool) {
    j.JNull? || (j.JArr? && forall i :: 0 <= i < |j.items| ==> elemDoc(j.items[i]))
  }

  /** An omitempty slice field that is present: a non-empty array of element
      documents. */
  predicate NonEmptySliceDoc(j: Json, elemDoc: Json -> bool) {
    j.JArr? && |j.items| > 0 && forall i :: 0 <= i < |j.items| ==> elemDoc(j.items[i])
  }

  /** Every element document decodes, and encoding what it decodes to gives
      the document back. */
  ghost predicate DocsRoundTrip<T>(elemDoc: Json -> bool, dec: Decoder<T>, enc: T -> Json) {
    forall j :: elemDoc(j) ==> dec(j).Ok? && enc(dec(j).value) == j
  }

  lemma StringDocsRoundTrip()
    ensures DocsRoundTrip(StringDoc, DecodeString, EncodeString)
  {
  }

  lemma {:induction false} ArrayRoundTrip<T>(xs: seq<T>, dec: Decoder<T>, enc: T -> Json)
    requires forall i :: 0 <= i < |xs| ==> dec(enc(xs[i])) == Ok(xs[i])
    ensures DecodeArray(EncodeArray(xs, enc), dec) == Ok(xs)
  {
    var js := EncodeArray(xs, enc);
    var r := DecodeArray(js, dec);
    assert r.Ok? by {
      forall i | 0 <= i < |js| ensures dec(js[i]).Ok? {
        assert js[i] == enc(xs[i]);
      }
    }
    assert r.value == xs;
  }

  lemma {:induction false} SliceRoundTrip<T>(s: Slice<T>, dec: Decoder<T>, enc: T -> Json)
    requires s.Of? ==> forall i :: 0 <= i < |s.elems| ==> dec(enc(s.elems[i])) == Ok(s.elems[i])
    ensures DecodeSlice(EncodeSlice(s, enc), dec) == Ok(s)
  {
    if s.Of? {
      ArrayRoundTrip(s.elems, dec, enc);
    }
  }

  lemma {:induction false} ArrayDocRoundTrip<T>(js: seq<Json>, elemDoc: Json -> bool, dec: Decoder<T>, enc: T -> Json)
    requires forall i :: 0 <= i < |js| ==> elemDoc(js[i])
    requires DocsRoundTrip(elemDoc, dec, enc)
    ensures DecodeArray(js, dec).Ok? && EncodeArray(DecodeArray(js, dec).value, enc) == js
  {
    var r := DecodeArray(js, dec);
    assert r.Ok? by {
      forall i | 0 <= i < |js| ensures dec(js[i]).Ok? {
        assert elemDoc(js[i]);
      }
    }
    var back := EncodeArray(r.value, enc);
    forall i | 0 <= i < |js| ensures back[i] == js[i] {
      assert elemDoc(js[i]);
      assert dec(js[i]) == Ok(r.value[i]);
    }
  }

  /** The encoding of a slice whose elements encode to element documents is a
      slice document, and a non-empty one when the slice is non-empty. */
  lemma EncodeSliceDoc<T>(s: Slice<T>, enc: T -> Json, elemDoc: Json -> bool)
    requires s.Of? ==> forall i :: 0 <= i < |s.elems| ==> elemDoc(enc(s.elems[i]))
    ensures SliceDoc(EncodeSlice(s, enc), elemDoc)
    ensures s.Len() > 0 ==> NonEmptySliceDoc(EncodeSlice(s, enc), elemDoc)
  {
  }

  lemma SliceDocRoundTrip<T>(j: Json, elemDoc: Json -> bool, dec: Decoder<T>, enc: T -> Json)
    requires SliceDoc(j, elemDoc) || NonEmptySliceDoc(j, elemDoc)
    requires DocsRoundTrip(elemDoc, dec, enc)
    ensures DecodeSlice(j, dec).Ok? && EncodeSlice(DecodeSlice(j, dec).value, enc) == j
    ensures NonEmptySliceDoc(j, elemDoc) ==> DecodeSlice(j, dec).value.Len() > 0
  {
    if j.JArr? {
      ArrayDocRoundTrip(j.items, elemDoc, dec, enc);
    }
  }
}
