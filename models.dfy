/** The `SavedObject` record and the JSON values it carries. */
module Models {
  import opened Wrappers

  /** A decoded JSON value, as Go's `encoding/json` produces it inside an
      `interface{}`. Numbers are kept as their literal text: the model
      never computes with them. */
  datatype Json =
    | JNull
    | JBool(b: bool)
    | JNumber(literal: string)
    | JString(s: string)
    | JArray(items: seq<Json>)
    | JObject(fields: map<string, Json>)

  /** A Go `map[string]interface{}` holding attributes, which may be nil.
      Reading a nil map finds nothing and encoding it gives `null`, but
      writing into it panics. */
  datatype AttributeMap = NilMap | MapOf(entries: map<string, Json>)

  /** One saved object: its id, the space it lives in and its raw
      attribute map. */
  datatype SavedObject = SavedObject(id: string, spaceId: string, attributes: AttributeMap)

  /** The zero value `models.SavedObject{}`, whose attribute map is nil. */
  const EmptySavedObject := SavedObject("", "", NilMap)

  /** The JSON codec the source calls (`json.Marshal` of an attribute map,
      `json.NewDecoder(...).Decode` into one). It is a collaborator: the
      model only sees whether each call succeeds and what it yields.
      Decoding the text `null` into a map succeeds and leaves the map nil,
      which `decodeObject` reports as `NilMap`. */
  datatype JsonCodec = JsonCodec(
    marshal: AttributeMap -> Result<string>,
    decodeObject: string -> Result<AttributeMap>)

  /** A codec whose decoder reads back exactly what its encoder wrote. */
  ghost predicate RoundTrips(codec: JsonCodec)
  {
    forall m :: codec.marshal(m).Success? ==> codec.decodeObject(codec.marshal(m).value) == Success(m)
  }
}
