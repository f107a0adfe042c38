/** JSON values, standing for Jackson's `JsonNode` trees and for the
    preserved "others" properties of a schema. */
module Json {

  datatype Json =
    | JNull
    | JBool(b: bool)
    | JNumber(n: real)
    | JString(s: string)
    | JArray(items: seq<Json>)
    | JObject(members: map<string, Json>)
}
