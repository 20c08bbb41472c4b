/** JSON values as JavaScript holds them: object members in insertion order. */
module Json {
  import opened JsText

  datatype Json =
    | Null
    | Bool(b: bool)
    | Num(n: real)
    | Str(text: Text)
    | Arr(items: seq<Json>)
    | Obj(members: seq<Member>)

  datatype Member = Member(key: Text, value: Json)
}
