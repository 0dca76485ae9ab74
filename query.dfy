/** The input checks query_data makes before it forwards a question to the
    external language model, over the JSON body with Python's semantics. */
module Query {

  import opened Outcomes

  /** A JSON document as Python's json module decodes it. */
  datatype Json =
    | JNull
    | JBool(b: bool)
    | JNumber(n: real)
    | JString(s: string)
    | JArray(elems: seq<Json>)
    | JObject(members: map<string, Json>)

  /** Python truthiness: `not j` holds exactly for None, False, zero and empty containers. */
  predicate Truthy(j: Json)
  {
    match j
    case JNull => false
    case JBool(b) => b
    case JNumber(n) => n != 0.0
    case JString(s) => s != ""
    case JArray(a) => a != []
    case JObject(m) => m != map[]
  }

  predicate IsPrefix(p: string, s: string)
  {
    |p| <= |s| && s[..|p|] == p
  }

  /** `sub in s` on two Python strings. */
  predicate IsSubstring(sub: string, s: string)
    decreases |s|
  {
    IsPrefix(sub, s) || (s != [] && IsSubstring(sub, s[1..]))
  }

  /** `sub` occurs in `s` starting at position i. */
  predicate OccursAt(sub: string, s: string, i: int)
  {
    0 <= i <= |s| - |sub| && s[i..i + |sub|] == sub
  }

  /** The recursive definition finds `sub` exactly when it occurs at some position of `s`. */
  lemma {:induction false} IsSubstringAt(sub: string, s: string)
    ensures IsSubstring(sub, s) <==> exists i :: OccursAt(sub, s, i)
    decreases |s|
  {
    if IsPrefix(sub, s) {
      assert OccursAt(sub, s, 0);
    } else if s != [] {
      IsSubstringAt(sub, s[1..]);
      if IsSubstring(sub, s[1..]) {
        var i :| OccursAt(sub, s[1..], i);
        assert s[i + 1..i + 1 + |sub|] == s[1..][i..i + |sub|];
        assert OccursAt(sub, s, i + 1);
      }
      forall i | OccursAt(sub, s, i) ensures IsSubstring(sub, s[1..]) {
        if i != 0 {
          assert s[1..][i - 1..i - 1 + |sub|] == s[i..i + |sub|];
          assert OccursAt(sub, s[1..], i - 1);
        }
      }
    }
  }

  /** Python's `key in j`: a dictionary tests its keys, a list its elements
      and a string its substrings; on a bool or a number it raises TypeError. */
  function Contains(j: Json, key: string): (r: Result<bool>)
    ensures j.JObject? ==> r == Ok(key in j.members)
    ensures j.JArray? ==> r == Ok(exists i :: 0 <= i < |j.elems| && j.elems[i] == JString(key))
    ensures j.JString? ==> r == Ok(exists i :: OccursAt(key, j.s, i))
    ensures r.Err? <==> j.JNull? || j.JBool? || j.JNumber?
  {
    match j
    case JObject(m) => Ok(key in m)
    case JArray(a) => Ok(JString(key) in a)
    case JString(s) => IsSubstringAt(key, s); Ok(IsSubstring(key, s))
    case _ => Err(Uncaught(JsonTypeError))
  }

  /** The checks of query_data in their order; Ok carries the `text` value
      that goes into the prompt. */
  function CheckQuery(contentType: Option<string>, body: Option<Json>): (r: Result<Json>)
    ensures r == Err(UnsupportedMediaType) <==> contentType != Some("application/json")
    ensures r.Ok? <==>
              contentType == Some("application/json") && body.Some? && body.value.JObject? &&
              "text" in body.value.members && body.value.members["text"] != JString("")
    ensures r.Ok? ==> r.value == body.value.members["text"]
    ensures contentType == Some("application/json") && body.None? ==> r == Err(MalformedJson)
    ensures contentType == Some("application/json") && body.Some? && !Truthy(body.value) ==> r == Err(NoTextProvided)
    ensures contentType == Some("application/json") && body.Some? && body.value.JObject? ==>
              (r == Err(NoTextProvided) <==>
                 "text" !in body.value.members || body.value.members["text"] == JString(""))
    ensures r.Ok? || r.error in {UnsupportedMediaType, MalformedJson, NoTextProvided, Uncaught(JsonTypeError)}
  {
    if contentType != Some("application/json") then Err(UnsupportedMediaType)
    else
      match body
      case None => Err(MalformedJson)
      case Some(j) =>
        if !Truthy(j) then Err(NoTextProvided)
        else
          match Contains(j, "text")
          case Err(e) => Err(e)
          case Ok(found) =>
            if !found then Err(NoTextProvided)
            else if !j.JObject? then Err(Uncaught(JsonTypeError))  // `j['text']` on a list or a string
            else if j.members["text"] == JString("") then Err(NoTextProvided)
            else Ok(j.members["text"])
  }

  /** A body that is a list or a string mentioning "text", or a truthy number
      or boolean, passes the first two checks and then raises TypeError, so
      the client sees a 500 rather than "No text provided". */
  lemma NonObjectBodies(body: Json)
    requires Truthy(body) && !body.JObject?
    ensures CheckQuery(Some("application/json"), Some(body)) ==
            if Contains(body, "text") == Ok(false) then Err(NoTextProvided) else Err(Uncaught(JsonTypeError))
  {
  }
}
