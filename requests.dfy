/**
 * The values the client works on: a request (verb, relative path, body), the
 * connection's base URL, the two whitelists and the verb check that
 * `doRequest` performs before anything is sent.
 */
module Requests {
  import opened Wrappers
  import Ascii

  /** What a body entry may hold: the PHP values the endpoints put there. */
  datatype Value = Str(s: string) | Bool(b: bool) | Int(i: int) | List(items: seq<string>)

  /** The PHP associative array handed to `doRequest` (key order is not modelled). */
  type Body = map<string, Value>

  /** One call of `doRequest`: the HTTP verb, the path relative to the base URL, the body. */
  datatype Request = Request(verb: string, path: string, body: Body)

  /** `\InvalidArgumentException`, carrying the value that was refused. */
  datatype Error = InvalidArgument(supplied: string)

  const AllowedHttpVerbs: seq<string> := ["GET", "POST", "PUT", "PATCH", "DELETE"]

  const AllowedExtensions: seq<string> := ["pdf", "docx", "doc", "xlsx", "deb", "gz", "7z", "zip"]

  const ApiRoot: string := "https://api.z-api.io/instances/"

  /** The base URL the constructor derives from the two credentials. */
  function BaseUrl(instanceId: string, tokenId: string): (u: string)
    ensures |u| == |ApiRoot| + |instanceId| + |tokenId| + 8
    ensures u[..|ApiRoot|] == ApiRoot && u[|ApiRoot|..|ApiRoot| + |instanceId|] == instanceId
    ensures u[|u| - |tokenId| - 8..] == "/token/" + tokenId + "/"
  {
    ApiRoot + instanceId + "/token/" + tokenId + "/"
  }

  /**
   * The check at the head of `doRequest`: the verb is upper-cased and must
   * then be on the whitelist; the result is the verb that is sent.
   */
  function CheckVerb(verb: string): (r: Result<string, Error>)
    ensures r.Ok? <==> exists w :: w in AllowedHttpVerbs && Ascii.CaseVariant(verb, w)
    ensures r.Ok? ==> r.value in AllowedHttpVerbs && Ascii.CaseVariant(verb, r.value)
    ensures r.Err? ==> r.error == InvalidArgument(Ascii.ToUpper(verb))
  {
    AllowedVerbsHaveNoLower();
    var v := Ascii.ToUpper(verb);
    forall w | w in AllowedHttpVerbs ensures v == w <==> Ascii.CaseVariant(verb, w) {
      Ascii.ToUpperIsCaseInsensitive(verb, w);
    }
    if v in AllowedHttpVerbs then Ok(v) else Err(InvalidArgument(v))
  }

  lemma AllowedVerbsHaveNoLower()
    ensures forall w :: w in AllowedHttpVerbs ==> Ascii.NoLower(w)
  {
  }

  /** A verb taken verbatim from the whitelist passes the check unchanged. */
  lemma CheckVerbOfAllowed(verb: string)
    requires verb in AllowedHttpVerbs
    ensures CheckVerb(verb) == Ok(verb)
  {
    AllowedVerbsHaveNoLower();
    Ascii.ToUpperOfNoLower(verb);
  }

  /** Any casing of a whitelisted verb is accepted, and the verb sent is the upper-case one. */
  lemma CheckVerbAnyCasing(verb: string, w: string)
    requires w in AllowedHttpVerbs && Ascii.CaseVariant(verb, w)
    ensures CheckVerb(verb) == Ok(w)
  {
    AllowedVerbsHaveNoLower();
    Ascii.ToUpperIsCaseInsensitive(verb, w);
  }

  lemma CheckVerbExamples()
    ensures CheckVerb("get") == Ok("GET")
    ensures CheckVerb("Patch") == Ok("PATCH")
    ensures CheckVerb("fetch") == Err(InvalidArgument("FETCH"))
  {
    CheckVerbAnyCasing("get", "GET");
    CheckVerbAnyCasing("Patch", "PATCH");
    assert Ascii.ToUpper("fetch") == "FETCH";
  }

  /**
   * When the instance id holds no '/', the base URL determines both
   * credentials.
   */
  lemma BaseUrlInjective(a1: string, b1: string, a2: string, b2: string)
    requires '/' !in a1 && '/' !in a2
    requires BaseUrl(a1, b1) == BaseUrl(a2, b2)
    ensures a1 == a2 && b1 == b2
  {
    var u := BaseUrl(a1, b1);
    var p := |ApiRoot|;
    assert u == ApiRoot + a1 + "/token/" + b1 + "/";
    assert u == ApiRoot + a2 + "/token/" + b2 + "/";
    assert forall i :: 0 <= i < |a1| ==> u[p + i] == a1[i];
    assert forall i :: 0 <= i < |a2| ==> u[p + i] == a2[i];
    assert u[p + |a1|] == '/' && u[p + |a2|] == '/';
    assert |a1| == |a2|;
    assert a1 == u[p..p + |a1|] == a2;
    assert b1 == u[p + |a1| + 7..|u| - 1] == b2;
  }

  /** Without that restriction two different credential pairs give one base URL. */
  lemma BaseUrlAmbiguous()
    ensures BaseUrl("x/token/y", "z") == BaseUrl("x", "y/token/z")
  {
  }

  lemma BaseUrlExample()
    ensures BaseUrl("ABC", "XYZ") == "https://api.z-api.io/instances/ABC/token/XYZ/"
  {
  }
}
