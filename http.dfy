/**
 * The parts of a Next.js response the route handlers touch: the status,
 * a redirect location, a JSON body, and the cookies set or deleted on it.
 * The browser's cookie store is a map from name to value.
 */
module Http {
  import opened Common

  /** `60 * 60 * 24 * 365`: one year, in seconds. */
  const OneYear: int := 31536000

  /** `NextResponse.redirect` answers 307 by default. */
  const TemporaryRedirect: int := 307

  datatype CookieOp =
    | SetCookie(name: string, value: string, maxAge: int)
    | DeleteCookie(name: string)

  /** The store after the browser applies the response's cookie operations in order. */
  function ApplyCookies(jar: map<string, string>, ops: seq<CookieOp>): map<string, string>
  {
    if ops == [] then jar
    else
      var before := ApplyCookies(jar, ops[..|ops| - 1]);
      match ops[|ops| - 1]
      case SetCookie(name, value, _) => before[name := value]
      case DeleteCookie(name) => before - {name}
  }

  /** Names set by a later operation hold its value; deleted names are gone; every other cookie is kept. */
  lemma {:induction false} ApplyCookiesEffect(jar: map<string, string>, ops: seq<CookieOp>, name: string)
    ensures var r := ApplyCookies(jar, ops);
      (forall i :: 0 <= i < |ops| ==> ops[i].name != name) ==>
        (name in r <==> name in jar) && (name in jar ==> r[name] == jar[name])
    ensures |ops| > 0 && ops[|ops| - 1].DeleteCookie? && ops[|ops| - 1].name == name ==>
      name !in ApplyCookies(jar, ops)
    ensures |ops| > 0 && ops[|ops| - 1].SetCookie? && ops[|ops| - 1].name == name ==>
      name in ApplyCookies(jar, ops) && ApplyCookies(jar, ops)[name] == ops[|ops| - 1].value
  {
    if ops != [] {
      ApplyCookiesEffect(jar, ops[..|ops| - 1], name);
    }
  }

  /** A response under construction; `B` is the shape of its JSON body. */
  class Response<B> {
    var status: int
    var location: Option<string>
    var body: Option<B>
    var cookieOps: seq<CookieOp>

    /** `NextResponse.redirect(url)`. */
    constructor Redirect(url: string)
      ensures status == TemporaryRedirect && location == Some(url) && body == None && cookieOps == []
    {
      status := TemporaryRedirect;
      location := Some(url);
      body := None;
      cookieOps := [];
    }

    /** `NextResponse.json(body, { status })`. */
    constructor Json(b: B, code: int)
      ensures status == code && location == None && body == Some(b) && cookieOps == []
    {
      status := code;
      location := None;
      body := Some(b);
      cookieOps := [];
    }

    /** `response.cookies.set(name, value, { maxAge })`. */
    method Set(name: string, value: string, maxAge: int)
      modifies this
      ensures cookieOps == old(cookieOps) + [SetCookie(name, value, maxAge)]
      ensures status == old(status) && location == old(location) && body == old(body)
    {
      cookieOps := cookieOps + [SetCookie(name, value, maxAge)];
    }

    /** `response.cookies.delete(name)`. */
    method Delete(name: string)
      modifies this
      ensures cookieOps == old(cookieOps) + [DeleteCookie(name)]
      ensures status == old(status) && location == old(location) && body == old(body)
    {
      cookieOps := cookieOps + [DeleteCookie(name)];
    }
  }
}
