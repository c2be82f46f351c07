/**
 * The consent reader: read-only queries over the `cookie-consent` cookie.
 *
 * The cookie lookup (`getCookie`, whose code is not part of this model) and
 * `JSON.parse` are foreign calls; both are abstract here. The lookup's
 * outcome is part of the `CookieJar`, and the parser is a parameter that
 * maps a string to a JSON value or to a thrown exception.
 */
module Consent {
  import opened Js

  /** The four consent categories, in the order the script manager visits them. */
  datatype Category = Necessary | Functional | Performance | Targeting {
    /** The key of the category in the consent record and in `data-consent`. */
    function Name(): string {
      match this
      case Necessary => "necessary"
      case Functional => "functional"
      case Performance => "performance"
      case Targeting => "targeting"
    }
  }

  /** A JSON value as `JSON.parse` may return it (numbers restricted to integers). */
  datatype JsonValue =
    | JsonNull
    | JsonBool(b: bool)
    | JsonNumber(n: int)
    | JsonString(s: string)
    | JsonArray(elements: seq<JsonValue>)
    | JsonObject(fields: map<string, JsonValue>)

  /** JavaScript truthiness of a parsed value. */
  predicate JsonTruthy(v: JsonValue) {
    match v
    case JsonNull => false
    case JsonBool(b) => b
    case JsonNumber(n) => n != 0
    case JsonString(s) => s != ""
    case _ => true
  }

  /** `v[key]` for a category key: only an object has such a property. */
  function Property(v: JsonValue, key: string): Option<JsonValue> {
    if v.JsonObject? && key in v.fields then Some(v.fields[key]) else None
  }

  /** The outcome of a foreign call: a value, or an exception. */
  datatype Attempt<T> = Returned(value: T) | Threw

  /**
   * What the browser's cookie store shows this code: the raw `document.cookie`
   * string, and what `getCookie('cookie-consent')` gives.
   */
  datatype CookieJar = CookieJar(raw: string, lookup: Attempt<Option<string>>)

  /** `typeof document === 'undefined'` (server-side rendering) or a browser page. */
  datatype Env = NoDocument | Browser(jar: CookieJar)

  type Parser = string -> Attempt<JsonValue>

  const ConsentCookieName := "cookie-consent"

  /** `getConsent()`: the parsed record, or `None` for JavaScript `null`. */
  function GetConsent(env: Env, parse: Parser): (r: Option<JsonValue>)
    ensures env.NoDocument? ==> r == None
    ensures r.Some? ==> r.value != JsonNull
    ensures r.Some? ==>
      env.Browser? && env.jar.lookup.Returned? && env.jar.lookup.value.Some? &&
      parse(env.jar.lookup.value.value) == Returned(r.value)
    ensures env.Browser? ==>
      (r == None <==>
        || env.jar.lookup.Threw?
        || !Truthy(env.jar.lookup.value)
        || parse(env.jar.lookup.value.value).Threw?
        || parse(env.jar.lookup.value.value) == Returned(JsonNull))
  {
    match env
    case NoDocument => None
    case Browser(jar) =>
      match jar.lookup
      case Threw => None
      case Returned(cookie) =>
        if !Truthy(cookie) then None
        else
          match parse(cookie.value)
          case Threw => None
          case Returned(v) => if v == JsonNull then None else Some(v)
  }

  /** `hasConsentFor(category)`. */
  function HasConsentFor(env: Env, parse: Parser, c: Category): (r: bool)
    ensures env.NoDocument? ==> !r
    ensures env.Browser? && c == Necessary ==> r
    ensures env.Browser? && c != Necessary ==>
      (r <==> GetConsent(env, parse).Some? && Property(GetConsent(env, parse).value, c.Name()) == Some(JsonBool(true)))
  {
    if env.NoDocument? then false
    else if c == Necessary then true
    else
      var consent := GetConsent(env, parse);
      if consent.None? || !JsonTruthy(consent.value) then false
      else Property(consent.value, c.Name()) == Some(JsonBool(true))
  }

  /** `hasConsented()`: the user has made a choice. */
  function HasConsented(env: Env, parse: Parser): (r: bool)
    ensures r <==> GetConsent(env, parse).Some?
  {
    if env.NoDocument? then false else GetConsent(env, parse) != None
  }

  /** `hasConsentCookie()`: a substring test on the raw cookie string, without parsing. */
  function HasConsentCookie(env: Env): (r: bool)
    ensures env.NoDocument? ==> !r
    ensures env.Browser? ==>
      (r <==> exists k: nat :: OccursAt(env.jar.raw, ConsentCookieName + "=", k))
  {
    if env.NoDocument? then false
    else
      IncludesIff(env.jar.raw, ConsentCookieName + "=");
      Includes(env.jar.raw, ConsentCookieName + "=")
  }

  /** Without a document every query answers "no". */
  lemma NoDocumentDeniesAll(parse: Parser, c: Category)
    ensures GetConsent(NoDocument, parse) == None
    ensures !HasConsentFor(NoDocument, parse, c)
    ensures !HasConsented(NoDocument, parse)
    ensures !HasConsentCookie(NoDocument)
  {
  }

  /**
   * Only the literal `true` grants a category: a truthy value of another kind
   * (a number, the string "true", an object) does not.
   */
  lemma {:induction false} OnlyTrueGrants(jar: CookieJar, parse: Parser, c: Category, fields: map<string, JsonValue>)
    requires c != Necessary
    requires GetConsent(Browser(jar), parse) == Some(JsonObject(fields))
    ensures HasConsentFor(Browser(jar), parse, c) <==> c.Name() in fields && fields[c.Name()] == JsonBool(true)
  {
  }

  /** A record that is not an object, however truthy, grants nothing but `necessary`. */
  lemma NonObjectGrantsNothing(jar: CookieJar, parse: Parser, c: Category)
    requires c != Necessary
    requires GetConsent(Browser(jar), parse).Some? && !GetConsent(Browser(jar), parse).value.JsonObject?
    ensures !HasConsentFor(Browser(jar), parse, c)
  {
  }

  /**
   * `hasConsentCookie` can hold while `hasConsented` does not: the cookie is
   * present but its value does not parse.
   */
  lemma CookieWithoutConsent()
    ensures var jar := CookieJar(ConsentCookieName + "={oops", Returned(Some("{oops")));
            var parse: Parser := s => Threw;
            HasConsentCookie(Browser(jar)) && !HasConsented(Browser(jar), parse)
  {
    var jar := CookieJar(ConsentCookieName + "={oops", Returned(Some("{oops")));
    assert OccursAt(jar.raw, ConsentCookieName + "=", 0);
  }
}
