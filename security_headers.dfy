/**
 * `setSecurityHeaders(response, pathname)`: picks one of three fixed header
 * sets by the request path (the Partytown sandbox worker page, any other file
 * under `/~partytown/`, every other page) and writes it into the response's
 * header map with `set`, one header at a time.
 */
module SecurityHeaders {
  import opened Js

  const SandboxPath := "/~partytown/partytown-sandbox-sw.html"
  const PartytownPrefix := "/~partytown/"

  const Csp := "Content-Security-Policy"
  const ContentTypeOptions := "X-Content-Type-Options"
  const EmbedderPolicy := "Cross-Origin-Embedder-Policy"
  const OpenerPolicy := "Cross-Origin-Opener-Policy"
  const ResourcePolicy := "Cross-Origin-Resource-Policy"
  const FrameOptions := "X-Frame-Options"
  const XssProtection := "X-XSS-Protection"
  const ReferrerPolicy := "Referrer-Policy"
  const PermissionsPolicy := "Permissions-Policy"
  const TransportSecurity := "Strict-Transport-Security"

  const CspPrefix := "default-src 'none'"
  const DefaultNone := CspPrefix + ";"

  /**
   * The policies, written as the concatenation of their directives (the
   * strings are the same as one literal each).
   */
  const PartytownDirectives := " script-src 'self' 'unsafe-inline' 'unsafe-eval';"
    + " worker-src 'self' blob:;" + " style-src 'self' 'unsafe-inline';"
  const SandboxDirectives := " connect-src 'self';" + " frame-ancestors *;"
  const PageDirectives :=
    " script-src 'self' 'unsafe-inline' translate.google.com translate.googleapis.com translate-pa.googleapis.com;"
    + " worker-src 'self' blob:;" + " child-src 'self' blob:;"
    + " style-src 'self' 'unsafe-inline' translate.googleapis.com www.gstatic.com;"
    + " img-src 'self' data: translate.google.com translate.googleapis.com fonts.gstatic.com www.gstatic.com;"
    + " font-src 'self' data: fonts.gstatic.com;"
    + " connect-src 'self' translate.googleapis.com translate-pa.googleapis.com;"
    + " frame-src 'self' translate.google.com translate.googleapis.com;"
    + " manifest-src 'self';" + " media-src 'self';" + " object-src 'none';" + " base-uri 'self';"
    + " form-action 'self';" + " frame-ancestors 'none';" + " upgrade-insecure-requests;"
    + " block-all-mixed-content;"

  const PartytownCsp := DefaultNone + PartytownDirectives
  const SandboxCsp := PartytownCsp + SandboxDirectives
  const PageCsp := DefaultNone + PageDirectives
  const PagePermissions := "accelerometer=(), " + "ambient-light-sensor=(), " + "autoplay=(), "
    + "battery=(), " + "camera=(), " + "display-capture=(), " + "document-domain=(), "
    + "encrypted-media=(), " + "fullscreen=(self), " + "geolocation=(), " + "gyroscope=(), "
    + "magnetometer=(), " + "microphone=(), " + "midi=(), " + "payment=(), "
    + "picture-in-picture=(), " + "publickey-credentials-get=(), " + "screen-wake-lock=(), "
    + "sync-xhr=(), " + "usb=(), " + "web-share=(), " + "xr-spatial-tracking=()"
  const PageHsts := "max-age=63072000; includeSubDomains; preload"

  /** The three branches of the path test. */
  datatype Route = Sandbox | PartytownFile | Page

  /** The exact path is tested first, then the prefix; everything else is a page. */
  function RouteOf(pathname: string): (r: Route)
    ensures r == Sandbox <==> pathname == SandboxPath
    ensures r == PartytownFile <==> pathname != SandboxPath && StartsWith(pathname, PartytownPrefix)
    ensures r == Page <==> pathname != SandboxPath && !StartsWith(pathname, PartytownPrefix)
  {
    if pathname == SandboxPath then Sandbox
    else if StartsWith(pathname, PartytownPrefix) then PartytownFile
    else Page
  }

  /** The headers a branch writes, as a table. */
  function Policy(route: Route): (r: map<string, string>)
    ensures Csp in r
  {
    match route
    case Sandbox =>
      map[Csp := SandboxCsp, ContentTypeOptions := "nosniff"]
    case PartytownFile =>
      map[Csp := PartytownCsp, EmbedderPolicy := "unsafe-none", OpenerPolicy := "unsafe-none",
          ResourcePolicy := "cross-origin"]
    case Page =>
      map[Csp := PageCsp, FrameOptions := "DENY", ContentTypeOptions := "nosniff",
          XssProtection := "1; mode=block", ReferrerPolicy := "strict-origin-when-cross-origin",
          PermissionsPolicy := PagePermissions, OpenerPolicy := "same-origin-allow-popups",
          ResourcePolicy := "same-origin", EmbedderPolicy := "unsafe-none", TransportSecurity := PageHsts]
  }

  /** The header map after the call: the chosen set overrides, every other header is kept. */
  function Apply(headers: map<string, string>, pathname: string): (r: map<string, string>)
    ensures r.Keys == headers.Keys + Policy(RouteOf(pathname)).Keys
    ensures forall k :: k in Policy(RouteOf(pathname)) ==> r[k] == Policy(RouteOf(pathname))[k]
    ensures forall k :: k in headers && k !in Policy(RouteOf(pathname)) ==> r[k] == headers[k]
  {
    headers + Policy(RouteOf(pathname))
  }

  /** A response's header list, keyed by header name. */
  class Headers {
    var entries: map<string, string>

    constructor (init: map<string, string>)
      ensures entries == init
    {
      entries := init;
    }

    /** `headers.set(name, value)`: replaces the value or adds the header. */
    method Set(name: string, value: string)
      modifies this
      ensures entries == old(entries)[name := value]
    {
      entries := entries[name := value];
    }
  }

  method SetSecurityHeaders(headers: Headers, pathname: string)
    modifies headers
    ensures headers.entries == Apply(old(headers.entries), pathname)
  {
    if pathname == SandboxPath {
      SandboxWrites(headers.entries);
      headers.Set(Csp, SandboxCsp);
      headers.Set(ContentTypeOptions, "nosniff");
    } else if StartsWith(pathname, PartytownPrefix) {
      PartytownWrites(headers.entries);
      headers.Set(Csp, PartytownCsp);
      headers.Set(EmbedderPolicy, "unsafe-none");
      headers.Set(OpenerPolicy, "unsafe-none");
      headers.Set(ResourcePolicy, "cross-origin");
    } else {
      PageWrites(headers.entries);
      headers.Set(Csp, PageCsp);
      headers.Set(FrameOptions, "DENY");
      headers.Set(ContentTypeOptions, "nosniff");
      headers.Set(XssProtection, "1; mode=block");
      headers.Set(ReferrerPolicy, "strict-origin-when-cross-origin");
      headers.Set(PermissionsPolicy, PagePermissions);
      headers.Set(OpenerPolicy, "same-origin-allow-popups");
      headers.Set(ResourcePolicy, "same-origin");
      headers.Set(EmbedderPolicy, "unsafe-none");
      headers.Set(TransportSecurity, PageHsts);
    }
  }

  /** The `set` calls of each branch, one after the other, write exactly that branch's table. */
  lemma SandboxWrites(m: map<string, string>)
    ensures m[Csp := SandboxCsp][ContentTypeOptions := "nosniff"] == m + Policy(Sandbox)
  {
  }

  lemma PartytownWrites(m: map<string, string>)
    ensures m[Csp := PartytownCsp][EmbedderPolicy := "unsafe-none"][OpenerPolicy := "unsafe-none"]
      [ResourcePolicy := "cross-origin"] == m + Policy(PartytownFile)
  {
  }

  lemma PageWrites(m: map<string, string>)
    ensures m[Csp := PageCsp][FrameOptions := "DENY"][ContentTypeOptions := "nosniff"]
      [XssProtection := "1; mode=block"][ReferrerPolicy := "strict-origin-when-cross-origin"]
      [PermissionsPolicy := PagePermissions][OpenerPolicy := "same-origin-allow-popups"]
      [ResourcePolicy := "same-origin"][EmbedderPolicy := "unsafe-none"][TransportSecurity := PageHsts]
      == m + Policy(Page)
  {
  }

  /** The sandbox page gets only the policy and `nosniff`. */
  lemma SandboxHeaders(headers: map<string, string>)
    ensures Apply(headers, SandboxPath).Keys == headers.Keys + {Csp, ContentTypeOptions}
    ensures Apply(headers, SandboxPath)[Csp] == SandboxCsp
    ensures Apply(headers, SandboxPath)[ContentTypeOptions] == "nosniff"
  {
  }

  /** The sandbox path also carries the Partytown prefix; the exact match wins. */
  lemma ExactMatchFirst()
    ensures StartsWith(SandboxPath, PartytownPrefix)
    ensures RouteOf(SandboxPath) == Sandbox && Policy(RouteOf(SandboxPath)) != Policy(PartytownFile)
  {
    assert Policy(Sandbox)[Csp] != Policy(PartytownFile)[Csp];
  }

  /** Any other Partytown file gets the permissive cross-origin set. */
  lemma PartytownHeaders(headers: map<string, string>, pathname: string)
    requires pathname != SandboxPath && StartsWith(pathname, PartytownPrefix)
    ensures Apply(headers, pathname).Keys == headers.Keys + {Csp, EmbedderPolicy, OpenerPolicy, ResourcePolicy}
    ensures Apply(headers, pathname)[Csp] == PartytownCsp
    ensures Apply(headers, pathname)[EmbedderPolicy] == "unsafe-none"
    ensures Apply(headers, pathname)[OpenerPolicy] == "unsafe-none"
    ensures Apply(headers, pathname)[ResourcePolicy] == "cross-origin"
  {
  }

  /** Every other page gets the ten default headers... */
  lemma PageHeaderNames(headers: map<string, string>, pathname: string)
    requires pathname != SandboxPath && !StartsWith(pathname, PartytownPrefix)
    ensures Apply(headers, pathname).Keys == headers.Keys +
      {Csp, FrameOptions, ContentTypeOptions, XssProtection, ReferrerPolicy, PermissionsPolicy,
       OpenerPolicy, ResourcePolicy, EmbedderPolicy, TransportSecurity}
  {
  }

  /** ...with these values. */
  lemma PageHeaderValues(headers: map<string, string>, pathname: string)
    requires pathname != SandboxPath && !StartsWith(pathname, PartytownPrefix)
    ensures Apply(headers, pathname)[Csp] == PageCsp
    ensures Apply(headers, pathname)[FrameOptions] == "DENY"
    ensures Apply(headers, pathname)[ContentTypeOptions] == "nosniff"
    ensures Apply(headers, pathname)[EmbedderPolicy] == "unsafe-none"
    ensures Apply(headers, pathname)[TransportSecurity] == PageHsts
  {
  }

  /** Every branch's policy starts by denying every source by default. */
  lemma DefaultSrcNone(route: Route)
    ensures StartsWith(Policy(route)[Csp], CspPrefix)
  {
    PrefixExtend(CspPrefix, CspPrefix, ";");
    match route
    case Sandbox =>
      PrefixExtend(CspPrefix, DefaultNone, PartytownDirectives);
      PrefixExtend(CspPrefix, PartytownCsp, SandboxDirectives);
    case PartytownFile =>
      PrefixExtend(CspPrefix, DefaultNone, PartytownDirectives);
    case Page =>
      PrefixExtend(CspPrefix, DefaultNone, PageDirectives);
  }

  lemma PrefixExtend(p: string, q: string, r: string)
    requires p <= q
    ensures p <= q + r
  {
    assert p == (q + r)[..|p|];
  }

  /** Setting the headers a second time for the same path changes nothing. */
  lemma ApplyIdempotent(headers: map<string, string>, pathname: string)
    ensures Apply(Apply(headers, pathname), pathname) == Apply(headers, pathname)
  {
  }

  /** Calling `setSecurityHeaders` twice leaves what one call left. */
  method SetTwice(headers: Headers, pathname: string)
    modifies headers
    ensures headers.entries == Apply(old(headers.entries), pathname)
  {
    SetSecurityHeaders(headers, pathname);
    SetSecurityHeaders(headers, pathname);
    ApplyIdempotent(old(headers.entries), pathname);
  }
}
