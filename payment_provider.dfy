/** Payment providers (`payment.provider` as the photo shop extends it): the base URL handed to
    the payment gateway and the request headers that charge on the photographer's own
    Mercado Pago account. */
module Providers {
  import opened Wrappers

  /** `s.rstrip('/')`: `s` without its trailing slashes. */
  function StripTrailingSlashes(s: string): (r: string)
    ensures |r| <= |s| && r == s[..|r|]
    ensures r == "" || r[|r| - 1] != '/'
    ensures forall i :: |r| <= i < |s| ==> s[i] == '/'
  {
    if s == [] || s[|s| - 1] != '/' then s else StripTrailingSlashes(s[..|s| - 1])
  }

  /** `get_base_url`: the configured `web.base.url` with exactly one trailing slash, or the
      inherited URL when none is configured. */
  function BaseUrl(configured: string, inherited: string): (r: string)
    ensures configured == "" ==> r == inherited
    ensures configured != "" ==> |r| >= 1 && r[|r| - 1] == '/'
  {
    if configured != "" then StripTrailingSlashes(configured) + "/" else inherited
  }

  /** A configured URL comes back with its trailing slashes replaced by exactly one, and asking
      again with that result as the configuration gives the same URL. */
  lemma BaseUrlOneSlash(configured: string, inherited: string, inherited2: string)
    requires configured != ""
    ensures var r := BaseUrl(configured, inherited);
      && |r| >= 1 && r[|r| - 1] == '/' && (|r| == 1 || r[|r| - 2] != '/')
      && r[..|r| - 1] == configured[..|r| - 1]
      && (forall i :: |r| - 1 <= i < |configured| ==> configured[i] == '/')
      && BaseUrl(r, inherited2) == r
  {
    var body := StripTrailingSlashes(configured);
    var r := body + "/";
    assert r[..|r| - 1] == body;
    assert StripTrailingSlashes(r[..|r| - 1]) == body;
    assert StripTrailingSlashes(r) == body;
  }

  const MercadoPagoCode := "mercado_pago"
  const AuthorizationHeader := "Authorization"

  /** `_build_request_headers`: for Mercado Pago with a seller token (`""` when none is passed),
      a copy of the inherited headers (`None` for Python's `None`) whose Authorization is the
      seller's bearer token; otherwise the inherited headers as they are. */
  function BuildRequestHeaders(code: string, inherited: Option<map<string, string>>, sellerToken: string)
    : (r: Option<map<string, string>>)
    ensures code == MercadoPagoCode && sellerToken != "" ==>
      r.Some? && AuthorizationHeader in r.value && r.value[AuthorizationHeader] == "Bearer " + sellerToken
    ensures !(code == MercadoPagoCode && sellerToken != "") ==> r == inherited
    ensures r.Some? ==> forall h :: h in inherited.GetOr(map[]) && h != AuthorizationHeader ==>
      h in r.value && r.value[h] == inherited.GetOr(map[])[h]
    ensures r.Some? ==> forall h :: h in r.value ==> h in inherited.GetOr(map[]) || h == AuthorizationHeader
  {
    if code == MercadoPagoCode && sellerToken != "" then
      Some(inherited.GetOr(map[])[AuthorizationHeader := "Bearer " + sellerToken])
    else inherited
  }
}
