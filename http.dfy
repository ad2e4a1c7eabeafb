/**
 * The parts of net/http and net/url that the server core reads or builds: a request
 * (method, form values, headers) and a parsed URL. Parsing and encoding are not modelled.
 */
module Http {

  /** An incoming request (`verb` is the HTTP method); `form` holds the first value of each parameter. */
  datatype Request = Request(verb: string, form: map<string, string>, header: map<string, string>)

  /** r.FormValue(key): the empty string when the parameter is absent. */
  function FormValue(r: Request, key: string): string
  {
    if key in r.form then r.form[key] else ""
  }

  /** r.Header.Get(name): the empty string when the header is absent. */
  function HeaderValue(r: Request, name: string): string
  {
    if name in r.header then r.header[name] else ""
  }

  /** url.Values: every parameter name with its list of values. */
  type Values = map<string, seq<string>>

  /** A fragment as parsed from the redirect URI, or one built from parameters. */
  datatype Fragment = RawFragment(text: string) | ParamFragment(params: Values)

  /** A parsed URL: everything before `?` as `base`, the query, and the fragment. */
  datatype URL = URL(base: string, query: Values, fragment: Fragment)
}
