/**
 * Client construction (client.go `NewClient` and the `With…` options) and
 * the status dispatch of `decodeResponse`.
 */
module Clients {
  import opened Wrappers
  import opened Errors

  /**
   * The characters Go's `unicode.IsSpace` accepts, which `strings.TrimSpace`
   * trims: ASCII white space, NEL, NBSP and the other Unicode White_Space
   * characters.
   */
  const Spaces: set<char> := {
    '\t', '\n', '\U{000B}', '\U{000C}', '\r', ' ', '\U{0085}', '\U{00A0}', '\U{1680}',
    '\U{2000}', '\U{2001}', '\U{2002}', '\U{2003}', '\U{2004}', '\U{2005}',
    '\U{2006}', '\U{2007}', '\U{2008}', '\U{2009}', '\U{200A}',
    '\U{2028}', '\U{2029}', '\U{202F}', '\U{205F}', '\U{3000}'
  }

  predicate IsSpace(c: char) {
    c in Spaces
  }

  /** Nothing but white space (the empty string included). */
  predicate IsBlank(s: string) {
    forall i :: 0 <= i < |s| ==> IsSpace(s[i])
  }

  /** The first index from `k` on that holds no white space, or `|s|`. */
  function ContentStart(s: string, k: nat): (i: nat)
    requires k <= |s|
    ensures k <= i <= |s|
    ensures forall m :: k <= m < i ==> IsSpace(s[m])
    ensures i < |s| ==> !IsSpace(s[i])
    decreases |s| - k
  {
    if k < |s| && IsSpace(s[k]) then ContentStart(s, k + 1) else k
  }

  /** Just past the last index below `k` and from `lo` on that holds no white space, or `lo`. */
  function ContentEnd(s: string, lo: nat, k: nat): (j: nat)
    requires lo <= k <= |s|
    ensures lo <= j <= k
    ensures forall m :: j <= m < k ==> IsSpace(s[m])
    ensures lo < j ==> !IsSpace(s[j - 1])
    decreases k
  {
    if lo < k && IsSpace(s[k - 1]) then ContentEnd(s, lo, k - 1) else k
  }

  /** `r` is `s[i..j]`, and what lies before `i` and from `j` on is blank. */
  predicate CutsBlankEnds(s: string, i: int, j: int, r: string) {
    0 <= i <= j <= |s| && r == s[i..j] && IsBlank(s[..i]) && IsBlank(s[j..])
  }

  /**
   * `strings.TrimSpace`: the slice of `s` left after cutting a blank prefix
   * and a blank suffix; empty exactly when `s` is blank, otherwise framed
   * by non-space.
   */
  function TrimSpace(s: string): (r: string)
    ensures exists i, j :: CutsBlankEnds(s, i, j, r)
    ensures r == [] <==> IsBlank(s)
    ensures r != [] ==> !IsSpace(r[0]) && !IsSpace(r[|r| - 1])
  {
    var i := ContentStart(s, 0);
    var j := ContentEnd(s, i, |s|);
    assert CutsBlankEnds(s, i, j, s[i..j]);
    assert i == j <==> IsBlank(s) by {
      if i == j {
        assert forall m :: 0 <= m < |s| ==> IsSpace(s[m]) by {
          forall m | 0 <= m < |s| ensures IsSpace(s[m]) {
            if m >= i { assert j <= m; }
          }
        }
      }
    }
    s[i..j]
  }

  /** Stands for the caller's `*http.Client`. */
  datatype HttpClient = HttpClient(handle: nat)

  /**
   * A `ClientOption`. The four `With…` options of the package, and an
   * option written by a caller that returns an error.
   */
  datatype ClientOption =
    | WithHTTPClient(client: HttpClient)
    | WithAPIKey(key: string)
    | WithSecret(value: string)
    | WithBaseURL(url: string)
    | Failing(text: string)

  /** The fields of a `Client`. */
  datatype Config = Config(httpClient: Option<HttpClient>, apiKey: string, secret: string, baseURL: string)

  /** `&Client{}`: every field at its zero value. */
  const EmptyConfig := Config(None, "", "", "")

  /** The three string fields an option may assign. */
  datatype Field = ApiKeyField | SecretField | BaseURLField

  function Get(cfg: Config, f: Field): string {
    match f
    case ApiKeyField => cfg.apiKey
    case SecretField => cfg.secret
    case BaseURLField => cfg.baseURL
  }

  /** The value `o` assigns to `f`, if `o` is the option for `f`. */
  function Assigns(o: ClientOption, f: Field): Option<string> {
    match (o, f)
    case (WithAPIKey(k), ApiKeyField) => Some(k)
    case (WithSecret(v), SecretField) => Some(v)
    case (WithBaseURL(u), BaseURLField) => Some(u)
    case _ => None
  }

  /** Running one option on a client holding `cfg`. */
  function Step(cfg: Config, o: ClientOption): (r: Result<Config, Error>)
    ensures r.Failure? <==> o.Failing?
    ensures o.Failing? ==> r.error == Foreign(o.text)
    ensures r.Success? ==> forall f :: Get(r.value, f) == (if Assigns(o, f).Some? then Assigns(o, f).value else Get(cfg, f))
    ensures r.Success? ==> r.value.httpClient == (if o.WithHTTPClient? then Some(o.client) else cfg.httpClient)
  {
    match o
    case WithHTTPClient(h) => Success(cfg.(httpClient := Some(h)))
    case WithAPIKey(k) => Success(cfg.(apiKey := k))
    case WithSecret(v) => Success(cfg.(secret := v))
    case WithBaseURL(u) => Success(cfg.(baseURL := u))
    case Failing(t) => Failure(Foreign(t))
  }

  /** Running the options left to right; the first error stops the run. */
  function ApplyAll(cfg: Config, options: seq<ClientOption>): (r: Result<Config, Error>)
    ensures r.Failure? <==> exists j :: 0 <= j < |options| && options[j].Failing?
    ensures r.Failure? ==>
      exists j :: 0 <= j < |options| && options[j].Failing? && r.error == Foreign(options[j].text)
    decreases |options|
  {
    if options == [] then Success(cfg)
    else match Step(cfg, options[0])
      case Failure(e) => Failure(e)
      case Success(next) => ApplyAll(next, options[1..])
  }

  /** The checks after the options: credentials first, then the base URL. */
  function Validate(cfg: Config): (r: Result<Config, Error>)
    ensures r == Failure(CredentialsMissing) <==> IsBlank(cfg.apiKey) || IsBlank(cfg.secret)
    ensures r == Failure(BaseURLMissing) <==> !IsBlank(cfg.apiKey) && !IsBlank(cfg.secret) && IsBlank(cfg.baseURL)
    ensures r.Success? <==> !IsBlank(cfg.apiKey) && !IsBlank(cfg.secret) && !IsBlank(cfg.baseURL)
    ensures r.Success? ==> r.value == cfg
  {
    if TrimSpace(cfg.apiKey) == "" || TrimSpace(cfg.secret) == "" then Failure(CredentialsMissing)
    else if TrimSpace(cfg.baseURL) == "" then Failure(BaseURLMissing)
    else Success(cfg)
  }

  /** What `NewClient(options...)` yields: the fields of the client, or the error. */
  function Construct(options: seq<ClientOption>): (r: Result<Config, Error>)
    ensures r.Success? ==> !IsBlank(r.value.apiKey) && !IsBlank(r.value.secret) && !IsBlank(r.value.baseURL)
    ensures (forall j :: 0 <= j < |options| ==> !options[j].Failing?) ==>
      r.Failure? ==> r.error == CredentialsMissing || r.error == BaseURLMissing
  {
    match ApplyAll(EmptyConfig, options)
    case Failure(e) => Failure(e)
    case Success(cfg) => Validate(cfg)
  }

  /** The first failing option's error is the result; the options after it do not run. */
  lemma {:induction false} FirstFailingOptionAborts(cfg: Config, options: seq<ClientOption>, k: nat)
    requires k < |options| && options[k].Failing?
    requires forall j :: 0 <= j < k ==> !options[j].Failing?
    ensures ApplyAll(cfg, options) == Failure(Foreign(options[k].text))
    decreases k
  {
    if k > 0 {
      var next := Step(cfg, options[0]).value;
      FirstFailingOptionAborts(next, options[1..], k - 1);
    }
  }

  /** A failing option stops construction before any validation. */
  lemma FailingOptionPrecedesValidation(options: seq<ClientOption>, k: nat)
    requires k < |options| && options[k].Failing?
    requires forall j :: 0 <= j < k ==> !options[j].Failing?
    ensures Construct(options) == Failure(Foreign(options[k].text))
  {
    FirstFailingOptionAborts(EmptyConfig, options, k);
  }

  /** Without failing options, a field keeps its value when no option assigns it. */
  lemma {:induction false} UnassignedFieldKept(cfg: Config, options: seq<ClientOption>, f: Field)
    requires forall j :: 0 <= j < |options| ==> !options[j].Failing? && Assigns(options[j], f).None?
    ensures ApplyAll(cfg, options).Success?
    ensures Get(ApplyAll(cfg, options).value, f) == Get(cfg, f)
    decreases |options|
  {
    if options != [] {
      UnassignedFieldKept(Step(cfg, options[0]).value, options[1..], f);
    }
  }

  /** Without failing options, the last option that assigns a field decides its value. */
  lemma {:induction false} LastAssignmentWins(cfg: Config, options: seq<ClientOption>, f: Field, k: nat)
    requires forall j :: 0 <= j < |options| ==> !options[j].Failing?
    requires k < |options| && Assigns(options[k], f).Some?
    requires forall j :: k < j < |options| ==> Assigns(options[j], f).None?
    ensures ApplyAll(cfg, options).Success?
    ensures Get(ApplyAll(cfg, options).value, f) == Assigns(options[k], f).value
    decreases k
  {
    var next := Step(cfg, options[0]).value;
    if k == 0 {
      UnassignedFieldKept(next, options[1..], f);
    } else {
      LastAssignmentWins(next, options[1..], f, k - 1);
    }
  }

  /** A client value; `NewClient` hands one out only after validation. */
  class Client {
    var httpClient: Option<HttpClient>
    var apiKey: string
    var secret: string
    var baseURL: string

    function View(): Config
      reads this
    {
      Config(httpClient, apiKey, secret, baseURL)
    }

    /** `&Client{}`. */
    constructor ()
      ensures View() == EmptyConfig
    {
      httpClient, apiKey, secret, baseURL := None, "", "", "";
    }

    /** Calls the option on this client: a `With…` option assigns its field. */
    method Apply(o: ClientOption) returns (err: Option<Error>)
      modifies this
      ensures Step(old(View()), o).Failure? ==> err == Some(Step(old(View()), o).error) && View() == old(View())
      ensures Step(old(View()), o).Success? ==> err == None && View() == Step(old(View()), o).value
    {
      err := None;
      match o
      case WithHTTPClient(h) => httpClient := Some(h);
      case WithAPIKey(k) => apiKey := k;
      case WithSecret(v) => secret := v;
      case WithBaseURL(u) => baseURL := u;
      case Failing(t) => err := Some(Foreign(t));
    }
  }

  /** `NewClient`: runs the options in order, then validates the credentials and the base URL. */
  method NewClient(options: seq<ClientOption>) returns (r: Result<Client, Error>)
    ensures Construct(options).Failure? ==> r == Failure(Construct(options).error)
    ensures Construct(options).Success? ==> r.Success? && fresh(r.value) && r.value.View() == Construct(options).value
  {
    var c := new Client();
    for i := 0 to |options|
      invariant ApplyAll(EmptyConfig, options) == ApplyAll(c.View(), options[i..])
    {
      assert options[i..][1..] == options[i + 1..];
      var err := c.Apply(options[i]);
      if err.Some? {
        return Failure(err.value);
      }
    }
    assert options[|options|..] == [];
    if TrimSpace(c.apiKey) == "" || TrimSpace(c.secret) == "" {
      return Failure(CredentialsMissing);
    }
    if TrimSpace(c.baseURL) == "" {
      return Failure(BaseURLMissing);
    }
    return Success(c);
  }

  /**
   * The response body as the JSON decoder would read it: into an
   * `ErrorResponse`, and into the caller's response target.
   */
  datatype Body<T> = Body(asErrorResponse: Result<ErrorResponse, string>, asTarget: Result<T, string>)

  /**
   * `decodeResponse`: the error a status maps to, or on success the decoded
   * target (None when the caller passed no target).
   */
  function DecodeResponse<T>(status: int, body: Body<T>, wantsTarget: bool): (r: Result<Option<T>, Error>)
    ensures r == Failure(Api(TooManyRequests)) <==> status == 429
    ensures r == Failure(Unauthorized) <==> status == 401
    ensures r.Success? <==> status < 400 && (wantsTarget ==> body.asTarget.Success?)
    ensures r.Success? ==> (r.value.Some? <==> wantsTarget)
    ensures r.Success? && wantsTarget ==> r.value == Some(body.asTarget.value)
    ensures r.Failure? ==> r.error != CredentialsMissing && r.error != BaseURLMissing
    ensures status >= 400 && status != 429 && status != 401 && status != 402 && status != 409 ==>
      r == Failure(Api(UnknownError))
    ensures (status == 402 || status == 409) && body.asErrorResponse.Success? ==>
      r == Failure(Api(WrapAPIError(body.asErrorResponse.value)))
    ensures (status == 402 || status == 409) && body.asErrorResponse.Failure? ==>
      r == Failure(Foreign(body.asErrorResponse.error))
    ensures status < 400 && wantsTarget && body.asTarget.Failure? ==>
      r == Failure(Foreign(body.asTarget.error))
  {
    if status == 429 then Failure(Api(TooManyRequests))
    else if status == 401 then Failure(Unauthorized)
    else if status == 402 || status == 409 then
      match body.asErrorResponse
      case Failure(text) => Failure(Foreign(text))
      case Success(errResp) => Failure(Api(WrapAPIError(errResp)))
    else if status >= 400 then Failure(Api(UnknownError))
    else if !wantsTarget then Success(None)
    else match body.asTarget
      case Failure(text) => Failure(Foreign(text))
      case Success(v) => Success(Some(v))
  }

  /** A 429 or 401 is decided before the body is read. */
  lemma StatusDecidedBeforeBody<T>(status: int, b1: Body<T>, b2: Body<T>, w1: bool, w2: bool)
    requires status == 429 || status == 401
    ensures DecodeResponse(status, b1, w1) == DecodeResponse(status, b2, w2)
  {
  }

  /**
   * A business error carried in a 402 or 409 body comes back as the error
   * whose text is its code; an unrecognised code as the unknown error.
   */
  lemma BusinessErrorRoundTrip<T>(status: int, e: ApiError, target: Result<T, string>, w: bool)
    requires status == 402 || status == 409
    ensures e != TooManyRequests ==>
      DecodeResponse(status, Body(Success(ErrorResponse(Text(e))), target), w) == Failure(Api(e))
    ensures e == TooManyRequests ==>
      DecodeResponse(status, Body(Success(ErrorResponse(Text(e))), target), w) == Failure(Api(UnknownError))
  {
    if e == TooManyRequests {
      TooManyRequestsCodeIsUnknown();
    } else {
      WrapText(e);
    }
  }

  /**
   * A 402 or 409 body whose code is not one the translator lists, whatever
   * it is (empty, misspelt, "ERR_TOO_MANY_REQUESTS"), yields the unknown error.
   */
  lemma UnlistedBusinessCodeIsUnknown<T>(status: int, message: string, target: Result<T, string>, w: bool)
    requires status == 402 || status == 409
    requires message !in RecognizedCodes
    ensures DecodeResponse(status, Body(Success(ErrorResponse(message)), target), w) == Failure(Api(UnknownError))
  {
  }

  /** A 402 or 409 whose body does not decode returns the decoder's error as it is. */
  lemma BusinessErrorDecodeFailure<T>(status: int, text: string, target: Result<T, string>, w: bool)
    requires status == 402 || status == 409
    ensures DecodeResponse(status, Body(Failure(text), target), w) == Failure(Foreign(text))
  {
  }
}
