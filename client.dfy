/** `Gotenberg::Client`: a base URL, the health probe `up?`, and `html`,
    which converts an HTML document and writes the result to an output. */
module Gotenberg {
  import opened Wrappers
  import opened RubyErrors
  import opened ClientOptions
  import opened ConversionRequest
  import opened Health

  newtype byte = x: int | 0 <= x < 256

  /** The caller's output (a File, or anything with `#write`): the bytes
      written to it so far. */
  class Sink {
    var written: seq<byte>

    constructor ()
      ensures written == []
    {
      written := [];
    }

    method Write(data: seq<byte>)
      modifies this
      ensures written == old(written) + data
    {
      written := written + data;
    }
  }

  /** What the POST of a conversion request yields: the HTTP library raised,
      or a response (of any status) with its body. */
  datatype PostOutcome = PostFault | PostResponse(body: seq<byte>)

  /** A request the client sends. */
  datatype Request<V> = Get(url: string) | Post(url: string, payload: Multipart<V>)

  /** The conversion service as the client sees it: how it answers each
      request, and the requests the client has attempted so far (a request is
      recorded even when its outcome is a fault raised before anything was
      sent, such as a URL `URI.parse` rejects). */
  class Service<V> {
    const answerGet: string -> ProbeOutcome
    const answerPost: (string, Multipart<V>) -> PostOutcome
    var requests: seq<Request<V>>

    constructor (answerGet: string -> ProbeOutcome, answerPost: (string, Multipart<V>) -> PostOutcome)
      ensures this.answerGet == answerGet && this.answerPost == answerPost
      ensures requests == []
    {
      this.answerGet := answerGet;
      this.answerPost := answerPost;
      requests := [];
    }

    method HttpGet(url: string) returns (outcome: ProbeOutcome)
      modifies this
      ensures outcome == answerGet(url)
      ensures requests == old(requests) + [Get(url)]
    {
      outcome := answerGet(url);
      requests := requests + [Get(url)];
    }

    method HttpPost(url: string, payload: Multipart<V>) returns (outcome: PostOutcome)
      modifies this
      ensures outcome == answerPost(url, payload)
      ensures requests == old(requests) + [Post(url, payload)]
    {
      outcome := answerPost(url, payload);
      requests := requests + [Post(url, payload)];
    }
  }

  /** The value `response` holds once the `begin`/`rescue` around the POST is
      over: the library's response object, or the `""` the rescue put there. */
  datatype Response = FaradayResponse(body: seq<byte>) | EmptyString

  /** `response.body`: only a response object has one; on the String `""`
      the call raises NoMethodError. */
  function ResponseBody(response: Response): (r: Result<seq<byte>, RubyError>)
    ensures r.Success? <==> response.FaradayResponse?
    ensures r.Success? ==> r.value == response.body
    ensures r.Failure? ==> r.error == NoMethodError
  {
    match response
    case FaradayResponse(body) => Success(body)
    case EmptyString => Failure(NoMethodError)
  }

  /** How a call of `html` ends: it returns a boolean, or an exception
      propagates out of it. */
  datatype HtmlOutcome = Returned(value: bool) | Raised(error: RubyError)

  class Client {
    const apiUrl: string

    constructor (apiUrl: string)
      ensures this.apiUrl == apiUrl
    {
      this.apiUrl := apiUrl;
    }

    /** `up?`: one GET on the health URL; never raises. */
    method IsUp<V>(service: Service<V>) returns (up: bool)
      modifies service
      ensures up <==> ReportsUp(service.answerGet(HealthUrl(apiUrl)))
      ensures service.requests == old(service.requests) + [Get(HealthUrl(apiUrl))]
    {
      var outcome := service.HttpGet(HealthUrl(apiUrl));
      up := Up(outcome);
    }

    /** `html(render, output, **kwargs)`. When the probe says the service is
        down it returns false having sent nothing else and written nothing.
        Otherwise it posts the payload once to the conversion URL; if the
        POST yields a response, its body is written to `output` and it
        returns true; if the POST raised, the rescued `""` has no `body` and
        NoMethodError propagates with nothing written. */
    method Html<V>(render: string, output: Sink, service: Service<V>, kwargs: map<HashKey, V>)
      returns (outcome: HtmlOutcome)
      modifies output, service
      ensures var healthy := ReportsUp(service.answerGet(HealthUrl(apiUrl)));
        !healthy ==>
          && outcome == Returned(false)
          && output.written == old(output.written)
          && service.requests == old(service.requests) + [Get(HealthUrl(apiUrl))]
      ensures var healthy := ReportsUp(service.answerGet(HealthUrl(apiUrl)));
        var post := service.answerPost(ConvertUrl(apiUrl), Payload(render, kwargs));
        healthy ==>
          && service.requests == old(service.requests) + [Get(HealthUrl(apiUrl))] + [Post(ConvertUrl(apiUrl), Payload(render, kwargs))]
          && (post.PostFault? ==> outcome == Raised(NoMethodError) && output.written == old(output.written))
          && (post.PostResponse? ==> outcome == Returned(true) && output.written == old(output.written) + post.body)
      ensures outcome == Returned(true) <==>
        ReportsUp(service.answerGet(HealthUrl(apiUrl))) &&
        service.answerPost(ConvertUrl(apiUrl), Payload(render, kwargs)).PostResponse?
    {
      var up := IsUp(service);
      if !up {
        return Returned(false);
      }
      var payload := Payload(render, kwargs);
      var url := ConvertUrl(apiUrl);
      var posted := service.HttpPost(url, payload);
      var response := match posted
        case PostFault => EmptyString
        case PostResponse(body) => FaradayResponse(body);
      var body := ResponseBody(response);
      if body.Failure? {
        return Raised(body.error);
      }
      output.Write(body.value);
      outcome := Returned(true);
    }
  }
}
