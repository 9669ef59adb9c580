/** The verdict of the health probe: `response.code == "200" &&
    JSON.parse(response.body)["status"] == "up"`, evaluated with Ruby's
    exceptions, and the `rescue StandardError` that turns any of them into
    false. */
module Health {
  import opened Wrappers
  import opened RubyErrors

  /** A value `JSON.parse` can produce. Only objects and strings answer
      `["status"]` without raising, so the contents of arrays and numbers
      are not kept. */
  datatype Json =
    | Object(fields: map<string, Json>)
    | Text(s: string)
    | Array
    | Integer
    | Float
    | Boolean
    | Null

  /** What the GET on the health URL yields: the transport raised, or a
      response with its status code and its body as `JSON.parse` reads it
      (`None` when the body is not JSON). */
  datatype ProbeOutcome =
    | ProbeFault
    | ProbeResponse(code: string, parsedBody: Option<Json>)

  predicate IsInfix(needle: string, hay: string)
  {
    exists i, j :: 0 <= i <= j <= |hay| && hay[i..j] == needle
  }

  /** `json["status"]`: a Hash looks the key up (nil when absent); a String
      answers with the substring "status" if it occurs in it, else nil; an
      Array or an Integer raises TypeError (a String is no index), and a
      Float, true, false or nil raise NoMethodError (they have no `[]`). */
  function StatusField(json: Json): (r: Result<Option<Json>, RubyError>)
    ensures r == Success(Some(Text("up"))) <==> json.Object? && "status" in json.fields && json.fields["status"] == Text("up")
  {
    match json
    case Object(fields) => Success(if "status" in fields then Some(fields["status"]) else None)
    case Text(s) => Success(if IsInfix("status", s) then Some(Text("status")) else None)
    case Array => Failure(TypeError)
    case Integer => Failure(TypeError)
    case Float => Failure(NoMethodError)
    case Boolean => Failure(NoMethodError)
    case Null => Failure(NoMethodError)
  }

  /** The boolean expression of `up?` before its `rescue`: `&&` does not parse
      the body of a non-200 response. */
  function Verdict(probe: ProbeOutcome): Result<bool, RubyError>
  {
    match probe
    case ProbeFault => Failure(TransportError)
    case ProbeResponse(code, parsedBody) =>
      if code != "200" then Success(false)
      else match parsedBody
        case None => Failure(ParserError)
        case Some(json) =>
          match StatusField(json)
          case Failure(e) => Failure(e)
          case Success(status) => Success(status == Some(Text("up")))
  }

  /** The service is healthy. */
  ghost predicate ReportsUp(probe: ProbeOutcome)
  {
    && probe.ProbeResponse?
    && probe.code == "200"
    && probe.parsedBody.Some?
    && probe.parsedBody.value.Object?
    && "status" in probe.parsedBody.value.fields
    && probe.parsedBody.value.fields["status"] == Text("up")
  }

  /** `up?`: the verdict, with every raised error rescued as false. It is
      true exactly when the service answered 200 with a JSON object whose
      "status" is the string "up". */
  function Up(probe: ProbeOutcome): (up: bool)
    ensures up <==> ReportsUp(probe)
    ensures up <==> Verdict(probe) == Success(true)
  {
    match Verdict(probe)
    case Success(b) => b
    case Failure(_) => false
  }

  /** A raised error never escapes: it is the same as a "down" answer. */
  lemma RaisedMeansDown(probe: ProbeOutcome)
    requires Verdict(probe).Failure?
    ensures !Up(probe)
  {
  }

  /** The response `{"status": "down"}` with code 200 is a "down" answer, as
      is `{"status": "up"}` with any other code. */
  lemma BoundaryAnswers(code: string)
    ensures !Up(ProbeResponse("200", Some(Object(map["status" := Text("down")]))))
    ensures Up(ProbeResponse("200", Some(Object(map["status" := Text("up")]))))
    ensures code != "200" ==> !Up(ProbeResponse(code, Some(Object(map["status" := Text("up")]))))
  {
    assert Text("down") != Text("up") by {
      assert "down"[0] != "up"[0];
    }
  }
}
