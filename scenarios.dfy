/** Whole calls of `html` on a client for `http://localhost:3000`, against a
    scripted service: the conversion that succeeds, the one the health gate
    stops, and the one whose POST raises. */
module Scenarios {
  import opened Wrappers
  import opened ClientOptions
  import opened RubyErrors
  import opened ConversionRequest
  import opened Health
  import opened Gotenberg

  /** The first bytes of a PDF file, `%PDF-1.4`. */
  const PdfBytes: seq<byte> := [0x25, 0x50, 0x44, 0x46, 0x2D, 0x31, 0x2E, 0x34]

  const HealthyAnswer: ProbeOutcome := ProbeResponse("200", Some(Object(map["status" := Text("up")])))
  const DownAnswer: ProbeOutcome := ProbeResponse("200", Some(Object(map["status" := Text("down")])))

  /** The service is up and answers the conversion with the PDF bytes:
      `html` returns true, the output holds exactly those bytes, and the
      payload posted is the HTML part with the translated arguments. */
  method ConversionSucceeds(kwargs: map<HashKey, string>) returns (outcome: HtmlOutcome, written: seq<byte>, sent: Multipart<string>)
    ensures outcome == Returned(true)
    ensures written == PdfBytes
    ensures sent == Payload("<h1>hi</h1>", kwargs)
  {
    var client := new Client("http://localhost:3000");
    var service := new Service<string>((url: string) => HealthyAnswer, (url: string, p: Multipart<string>) => PostResponse(PdfBytes));
    var output := new Sink();
    var payload := Payload("<h1>hi</h1>", kwargs);
    assert ReportsUp(service.answerGet(HealthUrl(client.apiUrl)));
    assert service.answerPost(ConvertUrl(client.apiUrl), payload) == PostResponse(PdfBytes);
    outcome := client.Html("<h1>hi</h1>", output, service, kwargs);
    written := output.written;
    assert service.requests[1] == Post(ConvertUrl(client.apiUrl), payload);
    sent := service.requests[1].payload;
  }

  const ScenarioKwargs: map<HashKey, string> := map[Symbol("margin_top") := "1cm", Symbol("unsupported_opt") := "x"]

  /** With `margin_top: "1cm", unsupported_opt: "x"` the payload is exactly
      the HTML part and `marginTop=1cm`: nothing is sent for
      `unsupported_opt`. */
  lemma ScenarioPayload()
    ensures Payload("<h1>hi</h1>", ScenarioKwargs)
      == map[IndexKey := FilePart("<h1>hi</h1>", "text/html", "index.html"), Str("marginTop") := Param("1cm")]
  {
    MarginTopExample();
    SingleOptionPayload("<h1>hi</h1>", ScenarioKwargs, "marginTop", "1cm");
  }

  /** The service answers 200 with `{"status": "down"}`: `html` returns
      false after the one probe, and writes nothing. */
  method ConversionGated(kwargs: map<HashKey, string>) returns (outcome: HtmlOutcome, written: seq<byte>, requestCount: nat)
    ensures outcome == Returned(false)
    ensures written == []
    ensures requestCount == 1
  {
    var client := new Client("http://localhost:3000");
    var service := new Service<string>((url: string) => DownAnswer, (url: string, p: Multipart<string>) => PostResponse(PdfBytes));
    var output := new Sink();
    assert service.answerGet(HealthUrl(client.apiUrl)) == DownAnswer;
    assert !ReportsUp(DownAnswer) by {
      assert "down"[0] != "up"[0];
    }
    outcome := client.Html("<h1>hi</h1>", output, service, kwargs);
    written := output.written;
    requestCount := |service.requests|;
  }

  /** The service is up but the POST raises: `html` does not return
      (NoMethodError on `"".body`) and writes nothing. */
  method ConversionFaultRaises(kwargs: map<HashKey, string>) returns (outcome: HtmlOutcome, written: seq<byte>)
    ensures outcome == Raised(NoMethodError)
    ensures written == []
  {
    var client := new Client("http://localhost:3000");
    var service := new Service<string>((url: string) => HealthyAnswer, (url: string, p: Multipart<string>) => PostFault);
    var output := new Sink();
    assert service.answerGet(HealthUrl(client.apiUrl)) == HealthyAnswer;
    assert ReportsUp(HealthyAnswer);
    outcome := client.Html("<h1>hi</h1>", output, service, kwargs);
    written := output.written;
  }
}
