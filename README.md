# Gotenberg client: a Dafny model

This project models the decision and translation layer of `Gotenberg::Client`
in `lib/gotenberg.rb`. That client converts an HTML document to PDF by posting
it to a Gotenberg conversion service. Three things are modelled:

- **Option translation.** `PERMITTED_OPTIONS` is a closed table of five
  rendering options. It maps each caller-facing snake_case keyword to the
  camelCase parameter name the service expects. `filter_and_transform_params`
  drops every keyword argument the table does not know. It renames the rest
  and keeps their values unchanged. Keyword arguments are keyed by
  `HashKey`, a Symbol or a String, because Ruby passes both through `**`;
  the table's keys are Symbols, so an option passed under a String key such
  as `"margin_top"` is dropped. Module `ClientOptions` (`options.dfy`)
  holds this part.
- **Request assembly.** The payload of a conversion is the HTML file part
  `:"index.html"` merged with the translated options. The two endpoint URLs
  are the base URL with `/forms/chromium/convert/html` or `/health` appended.
  Module `ConversionRequest` (`request.dfy`) holds this part.
- **Control flow.** `up?` reduces the health probe to a boolean. `html` stops
  at the health gate, otherwise posts the payload, writes the response body
  to the caller's output and returns true. Module `Health` (`health.dfy`)
  holds the verdict of `up?`. Module `Gotenberg` (`client.dfy`) holds the
  classes `Client`, `Sink` (the output) and `Service` (the conversion service
  as the client sees it). Module `Scenarios` (`scenarios.dfy`) runs whole
  calls against scripted services.

The network is not modelled. The outcome of the GET on the health URL is a
`ProbeOutcome`: a fault, or a status code with the body as `JSON.parse` reads
it. The outcome of the POST is a `PostOutcome`: a fault, or the response
body. A `Service` holds two functions that give these outcomes, and it
records every request the client attempts, including one whose fault is
raised before anything reaches the network. Ruby exceptions are values of
`RubyError`. A call of `html` ends in `Returned(b)` or `Raised(e)`.

### The transport fault in `html`

The `rescue` at `lib/gotenberg.rb:58-59` looks as if it replaces a failed POST
with an empty body. It does not: it sets `response` to the String `""`, and
line 62 then calls `body` on that String, outside the `begin` block. A String
has no `body` method, so NoMethodError propagates out of `html` and nothing is
written. `Client.Html` ends in `Raised(NoMethodError)` with the output
unchanged.

Two further points follow from the code:

- The body of a POST response is written whatever its HTTP status. `html`
  returns true even if the service answered with an error page.
- `up?` evaluates `JSON.parse(body)["status"]` with Ruby's own semantics. A
  JSON array or integer raises TypeError; a float, boolean or null raises
  NoMethodError; a JSON string answers with a substring or nil. The
  `rescue StandardError` turns each raised error into false.

## Model

| member | source | states |
|---|---|---|
| `ClientOptions.PermittedOptions` | lib/gotenberg.rb:21-27 | the table has exactly five entries, and each one maps an option's keyword to that option's wire name |
| `ClientOptions.Lookup` | lib/gotenberg.rb:21-27 | `PERMITTED_OPTIONS.key?`: a key is found exactly when it is the Symbol of a table entry's keyword, and then that entry is returned; no String key is found |
| `ClientOptions.WireLookup` | lib/gotenberg.rb:21-27 | a name is found exactly when it is the wire name of a table entry, and then that entry is returned |
| `ClientOptions.Rename` | lib/gotenberg.rb:90 | `PERMITTED_OPTIONS[key]` is a wire name, and it belongs to the entry the key was found as |
| `ClientOptions.KeyFor` | lib/gotenberg.rb:21-27 | the Symbol key of the entry with a given wire name is found in the table and renames back to that wire name |
| `ClientOptions.NamesDistinct` | lib/gotenberg.rb:21-27 | the table is injective on keywords and on wire names, and no keyword is also a wire name |
| `ClientOptions.FilterAndTransformParams` | lib/gotenberg.rb:89-91 | every permitted input key appears under its wire name with its value unchanged; every output key is a wire name whose Symbol key is in the input, and its value is that argument's value |
| `ClientOptions.RenamedSize` | lib/gotenberg.rb:21-27 | renaming a set of permitted keywords neither merges nor loses any of them |
| `ClientOptions.TranslatedSize` | lib/gotenberg.rb:90 | the output has exactly as many entries as the input has permitted keywords |
| `ClientOptions.NoPermittedKeysGivesEmpty` | lib/gotenberg.rb:90 | arguments none of which is in the table translate to the empty map |
| `ClientOptions.UnknownKeyIgnored` | lib/gotenberg.rb:90 | adding or changing an argument the table does not know leaves the output unchanged |
| `ClientOptions.Permitted` | lib/gotenberg.rb:90 | the `select` step: its keys are exactly the permitted input keywords, with their values |
| `ClientOptions.OnlyPermittedPartMatters` | lib/gotenberg.rb:90 | the output depends only on the permitted part of the input |
| `ClientOptions.NoKeywordSurvives` | lib/gotenberg.rb:90 | no output key, read as a Symbol, is the keyword of a table entry |
| `ClientOptions.UntransformParams` | lib/gotenberg.rb:21-27 | the inverse renaming: every wire name present comes back as its keyword's Symbol with the same value, and every output key is a permitted keyword whose wire name was present |
| `ClientOptions.UntransformAfterTransform` | lib/gotenberg.rb:90 | renaming back the translation gives the permitted arguments with their values unchanged |
| `ClientOptions.TransformAfterUntransform` | lib/gotenberg.rb:90 | every map over wire names is the translation of some keyword arguments |
| `ClientOptions.MarginTopExample` | lib/gotenberg.rb:84-91 | `margin_top: "1cm", unsupported_opt: "x"` translates to `{"marginTop" => "1cm"}`, and `"margin_top"` passed under a String key translates to nothing |
| `ConversionRequest.Params` | lib/gotenberg.rb:49 | the translated options become String-keyed payload entries, exactly one per wire parameter, with values unchanged |
| `ConversionRequest.Payload` | lib/gotenberg.rb:41-49 | the payload holds the `index.html` part (content `render`, type `text/html`), every translated option under its wire name, nothing else, and one part more than there are translated options |
| `ConversionRequest.MergeContents` | lib/gotenberg.rb:49 | the merge of the HTML part with any String-keyed parameters keeps the HTML part and each parameter, adds nothing, and has one entry more |
| `ConversionRequest.StrImageSize` | lib/gotenberg.rb:49 | turning wire names into String keys keeps them distinct |
| `ConversionRequest.SingleOptionPayload` | lib/gotenberg.rb:41-49 | arguments that translate to a single wire parameter give exactly the HTML part and that parameter |
| `ConversionRequest.PayloadCarriesOptions` | lib/gotenberg.rb:41-49 | every permitted keyword argument is posted with its value under its wire name, and the payload size is one plus the number of permitted arguments |
| `ConversionRequest.MergeFieldNamesDistinct` | lib/gotenberg.rb:49 | when no parameter is named `index.html`, no two payload parts share a form field name |
| `ConversionRequest.FieldNamesDistinct` | lib/gotenberg.rb:41-49 | no two parts of the payload share a form field name, so the merge never overwrites the HTML part |
| `ConversionRequest.ConvertUrl` | lib/gotenberg.rb:51 | the conversion URL is the base URL followed by `/forms/chromium/convert/html` |
| `ConversionRequest.HealthUrl` | lib/gotenberg.rb:67 | the health URL is the base URL followed by `/health` |
| `ConversionRequest.UrlsDetermineBase` | lib/gotenberg.rb:51 | two clients share a conversion URL, or a health URL, only when their base URLs are equal |
| `ConversionRequest.HealthUrlIsNeverConvertUrl` | lib/gotenberg.rb:67 | no health URL equals any conversion URL |
| `Health.StatusField` | lib/gotenberg.rb:77 | `json["status"]` is the string "up" exactly when the parsed body is an object whose "status" field is the string "up" |
| `Health.Up` | lib/gotenberg.rb:66-80 | `up?` is true exactly when the probe got a response with code "200" whose parsed body is an object with "status" equal to "up", and exactly when the unrescued expression evaluates to true |
| `Health.RaisedMeansDown` | lib/gotenberg.rb:78-79 | an error raised while evaluating the verdict makes `up?` false and does not propagate |
| `Health.BoundaryAnswers` | lib/gotenberg.rb:77 | status "down" with code 200 is down, status "up" with code 200 is up, and status "up" with any other code is down |
| `Gotenberg.Sink.constructor` | lib/gotenberg.rb:36 | a new output holds no bytes |
| `Gotenberg.Sink.Write` | lib/gotenberg.rb:62 | `output.write` on an output that appends (a File opened for writing, a socket, a StringIO at its end) adds exactly the given bytes after those already written |
| `Gotenberg.Service.constructor` | lib/gotenberg.rb:53-57 | a new service answers with the given functions and has received no request |
| `Gotenberg.Service.HttpGet` | lib/gotenberg.rb:73-75 | a GET yields the service's answer for that URL and the attempt is recorded |
| `Gotenberg.Service.HttpPost` | lib/gotenberg.rb:57 | a POST yields the service's answer for that URL and payload and the attempt is recorded |
| `Gotenberg.ResponseBody` | lib/gotenberg.rb:58-62 | `response.body` succeeds exactly on a response object and gives its body; on the rescued `""` it raises NoMethodError |
| `Gotenberg.Client.constructor` | lib/gotenberg.rb:29-31 | the client keeps the base URL it is given |
| `Gotenberg.Client.IsUp` | lib/gotenberg.rb:66-80 | `up?` sends exactly one GET, to the health URL, and answers whether that response reports the service up |
| `Gotenberg.Client.Html` | lib/gotenberg.rb:38-64 | if the service is not up: returns false, sends only the probe, writes nothing; otherwise sends the probe and then one POST of the payload to the conversion URL; a response's body is appended to the output and true returned; a POST fault raises NoMethodError and writes nothing; true is returned exactly when the service is up and the POST yields a response |
| `Scenarios.ConversionSucceeds` | lib/gotenberg.rb:38-64 | against a healthy service that returns PDF bytes, `html` returns true, writes exactly those bytes and posts the payload of its arguments |
| `Scenarios.ScenarioPayload` | lib/gotenberg.rb:41-49 | for `margin_top: "1cm", unsupported_opt: "x"` the payload is exactly the HTML part and `marginTop=1cm`, so nothing is sent for `unsupported_opt` |
| `Scenarios.ConversionGated` | lib/gotenberg.rb:39 | against a service reporting status "down", `html` returns false after one request and writes nothing |
| `Scenarios.ConversionFaultRaises` | lib/gotenberg.rb:52-62 | when the POST raises, `html` raises NoMethodError and writes nothing |

## Left out

- `Gotenberg::Assets.include_css` (lib/gotenberg.rb:11-17) is not modelled. It needs a Rails application and reads a file, so it has no self-contained behaviour.
- The HTTP exchange itself is not modelled: `Net::HTTP.start`, `Net::HTTP::Get`, the Faraday connection and the multipart `flat_encode` encoding. `Service` replaces them. It gives an abstract outcome for each request and records the requests sent.
- `JSON.parse` is not modelled. A probe response carries its body already parsed, as `Option<Json>`, where `None` means the parser raised. `json` is never required in the file. If the constant `JSON` is missing, the resulting NameError is rescued too. The model gives the same answer, false, as for a parse error.
- URI parsing and the `use_ssl` scheme check are not modelled. A URL that `URI.parse` rejects raises inside `up?` and is rescued as false. The model covers that case as a `ProbeFault`.
- `force_encoding("utf-8")` is not modelled. It only relabels the encoding of the body, so bodies are opaque bytes.
- The code has no TLS configuration, timeouts or retries, so the model has none.
- `StringIO.new(render)` is not modelled. The HTML part holds `render` as a string. A `render` that is not a String raises TypeError before the `begin` block; the model types `render` as a string, so that case does not arise.
- `Gotenberg.Sink.Write`: the output is modelled as a writer that appends. The code also accepts a `Pathname`, whose `write` replaces the file's contents, and a StringIO not positioned at its end, which overwrites bytes in place. For those outputs the final contents differ from what `Client.Html` states, which is old contents followed by the body.
- Option values are a type parameter `V`. They are passed through without being inspected, as in the code.
- `Health.StatusField`: for a JSON string body the contract only covers the "up" outcome, not which substring `String#[]` returns. A substring match on `"status"` never equals "up", so the verdict is unaffected.
