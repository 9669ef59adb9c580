/** What the client sends: the multipart payload of a conversion request and
    the two endpoint URLs built from the client's base URL. */
module ConversionRequest {
  import opened ClientOptions

  /** A value of the payload hash: the uploaded HTML file, or an option value
      passed through unchanged. */
  datatype Part<V> =
    | FilePart(content: string, contentType: string, fileName: string)
    | Param(value: V)

  /** The payload hash. The HTML part is keyed by the Symbol `:"index.html"`;
      the translated options by their wire names, which are Strings. */
  type Multipart<V> = map<HashKey, Part<V>>

  const IndexKey: HashKey := Symbol("index.html")

  /** The form field name a key is sent under. */
  function FieldName(k: HashKey): string
  {
    match k
    case Symbol(name) => name
    case Str(text) => text
  }

  /** The HTML to convert, uploaded as the file `index.html` of type `text/html`. */
  function IndexPart<V>(render: string): Part<V>
  {
    FilePart(render, "text/html", "index.html")
  }

  /** Wire parameters as payload entries. */
  function Params<V>(wire: map<string, V>): (p: Multipart<V>)
    ensures forall k :: k in p ==> k.Str? && k.text in wire && p[k] == Param(wire[k.text])
    ensures forall w :: w in wire ==> Str(w) in p
    ensures |p| == |wire|
  {
    var p := map w | w in wire :: Str(w) := Param(wire[w]);
    assert p.Keys == set w | w in wire :: Str(w);
    StrImageSize(wire.Keys);
    p
  }

  /** `content.merge(params)`, where `content` holds only the HTML part. As
      in `Hash#merge`, an entry of the right operand would win on a shared
      key. */
  function Merge<V>(render: string, wire: map<string, V>): Multipart<V>
  {
    map[IndexKey := IndexPart(render)] + Params(wire)
  }

  /** The payload of a conversion request: the HTML part merged with the
      translated keyword arguments. */
  function Payload<V>(render: string, kwargs: map<HashKey, V>): (p: Multipart<V>)
    ensures IndexKey in p && p[IndexKey] == IndexPart(render)
    ensures forall w :: w in FilterAndTransformParams(kwargs) ==>
      Str(w) in p && p[Str(w)] == Param(FilterAndTransformParams(kwargs)[w])
    ensures forall key :: key in p && key != IndexKey ==> key.Str? && key.text in FilterAndTransformParams(kwargs)
    ensures |p| == 1 + |FilterAndTransformParams(kwargs)|
  {
    MergeContents(render, FilterAndTransformParams(kwargs));
    Merge(render, FilterAndTransformParams(kwargs))
  }

  /** The merge keeps the HTML part and every parameter, adds nothing, and
      has one entry more than there are parameters. */
  lemma MergeContents<V>(render: string, wire: map<string, V>)
    ensures IndexKey in Merge(render, wire) && Merge(render, wire)[IndexKey] == IndexPart(render)
    ensures forall w :: w in wire ==> Str(w) in Merge(render, wire) && Merge(render, wire)[Str(w)] == Param(wire[w])
    ensures forall key :: key in Merge(render, wire) && key != IndexKey ==> key.Str? && key.text in wire
    ensures |Merge(render, wire)| == 1 + |wire|
  {
    var params := Params(wire);
    assert IndexKey !in params;
    AddFreshKey(IndexKey, IndexPart<V>(render), params);
  }

  /** Adding a key a map does not have, on the left of `+`, keeps every entry
      of the map and adds exactly that one. */
  lemma AddFreshKey<K, U>(k: K, x: U, m: map<K, U>)
    requires k !in m
    ensures var u := map[k := x] + m;
      && k in u && u[k] == x
      && (forall j :: j in m ==> j in u && u[j] == m[j])
      && (forall j :: j in u && j != k ==> j in m)
      && |u| == |m| + 1
  {
    var u := map[k := x] + m;
    assert u.Keys == m.Keys + {k};
  }

  lemma {:induction false} StrImageSize(s: set<string>)
    ensures |set w | w in s :: Str(w)| == |s|
  {
    if s != {} {
      var w :| w in s;
      StrImageSize(s - {w});
      assert (set x | x in s :: Str(x)) == (set x | x in s - {w} :: Str(x)) + {Str(w)};
    }
  }

  /** Every permitted keyword argument is sent, with its value, under its wire
      name; the payload has one part more than there are permitted arguments. */
  lemma PayloadCarriesOptions<V>(render: string, kwargs: map<HashKey, V>)
    ensures forall k :: k in kwargs && Lookup(k).Some? ==>
      Str(Rename(k)) in Payload(render, kwargs) &&
      Payload(render, kwargs)[Str(Rename(k))] == Param(kwargs[k])
    ensures |Payload(render, kwargs)| == 1 + |PermittedKeys(kwargs)|
  {
    TranslatedSize(kwargs);
  }

  /** When the arguments translate to a single wire parameter, the payload is
      the HTML part and that parameter. */
  lemma SingleOptionPayload<V>(render: string, kwargs: map<HashKey, V>, w: string, v: V)
    requires FilterAndTransformParams(kwargs) == map[w := v]
    ensures Payload(render, kwargs) == map[IndexKey := IndexPart(render), Str(w) := Param(v)]
  {
    MergeSingle(render, w, v);
  }

  lemma MergeSingle<V>(render: string, w: string, v: V)
    ensures Merge(render, map[w := v]) == map[IndexKey := IndexPart(render), Str(w) := Param(v)]
  {
    assert Params(map[w := v]) == map[Str(w) := Param(v)];
  }

  lemma MergeFieldNamesDistinct<V>(render: string, wire: map<string, V>)
    requires "index.html" !in wire
    ensures forall k1, k2 ::
      k1 in Merge(render, wire) && k2 in Merge(render, wire) && FieldName(k1) == FieldName(k2) ==> k1 == k2
  {
    MergeContents(render, wire);
  }

  /** Even once every key is flattened to its form field name, no two parts of
      the payload share a name: `index.html` is not a wire name. */
  lemma FieldNamesDistinct<V>(render: string, kwargs: map<HashKey, V>)
    ensures forall k1, k2 ::
      k1 in Payload(render, kwargs) && k2 in Payload(render, kwargs) && FieldName(k1) == FieldName(k2) ==> k1 == k2
  {
    assert !IsWireName("index.html");
    MergeFieldNamesDistinct(render, FilterAndTransformParams(kwargs));
  }

  // ---------------------------------------------------------------------
  // Endpoints
  // ---------------------------------------------------------------------

  const ConvertPath: string := "/forms/chromium/convert/html"
  const HealthPath: string := "/health"

  /** `"#{@api_url}/forms/chromium/convert/html"` */
  function ConvertUrl(apiUrl: string): (url: string)
    ensures |url| == |apiUrl| + |ConvertPath|
    ensures url[..|apiUrl|] == apiUrl && url[|apiUrl|..] == ConvertPath
  {
    apiUrl + ConvertPath
  }

  /** `"#{@api_url}/health"` */
  function HealthUrl(apiUrl: string): (url: string)
    ensures |url| == |apiUrl| + |HealthPath|
    ensures url[..|apiUrl|] == apiUrl && url[|apiUrl|..] == HealthPath
  {
    apiUrl + HealthPath
  }

  /** Distinct clients address distinct endpoints: the base URL can be read
      back from either URL. */
  lemma UrlsDetermineBase(a: string, b: string)
    ensures ConvertUrl(a) == ConvertUrl(b) ==> a == b
    ensures HealthUrl(a) == HealthUrl(b) ==> a == b
  {
    if ConvertUrl(a) == ConvertUrl(b) {
      assert a == ConvertUrl(a)[..|a|];
    }
    if HealthUrl(a) == HealthUrl(b) {
      assert a == HealthUrl(a)[..|a|];
    }
  }

  /** Whatever the two base URLs, the health probe never addresses a
      conversion endpoint: the URLs end in different characters. */
  lemma HealthUrlIsNeverConvertUrl(a: string, b: string)
    ensures HealthUrl(a) != ConvertUrl(b)
  {
    var h, c := HealthUrl(a), ConvertUrl(b);
    assert h[|h| - 1] == 'h';
    assert c[|c| - 1] == 'l';
  }
}
