/** The closed table of rendering options the client forwards
    (`PERMITTED_OPTIONS`), and the translation of the caller's keyword
    arguments into wire parameters (`filter_and_transform_params`). */
module ClientOptions {
  import opened Wrappers

  /** A key of a Ruby hash: a Symbol such as `:margin_top`, or a String. */
  datatype HashKey = Symbol(name: string) | Str(text: string)

  /** The five entries of the table. */
  datatype OptionName = PreferCssPageSize | MarginTop | MarginBottom | MarginLeft | MarginRight

  /** The caller-facing keyword of an entry (the name of its Symbol key). */
  function Keyword(o: OptionName): string
  {
    match o
    case PreferCssPageSize => "prefer_css_page_size"
    case MarginTop => "margin_top"
    case MarginBottom => "margin_bottom"
    case MarginLeft => "margin_left"
    case MarginRight => "margin_right"
  }

  /** The camelCase parameter name the conversion service expects for it. */
  function WireName(o: OptionName): string
  {
    match o
    case PreferCssPageSize => "preferCssPageSize"
    case MarginTop => "marginTop"
    case MarginBottom => "marginBottom"
    case MarginLeft => "marginLeft"
    case MarginRight => "marginRight"
  }

  /** The table as the hash it is written as, keyed by Symbols. The rest of
      the model reads it through `Lookup` and `Rename`; the `ensures` say the
      two forms agree entry for entry. */
  function PermittedOptions(): (table: map<HashKey, string>)
    ensures forall o :: Symbol(Keyword(o)) in table && table[Symbol(Keyword(o))] == WireName(o)
    ensures forall k :: k in table ==> Lookup(k).Some? && table[k] == Rename(k)
    ensures |table| == 5
  {
    var table := map[
      Symbol("prefer_css_page_size") := "preferCssPageSize",
      Symbol("margin_top") := "marginTop",
      Symbol("margin_bottom") := "marginBottom",
      Symbol("margin_left") := "marginLeft",
      Symbol("margin_right") := "marginRight"
    ];
    assert |table| == 5;
    forall o ensures Symbol(Keyword(o)) in table && table[Symbol(Keyword(o))] == WireName(o) {
      // One case per entry, each checked against the literal.
      if o.PreferCssPageSize? {
      } else if o.MarginTop? {
      } else if o.MarginBottom? {
      } else if o.MarginLeft? {
      } else {
      }
    }
    forall k | k in table ensures Lookup(k).Some? && table[k] == Rename(k) {
    }
    table
  }

  /** `PERMITTED_OPTIONS.key?(key)`, with the entry found. Only a Symbol can
      be a key of the table: a String such as `"margin_top"` is not found. */
  function Lookup(key: HashKey): (r: Option<OptionName>)
    ensures r.Some? ==> key == Symbol(Keyword(r.value))
    ensures forall o :: key == Symbol(Keyword(o)) ==> r == Some(o)
  {
    match key
    case Str(_) => None
    case Symbol(name) =>
      if name == "prefer_css_page_size" then Some(PreferCssPageSize)
      else if name == "margin_top" then Some(MarginTop)
      else if name == "margin_bottom" then Some(MarginBottom)
      else if name == "margin_left" then Some(MarginLeft)
      else if name == "margin_right" then Some(MarginRight)
      else None
  }

  /** The entry whose wire name is `name`, if any. */
  function WireLookup(name: string): (r: Option<OptionName>)
    ensures r.Some? ==> WireName(r.value) == name
    ensures forall o :: WireName(o) == name ==> r == Some(o)
  {
    if name == "preferCssPageSize" then Some(PreferCssPageSize)
    else if name == "marginTop" then Some(MarginTop)
    else if name == "marginBottom" then Some(MarginBottom)
    else if name == "marginLeft" then Some(MarginLeft)
    else if name == "marginRight" then Some(MarginRight)
    else None
  }

  predicate IsWireName(name: string)
  {
    WireLookup(name).Some?
  }

  /** No two entries share a keyword or a wire name, and no keyword is a
      wire name: renaming can neither merge two arguments nor leave a
      caller-facing name on the wire. */
  lemma NamesDistinct(o1: OptionName, o2: OptionName)
    ensures Keyword(o1) == Keyword(o2) ==> o1 == o2
    ensures WireName(o1) == WireName(o2) ==> o1 == o2
    ensures Keyword(o1) != WireName(o2)
  {
    assert Lookup(Symbol(Keyword(o1))) == Some(o1);
    assert WireLookup(WireName(o1)) == Some(o1);
    assert WireLookup(Keyword(o1)).None?;
  }

  /** Keyword arguments whose names are in the table. */
  function PermittedKeys<V>(params: map<HashKey, V>): set<HashKey>
  {
    set k | k in params && Lookup(k).Some?
  }

  /** `PERMITTED_OPTIONS[key]`: the wire name of a permitted keyword. */
  function Rename(key: HashKey): (w: string)
    requires Lookup(key).Some?
    ensures IsWireName(w) && WireLookup(w) == Lookup(key)
  {
    WireName(Lookup(key).value)
  }

  /** The Symbol key of the table entry whose wire name is `w`. */
  function KeyFor(w: string): (k: HashKey)
    requires IsWireName(w)
    ensures Lookup(k).Some? && Rename(k) == w
  {
    Symbol(Keyword(WireLookup(w).value))
  }

  /** Renaming a permitted keyword and reading its key back is the identity. */
  lemma KeyForRename(k: HashKey)
    requires Lookup(k).Some?
    ensures KeyFor(Rename(k)) == k
  {
  }

  /** `params.select { PERMITTED_OPTIONS.key?(_1) }
        .transform_keys { PERMITTED_OPTIONS[_1] }`: keep the keyword
      arguments the table knows, rename each to its wire name, keep its
      value. Every output entry is the value of the argument whose keyword
      has that wire name. */
  function FilterAndTransformParams<V>(params: map<HashKey, V>): (r: map<string, V>)
    ensures forall k :: k in params && Lookup(k).Some? ==> Rename(k) in r && r[Rename(k)] == params[k]
    ensures forall w :: w in r ==> IsWireName(w) && KeyFor(w) in params && r[w] == params[KeyFor(w)]
  {
    forall k1, k2 | k1 in PermittedKeys(params) && k2 in PermittedKeys(params) && Rename(k1) == Rename(k2)
      ensures k1 == k2
    {
      NamesDistinct(Lookup(k1).value, Lookup(k2).value);
    }
    var r := map k | k in PermittedKeys(params) :: Rename(k) := params[k];
    assert r.Keys == Renamed(PermittedKeys(params));
    forall w | w in r
      ensures IsWireName(w) && KeyFor(w) in params && r[w] == params[KeyFor(w)]
    {
      var k :| k in PermittedKeys(params) && Rename(k) == w;
      KeyForRename(k);
    }
    r
  }

  /** The wire names of a set of permitted keywords. */
  ghost function Renamed(s: set<HashKey>): set<string>
    requires forall k :: k in s ==> Lookup(k).Some?
  {
    set k | k in s :: Rename(k)
  }

  lemma {:induction false} RenamedSize(s: set<HashKey>)
    requires forall k :: k in s ==> Lookup(k).Some?
    ensures |Renamed(s)| == |s|
  {
    if s != {} {
      var k :| k in s;
      var rest := s - {k};
      RenamedSize(rest);
      assert Renamed(s) == Renamed(rest) + {Rename(k)};
      forall j | j in rest ensures Rename(j) != Rename(k) {
        NamesDistinct(Lookup(j).value, Lookup(k).value);
      }
    }
  }

  /** Renaming never merges two arguments: the result has one entry per
      permitted keyword argument. */
  lemma TranslatedSize<V>(params: map<HashKey, V>)
    ensures |FilterAndTransformParams(params)| == |PermittedKeys(params)|
  {
    var r := FilterAndTransformParams(params);
    var s := PermittedKeys(params);
    assert r.Keys == Renamed(s);
    RenamedSize(s);
  }

  /** Arguments none of which the table knows translate to nothing. */
  lemma NoPermittedKeysGivesEmpty<V>(params: map<HashKey, V>)
    requires forall k :: k in params ==> Lookup(k).None?
    ensures FilterAndTransformParams(params) == map[]
  {
    assert PermittedKeys(params) == {};
    TranslatedSize(params);
  }

  /** An argument the table does not know has no influence on the result. */
  lemma UnknownKeyIgnored<V>(params: map<HashKey, V>, k: HashKey, v: V)
    requires Lookup(k).None?
    ensures FilterAndTransformParams(params[k := v]) == FilterAndTransformParams(params)
  {
    assert PermittedKeys(params[k := v]) == PermittedKeys(params);
  }

  /** The permitted part of the arguments. */
  function Permitted<V>(params: map<HashKey, V>): (r: map<HashKey, V>)
    ensures r.Keys == PermittedKeys(params)
    ensures forall k :: k in r ==> r[k] == params[k]
  {
    map k | k in PermittedKeys(params) :: params[k]
  }

  /** Only the permitted part of the arguments matters. */
  lemma OnlyPermittedPartMatters<V>(params: map<HashKey, V>)
    ensures FilterAndTransformParams(params) == FilterAndTransformParams(Permitted(params))
  {
    assert PermittedKeys(params) == PermittedKeys(Permitted(params));
  }

  /** No output key is a caller-facing keyword: read as a Symbol, none of
      them names an entry of the table. */
  lemma NoKeywordSurvives<V>(params: map<HashKey, V>)
    ensures forall w :: w in FilterAndTransformParams(params) ==> Lookup(Symbol(w)).None?
  {
    var r := FilterAndTransformParams(params);
    forall w | w in r ensures Lookup(Symbol(w)).None? {
      if Lookup(Symbol(w)).Some? {
        NamesDistinct(Lookup(Symbol(w)).value, WireLookup(w).value);
      }
    }
  }

  /** Maps with the same keys and the same value at each key are equal. */
  lemma MapsEqual<K, V>(a: map<K, V>, b: map<K, V>)
    requires a.Keys == b.Keys
    requires forall k :: k in a ==> a[k] == b[k]
    ensures a == b
  {
  }

  /** The reverse translation: wire parameters back to keyword arguments.
      Every wire name present comes back as its keyword's Symbol with the same
      value, and nothing else is produced. */
  function UntransformParams<V>(wire: map<string, V>): (r: map<HashKey, V>)
    ensures forall w :: w in wire && IsWireName(w) ==> KeyFor(w) in r && r[KeyFor(w)] == wire[w]
    ensures forall k :: k in r ==> Lookup(k).Some? && Rename(k) in wire && r[k] == wire[Rename(k)]
  {
    var names := set w | w in wire && IsWireName(w);
    forall w1, w2 | w1 in names && w2 in names && KeyFor(w1) == KeyFor(w2)
      ensures w1 == w2
    {
    }
    var r := map w | w in names :: KeyFor(w) := wire[w];
    forall k | k in r
      ensures Lookup(k).Some? && Rename(k) in wire && r[k] == wire[Rename(k)]
    {
      var w :| w in names && KeyFor(w) == k;
    }
    r
  }

  /** Translating and translating back gives the permitted arguments
      unchanged: no value is altered and no permitted argument is lost. */
  lemma UntransformAfterTransform<V>(params: map<HashKey, V>)
    ensures UntransformParams(FilterAndTransformParams(params)) == Permitted(params)
  {
    var t := FilterAndTransformParams(params);
    var back := UntransformParams(t);
    var want := Permitted(params);
    forall k | k in want ensures k in back {
      KeyForRename(k);
    }
    MapsEqual(back, want);
  }

  /** Every map over the wire names is the translation of some arguments. */
  lemma TransformAfterUntransform<V>(wire: map<string, V>)
    requires forall w :: w in wire ==> IsWireName(w)
    ensures FilterAndTransformParams(UntransformParams(wire)) == wire
  {
    var u := UntransformParams(wire);
    var t := FilterAndTransformParams(u);
    forall w | w in wire ensures w in t {
      assert KeyFor(w) in u;
    }
    MapsEqual(t, wire);
  }

  /** The keyword arguments `margin_top: "1cm", unsupported_opt: "x"` become
      the single wire parameter `marginTop=1cm`; the same option passed under
      the String key `"margin_top"` is dropped. */
  lemma MarginTopExample()
    ensures FilterAndTransformParams(map[Symbol("margin_top") := "1cm", Symbol("unsupported_opt") := "x"])
      == map["marginTop" := "1cm"]
    ensures FilterAndTransformParams(map[Str("margin_top") := "1cm"]) == map[]
  {
    var params := map[Symbol("margin_top") := "1cm", Symbol("unsupported_opt") := "x"];
    var r := FilterAndTransformParams(params);
    assert Rename(Symbol("margin_top")) == "marginTop";
    forall w | w in r ensures w == "marginTop" {
      assert Lookup(Symbol("unsupported_opt")).None?;
      assert KeyFor(w) == Symbol("margin_top");
    }
    MapsEqual(r, map["marginTop" := "1cm"]);
    NoPermittedKeysGivesEmpty(map[Str("margin_top") := "1cm"]);
  }
}
