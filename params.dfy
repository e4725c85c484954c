/** Filter names and the data-pb-* attribute handling that getFilterParameters
    does in every version. */
module Params {
  import opened Pixels
  import opened Color

  /** The filter classes processFilters is called with. */
  datatype Filter = Blur | Edges | Emboss | Greyscale | Matrix | Mosaic | Noise | Posterize | Sepia | Sharpen | Tint

  /** A parameter value: a number, a string (a default such as "mono", or
      the text of an attribute, which JavaScript turns into a number where
      it is used as one), or the infinity that a division by zero gives. */
  datatype Param = Num(n: real) | Text(s: string) | Infinity

  /** The element's attributes: getAttribute gives None (null) for a missing one. */
  type Attributes = map<string, string>

  function GetAttribute(attrs: Attributes, name: string): Option<string>
  {
    if name in attrs then Some(attrs[name]) else None
  }

  /** An attribute value is truthy when it exists and is not the empty string. */
  predicate Truthy(a: Option<string>)
  {
    a.Some? && a.value != ""
  }

  predicate IsUpper(c: char) { 'A' <= c <= 'Z' }

  /** `name.replace(/([A-Z])/g, ...)`: each capital becomes '-' and its lower case. */
  function Hyphenate(name: string): string
  {
    if name == [] then [] else HyphenatedChar(name[0]) + Hyphenate(name[1..])
  }

  function HyphenatedChar(c: char): string
  {
    if IsUpper(c) then ['-', (c as int + 32) as char] else [c]
  }

  /** No capital is left. */
  lemma {:induction false} HyphenateLower(name: string)
    ensures forall i :: 0 <= i < |Hyphenate(name)| ==> !IsUpper(Hyphenate(name)[i])
  {
    if name != [] {
      HyphenateLower(name[1..]);
      var head, rest := HyphenatedChar(name[0]), Hyphenate(name[1..]);
      forall i | 0 <= i < |head + rest| ensures !IsUpper((head + rest)[i]) {
        if i < |head| { assert (head + rest)[i] == head[i]; } else { assert (head + rest)[i] == rest[i - |head|]; }
      }
    }
  }

  /** A name without capitals is its own attribute suffix. */
  lemma {:induction false} HyphenateNoCapitals(name: string)
    requires forall i :: 0 <= i < |name| ==> !IsUpper(name[i])
    ensures Hyphenate(name) == name
  {
    if name != [] {
      assert forall i :: 0 <= i < |name[1..]| ==> name[1..][i] == name[i + 1];
      HyphenateNoCapitals(name[1..]);
      assert name == [name[0]] + name[1..];
    }
  }

  /** The attribute that overrides parameter name: "data-pb-" and its hyphenated form. */
  function AttributeName(name: string): string
  {
    "data-pb-" + Hyphenate(name)
  }

  /** The number a parameter stands for; an attribute's text goes through
      JavaScript's string-to-number conversion, which the model takes as given. */
  function NumberOf(p: Param, toNumber: string -> real): real
    requires !p.Infinity?
  {
    match p
    case Num(n) => n
    case Text(s) => toNumber(s)
  }

  /** a / b on JavaScript numbers, for a positive numerator. */
  function Divide(a: real, b: real): (q: Param)
    requires a > 0.0
    ensures b == 0.0 <==> q == Infinity
    ensures b != 0.0 ==> q == Num(a / b) && q.n * b == a
  {
    if b == 0.0 then Infinity else Num(a / b)
  }

  /** A parameter after the attribute loop: the attribute's text when the
      attribute is truthy, the default otherwise. */
  function Overridden(defaults: map<string, Param>, attrs: Attributes, name: string): Param
    requires name in defaults
  {
    if Truthy(GetAttribute(attrs, AttributeName(name))) then Text(attrs[AttributeName(name)]) else defaults[name]
  }

  /** Every parameter after the attribute loop. */
  function OverriddenAll(defaults: map<string, Param>, attrs: Attributes): (r: map<string, Param>)
    ensures r.Keys == defaults.Keys
  {
    map name | name in defaults :: Overridden(defaults, attrs, name)
  }

  /** The `for (var filterName in params)` loop of v0.2 and v0.3: every
      parameter whose attribute is truthy takes the attribute's text. */
  method OverrideFromAttributes(params: map<string, Param>, attrs: Attributes) returns (r: map<string, Param>)
    ensures r == OverriddenAll(params, attrs)
  {
    r := params;
    var todo := params.Keys;
    while todo != {}
      invariant todo <= params.Keys
      invariant r.Keys == params.Keys
      invariant forall name :: name in params && name !in todo ==> r[name] == Overridden(params, attrs, name)
      invariant forall name :: name in todo ==> r[name] == params[name]
      decreases |todo|
    {
      var filterName :| filterName in todo;
      var attr := GetAttribute(attrs, AttributeName(filterName));
      if Truthy(attr) {
        r := r[filterName := Text(attr.value)];
      }
      assert r[filterName] == Overridden(params, attrs, filterName);
      todo := todo - {filterName};
    }
    OverriddenEverywhere(r, params, attrs);
  }

  /** A map agreeing with Overridden on every name is OverriddenAll. */
  lemma OverriddenEverywhere(r: map<string, Param>, params: map<string, Param>, attrs: Attributes)
    requires r.Keys == params.Keys
    requires forall name :: name in params ==> r[name] == Overridden(params, attrs, name)
    ensures r == OverriddenAll(params, attrs)
  {
    var o := OverriddenAll(params, attrs);
    assert forall name :: name in params ==> r[name] == o[name];
  }

  /** `params['tintColor'] = ref.getAttribute("data-pb-tint-colour") || params['tintColor']`. */
  function TintColourOverride(params: map<string, Param>, attrs: Attributes): (r: map<string, Param>)
    requires "tintColor" in params
    ensures r.Keys == params.Keys
    ensures forall name :: name in params && name != "tintColor" ==> r[name] == params[name]
    ensures Truthy(GetAttribute(attrs, "data-pb-tint-colour")) ==> r["tintColor"] == Text(attrs["data-pb-tint-colour"])
    ensures !Truthy(GetAttribute(attrs, "data-pb-tint-colour")) ==> r["tintColor"] == params["tintColor"]
  {
    var colour := GetAttribute(attrs, "data-pb-tint-colour");
    params["tintColor" := if Truthy(colour) then Text(colour.value) else params["tintColor"]]
  }

  /** `256 / amount` and `255 / (amount - 1)` on a parameter; in JavaScript
      an infinite amount gives 0 for both. */
  function PosterizeQuotients(amount: Param, toNumber: string -> real): (Param, Param)
  {
    if amount.Infinity? then (Num(0.0), Num(0.0))
    else var n := NumberOf(amount, toNumber); (Divide(256.0, n), Divide(255.0, n - 1.0))
  }

  /** The two derived posterize values, posterizeAreas and posterizeValues,
      added to the parameters. */
  function WithPosterizeValues(params: map<string, Param>, toNumber: string -> real): (r: map<string, Param>)
    requires "posterizeAmount" in params
    ensures r.Keys == params.Keys + {"posterizeAreas", "posterizeValues"}
    ensures forall name :: name in params && name != "posterizeAreas" && name != "posterizeValues" ==> r[name] == params[name]
  {
    var q := PosterizeQuotients(params["posterizeAmount"], toNumber);
    params["posterizeAreas" := q.0]["posterizeValues" := q.1]
  }

  /** Hyphenation works piece by piece. */
  lemma {:induction false} HyphenateAppend(a: string, b: string)
    ensures Hyphenate(a + b) == Hyphenate(a) + Hyphenate(b)
  {
    if a != [] {
      var ab := a + b;
      assert ab[0] == a[0];
      assert ab[1..] == a[1..] + b;
      HyphenateAppend(a[1..], b);
      var head := HyphenatedChar(a[0]);
      assert head + (Hyphenate(a[1..]) + Hyphenate(b)) == head + Hyphenate(a[1..]) + Hyphenate(b);
    } else {
      assert a + b == b;
    }
  }

  /** A capital inside a name turns into '-' and its lower-case letter, and
      the text around it is hyphenated on its own: "tintColor" is read from
      data-pb-tint-color. */
  lemma HyphenateCapital(a: string, c: char, b: string)
    requires IsUpper(c)
    ensures Hyphenate(a + [c] + b) == Hyphenate(a) + ['-', (c as int + 32) as char] + Hyphenate(b)
  {
    HyphenateAppend(a, [c] + b);
    assert a + [c] + b == a + ([c] + b);
    assert ([c] + b)[0] == c && ([c] + b)[1..] == b;
  }

  /** The map getFilterParameters returns: the attribute loop, the
      data-pb-tint-colour spelling, then the two derived posterize values. */
  function FilterParameters(defaults: map<string, Param>, attrs: Attributes, toNumber: string -> real): map<string, Param>
    requires "tintColor" in defaults && "posterizeAmount" in defaults
  {
    WithPosterizeValues(TintColourOverride(OverriddenAll(defaults, attrs), attrs), toNumber)
  }

  /** getFilterParameters, as v0.2 and v0.3 both write it around their own defaults. */
  method GetFilterParameters(defaults: map<string, Param>, attrs: Attributes, toNumber: string -> real)
    returns (params: map<string, Param>)
    requires "tintColor" in defaults && "posterizeAmount" in defaults
    ensures params == FilterParameters(defaults, attrs, toNumber)
  {
    var overridden := OverrideFromAttributes(defaults, attrs);
    var tinted := TintColourOverride(overridden, attrs);
    params := WithPosterizeValues(tinted, toNumber);
  }

  /** getFilterParameters returns the defaults' names and the two posterize values. */
  lemma FilterParametersKeys(defaults: map<string, Param>, attrs: Attributes, toNumber: string -> real)
    requires "tintColor" in defaults && "posterizeAmount" in defaults
    ensures FilterParameters(defaults, attrs, toNumber).Keys == defaults.Keys + {"posterizeAreas", "posterizeValues"}
  {
  }

  /** Each other parameter is its data-pb-* attribute when that is truthy,
      the default otherwise. */
  lemma FilterParametersOverride(defaults: map<string, Param>, attrs: Attributes, toNumber: string -> real, name: string)
    requires "tintColor" in defaults && "posterizeAmount" in defaults
    requires name in defaults && name != "tintColor" && name != "posterizeAreas" && name != "posterizeValues"
    ensures FilterParameters(defaults, attrs, toNumber)[name] ==
              if Truthy(GetAttribute(attrs, AttributeName(name))) then Text(attrs[AttributeName(name)]) else defaults[name]
  {
  }

  /** The tint colour: data-pb-tint-colour first, then data-pb-tint-color, then the default. */
  lemma FilterParametersTint(defaults: map<string, Param>, attrs: Attributes, toNumber: string -> real)
    requires "tintColor" in defaults && "posterizeAmount" in defaults
    ensures var colour, color := "data-pb-tint-colour", "data-pb-tint-color";
      FilterParameters(defaults, attrs, toNumber)["tintColor"] ==
        if Truthy(GetAttribute(attrs, colour)) then Text(attrs[colour])
        else if Truthy(GetAttribute(attrs, color)) then Text(attrs[color])
        else defaults["tintColor"]
  {
    TintColorAttribute();
  }

  /** posterizeAreas and posterizeValues are 256 and 255 shared out over
      the (possibly overridden) posterize amount. */
  lemma FilterParametersPosterize(defaults: map<string, Param>, attrs: Attributes, toNumber: string -> real)
    requires "tintColor" in defaults && "posterizeAmount" in defaults
    ensures var params := FilterParameters(defaults, attrs, toNumber);
      (params["posterizeAreas"], params["posterizeValues"]) == PosterizeQuotients(params["posterizeAmount"], toNumber)
  {
  }

  /** A name with one capital is read from the attribute that spells it
      with a hyphen and the letter in lower case. */
  lemma OneCapitalName(a: string, c: char, b: string)
    requires IsUpper(c)
    requires forall i :: 0 <= i < |a| ==> !IsUpper(a[i])
    requires forall i :: 0 <= i < |b| ==> !IsUpper(b[i])
    ensures AttributeName(a + [c] + b) == "data-pb-" + a + ['-', (c as int + 32) as char] + b
  {
    HyphenateCapital(a, c, b);
    HyphenateNoCapitals(a);
    HyphenateNoCapitals(b);
  }

  /** tintColor is read from data-pb-tint-color. */
  lemma TintColorAttribute()
    ensures AttributeName("tintColor") == "data-pb-tint-color"
  {
    var a, b := "tint", "olor";
    assert a + ['C'] + b == "tintColor";
    OneCapitalName(a, 'C', b);
    assert "data-pb-" + a + ['-', 'c'] + b == "data-pb-tint-color";
  }
}
