/** The catalog search query in its three forms: the browser URL's, the form's and the API's. */
module CardSearch {
  import opened Prelude
  import opened Text
  import opened Decimal

  const PAGE_SIZE := 20
  const MAX_OFFSET := 1000000

  const TEXT := "text"
  const CARD_NUMBER := "card_number"
  const SET_CODE := "set_code"
  const LANGUAGE := "language"
  const OFFSET := "offset"

  datatype Query = Query(text: string, cardNumber: string, setCode: string, language: string, offset: int)

  datatype ApiParams = ApiParams(text: string, cardNumber: string, setCode: string, language: string, limit: nat,
                                 offset: int)

  /** URL parameters by name; order makes no difference to what is read back. */
  type Params = map<string, string>

  // ----- Reading the URL

  function ReadFilter(params: Params, name: string): string {
    if name in params then Trim(params[name]) else ""
  }

  /** `toLowerCase`, as far as its result can be a basic Latin letter: U+212A folds to `k`. */
  function LowerChar(c: char): char {
    if 'A' <= c <= 'Z' then 'a' + (c - 'A') else if c as int == 0x212A then 'k' else c
  }

  function Lower(s: string): (r: string)
    ensures |r| == |s| && forall i :: 0 <= i < |s| ==> r[i] == LowerChar(s[i])
  {
    if s == [] then [] else [LowerChar(s[0])] + Lower(s[1..])
  }

  /** The regular expression `^[a-z]{2}$`. */
  predicate IsLanguage(s: string) {
    |s| == 2 && 'a' <= s[0] <= 'z' && 'a' <= s[1] <= 'z'
  }

  function DigitPrefix(s: string): (r: string)
    ensures AllDigits(r)
  {
    if s != [] && IsDigit(s[0]) then [s[0]] + DigitPrefix(s[1..]) else []
  }

  /** `Number.parseInt(raw, 10)`: leading space, a sign, then the longest run of digits; `None` for NaN. */
  function ParseInt(raw: string): Option<int> {
    var s := TrimStart(raw);
    var negative := s != [] && s[0] == '-';
    var digits := DigitPrefix(if s != [] && s[0] in {'+', '-'} then s[1..] else s);
    var n: int := Val(digits);
    if digits == [] then None
    else if negative then Some(-n)
    else Some(n)
  }

  function ReadOffset(params: Params): int {
    if OFFSET !in params then 0
    else
      match ParseInt(params[OFFSET])
      case None => 0
      case Some(parsed) => if parsed <= 0 then 0 else if parsed <= MAX_OFFSET then parsed else MAX_OFFSET
  }

  function ReadLanguage(raw: string): string {
    if IsLanguage(Lower(raw)) then Lower(raw) else ""
  }

  function ParseSearchQuery(params: Params): Query {
    Query(ReadFilter(params, TEXT), ReadFilter(params, CARD_NUMBER), ReadFilter(params, SET_CODE),
          ReadLanguage(ReadFilter(params, LANGUAGE)), ReadOffset(params))
  }

  // ----- Writing it

  function Filters(query: Query): seq<(string, string)> {
    [(TEXT, query.text), (CARD_NUMBER, query.cardNumber), (SET_CODE, query.setCode), (LANGUAGE, query.language)]
  }

  /** The non-blank filters among the first few, trimmed. */
  function FilterParams(filters: seq<(string, string)>): Params {
    if filters == [] then map[]
    else
      var rest := FilterParams(filters[..|filters| - 1]);
      var (name, value) := filters[|filters| - 1];
      if Trim(value) != "" then rest[name := Trim(value)] else rest
  }

  function ClampOffset(offset: int): nat {
    if offset <= 0 then 0 else if offset <= MAX_OFFSET then offset else MAX_OFFSET
  }

  function UrlForm(query: Query): Params {
    var params := FilterParams(Filters(query));
    if query.offset > 0 then params[OFFSET := Print(ClampOffset(query.offset))] else params
  }

  method ToUrlSearchParams(query: Query) returns (params: Params)
    ensures params == UrlForm(query)
  {
    params := map[];
    var filters := Filters(query);
    for i := 0 to |filters|
      invariant params == FilterParams(filters[..i])
    {
      var (name, value) := filters[i];
      var trimmed := Trim(value);
      assert filters[..i + 1][..i] == filters[..i];
      if trimmed != "" {
        params := params[name := trimmed];
      }
    }
    assert filters[..|filters|] == filters;
    if query.offset > 0 {
      params := params[OFFSET := Print(ClampOffset(query.offset))];
    }
  }

  function ToApiParams(query: Query): ApiParams {
    ApiParams(query.text, query.cardNumber, query.setCode, query.language, PAGE_SIZE, ClampOffset(query.offset))
  }

  // ----- What is read and sent, name by name

  function Held(params: Params, name: string): string {
    if name in params then params[name] else ""
  }

  /** Two letters, capitals or not; the Kelvin sign is a `k` to `toLowerCase`. */
  predicate IsLanguageInAnyCase(s: string) {
    |s| == 2 && forall i :: 0 <= i < 2 ==> 'a' <= s[i] <= 'z' || 'A' <= s[i] <= 'Z' || s[i] as int == 0x212A
  }

  /** Each field comes from the parameter of its own name, trimmed. */
  lemma QueriesAreReadByName(params: Params)
    ensures var query := ParseSearchQuery(params);
            && query.text == Trim(Held(params, "text"))
            && query.cardNumber == Trim(Held(params, "card_number"))
            && query.setCode == Trim(Held(params, "set_code"))
            && query.language == (var raw := Trim(Held(params, "language"));
                                  if IsLanguageInAnyCase(raw) then Lower(raw) else "")
  {
    TrimOfNothing();
    ReadLanguageAccepts(ReadFilter(params, LANGUAGE));
    hide Trim, ReadLanguage, IsLanguageInAnyCase, Lower, ReadOffset;
  }

  lemma TrimOfNothing()
    ensures Trim("") == ""
  {
  }

  lemma ReadLanguageAccepts(raw: string)
    ensures ReadLanguage(raw) == if IsLanguageInAnyCase(raw) then Lower(raw) else ""
  {
    if |raw| == 2 {
      var low := Lower(raw);
      assert low[0] == LowerChar(raw[0]) && low[1] == LowerChar(raw[1]);
    }
  }

  /** The link and the API are sent each filter under the same name, the link trimmed, the API as it is held. */
  lemma LinkAndApiAgreeByName(query: Query)
    ensures var link, api := UrlForm(query), ToApiParams(query);
            && api.text == query.text && Held(link, "text") == Trim(api.text)
            && api.cardNumber == query.cardNumber && Held(link, "card_number") == Trim(api.cardNumber)
            && api.setCode == query.setCode && Held(link, "set_code") == Trim(api.setCode)
            && api.language == query.language && Held(link, "language") == Trim(api.language)
            && api.limit == 20
            && api.offset == (if query.offset < 0 then 0 else if query.offset > 1000000 then 1000000 else query.offset)
            && ("offset" in link <==> api.offset > 0)
            && (api.offset > 0 ==> link["offset"] == Print(api.offset))
  {
    UrlFormHolds(query);
    UrlFiltersAreTrimmed(query, "text");
    UrlFiltersAreTrimmed(query, "card_number");
    UrlFiltersAreTrimmed(query, "set_code");
    UrlFiltersAreTrimmed(query, "language");
    NamesDiffer();
    hide UrlForm, Trim, Print;
  }

  lemma UrlFiltersAreTrimmed(query: Query, name: string)
    requires name != OFFSET
    ensures Held(UrlForm(query), name) == ReadFilter(UrlForm(query), name)
  {
    TrimOfNothing();
    FilterParamsAreTrimmed(Filters(query), name);
    hide Trim, Print, Filters;
  }

  lemma {:induction false} FilterParamsAreTrimmed(filters: seq<(string, string)>, name: string)
    ensures name in FilterParams(filters) ==> Trim(FilterParams(filters)[name]) == FilterParams(filters)[name]
  {
    if filters != [] {
      FilterParamsAreTrimmed(filters[..|filters| - 1], name);
      TrimTwice(filters[|filters| - 1].1);
    }
    hide Trim;
  }

  /** What `Number.parseInt` can read of a string: spaces, a sign or none, digits, and then no further digit. */
  predicate StartsWithANumber(space: string, sign: string, digits: string, rest: string) {
    && AllSpaces(space) && sign in {"", "+", "-"} && digits != "" && AllDigits(digits)
    && (rest == "" || !IsDigit(rest[0]))
  }

  lemma ParseIntReads(space: string, sign: string, digits: string, rest: string)
    requires StartsWithANumber(space, sign, digits, rest)
    ensures var n: int := Val(digits);
            ParseInt(space + sign + digits + rest) == Some(if sign == "-" then -n else n)
  {
    hide DigitPrefix, TrimStart, Val;
    var s := sign + digits + rest;
    assert space + sign + digits + rest == space + s;
    assert s[0] in {'+', '-'} || IsDigit(s[0]);
    assert !IsSpace(s[0]);
    TrimStartTakes(space, s);
    DigitsThenRest(digits, rest);
    assert sign != "" ==> s[1..] == digits + rest;
    assert sign == "" ==> s == digits + rest;
    hide IsSpace;
  }

  lemma {:induction false} DigitsThenRest(digits: string, rest: string)
    requires AllDigits(digits) && (rest == "" || !IsDigit(rest[0]))
    ensures DigitPrefix(digits + rest) == digits
  {
    if digits != [] {
      DigitsThenRest(digits[1..], rest);
      assert (digits + rest)[1..] == digits[1..] + rest;
    } else {
      assert digits + rest == rest;
    }
  }

  lemma {:induction false} WhatDigitPrefixLeaves(s: string) returns (rest: string)
    ensures s == DigitPrefix(s) + rest && (rest == "" || !IsDigit(rest[0]))
  {
    if s != [] && IsDigit(s[0]) {
      rest := WhatDigitPrefixLeaves(s[1..]);
    } else {
      rest := s;
    }
  }

  /** And it is NaN of every other string. */
  lemma ParseIntIsNaNIff(raw: string)
    ensures ParseInt(raw).Some? <==>
              exists space, sign, digits, rest ::
                StartsWithANumber(space, sign, digits, rest) && raw == space + sign + digits + rest
  {
    if ParseInt(raw).Some? {
      var space, sign, digits, rest := PartsRead(raw);
    }
    forall space, sign, digits, rest |
      StartsWithANumber(space, sign, digits, rest) && raw == space + sign + digits + rest
      ensures ParseInt(raw).Some?
    {
      ParseIntReads(space, sign, digits, rest);
    }
    hide ParseInt, StartsWithANumber;
  }

  lemma PartsRead(raw: string) returns (space: string, sign: string, digits: string, rest: string)
    requires ParseInt(raw).Some?
    ensures StartsWithANumber(space, sign, digits, rest) && raw == space + sign + digits + rest
  {
    space := WhatTrimStartTakes(raw);
    var s := TrimStart(raw);
    hide TrimStart;
    var signed := s != [] && s[0] in {'+', '-'};
    var body := if signed then s[1..] else s;
    sign, digits := if signed then [s[0]] else "", DigitPrefix(body);
    rest := WhatDigitPrefixLeaves(body);
    assert s == sign + body;
    assert raw == space + sign + digits + rest by {
      assert raw == space + (sign + body) && body == digits + rest;
      Regrouped(space, sign, digits, rest);
    }
    assert digits != "";
    hide DigitPrefix, Val;
  }

  lemma Regrouped(a: string, b: string, c: string, d: string)
    ensures a + (b + (c + d)) == a + b + c + d
  {
  }

  /** The offset read is the number the parameter starts with, kept between 0 and 1000000. */
  lemma OffsetIsRead(params: Params, space: string, sign: string, digits: string, rest: string)
    requires "offset" in params && StartsWithANumber(space, sign, digits, rest)
    requires params["offset"] == space + sign + digits + rest
    ensures ParseSearchQuery(params).offset
            == if sign == "-" then 0 else if Val(digits) > 1000000 then 1000000 else Val(digits)
  {
    ParseIntReads(space, sign, digits, rest);
    hide ParseInt, StartsWithANumber, Val, ReadFilter, ReadLanguage;
  }

  lemma OffsetIsZeroOtherwise(params: Params)
    requires "offset" in params ==> ParseInt(params["offset"]).None?
    ensures ParseSearchQuery(params).offset == 0
  {
    hide ParseInt, ReadFilter, ReadLanguage;
  }

  // ----- What a query may be

  predicate Normal(query: Query) {
    && Trimmed(query.text) && Trimmed(query.cardNumber) && Trimmed(query.setCode)
    && (query.language == "" || IsLanguage(query.language))
    && 0 <= query.offset <= MAX_OFFSET
  }

  /** What a query becomes on its way through a link. */
  function Normalised(query: Query): Query {
    Query(Trim(query.text), Trim(query.cardNumber), Trim(query.setCode),
          ReadLanguage(Trim(query.language)), ClampOffset(query.offset))
  }

  lemma NamesDiffer()
    ensures TEXT != CARD_NUMBER && TEXT != SET_CODE && TEXT != LANGUAGE && TEXT != OFFSET
    ensures CARD_NUMBER != SET_CODE && CARD_NUMBER != LANGUAGE && CARD_NUMBER != OFFSET
    ensures SET_CODE != LANGUAGE && SET_CODE != OFFSET && LANGUAGE != OFFSET
  {
    assert |TEXT| == 4 && |CARD_NUMBER| == 11 && |SET_CODE| == 8 && |LANGUAGE| == 8 && |OFFSET| == 6;
    assert SET_CODE[0] == 's' && LANGUAGE[0] == 'l';
  }

  lemma {:induction false} DigitPrefixOfDigits(s: string)
    requires AllDigits(s)
    ensures DigitPrefix(s) == s
  {
    if s != [] {
      DigitPrefixOfDigits(s[1..]);
      assert s == [s[0]] + s[1..];
    }
  }

  /** A printed number parses back to itself. */
  lemma ParseIntOfPrint(n: nat)
    ensures ParseInt(Print(n)) == Some(n)
  {
    var s := Print(n);
    DigitPrefixOfDigits(s);
    assert IsDigit(s[0]) && !IsSpace(s[0]) && s[0] !in {'+', '-'};
    assert TrimStart(s) == s;
  }

  /** What each name holds in the URL of a query. */
  lemma UrlFormHolds(query: Query)
    ensures var params := UrlForm(query);
            && ReadFilter(params, TEXT) == Trim(query.text)
            && ReadFilter(params, CARD_NUMBER) == Trim(query.cardNumber)
            && ReadFilter(params, SET_CODE) == Trim(query.setCode)
            && ReadFilter(params, LANGUAGE) == Trim(query.language)
            && (OFFSET in params <==> query.offset > 0)
            && (query.offset > 0 ==> params[OFFSET] == Print(ClampOffset(query.offset)))
  {
    NamesDiffer();
    hide Trim, TEXT, CARD_NUMBER, SET_CODE, LANGUAGE, OFFSET, FilterParams, ReadFilter;
    var f1 := [(TEXT, query.text)];
    var f2 := f1 + [(CARD_NUMBER, query.cardNumber)];
    var f3 := f2 + [(SET_CODE, query.setCode)];
    var f4 := f3 + [(LANGUAGE, query.language)];
    NoFilterParams();
    FilterParamsStep([], TEXT, query.text);
    assert [] + [(TEXT, query.text)] == f1;
    FilterParamsStep(f1, CARD_NUMBER, query.cardNumber);
    FilterParamsStep(f2, SET_CODE, query.setCode);
    FilterParamsStep(f3, LANGUAGE, query.language);
    assert Filters(query) == f4;
    OffsetIsNoFilter(FilterParams(f4), query);
  }

  lemma NoFilterParams()
    ensures FilterParams([]) == map[]
  {
  }

  /** Adding the offset leaves the filters as they were. */
  lemma OffsetIsNoFilter(filters: Params, query: Query)
    ensures forall name ::
              name != OFFSET ==>
                ReadFilter(filters[OFFSET := Print(ClampOffset(query.offset))], name) == ReadFilter(filters, name)
  {
    hide Trim, Print;
  }

  lemma TrimTwice(s: string)
    ensures Trim(Trim(s)) == Trim(s)
  {
    TrimReachesAFixedPoint(s);
    TrimReachesAFixedPoint(Trim(s));
  }

  /** One more filter, under a name of its own, is read back trimmed and disturbs no other. */
  lemma FilterParamsStep(filters: seq<(string, string)>, name: string, value: string)
    requires name !in FilterParams(filters)
    ensures var before, after := FilterParams(filters), FilterParams(filters + [(name, value)]);
            && ReadFilter(after, name) == Trim(value)
            && (forall other :: other != name ==> ReadFilter(after, other) == ReadFilter(before, other))
            && (forall other :: other != name ==> (other in after <==> other in before))
  {
    assert (filters + [(name, value)])[..|filters|] == filters;
    TrimTwice(value);
    hide Trim;
  }

  /** Reading back the URL of any query gives its normal form. */
  lemma LinkNormalises(query: Query)
    ensures ParseSearchQuery(UrlForm(query)) == Normalised(query)
  {
    UrlFormHolds(query);
    ParseIntOfPrint(ClampOffset(query.offset));
    hide UrlForm, Trim, Print, ParseInt, ReadLanguage, ReadFilter;
  }

  lemma LanguagesAreTrimmed(s: string)
    requires IsLanguage(s)
    ensures Trim(s) == s && Lower(s) == s
  {
    TrimReachesAFixedPoint(s);
  }

  /** The queries the URL can express are exactly the normal ones. */
  lemma NormalIffReadable(query: Query)
    ensures Normal(query) <==> exists params: Params :: ParseSearchQuery(params) == query
  {
    if Normal(query) {
      RoundTripIff(query);
    }
    if params: Params :| ParseSearchQuery(params) == query {
      ParsedQueriesAreNormal(params);
    }
  }

  /** Any parameters at all, hand-edited or not, are read as a normal query. */
  lemma ParsedQueriesAreNormal(params: Params)
    ensures Normal(ParseSearchQuery(params))
  {
    if TEXT in params { TrimReachesAFixedPoint(params[TEXT]); }
    if CARD_NUMBER in params { TrimReachesAFixedPoint(params[CARD_NUMBER]); }
    if SET_CODE in params { TrimReachesAFixedPoint(params[SET_CODE]); }
    hide Trim, ParseInt, TEXT, CARD_NUMBER, SET_CODE, LANGUAGE, OFFSET;
  }

  /** A query survives a link unchanged iff it is normal. */
  lemma RoundTripIff(query: Query)
    ensures ParseSearchQuery(UrlForm(query)) == query <==> Normal(query)
  {
    LinkNormalises(query);
    TrimReachesAFixedPoint(query.text);
    TrimReachesAFixedPoint(query.cardNumber);
    TrimReachesAFixedPoint(query.setCode);
    if IsLanguage(query.language) { LanguagesAreTrimmed(query.language); }
    assert ReadLanguage(Trim("")) == "" by { assert Trim("") == ""; }
    hide UrlForm, ParseSearchQuery, Trim;
  }

  /** Following one's own link a second time changes nothing, whatever the first URL held. */
  lemma LinksAreStable(params: Params)
    ensures var query := ParseSearchQuery(params);
            ParseSearchQuery(UrlForm(query)) == query && UrlForm(ParseSearchQuery(UrlForm(query))) == UrlForm(query)
  {
    ParsedQueriesAreNormal(params);
    RoundTripIff(ParseSearchQuery(params));
  }

  /** Different searches have different links. */
  lemma LinksAreDistinct(a: Query, b: Query)
    requires Normal(a) && Normal(b) && a != b
    ensures UrlForm(a) != UrlForm(b)
  {
    RoundTripIff(a);
    RoundTripIff(b);
  }

  /**
    The window asked of the API lies within bounds for every query, and is the same read from the form or from
    its link.
   */
  lemma OffsetReachesTheApi(query: Query, params: Params)
    ensures 0 <= ToApiParams(query).offset <= MAX_OFFSET
    ensures ToApiParams(ParseSearchQuery(UrlForm(query))).offset == ToApiParams(query).offset
    ensures ToApiParams(ParseSearchQuery(params)).offset == ParseSearchQuery(params).offset
  {
    LinkNormalises(query);
    ParsedQueriesAreNormal(params);
    hide UrlForm, ParseSearchQuery;
  }

  /** A link carries no blank filter and no first-page offset. */
  lemma LinksAreMinimal(query: Query, name: string)
    requires name in UrlForm(query)
    ensures UrlForm(query)[name] != "" && name in {TEXT, CARD_NUMBER, SET_CODE, LANGUAGE, OFFSET}
    ensures name == OFFSET ==> query.offset > 0
  {
    NamesDiffer();
    FilterParamsHaveNames(Filters(query), name);
    UrlFormHolds(query);
  }

  lemma {:induction false} FilterParamsHaveNames(filters: seq<(string, string)>, name: string)
    ensures name in FilterParams(filters)
            ==> FilterParams(filters)[name] != "" && exists i :: 0 <= i < |filters| && filters[i].0 == name
  {
    if filters != [] {
      FilterParamsHaveNames(filters[..|filters| - 1], name);
    }
  }
}
