/** The closed table of error codes `MAPS-<CAT>-<NNNNN>` (OSFramework/Enum/ErrorCodes.ts). */
module ErrorCodes {
  import opened Common

  datatype Category = CFG | LIB | API | GEN

  /** Every member of the enum, plus the two codes the providers report that the enum does not
      list (CFG_InvalidDrawingToolsPosition, GEN_NoPluginDirectionsNeeded). */
  datatype ErrorCode =
    | CFG_APIKeyAlreadySetMap
    | CFG_APIKeyAlreadySetStaticMap
    | CFG_CantChangeParamsStaticMap
    | CFG_InvalidPolylineShapeLocations
    | CFG_InvalidPolygonShapeLocations
    | CFG_InvalidCircleShapeCenter
    | LIB_InvalidApiKeyMap
    | LIB_FailedGeocodingMap
    | LIB_InvalidApiKeyStaticMap
    | LIB_FailedGeocodingMarker
    | LIB_FailedSetDirections
    | LIB_FailedGeocodingShapeLocations
    | API_FailedRemoveDirections
    | API_FailedGettingShapePath
    | API_FailedGettingCircleShape
    | API_FailedGettingShapeCenter
    | API_FailedGettingShapeRadius
    | GEN_InvalidChangePropertyMap
    | GEN_InvalidChangePropertyMarker
    | GEN_UnsupportedEventMap
    | GEN_UnsupportedEventMarker
    | GEN_InvalidChangePropertyShape
    | GEN_UnsupportedEventShape
    | CFG_InvalidDrawingToolsPosition
    | GEN_NoPluginDirectionsNeeded

  /** One error raised on a map through its OnError event: a code and a message. */
  datatype Report = Report(code: ErrorCode, message: string)

  /** The members the enum declares. */
  predicate Listed(c: ErrorCode)
  {
    !c.CFG_InvalidDrawingToolsPosition? && !c.GEN_NoPluginDirectionsNeeded?
  }

  /** The string value of a listed member: `MAPS-`, its category, `-`, its five-digit number. */
  function Value(c: ErrorCode): string
    requires Listed(c)
  {
    Render(Key(c).0, Key(c).1)
  }

  /** The category named by the member's prefix (CFG_, LIB_, API_ or GEN_). */
  function Prefix(c: ErrorCode): Category
  {
    if c.CFG_APIKeyAlreadySetMap? || c.CFG_APIKeyAlreadySetStaticMap? || c.CFG_CantChangeParamsStaticMap?
       || c.CFG_InvalidPolylineShapeLocations? || c.CFG_InvalidPolygonShapeLocations?
       || c.CFG_InvalidCircleShapeCenter? || c.CFG_InvalidDrawingToolsPosition?
    then CFG
    else if c.LIB_InvalidApiKeyMap? || c.LIB_FailedGeocodingMap? || c.LIB_InvalidApiKeyStaticMap?
       || c.LIB_FailedGeocodingMarker? || c.LIB_FailedSetDirections? || c.LIB_FailedGeocodingShapeLocations?
    then LIB
    else if c.API_FailedRemoveDirections? || c.API_FailedGettingShapePath? || c.API_FailedGettingCircleShape?
       || c.API_FailedGettingShapeCenter? || c.API_FailedGettingShapeRadius?
    then API
    else GEN
  }

  function CategoryText(cat: Category): string
  {
    match cat
    case CFG => "CFG"
    case LIB => "LIB"
    case API => "API"
    case GEN => "GEN"
  }

  function ParseCategory(s: string): (r: Option<Category>)
    ensures r.Some? ==> CategoryText(r.value) == s
  {
    if s == "CFG" then Some(CFG)
    else if s == "LIB" then Some(LIB)
    else if s == "API" then Some(API)
    else if s == "GEN" then Some(GEN)
    else None
  }

  predicate IsDigit(ch: char)
  {
    '0' <= ch <= '9'
  }

  function DigitValue(ch: char): nat
    requires IsDigit(ch)
  {
    ch as int - '0' as int
  }

  /** The number written by five decimal digits. */
  function DigitsValue(s: string): nat
    requires |s| == 5 && forall i :: 0 <= i < 5 ==> IsDigit(s[i])
  {
    (((DigitValue(s[0]) * 10 + DigitValue(s[1])) * 10 + DigitValue(s[2])) * 10 + DigitValue(s[3])) * 10 + DigitValue(s[4])
  }

  /** The shape `MAPS-<CAT>-<NNNNN>`. */
  predicate WellFormed(s: string)
  {
    && |s| == 14
    && s[..5] == "MAPS-"
    && ParseCategory(s[5..8]).Some?
    && s[8] == '-'
    && forall i :: 9 <= i < 14 ==> IsDigit(s[i])
  }

  /** Category and number of a listed member, read off its declaration. */
  function Key(c: ErrorCode): (r: (Category, nat))
    requires Listed(c)
    ensures r.1 < 100000
  {
    match c
    case CFG_APIKeyAlreadySetMap => (CFG, 1001)
    case CFG_APIKeyAlreadySetStaticMap => (CFG, 2001)
    case CFG_CantChangeParamsStaticMap => (CFG, 2002)
    case CFG_InvalidPolylineShapeLocations => (CFG, 5001)
    case CFG_InvalidPolygonShapeLocations => (CFG, 5002)
    case CFG_InvalidCircleShapeCenter => (CFG, 5003)
    case LIB_InvalidApiKeyMap => (LIB, 1001)
    case LIB_FailedGeocodingMap => (LIB, 1002)
    case LIB_InvalidApiKeyStaticMap => (LIB, 2001)
    case LIB_FailedGeocodingMarker => (LIB, 3001)
    case LIB_FailedSetDirections => (LIB, 4001)
    case LIB_FailedGeocodingShapeLocations => (LIB, 5001)
    case API_FailedRemoveDirections => (API, 3001)
    case API_FailedGettingShapePath => (API, 5001)
    case API_FailedGettingCircleShape => (API, 5002)
    case API_FailedGettingShapeCenter => (API, 5003)
    case API_FailedGettingShapeRadius => (API, 5004)
    case GEN_InvalidChangePropertyMap => (GEN, 1001)
    case GEN_InvalidChangePropertyMarker => (GEN, 3001)
    case GEN_UnsupportedEventMap => (GEN, 1002)
    case GEN_UnsupportedEventMarker => (GEN, 3002)
    case GEN_InvalidChangePropertyShape => (GEN, 5001)
    case GEN_UnsupportedEventShape => (GEN, 5002)
  }

  /** Reads a code string back into the member it denotes. */
  function Parse(s: string): Option<ErrorCode>
  {
    if !WellFormed(s) then None
    else FromKey(ParseCategory(s[5..8]).value, DigitsValue(s[9..14]))
  }

  /** The listed member with this category and number, if any. */
  function FromKey(cat: Category, n: nat): Option<ErrorCode>
  {
    if cat == CFG then
      if n == 1001 then Some(CFG_APIKeyAlreadySetMap)
      else if n == 2001 then Some(CFG_APIKeyAlreadySetStaticMap)
      else if n == 2002 then Some(CFG_CantChangeParamsStaticMap)
      else if n == 5001 then Some(CFG_InvalidPolylineShapeLocations)
      else if n == 5002 then Some(CFG_InvalidPolygonShapeLocations)
      else if n == 5003 then Some(CFG_InvalidCircleShapeCenter)
      else None
    else if cat == LIB then
      if n == 1001 then Some(LIB_InvalidApiKeyMap)
      else if n == 1002 then Some(LIB_FailedGeocodingMap)
      else if n == 2001 then Some(LIB_InvalidApiKeyStaticMap)
      else if n == 3001 then Some(LIB_FailedGeocodingMarker)
      else if n == 4001 then Some(LIB_FailedSetDirections)
      else if n == 5001 then Some(LIB_FailedGeocodingShapeLocations)
      else None
    else if cat == API then
      if n == 3001 then Some(API_FailedRemoveDirections)
      else if n == 5001 then Some(API_FailedGettingShapePath)
      else if n == 5002 then Some(API_FailedGettingCircleShape)
      else if n == 5003 then Some(API_FailedGettingShapeCenter)
      else if n == 5004 then Some(API_FailedGettingShapeRadius)
      else None
    else
      if n == 1001 then Some(GEN_InvalidChangePropertyMap)
      else if n == 3001 then Some(GEN_InvalidChangePropertyMarker)
      else if n == 1002 then Some(GEN_UnsupportedEventMap)
      else if n == 3002 then Some(GEN_UnsupportedEventMarker)
      else if n == 5001 then Some(GEN_InvalidChangePropertyShape)
      else if n == 5002 then Some(GEN_UnsupportedEventShape)
      else None
  }

  function DigitChar(d: nat): char
    requires d < 10
  {
    ('0' as int + d) as char
  }

  /** Five decimal digits, zero-padded. */
  function Pad5(n: nat): string
    requires n < 100000
  {
    var q1 := n / 10;
    var q2 := q1 / 10;
    var q3 := q2 / 10;
    var q4 := q3 / 10;
    [DigitChar(q4), DigitChar(q3 % 10), DigitChar(q2 % 10), DigitChar(q1 % 10), DigitChar(n % 10)]
  }

  /** The code string for a category and a number. */
  function Render(cat: Category, n: nat): string
    requires n < 100000
  {
    "MAPS-" + CategoryText(cat) + "-" + Pad5(n)
  }

  lemma Pad5Value(n: nat)
    requires n < 100000
    ensures |Pad5(n)| == 5 && forall i :: 0 <= i < 5 ==> IsDigit(Pad5(n)[i])
    ensures DigitsValue(Pad5(n)) == n
  {
    var q1 := n / 10;
    var q2 := q1 / 10;
    var q3 := q2 / 10;
    var q4 := q3 / 10;
    assert q4 < 10;
    assert q3 == q4 * 10 + q3 % 10;
    assert q2 == q3 * 10 + q2 % 10;
    assert q1 == q2 * 10 + q1 % 10;
    assert n == q1 * 10 + n % 10;
  }

  lemma RenderShape(cat: Category, n: nat)
    requires n < 100000
    ensures WellFormed(Render(cat, n))
    ensures ParseCategory(Render(cat, n)[5..8]) == Some(cat)
    ensures DigitsValue(Render(cat, n)[9..14]) == n
  {
    var s := Render(cat, n);
    assert s[..5] == "MAPS-";
    assert s[5..8] == CategoryText(cat);
    assert s[8] == '-';
    assert s[9..14] == Pad5(n);
    Pad5Value(n);
  }

  lemma KeyRoundTrip(c: ErrorCode)
    requires Listed(c)
    ensures FromKey(Key(c).0, Key(c).1) == Some(c)
    ensures Key(c).0 == Prefix(c)
  {
  }

  /** Every listed value has the form MAPS-<CAT>-<5 digits>, its CAT is the member's prefix,
      and reading it back gives the member. */
  lemma ValueShape(c: ErrorCode)
    requires Listed(c)
    ensures WellFormed(Value(c))
    ensures ParseCategory(Value(c)[5..8]) == Some(Prefix(c))
    ensures Parse(Value(c)) == Some(c)
  {
    RenderShape(Key(c).0, Key(c).1);
    KeyRoundTrip(c);
  }

  /** All listed values are pairwise distinct. */
  lemma ValuesDistinct(a: ErrorCode, b: ErrorCode)
    requires Listed(a) && Listed(b) && Value(a) == Value(b)
    ensures a == b
  {
    ValueShape(a);
    ValueShape(b);
  }

  /** The codes the modelled core reports carry these exact strings. */
  lemma MarkerPropertyValue()
    ensures Value(GEN_InvalidChangePropertyMarker) == "MAPS-GEN-03001"
  {
    assert 3001 / 10 == 300 && 300 / 10 == 30 && 30 / 10 == 3 && 3 / 10 == 0;
    assert Pad5(3001) == "03001";
  }

  lemma SetDirectionsValue()
    ensures Value(LIB_FailedSetDirections) == "MAPS-LIB-04001"
  {
    assert 4001 / 10 == 400 && 400 / 10 == 40 && 40 / 10 == 4 && 4 / 10 == 0;
    assert Pad5(4001) == "04001";
  }

  lemma RemoveDirectionsValue()
    ensures Value(API_FailedRemoveDirections) == "MAPS-API-03001"
  {
    assert 3001 / 10 == 300 && 300 / 10 == 30 && 30 / 10 == 3 && 3 / 10 == 0;
    assert Pad5(3001) == "03001";
  }
}
