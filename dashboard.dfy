/**
 * The dashboard: the cached query of IPO records, the tab and type filters
 * over it, and the helpers that turn record fields into display text.
 */
module Dashboard {
  import opened Wrappers
  import opened JsBuiltins
  import opened JsonValues
  import opened Types
  import opened GeminiService

  /** The one storage key the dashboard uses. */
  const CacheKey: string := "ipo_data_cache"

  /** The secondary filter of the Closed tab: every type, or one. */
  datatype ClosedFilter = AllTypes | OnlyType(t: IPOType)

  /** What the query holds: the records and when they were fetched. The time
      stamp read back from storage may be any truthy JSON value. */
  datatype Snapshot = Snapshot(ipos: seq<Json>, timestamp: Json)

  /** `{data: ipos, timestamp}`, the object written to storage. */
  function CacheEntry(ipos: seq<Json>, now: real): (r: Json)
    ensures IsObjectType(r) && Truthy(r)
    ensures Get(r, "data") == Some(JArray(ipos)) && Get(r, "timestamp") == Some(JNumber(now))
  {
    JObject(map["data" := JArray(ipos), "timestamp" := JNumber(now)])
  }

  /** `initialData`: the stored text under the cache key, parsed; the data
      must be an array, and a missing or falsy time stamp becomes `now`. A
      missing key, empty text, a parse failure or data that is not an array
      give no initial data. */
  function ReadCache(storage: map<string, string>, codec: Codec, now: real): (r: Option<Snapshot>)
    ensures r.Some? ==>
      CacheKey in storage && storage[CacheKey] != [] && codec.parse(storage[CacheKey]).Some?
      && Get(codec.parse(storage[CacheKey]).value, "data") == Some(JArray(r.value.ipos))
      && var st := Get(codec.parse(storage[CacheKey]).value, "timestamp");
      r.value.timestamp == (if st.Some? && Truthy(st.value) then st.value else JNumber(now))
    ensures CacheKey in storage && storage[CacheKey] != [] && codec.parse(storage[CacheKey]).Some?
      && Get(codec.parse(storage[CacheKey]).value, "data").Some?
      && Get(codec.parse(storage[CacheKey]).value, "data").value.JArray?
      ==> r.Some? && r.value.ipos == Get(codec.parse(storage[CacheKey]).value, "data").value.items
  {
    if CacheKey !in storage || storage[CacheKey] == [] then None
    else
      match codec.parse(storage[CacheKey])
      case None => None
      case Some(parsed) =>
        match Get(parsed, "data")
        case Some(JArray(ipos)) =>
          var stamp := Get(parsed, "timestamp");
          Some(Snapshot(ipos, if stamp.Some? && Truthy(stamp.value) then stamp.value else JNumber(now)))
        case _ => None
  }

  /** With a codec that round-trips, what a fetch writes is what the next
      load reads: the same records and, when it is not zero or the load
      happens at the same time, the same time. */
  lemma CacheRoundTrip(storage: map<string, string>, codec: Codec, ipos: seq<Json>, now: real, later: real)
    requires RoundTrips(codec)
    requires codec.stringify(CacheEntry(ipos, now)).Some?
    requires now != 0.0 || later == now
    ensures ReadCache(storage[CacheKey := codec.stringify(CacheEntry(ipos, now)).value], codec, later)
      == Some(Snapshot(ipos, JNumber(now)))
  {
    var entry := CacheEntry(ipos, now);
    var text := codec.stringify(entry).value;
    assert codec.parse(text) == Some(entry);
    assert Get(entry, "data") == Some(JArray(ipos));
    assert Get(entry, "timestamp") == Some(JNumber(now));
  }


  /** `queryData?.ipos || []`. */
  function Records(query: Option<Snapshot>): (r: seq<Json>)
    ensures query.None? ==> r == []
    ensures query.Some? ==> r == query.value.ipos
  {
    if query.Some? then query.value.ipos else []
  }

  /** The "Last Updated" label: 'Never' without a truthy time stamp, else the
      time stamp, shown in a locale format that is not modelled. */
  datatype UpdatedLabel = Never | FormattedAt(timestamp: Json)

  function LastUpdatedLabel(query: Option<Snapshot>): (r: UpdatedLabel)
    ensures r == Never <==> query.None? || !Truthy(query.value.timestamp)
    ensures r.FormattedAt? ==> r.timestamp == query.value.timestamp
  {
    if query.None? || !Truthy(query.value.timestamp) then Never else FormattedAt(query.value.timestamp)
  }

  /** Cached records always come with a time: a falsy stored time stamp is
      replaced by a non-zero `now`, so the label is never 'Never'. */
  lemma CachedLabelNeverNever(storage: map<string, string>, codec: Codec, now: real)
    requires now != 0.0 && ReadCache(storage, codec, now).Some?
    ensures LastUpdatedLabel(ReadCache(storage, codec, now)) != Never
  {
  }

  // ------------------------------------------------------------------ safeRender

  /** `String(val)` for a value that is not an object. */
  function JsString(v: Json, codec: Codec): (r: string)
    requires !IsObjectType(v)
    ensures v.JString? ==> r == v.s
    ensures v.JBool? ==> r == if v.b then "true" else "false"
    ensures v.JNumber? ==> r == codec.numberText(v.n)
  {
    match v
    case JBool(b) => if b then "true" else "false"
    case JNumber(n) => codec.numberText(n)
    case JString(s) => s
  }

  /** `safeRender`: nothing for null and undefined, the JSON text of an
      object or array ("" when that throws), `String` of anything else. */
  function SafeRender(val: Option<Json>, codec: Codec): (r: string)
    ensures val.None? || val == Some(JNull) ==> r == []
    ensures val.Some? && val.value.JString? ==> r == val.value.s
  {
    match val
    case None => ""
    case Some(v) =>
      if v.JNull? then ""
      else if IsObjectType(v) then codec.stringify(v).GetOr("")
      else JsString(v, codec)
  }

  /** With a codec that round-trips, the text shown for an object or array
      parses back to it, or is empty when stringifying threw. */
  lemma SafeRenderObject(v: Json, codec: Codec)
    requires RoundTrips(codec) && (v.JArray? || v.JObject?)
    ensures SafeRender(Some(v), codec) == [] <==> codec.stringify(v).None?
    ensures SafeRender(Some(v), codec) != [] ==> codec.parse(SafeRender(Some(v), codec)) == Some(v)
  {
  }

  // ------------------------------------------------------------------ getTotalSub

  /** A character `/[x,\s]/gi` deletes. */
  predicate Decoration(c: char) {
    c == 'x' || c == 'X' || c == ',' || IsSpace(c)
  }

  predicate Undecorated(c: char) {
    !Decoration(c)
  }

  /** `val.replace(/[x,\s]/gi, '')`. */
  function StripDecoration(s: string): (r: string)
    ensures forall i | 0 <= i < |r| :: !Decoration(r[i])
  {
    var r := Filter(s, Undecorated);
    assert forall i | 0 <= i < |r| :: r[i] in r;
    r
  }

  /** `clean`: a number as it is; a string stripped of x, commas and white
      space and read by `parseFloat`, with NaN as 0; anything else 0. */
  function Clean(val: Option<Json>): (r: real)
    ensures val.Some? && val.value.JNumber? ==> r == val.value.n
    ensures val.None? || !(val.value.JNumber? || val.value.JString?) ==> r == 0.0
    ensures val.Some? && val.value.JString? && ParseFloat(StripDecoration(val.value.s)).None? ==> r == 0.0
  {
    match val
    case Some(JNumber(n)) => n
    case Some(JString(s)) => ParseFloat(StripDecoration(s)).GetOr(0.0)
    case _ => 0.0
  }

  /** The sum of the three cleaned subscription figures. */
  function SubTotal(sub: Json): (r: real)
    ensures !sub.JObject? ==> r == 0.0
    ensures sub.JObject? && "retail" !in sub.fields && "nii" !in sub.fields && "qib" !in sub.fields ==> r == 0.0
  {
    Clean(Get(sub, "retail")) + Clean(Get(sub, "nii")) + Clean(Get(sub, "qib"))
  }

  /** `getTotalSub`: "N/A" for anything falsy or not an object, else the
      total to one decimal place with an "x". */
  function GetTotalSub(sub: Option<Json>): (r: string)
    ensures r != []
  {
    if sub.None? || !Truthy(sub.value) || !IsObjectType(sub.value) then "N/A"
    else ToFixed(SubTotal(sub.value), 1) + "x"
  }

  /** "N/A" is shown exactly for an undefined, falsy or non-object argument;
      otherwise the text ends in one decimal digit and an 'x', and what
      precedes the 'x' reads back as the total rounded to one decimal,
      within 0.05 of the total. */
  lemma TotalSubMeaning(sub: Option<Json>)
    ensures GetTotalSub(sub) == "N/A" <==> sub.None? || !Truthy(sub.value) || !IsObjectType(sub.value)
    ensures GetTotalSub(sub) != "N/A" ==>
      var r := GetTotalSub(sub);
      |r| >= 4 && r[|r| - 1] == 'x' && IsDigit(r[|r| - 2]) && r[|r| - 3] == '.'
      && ParseFloat(r[..|r| - 1]) == Some(Rounded(SubTotal(sub.value), 1))
      && -0.05 <= Rounded(SubTotal(sub.value), 1) - SubTotal(sub.value) <= 0.05
  {
    if !(sub.None? || !Truthy(sub.value) || !IsObjectType(sub.value)) {
      var t := ToFixed(SubTotal(sub.value), 1);
      var r := t + "x";
      assert r[|r| - 1] == 'x' && r[..|r| - 1] == t;
      assert r != "N/A" by { assert "N/A"[2] == 'A'; }
      FixedTail(SubTotal(sub.value), 1);
      ToFixedRoundTrip(SubTotal(sub.value), 1);
      assert Shift(0.5, 1) == 0.05;
    }
  }

  /** The figures of the Ongoing SME listing, "12.5x", "4.2x" and "1.1x",
      add up to "17.8x". */
  lemma TotalSubExample(sub: Json)
    requires sub == SubscriptionJson(Subscription("12.5x", "4.2x", "1.1x"))
    ensures GetTotalSub(Some(sub)) == "17.8x"
  {
    ExampleSum();
    TotalOfObject(sub, 17.8);
    ExampleFixed();
  }

  /** An object's figure is its total to one decimal place and an "x". */
  lemma TotalOfObject(sub: Json, total: real)
    requires sub.JObject? && SubTotal(sub) == total
    ensures GetTotalSub(Some(sub)) == ToFixed(total, 1) + "x"
  {
  }


  /** The example's figures add up to 17.8. */
  lemma ExampleSum()
    ensures SubTotal(SubscriptionJson(Subscription("12.5x", "4.2x", "1.1x"))) == 17.8
  {
    ExampleLookups();
    ExampleFigures();
  }

  lemma ExampleLookups()
    ensures var sub := SubscriptionJson(Subscription("12.5x", "4.2x", "1.1x"));
      Get(sub, "retail") == Some(JString("12.5x")) && Get(sub, "nii") == Some(JString("4.2x"))
      && Get(sub, "qib") == Some(JString("1.1x"))
  {
  }

  /** The three figures of the example, cleaned. */
  lemma ExampleFigures()
    ensures Clean(Some(JString("12.5x"))) == 12.5
    ensures Clean(Some(JString("4.2x"))) == 4.2
    ensures Clean(Some(JString("1.1x"))) == 1.1
  {
    FigureRetail();
    FigureNii();
    FigureQib();
  }

  lemma FigureRetail()
    ensures Clean(Some(JString("12.5x"))) == 12.5
  {
    var a, b := "12", "5";
    assert a + b == "125";
    assert DigitsValue("125") == 125;
    assert a + "." + b + "x" == "12.5x";
    CleanDecimal("12.5x", a, b, 125);
  }

  lemma FigureNii()
    ensures Clean(Some(JString("4.2x"))) == 4.2
  {
    var a, b := "4", "2";
    assert a + b == "42";
    assert DigitsValue("42") == 42;
    assert a + "." + b + "x" == "4.2x";
    CleanDecimal("4.2x", a, b, 42);
  }

  lemma FigureQib()
    ensures Clean(Some(JString("1.1x"))) == 1.1
  {
    var a, b := "1", "1";
    assert a + b == "11";
    assert DigitsValue("11") == 11;
    assert a + "." + b + "x" == "1.1x";
    CleanDecimal("1.1x", a, b, 11);
  }

  /** 17.8 to one decimal place is "17.8". */
  lemma ExampleFixed()
    ensures ToFixed(17.8, 1) == "17.8"
  {
    assert Unshift(17.8, 1) == 178.0;
    assert ScaledRound(17.8, 1) == 178;
    assert NatText(178) == "178";
    assert ZeroPad("178", 2) == "178";
  }

  /** A figure "a.bx" cleans to the number a.b. */
  lemma CleanDecimal(s: string, a: string, b: string, n: nat)
    requires |b| == 1 && AllDigits(a) && AllDigits(b) && a != [] && DigitsValue(a + b) == n
    requires s == a + "." + b + "x"
    ensures Clean(Some(JString(s))) == n as real / 10.0
  {
    var t := a + ("." + b);
    StripNumber(a, b);
    SplitParses(a, b);
    PositiveParse(t, Shift(n as real, 1));
    CleanOf(s, t, Shift(n as real, 1));
    assert Shift(n as real, 1) == n as real / 10.0;
  }

  /** A string whose stripped text reads as `v` cleans to `v`. */
  lemma CleanOf(s: string, t: string, v: real)
    requires StripDecoration(s) == t && ParseFloat(t) == Some(v)
    ensures Clean(Some(JString(s))) == v
  {
  }

  /** Stripping "a.bx" of its decoration leaves "a.b". */
  lemma StripNumber(a: string, b: string)
    requires AllDigits(a) && AllDigits(b)
    ensures StripDecoration(a + "." + b + "x") == a + ("." + b)
  {
    var t := a + ("." + b);
    assert a + "." + b + "x" == t + "x";
    FilterAppend(t, "x", Undecorated);
    assert forall i | 0 <= i < |t| :: Undecorated(t[i]) by {
      forall i | 0 <= i < |t| ensures Undecorated(t[i]) {
        if i < |a| { assert t[i] == a[i]; }
        else if i > |a| { assert t[i] == b[i - |a| - 1]; }
      }
    }
    FilterAll(t, Undecorated);
    assert Filter("x", Undecorated) == [];
    assert t + [] == t;
  }

  // ------------------------------------------------------------------ filteredData

  /** `ipo.status === tab` for a record that is not null. */
  predicate HasStatus(ipo: Json, tab: IPOStatus) {
    Get(ipo, "status") == Some(JString(StatusName(tab)))
  }

  /** `ipo.type === t` for a record that is not null. */
  predicate HasType(ipo: Json, t: IPOType) {
    Get(ipo, "type") == Some(JString(TypeName(t)))
  }

  /** The type filter applies only on the Closed tab with a filter other
      than 'All'. */
  predicate TypeFilterOn(tab: IPOStatus, filter: ClosedFilter) {
    tab == Closed && filter.OnlyType?
  }

  function StatusIs(tab: IPOStatus): Json -> bool {
    ipo => HasStatus(ipo, tab)
  }

  function TypeIs(t: IPOType): Json -> bool {
    ipo => HasType(ipo, t)
  }

  /** Both filters in one test. */
  function Shown(tab: IPOStatus, filter: ClosedFilter): Json -> bool {
    ipo => HasStatus(ipo, tab) && (TypeFilterOn(tab, filter) ==> HasType(ipo, filter.t))
  }

  /** `filteredData` with the record read as `ipo?.status`: the records with
      the active tab's status and, where the type filter is on, the chosen
      type. A null record is left out. */
  function FilteredData(records: seq<Json>, tab: IPOStatus, filter: ClosedFilter): (r: seq<Json>)
    ensures |r| <= |records|
    ensures forall x :: x in r ==> x in records && HasStatus(x, tab)
    ensures JNull !in r
  {
    var data := Filter(records, StatusIs(tab));
    if TypeFilterOn(tab, filter) then Filter(data, TypeIs(filter.t)) else data
  }

  /** `filteredData` exactly as written: reading `ipo.status` off a null
      record throws, which `None` stands for. */
  function FilteredDataAsWritten(records: seq<Json>, tab: IPOStatus, filter: ClosedFilter): (r: Option<seq<Json>>)
    ensures r.None? <==> JNull in records
    ensures r.Some? ==> r.value == FilteredData(records, tab, filter)
  {
    if JNull in records then None else Some(FilteredData(records, tab, filter))
  }

  /** A record is shown exactly when it has the tab's status and, with the
      type filter on, the chosen type; the shown records keep their order. */
  lemma FilteredDataMeaning(records: seq<Json>, tab: IPOStatus, filter: ClosedFilter)
    ensures forall x :: x in FilteredData(records, tab, filter) <==>
      x in records && HasStatus(x, tab) && (TypeFilterOn(tab, filter) ==> HasType(x, filter.t))
    ensures IsSubsequence(FilteredData(records, tab, filter), records)
  {
    if TypeFilterOn(tab, filter) {
      FilterFilter(records, StatusIs(tab), TypeIs(filter.t), Shown(tab, filter));
      FilterIsSubsequence(records, Shown(tab, filter));
    } else {
      FilterIsSubsequence(records, StatusIs(tab));
    }
  }

  /** A response whose text is "[null]" is accepted by the feed as one
      record, and the dashboard as written then throws on it. */
  lemma NullRecordThrows(codec: Codec)
    requires codec.parse("[null]") == Some(JArray([JNull]))
    ensures var ipos := FetchIPOData(Text("[null]"), codec);
      ipos == [JNull] && FilteredDataAsWritten(ipos, Ongoing, AllTypes).None?
  {
    FetchNullArray(codec);
    NullListThrows();
  }

  /** The feed returns the one null record of "[null]". */
  lemma FetchNullArray(codec: Codec)
    requires codec.parse("[null]") == Some(JArray([JNull]))
    ensures FetchIPOData(Text("[null]"), codec) == [JNull]
  {
    CleanupNullArray();
    assert ParsesToList(Text("[null]"), codec, [JNull]);
    FetchReturnsParsed(Text("[null]"), codec, MockRecords, [JNull]);
  }

  lemma NullListThrows()
    ensures FilteredDataAsWritten([JNull], Ongoing, AllTypes).None?
  {
    assert JNull in [JNull];
  }

  /** "[null]" has no fence and no surrounding white space to remove. */
  lemma CleanupNullArray()
    ensures Cleanup("[null]") == "[null]"
  {
    var s := "[null]";
    assert forall i | 0 <= i < |s| :: s[i] != '`';
    assert !IsSpace(s[0]) && !IsSpace(s[|s| - 1]);
    CleanupUnfenced(s);
  }

  // ------------------------------------------------------------------ listing gain

  /** The listing gain of a record as a number: `safeRender(ipo?.listingGain)`
      with its first '%' removed, read by `parseFloat`, NaN as 0. */
  function ListingGainValue(ipo: Json, codec: Codec): (r: real)
    ensures Get(ipo, "listingGain").None? ==> r == 0.0
  {
    var gain := GetOpt(Some(ipo), "listingGain");
    assert gain.None? ==> RemoveFirst(SafeRender(gain, codec), '%') == [];
    ParseFloat(RemoveFirst(SafeRender(gain, codec), '%')).GetOr(0.0)
  }

  /** A listing counts as a profit when its gain value is not negative; a
      record without a listing gain counts as one. */
  predicate IsProfit(ipo: Json, codec: Codec): (r: bool)
    ensures Get(ipo, "listingGain").None? ==> r
  {
    ListingGainValue(ipo, codec) >= 0.0
  }

  /** A gain written as a whole percentage, "n%" or "-n%", has value n or
      -n; it is a loss exactly when it is negative and not zero. */
  lemma PercentGain(ipo: Json, codec: Codec, neg: bool, n: nat)
    requires Get(ipo, "listingGain") == Some(JString((if neg then "-" else "") + NatText(n) + "%"))
    ensures ListingGainValue(ipo, codec) == if neg then -(n as real) else n as real
    ensures IsProfit(ipo, codec) <==> !neg || n == 0
  {
    var digits := NatText(n);
    var sign: string := if neg then "-" else "";
    var text := sign + digits;
    var v := n as real;
    assert SafeRender(Get(ipo, "listingGain"), codec) == text + "%";
    assert forall i | 0 <= i < |text| :: text[i] != '%' by {
      forall i | 0 <= i < |text| ensures text[i] != '%' {
        if i >= |sign| { assert text[i] == digits[i - |sign|]; }
      }
    }
    RemovePercent(text);
    WholeParses(digits);
    assert Shift(DigitsValue(digits) as real, 0) == v;
    SignedParse(neg, digits, v);
    assert ParseFloat(text) == Some(if neg then -v else v);
  }

  /** A gain whose text, once its first '%' is removed, does not read as a
      number counts 0 and so as a profit: `parseFloat` gives NaN and `|| 0`
      replaces it. */
  lemma UnreadableGainIsProfit(ipo: Json, codec: Codec, s: string)
    requires Get(ipo, "listingGain") == Some(JString(s))
    requires var t := TrimStart(RemoveFirst(s, '%'));
      !StartsNumber(if t != [] && (t[0] == '-' || t[0] == '+') then t[1..] else t)
    ensures ListingGainValue(ipo, codec) == 0.0 && IsProfit(ipo, codec)
  {
    assert SafeRender(GetOpt(Some(ipo), "listingGain"), codec) == s;
  }

  /** A gain still to be announced, "TBA", counts as a profit. */
  lemma TbaIsProfit(ipo: Json, codec: Codec)
    requires Get(ipo, "listingGain") == Some(JString("TBA"))
    ensures ListingGainValue(ipo, codec) == 0.0 && IsProfit(ipo, codec)
  {
    var s := "TBA";
    assert '%' !in s;
    TrimStartNoSpace(s);
    assert !StartsNumber(s);
    UnreadableGainIsProfit(ipo, codec, s);
  }

  /** A decimal gain "a.b%" with an optional '-' or '+' has value `±a.b`; it is
      a loss exactly when the sign is '-' and the value is not zero. */
  lemma DecimalGain(ipo: Json, codec: Codec, sign: string, a: string, b: string)
    requires sign == "" || sign == "-" || sign == "+"
    requires AllDigits(a) && AllDigits(b) && a != []
    requires Get(ipo, "listingGain") == Some(JString(sign + a + "." + b + "%"))
    ensures var v := Shift(DigitsValue(a + b) as real, |b|);
      ListingGainValue(ipo, codec) == (if sign == "-" then -v else v)
    ensures IsProfit(ipo, codec) <==> sign != "-" || DigitsValue(a + b) == 0
  {
    var body := a + ("." + b);
    var text := sign + body;
    var v := Shift(DigitsValue(a + b) as real, |b|);
    GainText(sign, a, b);
    NoPercent(sign, a, b);
    SplitParses(a, b);
    SignedBody(sign, body, v);
    GainValueOf(ipo, codec, text, if sign == "-" then -v else v);
    ShiftSign(DigitsValue(a + b), |b|);
  }

  /** A gain written as a number text and a '%' has the value the text reads as. */
  lemma GainValueOf(ipo: Json, codec: Codec, text: string, w: real)
    requires Get(ipo, "listingGain") == Some(JString(text + "%"))
    requires forall i | 0 <= i < |text| :: text[i] != '%'
    requires ParseFloat(text) == Some(w)
    ensures ListingGainValue(ipo, codec) == w
  {
    assert SafeRender(GetOpt(Some(ipo), "listingGain"), codec) == text + "%";
    RemovePercent(text);
  }

  /** The gain text is the number text followed by '%'. */
  lemma GainText(sign: string, a: string, b: string)
    ensures sign + a + "." + b + "%" == sign + (a + ("." + b)) + "%"
  {
  }

  /** A signed decimal number text holds no '%'. */
  lemma NoPercent(sign: string, a: string, b: string)
    requires sign == "" || sign == "-" || sign == "+"
    requires AllDigits(a) && AllDigits(b)
    ensures forall i | 0 <= i < |sign + (a + ("." + b))| :: (sign + (a + ("." + b)))[i] != '%'
  {
    var t := sign + (a + ("." + b));
    forall i | 0 <= i < |t| ensures t[i] != '%' {
      if |sign| <= i < |sign| + |a| {
        assert t[i] == a[i - |sign|];
      } else if i > |sign| + |a| {
        assert t[i] == b[i - |sign| - |a| - 1];
      }
    }
  }

  /** `parseFloat` of a digit-led body after "", "-" or "+". */
  lemma SignedBody(sign: string, body: string, v: real)
    requires sign == "" || sign == "-" || sign == "+"
    requires body != [] && IsDigit(body[0]) && ParseUnsigned(body) == Some(v)
    ensures ParseFloat(sign + body) == Some(if sign == "-" then -v else v)
  {
    if sign == "+" {
      PlusParse(body, v);
    } else {
      SignedParse(sign == "-", body, v);
    }
  }

  /** A whole number of units shifted right keeps its sign: positive stays
      positive and zero stays zero. */
  lemma ShiftSign(n: nat, d: nat)
    ensures n == 0 ==> Shift(n as real, d) == 0.0
    ensures n > 0 ==> Shift(n as real, d) > 0.0
  {
    ShiftZero(d);
    if n > 0 {
      ShiftPositive(n as real, d);
    }
  }

  /** Removing the first '%' from a number text followed by "%" leaves the
      number text. */
  lemma RemovePercent(t: string)
    requires forall i | 0 <= i < |t| :: t[i] != '%'
    ensures RemoveFirst(t + "%", '%') == t
  {
    assert '%' !in t;
    RemoveFirstSplit(t, '%', "");
    assert t + ['%'] + "" == t + "%";
    assert t + "" == t;
  }


  // ------------------------------------------------------------------ component state

  /** The dashboard's state: the browser storage it caches in, the query's
      data, the active tab, the Closed tab's type filter and the listing
      whose details are open. */
  class DashboardState {
    const codec: Codec
    /** The table the feed falls back to; in the app, `MockRecords`, which
        makes every fetch here `FetchIPOData`. */
    const fallback: seq<Json>
    var storage: map<string, string>
    var query: Option<Snapshot>
    var activeTab: IPOStatus
    var closedFilter: ClosedFilter
    var selected: Option<Json>

    /** The query agrees with storage: the cache, read at the query's own
        time, gives back exactly the query's data. */
    predicate Synced()
      reads this
    {
      query.None? || ReadCache(storage, codec, StampTime(query.value)) == query
    }

    /** The records the grid shows. */
    function Visible(): seq<Json>
      reads this
    {
      FilteredData(Records(query), activeTab, closedFilter)
    }

    /** First render: the Ongoing tab, no type filter, no details open, and
        the query seeded from the cache. */
    constructor (codec: Codec, fallback: seq<Json>, storage: map<string, string>, now: real)
      ensures this.codec == codec && this.fallback == fallback && this.storage == storage
      ensures query == ReadCache(storage, codec, now)
      ensures activeTab == Ongoing && closedFilter == AllTypes && selected == None
      ensures Synced()
    {
      this.codec := codec;
      this.storage := storage;
      this.fallback := fallback;
      query := ReadCache(storage, codec, now);
      activeTab := Ongoing;
      closedFilter := AllTypes;
      selected := None;
      new;
      CacheSeedsSynced(storage, codec, now);
    }

    /** The query function, run by `refetch`: fetch, then store the
        records. */
    method Refresh(resp: Response, now: real) returns (ok: bool)
      modifies this
      ensures var entry := CacheEntry(FetchOr(resp, codec, fallback), now);
        ok <==> codec.stringify(entry).Some?
      ensures ok ==>
        storage == old(storage)[CacheKey := codec.stringify(CacheEntry(FetchOr(resp, codec, fallback), now)).value]
        && query == Some(Snapshot(FetchOr(resp, codec, fallback), JNumber(now)))
      ensures !ok ==> storage == old(storage) && query == old(query)
      ensures activeTab == old(activeTab) && closedFilter == old(closedFilter) && selected == old(selected)
      ensures ok && fallback != [] ==> Records(query) != []
      ensures RoundTrips(codec) && old(Synced()) ==> Synced()
    {
      var ipos := FetchOr(resp, codec, fallback);
      ok := Store(ipos, now);
    }

    /** The second half of the query function: store `{data, timestamp}`
        and take it as the query's data. When stringifying throws, the query
        fails and keeps its old data. */
    method Store(ipos: seq<Json>, now: real) returns (ok: bool)
      modifies this
      ensures ok <==> codec.stringify(CacheEntry(ipos, now)).Some?
      ensures ok ==>
        storage == old(storage)[CacheKey := codec.stringify(CacheEntry(ipos, now)).value]
        && query == Some(Snapshot(ipos, JNumber(now)))
      ensures !ok ==> storage == old(storage) && query == old(query)
      ensures activeTab == old(activeTab) && closedFilter == old(closedFilter) && selected == old(selected)
      ensures RoundTrips(codec) && old(Synced()) ==> Synced()
    {
      var text := codec.stringify(CacheEntry(ipos, now));
      ok := text.Some?;
      if ok {
        if RoundTrips(codec) {
          CacheRoundTrip(storage, codec, ipos, now, now);
        }
        storage := storage[CacheKey := text.value];
        query := Some(Snapshot(ipos, JNumber(now)));
      }
    }

    /** A tab button. */
    method SetActiveTab(tab: IPOStatus)
      modifies this
      ensures activeTab == tab
      ensures storage == old(storage) && query == old(query)
      ensures closedFilter == old(closedFilter) && selected == old(selected)
      ensures Visible() == FilteredData(Records(query), tab, closedFilter)
    {
      activeTab := tab;
    }

    /** A type button of the Closed tab. */
    method SetClosedFilter(filter: ClosedFilter)
      modifies this
      ensures closedFilter == filter
      ensures storage == old(storage) && query == old(query)
      ensures activeTab == old(activeTab) && selected == old(selected)
      ensures Visible() == FilteredData(Records(query), activeTab, filter)
    {
      closedFilter := filter;
    }

    /** A click on a card opens its details. */
    method SelectIPO(ipo: Json)
      modifies this
      ensures selected == Some(ipo)
      ensures storage == old(storage) && query == old(query)
      ensures activeTab == old(activeTab) && closedFilter == old(closedFilter)
    {
      selected := Some(ipo);
    }

    /** The backdrop and the close buttons of the details. */
    method CloseDetails()
      modifies this
      ensures selected == None
      ensures storage == old(storage) && query == old(query)
      ensures activeTab == old(activeTab) && closedFilter == old(closedFilter)
    {
      selected := None;
    }
  }

  /** The time a snapshot was taken, as a number: its time stamp when that
      is a number, else 0. */
  function StampTime(snapshot: Snapshot): real {
    if snapshot.timestamp.JNumber? then snapshot.timestamp.n else 0.0
  }

  /** What the cache gives at first render, read again at its own time,
      is the same. */
  lemma CacheSeedsSynced(storage: map<string, string>, codec: Codec, now: real)
    ensures var seed := ReadCache(storage, codec, now);
      seed.None? || ReadCache(storage, codec, StampTime(seed.value)) == seed
  {
  }

}
