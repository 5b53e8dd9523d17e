/**
 * The IPO feed: the language-model response is cleaned of Markdown code
 * fences and parsed, and any failure along the way falls back to a fixed
 * table of listings.
 */
module GeminiService {
  import opened Wrappers
  import opened JsBuiltins
  import opened JsonValues
  import opened Types

  /** How the generative-model call ended: it threw, it answered without
      text, or it answered with text. */
  datatype Response = Throws | NoText | Text(text: string)

  /** The fallback table, listing by listing. */
  const MockData: seq<IPOData> := [
    IPOData("mock-1", "Bharat Coking Coal Ltd", Mainboard, Upcoming,
      "₹250-265", 50.0, "1200 Cr",
      "Jan 28, 2026", "Jan 31, 2026", "Feb 05, 2026",
      Subscription("0x", "0x", "0x"),
      "+₹45", "18%",
      None, None,
      Some("KFin Technologies"), Some("SBI Capital Markets")),
    IPOData("mock-2", "Victory Electric Vehicles", SME, Ongoing,
      "₹95-100", 1200.0, "45 Cr",
      "Jan 24, 2026", "Jan 27, 2026", "Feb 01, 2026",
      Subscription("12.5x", "4.2x", "1.1x"),
      "+₹80", "80%",
      None, None,
      Some("Bigshare Services"), Some("Hem Securities")),
    IPOData("closed-1", "E to E Transportation", SME, Closed,
      "₹72-76", 1600.0, "22 Cr",
      "Jan 10, 2026", "Jan 13, 2026", "Jan 18, 2026",
      Subscription("185x", "98x", "45x"),
      "+₹40", "52%",
      Some("58%"), Some("₹120"),
      Some("Maashitla Securities"), Some("Beeline Capital")),
    IPOData("closed-2", "Dhara Rail Projects", SME, Closed,
      "₹102-108", 1200.0, "35 Cr",
      "Jan 08, 2026", "Jan 11, 2026", "Jan 16, 2026",
      Subscription("210x", "150x", "80x"),
      "+₹90", "83%",
      Some("92%"), Some("₹207"),
      Some("Skyline Financial"), Some("Interactive Fin")),
    IPOData("closed-3", "Nanta Tech", Mainboard, Closed,
      "₹340-360", 40.0, "600 Cr",
      "Jan 05, 2026", "Jan 08, 2026", "Jan 13, 2026",
      Subscription("15x", "32x", "45x"),
      "+₹120", "33%",
      Some("35%"), Some("₹486"),
      Some("Link Intime"), Some("ICICI Securities")),
    IPOData("closed-4", "Apollo Techno Industries", Mainboard, Closed,
      "₹210-225", 65.0, "450 Cr",
      "Jan 02, 2026", "Jan 05, 2026", "Jan 10, 2026",
      Subscription("8x", "12x", "20x"),
      "+₹15", "7%",
      Some("12%"), Some("₹252"),
      Some("KFin Tech"), Some("JM Financial")),
    IPOData("closed-5", "Bai-Kakaji Polymers", SME, Closed,
      "₹55-58", 2000.0, "18 Cr",
      "Dec 28, 2025", "Dec 31, 2025", "Jan 05, 2026",
      Subscription("450x", "320x", "110x"),
      "+₹65", "112%",
      Some("125%"), Some("₹130"),
      Some("Bigshare Services"), Some("Shreni Shares")),
    IPOData("closed-6", "Meesho", Mainboard, Closed,
      "₹320-340", 45.0, "3500 Cr",
      "Dec 26, 2025", "Dec 29, 2025", "Jan 03, 2026",
      Subscription("12x", "45x", "95x"),
      "+₹70", "20%",
      Some("22%"), Some("₹414"),
      Some("Link Intime"), Some("Kotak Mahindra")),
    IPOData("closed-7", "Admach Systems", SME, Closed,
      "₹88-92", 1200.0, "28 Cr",
      "Dec 24, 2025", "Dec 27, 2025", "Jan 01, 2026",
      Subscription("120x", "85x", "25x"),
      "+₹25", "27%",
      Some("18%"), Some("₹108"),
      Some("Cameo Corporate"), Some("Fedex Securities")),
    IPOData("closed-8", "ICICI Prudential AMC", Mainboard, Closed,
      "₹850-900", 15.0, "2500 Cr",
      "Dec 20, 2025", "Dec 23, 2025", "Dec 29, 2025",
      Subscription("35x", "60x", "95x"),
      "+₹200", "22%",
      Some("25%"), Some("₹1125"),
      Some("KFin Tech"), Some("ICICI Securities")),
    IPOData("closed-9", "Corona Remedies", Mainboard, Closed,
      "₹450-480", 30.0, "1200 Cr",
      "Dec 19, 2025", "Dec 22, 2025", "Dec 27, 2025",
      Subscription("8x", "15x", "32x"),
      "+₹20", "4%",
      Some("1%"), Some("₹485"),
      Some("Link Intime"), Some("Axis Capital")),
    IPOData("closed-10", "TechNova Systems", Mainboard, Closed,
      "₹450-480", 30.0, "800 Cr",
      "Dec 18, 2025", "Dec 21, 2025", "Dec 26, 2025",
      Subscription("45x", "90x", "120x"),
      "+₹150", "35%",
      Some("42%"), Some("₹681"),
      Some("Bigshare Services"), Some("HDFC Bank")),
    IPOData("closed-11", "Zenith Drugs & Pharma", SME, Closed,
      "₹110-115", 1000.0, "40 Cr",
      "Dec 15, 2025", "Dec 18, 2025", "Dec 23, 2025",
      Subscription("85x", "55x", "20x"),
      "+₹30", "26%",
      Some("30%"), Some("₹149"),
      Some("Maashitla"), Some("Unistone Capital")),
    IPOData("closed-12", "NephroPlus", Mainboard, Closed,
      "₹600-630", 24.0, "1800 Cr",
      "Dec 14, 2025", "Dec 17, 2025", "Dec 22, 2025",
      Subscription("5x", "8x", "18x"),
      "+₹0", "0%",
      Some("-2%"), Some("₹617"),
      Some("KFin Tech"), Some("IIFL Securities")),
    IPOData("closed-13", "Greenhitech Ventures", SME, Closed,
      "₹45-50", 3000.0, "12 Cr",
      "Dec 12, 2025", "Dec 15, 2025", "Dec 20, 2025",
      Subscription("310x", "220x", "100x"),
      "+₹50", "100%",
      Some("115%"), Some("₹107"),
      Some("Purva Sharegistry"), Some("Beeline")),
    IPOData("closed-14", "Tata Technologies", Mainboard, Closed,
      "₹500-500", 30.0, "3042 Cr",
      "Dec 10, 2025", "Dec 13, 2025", "Dec 18, 2025",
      Subscription("16x", "62x", "203x"),
      "+₹400", "80%",
      Some("140%"), Some("₹1200"),
      Some("Link Intime"), Some("JM Financial")),
    IPOData("closed-15", "Gandhar Oil Refinery", Mainboard, Closed,
      "₹160-169", 88.0, "500 Cr",
      "Dec 05, 2025", "Dec 08, 2025", "Dec 13, 2025",
      Subscription("29x", "64x", "152x"),
      "+₹75", "44%",
      Some("76%"), Some("₹298"),
      Some("Link Intime"), Some("Nuvama")),
    IPOData("closed-16", "Flair Writing Industries", Mainboard, Closed,
      "₹288-304", 49.0, "593 Cr",
      "Dec 01, 2025", "Dec 04, 2025", "Dec 09, 2025",
      Subscription("13x", "35x", "122x"),
      "+₹80", "26%",
      Some("65%"), Some("₹501"),
      Some("Link Intime"), Some("Nuvama")),
    IPOData("closed-17", "Innova Captab", Mainboard, Closed,
      "₹426-448", 33.0, "570 Cr",
      "Nov 28, 2025", "Dec 01, 2025", "Dec 06, 2025",
      Subscription("17x", "25x", "116x"),
      "+₹90", "20%",
      Some("22%"), Some("₹546"),
      Some("KFin Tech"), Some("JM Financial")),
    IPOData("closed-18", "Azad Engineering", Mainboard, Closed,
      "₹524-524", 28.0, "740 Cr",
      "Nov 25, 2025", "Nov 28, 2025", "Dec 03, 2025",
      Subscription("23x", "90x", "179x"),
      "+₹300", "57%",
      Some("35%"), Some("₹707"),
      Some("KFin Tech"), Some("Axis Capital")),
    IPOData("closed-19", "Happy Forgings", Mainboard, Closed,
      "₹808-850", 17.0, "1000 Cr",
      "Nov 22, 2025", "Nov 25, 2025", "Nov 30, 2025",
      Subscription("15x", "63x", "214x"),
      "+₹450", "53%",
      Some("55%"), Some("₹1317"),
      Some("Link Intime"), Some("JM Financial")),
    IPOData("closed-20", "Credo Brands (Mufti)", Mainboard, Closed,
      "₹266-280", 53.0, "550 Cr",
      "Nov 20, 2025", "Nov 23, 2025", "Nov 28, 2025",
      Subscription("4x", "11x", "22x"),
      "+₹10", "3%",
      Some("0%"), Some("₹280"),
      Some("Link Intime"), Some("DAM Capital"))]

  /** The fallback table as the JSON records the dashboard receives. */
  const MockRecords: seq<Json> := RecordsOf(MockData)

  /** Listings as JSON records, in order. */
  function RecordsOf(rs: seq<IPOData>): (r: seq<Json>)
    ensures |r| == |rs| && forall i | 0 <= i < |rs| :: r[i] == ToJson(rs[i])
  {
    if rs == [] then [] else [ToJson(rs[0])] + RecordsOf(rs[1..])
  }

  /** The response text with every "```json" deleted, then every "```"
      deleted, then surrounding white space trimmed. */
  function Cleanup(text: string): (r: string)
    ensures |r| <= |text|
    ensures r == [] || (!IsSpace(r[0]) && !IsSpace(r[|r| - 1]))
  {
    Trim(RemoveAll(RemoveAll(text, "```json"), "```"))
  }

  /** The response parses to a non-empty array: the one outcome that is not
      replaced by the fallback. */
  predicate ParsesToList(resp: Response, codec: Codec, items: seq<Json>) {
    resp.Text? && resp.text != [] && codec.parse(Cleanup(resp.text)) == Some(JArray(items)) && items != []
  }

  /** `fetchIPOData` once the model call has returned `resp`, with the
      table it falls back on: empty text, a parse failure (the thrown
      exception is caught), a value that is not an array and an empty array
      all yield `fallback`; a non-empty array is returned as it is, element
      shapes unchecked. */
  function FetchOr(resp: Response, codec: Codec, fallback: seq<Json>): (r: seq<Json>)
    ensures fallback != [] ==> r != []
  {
    match resp
    case Throws => fallback
    case NoText => fallback
    case Text(text) =>
      if text == [] then fallback
      else
        match codec.parse(Cleanup(text))
        case Some(JArray(items)) => if items == [] then fallback else items
        case _ => fallback
  }

  /** `fetchIPOData`: the feed with the built-in table as its fallback. */
  function FetchIPOData(resp: Response, codec: Codec): (r: seq<Json>)
    ensures r != []
  {
    MockRecordsCount();
    FetchOr(resp, codec, MockRecords)
  }

  /** A non-empty parsed array is what the feed returns. */
  lemma FetchReturnsParsed(resp: Response, codec: Codec, fallback: seq<Json>, items: seq<Json>)
    requires ParsesToList(resp, codec, items)
    ensures FetchOr(resp, codec, fallback) == items
  {
  }

  /** Every other outcome (an exception, no text, empty text, text that does
      not parse, a parsed value that is not an array, an empty array) yields
      the fallback. */
  lemma FetchFallsBack(resp: Response, codec: Codec, fallback: seq<Json>)
    requires forall items :: !ParsesToList(resp, codec, items)
    ensures FetchOr(resp, codec, fallback) == fallback
  {
    match resp
    case Throws =>
    case NoText =>
    case Text(text) =>
      if text != [] {
        var parsed := codec.parse(Cleanup(text));
        if parsed.Some? && parsed.value.JArray? {
          assert !ParsesToList(resp, codec, parsed.value.items);
          assert parsed.value.items == [];
        }
      }
  }

  /** Text without any backtick triple is only trimmed. */
  lemma CleanupPlain(text: string)
    requires !Includes(text, "```")
    ensures Cleanup(text) == Trim(text)
  {
    if Includes(text, "```json") {
      assert "```" + "json" == "```json";
      IncludesPrefixOf(text, "```", "json");
    }
    RemoveAllUnchangedIff(text, "```json");
    RemoveAllUnchangedIff(text, "```");
  }

  /** Text without a backtick and without white space at either end comes
      out of the clean-up unchanged. */
  lemma CleanupUnfenced(text: string)
    requires forall i | 0 <= i < |text| :: text[i] != '`'
    requires text != [] && !IsSpace(text[0]) && !IsSpace(text[|text| - 1])
    ensures Cleanup(text) == text
  {
    NotIncludes(text, "```");
    CleanupPlain(text);
    TrimUnchanged(text);
  }

  /** A body wrapped in a "```json" ... "```" fence comes out trimmed, when
      the body itself holds no backtick. */
  lemma CleanupFenced(body: string)
    requires forall i :: 0 <= i < |body| ==> body[i] != '`'
    ensures Cleanup("```json" + body + "```") == Trim(body)
  {
    var fence, close := "```json", "```";
    assert fence + body + close == fence + (body + close);
    RemoveAllFront(fence, body + close);
    RemoveAllSkips(body, close, fence);
    assert RemoveAll(close, fence) == close;
    RemoveAllSkips(body, close, close);
    assert RemoveAll(close, close) == [] by { RemoveAllFront(close, []); assert close + [] == close; }
    assert body + [] == body;
  }

  /** The fallback table holds 22 records. */
  lemma MockRecordsCount()
    ensures |MockRecords| == 22
  {
    assert |MockData| == 22;
  }

  /** The fallback table as JSON: 22 records, each the JSON of its listing. */
  lemma MockRecordsShape()
    ensures |MockRecords| == 22
    ensures forall i | 0 <= i < |MockRecords| :: MockRecords[i] == ToJson(MockData[i])
  {
    assert |MockData| == 22;
  }

  /** The fallback ids, in table order. */
  const MockIds: seq<string> := [
    "mock-1", "mock-2", "closed-1", "closed-2", "closed-3", "closed-4", "closed-5",
    "closed-6", "closed-7", "closed-8", "closed-9", "closed-10", "closed-11",
    "closed-12", "closed-13", "closed-14", "closed-15", "closed-16", "closed-17",
    "closed-18", "closed-19", "closed-20"]

  /** A number that orders the fallback ids: length, then the last two
      characters. */
  function IdKey(id: string): int {
    if |id| < 2 then 0 else |id| * 0x1_0000_0000 + id[|id| - 2] as int * 0x1_0000 + id[|id| - 1] as int
  }

  /** Strictly increasing numbers are pairwise distinct. */
  lemma {:induction false} IncreasingDistinct(keys: seq<int>)
    requires forall i | 0 <= i < |keys| - 1 :: keys[i] < keys[i + 1]
    ensures forall i, j | 0 <= i < j < |keys| :: keys[i] < keys[j]
  {
    if |keys| > 1 {
      var rest := keys[1..];
      IncreasingDistinct(rest);
      forall i, j | 0 <= i < j < |keys| ensures keys[i] < keys[j] {
        if i == 0 {
          if j > 1 { assert rest[0] < rest[j - 1]; }
        } else {
          assert rest[i - 1] < rest[j - 1];
        }
      }
    }
  }

  /** No id appears twice in the id list: their keys increase strictly. */
  lemma MockIdsIncrease()
    ensures forall i, j | 0 <= i < j < |MockIds| :: MockIds[i] != MockIds[j]
  {
    var keys := seq(|MockIds|, i requires 0 <= i < |MockIds| => IdKey(MockIds[i]));
    MockKeysLow();
    MockKeysHigh();
    IncreasingDistinct(keys);
  }

  lemma MockKeysLow()
    ensures |MockIds| == 22
    ensures forall i | 0 <= i < 11 :: IdKey(MockIds[i]) < IdKey(MockIds[i + 1])
  {
  }

  lemma MockKeysHigh()
    ensures forall i | 11 <= i < 21 :: IdKey(MockIds[i]) < IdKey(MockIds[i + 1])
  {
  }

  /** The fallback table has 22 listings and no id appears twice. */
  lemma MockIdsDistinct()
    ensures |MockData| == 22
    ensures forall i, j :: 0 <= i < j < |MockData| ==> MockData[i].id != MockData[j].id
  {
    assert forall i | 0 <= i < |MockData| :: MockData[i].id == MockIds[i];
    MockIdsIncrease();
  }

  /** Every closed listing of the fallback table carries its listing gain and
      listing price; every listing names its registrar and lead manager. */
  lemma MockClosedComplete()
    ensures forall i | 0 <= i < |MockData| ::
      (MockData[i].status == Closed ==> MockData[i].listingGain.Some? && MockData[i].listingPrice.Some?)
      && MockData[i].registrar.Some? && MockData[i].leadManager.Some?
  {
  }
}
