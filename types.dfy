/**
 * The record types of the tracker: an IPO listing, a quiz question, a
 * glossary entry and the static academy content.
 */
module Types {
  import opened Wrappers
  import opened JsonValues

  /** The three phases a listing can be in. */
  datatype IPOStatus = Ongoing | Upcoming | Closed

  /** Mainboard issues and small-and-medium-enterprise issues. */
  datatype IPOType = Mainboard | SME

  /** Subscription multiples per investor category, as text ("12.5x"). */
  datatype Subscription = Subscription(retail: string, nii: string, qib: string)

  /** One IPO listing; `type` is spelled `ipoType` here. */
  datatype IPOData = IPOData(
    id: string,
    companyName: string,
    ipoType: IPOType,
    status: IPOStatus,
    priceBand: string,
    lotSize: real,
    issueSize: string,
    openDate: string,
    closeDate: string,
    listingDate: string,
    subscription: Subscription,
    gmp: string,
    expectedGain: string,
    listingGain: Option<string>,
    listingPrice: Option<string>,
    registrar: Option<string>,
    leadManager: Option<string>)

  datatype Difficulty = Basic | Intermediate | Expert

  datatype QuizQuestion = QuizQuestion(
    id: int,
    question: string,
    options: seq<string>,
    correctAnswer: int,
    explanation: string,
    difficulty: Difficulty)

  datatype LearningTopic = LearningTopic(title: string, content: string, icon: string)

  datatype LearningSection = LearningSection(id: string, title: string, description: string, topics: seq<LearningTopic>)

  datatype TimelineEntry = TimelineEntry(year: string, title: string, description: string)

  datatype EvolutionStage = EvolutionStage(stage: string, description: string)

  datatype StaticAcademyData = StaticAcademyData(
    timeline: seq<TimelineEntry>,
    marketEvolution: seq<EvolutionStage>,
    learningSections: seq<LearningSection>)

  datatype GlossaryItem = GlossaryItem(term: string, definition: string)

  // ------------------------------------------------------------------ names

  /** The string literal of a status. */
  function StatusName(s: IPOStatus): string {
    match s
    case Ongoing => "Ongoing"
    case Upcoming => "Upcoming"
    case Closed => "Closed"
  }

  /** The status a string literal names, if any. */
  function StatusOf(name: string): (r: Option<IPOStatus>)
    ensures r.Some? ==> StatusName(r.value) == name
  {
    if name == "Ongoing" then Some(Ongoing)
    else if name == "Upcoming" then Some(Upcoming)
    else if name == "Closed" then Some(Closed)
    else None
  }

  /** The string literal of an issue type. */
  function TypeName(t: IPOType): string {
    match t
    case Mainboard => "Mainboard"
    case SME => "SME"
  }

  /** The issue type a string literal names, if any. */
  function TypeOf(name: string): (r: Option<IPOType>)
    ensures r.Some? ==> TypeName(r.value) == name
  {
    if name == "Mainboard" then Some(Mainboard)
    else if name == "SME" then Some(SME)
    else None
  }

  /** Every status is named by exactly one literal: reading a name back gives
      the status, so distinct statuses have distinct names. */
  lemma StatusNames(s: IPOStatus, t: IPOStatus)
    ensures StatusOf(StatusName(s)) == Some(s)
    ensures StatusName(s) == StatusName(t) <==> s == t
  {
    assert StatusOf(StatusName(t)) == Some(t);
  }

  /** Every issue type is named by exactly one literal. */
  lemma TypeNames(a: IPOType, b: IPOType)
    ensures TypeOf(TypeName(a)) == Some(a)
    ensures TypeName(a) == TypeName(b) <==> a == b
  {
    assert TypeOf(TypeName(b)) == Some(b);
  }

  // ------------------------------------------------------------------ JSON shape

  /** An optional field is present in the object only when it is set. */
  function WithOptional(m: map<string, Json>, key: string, v: Option<string>): map<string, Json> {
    if v.Some? then m[key := JString(v.value)] else m
  }

  /** The JSON object of a listing's subscription figures. */
  function SubscriptionJson(s: Subscription): Json {
    JObject(map["retail" := JString(s.retail), "nii" := JString(s.nii), "qib" := JString(s.qib)])
  }

  /** The fields of a listing's JSON object. */
  function Fields(r: IPOData): map<string, Json> {
    var required := map[
      "id" := JString(r.id),
      "companyName" := JString(r.companyName),
      "type" := JString(TypeName(r.ipoType)),
      "status" := JString(StatusName(r.status)),
      "priceBand" := JString(r.priceBand),
      "lotSize" := JNumber(r.lotSize),
      "issueSize" := JString(r.issueSize),
      "openDate" := JString(r.openDate),
      "closeDate" := JString(r.closeDate),
      "listingDate" := JString(r.listingDate),
      "subscription" := SubscriptionJson(r.subscription),
      "gmp" := JString(r.gmp),
      "expectedGain" := JString(r.expectedGain)];
    WithOptional(WithOptional(WithOptional(WithOptional(required,
      "listingGain", r.listingGain),
      "listingPrice", r.listingPrice),
      "registrar", r.registrar),
      "leadManager", r.leadManager)
  }

  /** The JSON object a listing is, field for field. */
  function ToJson(r: IPOData): Json {
    JObject(Fields(r))
  }

  /** A string field of an object. */
  function StringField(m: map<string, Json>, key: string): (r: Option<string>)
    ensures r.Some? <==> key in m && m[key].JString?
    ensures r.Some? ==> m[key] == JString(r.value)
  {
    if key in m && m[key].JString? then Some(m[key].s) else None
  }

  /** An optional string field: `Some(None)` when absent, `None` when present
      but not a string. */
  function OptionalField(m: map<string, Json>, key: string): (r: Option<Option<string>>)
    ensures r == Some(None) <==> key !in m
    ensures r.Some? && r.value.Some? ==> key in m && m[key] == JString(r.value.value)
  {
    if key !in m then Some(None)
    else if m[key].JString? then Some(Some(m[key].s))
    else None
  }

  /** A number field of an object. */
  function NumberField(m: map<string, Json>, key: string): (r: Option<real>)
    ensures r.Some? <==> key in m && m[key].JNumber?
    ensures r.Some? ==> m[key] == JNumber(r.value)
  {
    if key in m && m[key].JNumber? then Some(m[key].n) else None
  }

  /** The subscription figures read off a JSON value. */
  function SubscriptionOf(v: Json): (r: Option<Subscription>)
    ensures r.Some? ==> v.JObject?
  {
    if !v.JObject? then None
    else
      var retail, nii, qib := StringField(v.fields, "retail"), StringField(v.fields, "nii"), StringField(v.fields, "qib");
      if retail.Some? && nii.Some? && qib.Some? then Some(Subscription(retail.value, nii.value, qib.value)) else None
  }

  /** A JSON value read as a listing when it has the shape the `IPOData`
      interface declares: every required field present with its type, every
      optional field absent or a string. */
  function FromJson(v: Json): (r: Option<IPOData>)
    ensures r.Some? ==> v.JObject?
  {
    if !v.JObject? then None
    else
      var m := v.fields;
      var id, name, band := StringField(m, "id"), StringField(m, "companyName"), StringField(m, "priceBand");
      var size, open, close := StringField(m, "issueSize"), StringField(m, "openDate"), StringField(m, "closeDate");
      var listing, gmp, expected := StringField(m, "listingDate"), StringField(m, "gmp"), StringField(m, "expectedGain");
      var typeName, statusName := StringField(m, "type"), StringField(m, "status");
      var t := if typeName.Some? then TypeOf(typeName.value) else None;
      var st := if statusName.Some? then StatusOf(statusName.value) else None;
      var lot := NumberField(m, "lotSize");
      var sub := if "subscription" in m then SubscriptionOf(m["subscription"]) else None;
      var gain, price := OptionalField(m, "listingGain"), OptionalField(m, "listingPrice");
      var registrar, lead := OptionalField(m, "registrar"), OptionalField(m, "leadManager");
      if id.Some? && name.Some? && band.Some? && size.Some? && open.Some? && close.Some?
         && listing.Some? && gmp.Some? && expected.Some? && t.Some? && st.Some? && lot.Some? && sub.Some?
         && gain.Some? && price.Some? && registrar.Some? && lead.Some? then
        Some(IPOData(id.value, name.value, t.value, st.value, band.value, lot.value,
                     size.value, open.value, close.value, listing.value, sub.value,
                     gmp.value, expected.value, gain.value, price.value, registrar.value, lead.value))
      else None
  }

  /** The naming fields of a listing's JSON. */
  lemma NameFields(r: IPOData)
    ensures StringField(Fields(r), "id") == Some(r.id)
    ensures StringField(Fields(r), "companyName") == Some(r.companyName)
  {
  }

  /** The type and status fields of a listing's JSON, which the dashboard
      filters on. */
  lemma KindFields(r: IPOData)
    ensures StringField(Fields(r), "type") == Some(TypeName(r.ipoType))
    ensures StringField(Fields(r), "status") == Some(StatusName(r.status))
  {
  }

  /** The offer fields of a listing's JSON. */
  lemma OfferFields(r: IPOData)
    ensures StringField(Fields(r), "priceBand") == Some(r.priceBand)
    ensures NumberField(Fields(r), "lotSize") == Some(r.lotSize)
  {
  }

  /** The size and demand fields of a listing's JSON. */
  lemma DemandFields(r: IPOData)
    ensures StringField(Fields(r), "issueSize") == Some(r.issueSize)
    ensures "subscription" in Fields(r) && Fields(r)["subscription"] == SubscriptionJson(r.subscription)
  {
  }

  /** The date fields of a listing's JSON. */
  lemma DateFields(r: IPOData)
    ensures StringField(Fields(r), "openDate") == Some(r.openDate)
    ensures StringField(Fields(r), "closeDate") == Some(r.closeDate)
    ensures StringField(Fields(r), "listingDate") == Some(r.listingDate)
  {
  }

  /** The market fields of a listing's JSON. */
  lemma MarketFields(r: IPOData)
    ensures StringField(Fields(r), "gmp") == Some(r.gmp)
    ensures StringField(Fields(r), "expectedGain") == Some(r.expectedGain)
  {
  }

  /** The optional fields of a listing's JSON: present exactly when set. */
  lemma OptionalFields(r: IPOData)
    ensures OptionalField(Fields(r), "listingGain") == Some(r.listingGain)
    ensures OptionalField(Fields(r), "listingPrice") == Some(r.listingPrice)
    ensures OptionalField(Fields(r), "registrar") == Some(r.registrar)
    ensures OptionalField(Fields(r), "leadManager") == Some(r.leadManager)
  {
  }

  /** A listing turned into JSON reads back as the same listing. */
  lemma FromToJson(r: IPOData)
    ensures FromJson(ToJson(r)) == Some(r)
  {
    NameFields(r);
    KindFields(r);
    OfferFields(r);
    DemandFields(r);
    DateFields(r);
    MarketFields(r);
    OptionalFields(r);
    TypeNames(r.ipoType, r.ipoType);
    StatusNames(r.status, r.status);
    assert SubscriptionOf(SubscriptionJson(r.subscription)) == Some(r.subscription);
  }
}
