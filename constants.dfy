/**
 * The static content of the academy: the glossary, the history and learning
 * sections, the quiz and the loading tips, with the shape facts the glossary
 * search and the quiz rely on.
 */
module Constants {
  import opened Types

  /** The glossary, term by term. */
  const GlossaryData: seq<GlossaryItem> := [
    GlossaryItem("ASBA",
      "Applications Supported by Blocked "
      + "Amount. A process where the application "
      + "money remains in your bank account but "
      + "is 'blocked' or frozen until shares are "
      + "allotted to you. It prevents money from "
      + "leaving your account unless you get the "
      + "shares."),
    GlossaryItem("DRHP",
      "Draft Red Herring Prospectus. A "
      + "preliminary registration document filed "
      + "by the company with SEBI. It acts as a "
      + "bio/blueprint containing financial data, "
      + "future plans, risks, and business "
      + "operations."),
    GlossaryItem("GMP",
      "Grey Market Premium. The extra amount "
      + "(premium) over the issue price that "
      + "investors are willing to pay for IPO "
      + "shares in the unofficial 'Grey Market' "
      + "before listing. It indicates market "
      + "sentiment."),
    GlossaryItem("Lot Size",
      "The minimum number of shares an investor "
      + "must apply for in an IPO. You cannot buy "
      + "1 share; you must bid for at least 1 lot "
      + "(e.g., 1 lot = 50 shares)."),
    GlossaryItem("Cut-off Price",
      "The price within the price band at which "
      + "the company decides to issue shares to "
      + "investors. Retail investors usually bid "
      + "at this price to maximize their chances "
      + "of allotment."),
    GlossaryItem("Price Band",
      "The price range (Lower Limit to Upper "
      + "Limit) set by the company within which "
      + "investors can bid for shares. For "
      + "example, ₹100 - ₹120."),
    GlossaryItem("RHP",
      "Red Herring Prospectus. The final "
      + "version of the prospectus filed with the "
      + "Registrar of Companies (ROC) containing "
      + "the final issue dates and price band "
      + "information."),
    GlossaryItem("Listing Gains",
      "The profit made by an investor if the "
      + "stock lists on the exchange at a price "
      + "higher than the issue price. E.g., "
      + "Issued at ₹100, Listed at ₹150 = 50% "
      + "Listing Gain."),
    GlossaryItem("Oversubscription",
      "When the total number of shares applied "
      + "for by investors is greater than the "
      + "total number of shares available in the "
      + "IPO. This leads to a lottery-based "
      + "allotment for retail investors."),
    GlossaryItem("Face Value",
      "The nominal value of the share as "
      + "entered in the company's books. It is "
      + "distinct from the market value and is "
      + "used to calculate dividends."),
    GlossaryItem("Anchor Investor",
      "Institutional investors (like mutual "
      + "funds) who are invited to subscribe to "
      + "shares a day before the IPO opens to the "
      + "public, helping to build market "
      + "confidence."),
    GlossaryItem("Upper Circuit",
      "The maximum percentage limit (usually "
      + "5%, 10%, or 20%) by which a stock price "
      + "can rise in a single trading day before "
      + "trading is halted.")]

  /** The academy content: history timeline, market evolution and learning sections. */
  const AcademyData: StaticAcademyData := StaticAcademyData(
    [
      TimelineEntry("1875", "Birth of BSE",
        "The Native Share & Stock Brokers "
      + "Association (now BSE) was established "
      + "under a Banyan tree."),
      TimelineEntry("1991", "Liberalization",
        "India opened its economy, leading to a "
      + "massive influx of foreign investment and "
      + "modernizing markets."),
      TimelineEntry("1992", "SEBI & Reforms",
        "SEBI became a statutory body. The "
      + "Harshad Mehta scam triggered strict "
      + "regulations to protect investors."),
      TimelineEntry("1994", "NSE Launch",
        "National Stock Exchange launched, "
      + "introducing electronic screen-based "
      + "trading to India.")],
    [
      EvolutionStage("The Paper Era",
        "Physical share certificates, manual "
      + "transfer deeds, and risk of theft or "
      + "damage."),
      EvolutionStage("The Demat Era",
        "Introduction of NSDL/CDSL. Shares became "
      + "electronic entries."),
      EvolutionStage("Settlement Cycles",
        "Moved from T+5 to T+2, then T+1, and now "
      + "T+0 (Instant Settlement) in 2026.")],
    [
      LearningSection("trading-basics", "Trading Basics",
        "Understand the fundamental structure of "
      + "the stock market and how trading works.",
        [
          LearningTopic("Market Structure",
            "The Primary Market is for new securities "
      + "(IPOs), while the Secondary Market "
      + "(NSE/BSE) is where existing shares are "
      + "traded.",
            "Globe"),
          LearningTopic("Bull vs Bear",
            "A \"Bull Market\" signifies rising prices "
      + "and optimism, while a \"Bear Market\" "
      + "indicates falling prices (>20%) and "
      + "pessimism.",
            "TrendingUp"),
          LearningTopic("Financial Instruments",
            "Key instruments include Equity "
      + "(Ownership), Derivatives (F&O for "
      + "hedging), and Bonds (Debt securities).",
            "PieChart")]),
      LearningSection("investment-strategies", "Investment Strategies",
        "Explore different approaches to growing "
      + "wealth in the financial markets.",
        [
          LearningTopic("Long-term Investing",
            "Buying and holding quality stocks for "
      + "years to build wealth through the power "
      + "of compounding.",
            "BookOpen"),
          LearningTopic("Swing Trading",
            "Holding stocks for a few days or weeks "
      + "to capture gains from expected upward "
      + "price shifts.",
            "Activity"),
          LearningTopic("Mutual Funds",
            "Pooled money managed by professionals. "
      + "SIPs (Systematic Investment Plans) are "
      + "popular for disciplined investing.",
            "Layers")]),
      LearningSection("market-analysis", "Market Analysis",
        "Tools and metrics to evaluate the health "
      + "and potential of stocks.",
        [
          LearningTopic("Valuation Metrics",
            "P/E Ratio (Price-to-Earnings) and EPS "
      + "(Earnings Per Share) help determine if a "
      + "stock is overvalued or undervalued.",
            "BarChart"),
          LearningTopic("Key Indices",
            "NIFTY 50 tracks the top 50 companies on "
      + "NSE, while SENSEX tracks the top 30 on "
      + "BSE. They reflect overall market health.",
            "TrendingUp"),
          LearningTopic("Red Flags",
            "Watch out for declining revenue, high "
      + "debt-to-equity ratios, or promoter "
      + "pledging, which signal financial "
      + "distress.",
            "AlertTriangle")]),
      LearningSection("ipo-lifecycle", "IPO Lifecycle",
        "The complete journey of a company going "
      + "public, from DRHP to Listing.",
        [
          LearningTopic("What is an IPO?",
            "An Initial Public Offering transforms a "
      + "Private Limited company into a Public "
      + "Limited entity to raise capital.",
            "BookOpen"),
          LearningTopic("The Process",
            "It starts with filing a DRHP with SEBI, "
      + "followed by roadshows, price band "
      + "fixing, public bidding, and finally "
      + "listing.",
            "Activity"),
          LearningTopic("Listing Day",
            "Shares debut on the exchange. \"Listing "
      + "Gains\" refer to the profit made if the "
      + "opening price is higher than the issue "
      + "price.",
            "Zap")])])

  /** The quiz, question by question. */
  const QuizQuestions: seq<QuizQuestion> := [
    QuizQuestion(1, "What does 'GMP' stand for in the IPO "
      + "market?",
      ["General Market Price", "Grey Market Premium", "Gross Margin Percentage", "Global Market Position"],
      1,
      "Grey Market Premium (GMP) is the "
      + "unofficial premium at which IPO shares "
      + "are traded before they list on the stock "
      + "exchange.",
      Basic),
    QuizQuestion(2, "Who is a 'QIB' in an IPO subscription?",
      ["Quick Investment Banker", "Qualified Institutional Buyer", "Quality Index Broker", "Quota Individual Buyer"],
      1,
      "QIBs are institutional investors like "
      + "mutual funds and banks who generally "
      + "invest large amounts.",
      Basic),
    QuizQuestion(3, "Which regulatory body approves IPOs in "
      + "India?",
      ["RBI", "NSE", "SEBI", "BSE"],
      2,
      "The Securities and Exchange Board of "
      + "India (SEBI) is the regulator that "
      + "approves IPO Draft Red Herring "
      + "Prospectus (DRHP).",
      Intermediate),
    QuizQuestion(4, "What is the 'Lot Size'?",
      ["Total shares issued", "Minimum number of shares to bid", "Market capitalization", "Price of one share"],
      1,
      "Investors cannot buy single shares in an "
      + "IPO; they must bid for a minimum fixed "
      + "number of shares known as a 'Lot'.",
      Intermediate),
    QuizQuestion(5, "If an IPO is oversubscribed 100x, what "
      + "happens?",
      ["Everyone gets shares", "Lottery system is used", "Price increases", "IPO is cancelled"],
      1,
      "For Retail investors, allotment is done "
      + "via a computerized lottery system when "
      + "demand exceeds supply.",
      Intermediate),
    QuizQuestion(6, "What is an ASBA application?",
      ["Account Supported by Blocked Amount", "All Share Buyback Agreement", "Automated Stock Buying Agent", "Application for Secondary Bond "
      + "Allocation"],
      0,
      "ASBA ensures money leaves your bank "
      + "account only if you get the allotment.",
      Expert),
    QuizQuestion(7, "Which ratio helps determine if an IPO is "
      + "expensive?",
      ["Debt-to-Equity", "P/E Ratio", "Current Ratio", "ROE"],
      1,
      "The Price-to-Earnings (P/E) ratio "
      + "compares the share price to the "
      + "company's earnings per share.",
      Basic),
    QuizQuestion(8, "What is a 'Red Herring Prospectus'?",
      ["A warning letter", "A preliminary registration document", "A rejection letter", "A marketing brochure"],
      1,
      "The DRHP or RHP contains details about "
      + "the company's business, finances, and "
      + "risks, filed with SEBI.",
      Expert),
    QuizQuestion(9, "What is the 'Anchor Investor' portion?",
      ["Investors who buy after listing", "Institutional investors who invest "
      + "before the IPO opens", "Founders of the company", "Retail investors"],
      1,
      "Anchor investors are QIBs who invest a "
      + "day before the IPO opens to generate "
      + "confidence in the issue.",
      Expert),
    QuizQuestion(10, "What does listing at a 'Discount' mean?",
      ["Listing price < Issue price", "Listing price > Issue price", "Listing price = Issue price", "Shares are free"],
      0,
      "Listing at a discount means the market "
      + "price on opening day is lower than what "
      + "investors paid during the IPO.",
      Basic)]

  /** The tips shown while data loads. */
  const LoadingTips: seq<string> := [
    "Tip: Always read the RHP (Red Herring "
      + "Prospectus) 'Risk Factors' section "
      + "before investing.",
    "Did you know? The first ever IPO was by "
      + "the Dutch East India Company in 1602.",
    "Tip: Don't just follow the GMP; it can "
      + "be manipulated. Look at fundamentals.",
    "Fact: SEBI was given statutory powers on "
      + "January 30, 1992.",
    "Tip: For long-term listing gains, check "
      + "the QIB subscription figures on Day 3.",
    "Tip: Never borrow money to invest in an "
      + "IPO."]

  /** A number that tells the glossary terms apart: length and first letter. */
  function TermKey(term: string): int {
    if term == [] then 0 else |term| * 0x1_0000 + term[0] as int
  }

  /** There are twelve glossary entries and no term appears twice. */
  lemma GlossaryTermsDistinct()
    ensures |GlossaryData| == 12
    ensures forall i, j :: 0 <= i < j < |GlossaryData| ==> GlossaryData[i].term != GlossaryData[j].term
  {
    var keys := [0x4_0041, 0x4_0044, 0x3_0047, 0x8_004C, 0xD_0043, 0xA_0050,
                 0x3_0052, 0xD_004C, 0x10_004F, 0xA_0046, 0xF_0041, 0xD_0055];
    assert forall i | 0 <= i < |GlossaryData| :: TermKey(GlossaryData[i].term) == keys[i];
    assert forall i, j | 0 <= i < j < |keys| :: keys[i] != keys[j];
  }

  /** There are ten questions, numbered 1 to 10 in order, each with four
      options and a correct answer that indexes one of them. */
  lemma QuizWellFormed()
    ensures |QuizQuestions| == 10
    ensures forall i | 0 <= i < |QuizQuestions| ::
      QuizQuestions[i].id == i + 1
      && |QuizQuestions[i].options| == 4
      && 0 <= QuizQuestions[i].correctAnswer < |QuizQuestions[i].options|
  {
  }

  /** The loading screen always has a tip to show: there are six. */
  lemma LoadingTipsCount()
    ensures |LoadingTips| == 6
  {
  }

  /** Four learning sections with distinct ids, three topics each; four
      timeline entries and three market-evolution stages. */
  lemma AcademyWellFormed()
    ensures |AcademyData.timeline| == 4 && |AcademyData.marketEvolution| == 3
    ensures |AcademyData.learningSections| == 4
    ensures forall i | 0 <= i < |AcademyData.learningSections| :: |AcademyData.learningSections[i].topics| == 3
    ensures forall i, j :: 0 <= i < j < |AcademyData.learningSections| ==>
      AcademyData.learningSections[i].id != AcademyData.learningSections[j].id
  {
    var sections := AcademyData.learningSections;
    var lengths := [14, 21, 15, 13];
    assert forall i | 0 <= i < |sections| :: |sections[i].id| == lengths[i];
  }
}
