/** The rule-based scam scorer: a static, ordered table of weighted pattern
    categories, and `analyzeText`, which walks the table over normalised text,
    sums the weights of the patterns that match, scales the sum to 0..100 and
    picks a status tier and a recommendation from the score. */
module ScamDetector {
  import opened JsString

  /** One entry of a category: a case-insensitive regular expression, kept as
      its source text, and the red flag it stands for. */
  datatype Pattern = Pattern(source: string, flag: string)

  /** A themed group of patterns; every pattern of a category that matches adds
      the category's weight to the raw score. */
  datatype Category = Category(name: string, weight: nat, patterns: seq<Pattern>)

  /** One matched pattern as reported to the caller: `{ category, label }`; the field is called `flag` because `label` is a Dafny keyword. */
  datatype Reason = Reason(category: string, flag: string)

  /** `pattern.test(text)`: the regular-expression engine, which this model
      leaves abstract. */
  type Matcher = (Pattern, string) -> bool

  /** The argument of `analyzeText` as JavaScript may pass it: absent
      (`undefined`, `null`), some value that is not a string, or a string. */
  datatype Input = Missing | NonString | Str(s: string)

  /** The three keys of `STATUS_THRESHOLDS`. */
  datatype Tier = High | Medium | Low

  /** An entry of `STATUS_THRESHOLDS`: its lower bound, its label and its colour. */
  datatype Threshold = Threshold(min: int, title: string, color: string)

  datatype AnalysisResult = AnalysisResult(
    score: int,
    status: string,
    statusColor: string,
    reasons: seq<Reason>,
    recommendation: string)

  // ── The rule table (SCAM_PATTERNS) ─────────────────────────────────────

  const URGENCY := Category("Urgency & Pressure", 8, [
    Pattern("act\\s*now", "\"Act now\" pressure tactic"),
    Pattern("limited\\s*time", "\"Limited time\" urgency"),
    Pattern("hurry", "\"Hurry\" pressure language"),
    Pattern("don'?t\\s*miss\\s*out", "Fear of missing out (FOMO)"),
    Pattern("expires?\\s*(soon|today|tonight|tomorrow)", "Artificial deadline"),
    Pattern("last\\s*chance", "\"Last chance\" pressure"),
    Pattern("only\\s*\\d+\\s*(left|remaining|spots?|seats?)", "Artificial scarcity"),
    Pattern("respond\\s*(immediately|urgently|asap)", "Urgent response demand"),
    Pattern("within\\s*\\d+\\s*(hours?|minutes?)", "Time-limited pressure"),
    Pattern("before\\s*it'?s?\\s*too\\s*late", "\"Before it's too late\" fear tactic")
  ])

  const GUARANTEED_RETURNS := Category("Guaranteed Returns", 10, [
    Pattern("guarantee[ds]?\\s*(return|profit|income|earning)", "Guaranteed returns claim"),
    Pattern("100%\\s*(safe|secure|guaranteed|profit)", "100% safety/profit claim"),
    Pattern("no\\s*risk", "\"No risk\" claim"),
    Pattern("risk[- ]?free", "\"Risk-free\" claim"),
    Pattern("double\\s*your\\s*(money|investment)", "\"Double your money\" promise"),
    Pattern("(\\d{2,})[x\U{00D7}]\\s*return", "Unrealistic multiplier return"),
    Pattern("get\\s*rich\\s*(quick|fast)", "\"Get rich quick\" language"),
    Pattern("passive\\s*income\\s*(guaranteed|every)", "Guaranteed passive income"),
    Pattern("zero\\s*(risk|loss)", "\"Zero risk/loss\" claim"),
    Pattern("never\\s*lose", "\"Never lose\" promise")
  ])

  const TOO_GOOD := Category("Too Good To Be True", 9, [
    Pattern("make\\s*\\$?\\d[\\d,]*\\s*(a\\s*day|daily|per\\s*day|weekly)", "Unrealistic daily/weekly income claim"),
    Pattern("earn\\s*\\$?\\d[\\d,]*\\s*(a\\s*day|daily|per\\s*day|weekly)", "Unrealistic earning claim"),
    Pattern("secret\\s*(method|system|formula|strategy|technique)", "\"Secret method\" claim"),
    Pattern("exclusive\\s*(opportunity|offer|access|deal)", "\"Exclusive opportunity\" bait"),
    Pattern("millionaire", "Millionaire promise"),
    Pattern("life[- ]?changing\\s*(opportunity|money|wealth)", "\"Life-changing\" wealth promise"),
    Pattern("financial\\s*freedom", "\"Financial freedom\" lure"),
    Pattern("quit\\s*your\\s*job", "\"Quit your job\" promise"),
    Pattern("free\\s*money", "\"Free money\" claim")
  ])

  const PHISHING := Category("Phishing & Identity Theft", 10, [
    Pattern("verify\\s*your\\s*(account|identity|information)", "Account verification request"),
    Pattern("update\\s*your\\s*(payment|billing|bank|card)", "Payment info update request"),
    Pattern("confirm\\s*your\\s*(ssn|social\\s*security|password|pin)", "Sensitive data request"),
    Pattern("click\\s*(here|this\\s*link|below)\\s*(to|for|immediately)", "Suspicious link click request"),
    Pattern("your\\s*account\\s*(has\\s*been|will\\s*be)\\s*(suspended|locked|closed|disabled)", "Account suspension threat"),
    Pattern("unauthorized\\s*(access|activity|transaction)", "Fake unauthorized activity alert"),
    Pattern("login\\s*(attempt|detected)", "Fake login alert"),
    Pattern("unusual\\s*(activity|sign[- ]?in)", "Fake unusual activity alert")
  ])

  const PAYMENT := Category("Payment Red Flags", 9, [
    Pattern("wire\\s*transfer", "Wire transfer request"),
    Pattern("gift\\s*card", "Gift card payment request"),
    Pattern("cryptocurrency\\s*(only|payment|deposit)", "Crypto-only payment demand"),
    Pattern("bitcoin\\s*(only|payment|send|deposit)", "Bitcoin payment demand"),
    Pattern("western\\s*union", "Western Union payment"),
    Pattern("moneygram", "MoneyGram payment"),
    Pattern("pay\\s*(upfront|in\\s*advance|before)", "Upfront payment demand"),
    Pattern("processing\\s*fee", "Suspicious processing fee"),
    Pattern("send\\s*\\$?\\d[\\d,]*\\s*(to|now|today)", "Direct money send request"),
    Pattern("cash\\s*app|venmo|zelle", "P2P payment request (harder to reverse)")
  ])

  const IMPERSONATION := Category("Impersonation & Authority", 7, [
    Pattern("irs|internal\\s*revenue", "IRS impersonation"),
    Pattern("fbi|federal\\s*bureau", "FBI impersonation"),
    Pattern("social\\s*security\\s*(administration|office)", "SSA impersonation"),
    Pattern("microsoft\\s*(support|security|team)", "Microsoft support scam"),
    Pattern("apple\\s*(support|security|id)", "Apple support scam"),
    Pattern("amazon\\s*(support|security|prime)", "Amazon impersonation"),
    Pattern("your\\s*(computer|device)\\s*(has|is)\\s*(infected|compromised|hacked)", "Fake device infection alert"),
    Pattern("technical\\s*support", "Tech support scam indicator"),
    Pattern("prince|royalty|inheritance", "Classic inheritance/royalty scam")
  ])

  const POOR_GRAMMAR := Category("Poor Grammar & Formatting", 4, [
    Pattern("dear\\s*(sir|madam|friend|customer|user|member|valued)", "Generic greeting (mass-sent indicator)"),
    Pattern("congratulations?\\s*!?\\s*(you|your)", "\"Congratulations\" unsolicited message"),
    Pattern("you\\s*(have\\s*been|are)\\s*(selected|chosen|picked)\\s*(as\\s*a)?", "\"You have been selected\" scam opener"),
    Pattern("kindly\\s*(send|provide|share|click|transfer|reply)", "\"Kindly\" \U{2014} common in scam scripts"),
    Pattern("million\\s*(dollars?|usd|pounds?|euros?)", "Large currency amount mentioned"),
    Pattern("beneficiary", "\"Beneficiary\" \U{2014} common advance-fee scam term")
  ])

  /** The categories in declaration order; reasons follow this order. */
  const SCAM_PATTERNS: seq<Category> :=
    [URGENCY, GUARANTEED_RETURNS, TOO_GOOD, PHISHING, PAYMENT, IMPERSONATION, POOR_GRAMMAR]

  // ── Thresholds, calibration and advice ─────────────────────────────────

  const HIGH := Threshold(60, "\U{1F6A8} High Risk \U{2014} Likely a Scam", "red")
  const MEDIUM := Threshold(30, "\U{26A0}\U{FE0F} Medium Risk \U{2014} Suspicious Content", "yellow")
  const LOW := Threshold(0, "\U{2705} Low Risk \U{2014} Appears Legitimate", "green")

  /** `STATUS_THRESHOLDS[tier]`. The high and medium lower bounds are
      exactly where their tiers begin; the low bound, 0, lies in its tier. */
  function StatusThreshold(tier: Tier): (r: Threshold)
    ensures StatusTier(r.min) == tier
    ensures tier != Low ==> StatusTier(r.min - 1) != tier
  {
    match tier
    case High => HIGH
    case Medium => MEDIUM
    case Low => LOW
  }

  /** The raw score that maps to 100; a calibration constant. */
  const MAX_RAW: nat := 60

  const NO_TEXT_ADVICE := "No text was provided for analysis."
  const HIGH_ADVICE := "This content contains multiple strong scam indicators. Do NOT share personal information, click any links, or send money. Report this to the appropriate authorities."
  const MEDIUM_ADVICE := "This content shows some suspicious characteristics. Proceed with extreme caution. Verify the sender through official channels before taking any action."
  const LOW_ADVICE := "This content appears relatively safe, but always stay vigilant. If something feels off, trust your instincts and verify independently."

  /** The canonical zero-risk answer of the guard. */
  const NO_TEXT_RESULT := AnalysisResult(0, LOW.title, LOW.color, [], NO_TEXT_ADVICE)

  // ── Specification of analyzeText ───────────────────────────────────────

  /** The guard: `!text || typeof text !== 'string' || text.trim().length === 0`.
      It fires exactly for a missing value, a non-string, or a string made of
      whitespace alone. */
  predicate NoText(text: Input): (b: bool)
    ensures b <==> text.Missing? || text.NonString? || AllSpace(text.s)
  {
    !text.Str? || Trim(text.s) == []
  }

  /** The reasons the inner loop has collected after the first `n` patterns of `c`. */
  function CategoryReasons(c: Category, n: nat, test: Matcher, text: string): seq<Reason>
    requires n <= |c.patterns|
  {
    if n == 0 then []
    else
      CategoryReasons(c, n - 1, test, text)
      + (if test(c.patterns[n - 1], text) then [Reason(c.name, c.patterns[n - 1].flag)] else [])
  }

  /** The weight the inner loop has added after the first `n` patterns of `c`. */
  function CategoryRaw(c: Category, n: nat, test: Matcher, text: string): nat
    requires n <= |c.patterns|
  {
    if n == 0 then 0
    else CategoryRaw(c, n - 1, test, text) + (if test(c.patterns[n - 1], text) then c.weight else 0)
  }

  /** The reasons collected after the first `n` categories. */
  function TableReasons(rules: seq<Category>, n: nat, test: Matcher, text: string): seq<Reason>
    requires n <= |rules|
  {
    if n == 0 then []
    else TableReasons(rules, n - 1, test, text) + CategoryReasons(rules[n - 1], |rules[n - 1].patterns|, test, text)
  }

  /** The raw score after the first `n` categories. */
  function TableRaw(rules: seq<Category>, n: nat, test: Matcher, text: string): nat
    requires n <= |rules|
  {
    if n == 0 then 0
    else TableRaw(rules, n - 1, test, text) + CategoryRaw(rules[n - 1], |rules[n - 1].patterns|, test, text)
  }

  /** `Math.min(100, Math.round((rawScore / MAX_RAW) * 100))`. Since 100 * raw / 60
      is a multiple of 1/3, its fractional part is never one half and never
      close enough to it for floating-point error to change the rounding, so
      the integer form `(5 * raw + 1) / 3` is exact. */
  function Scale(raw: nat): (score: nat)
    ensures score <= 100
    ensures score < 100 ==> MAX_RAW * (2 * score - 1) <= 200 * raw < MAX_RAW * (2 * score + 1)
    ensures score == 100 <==> raw >= MAX_RAW
  {
    var rounded := (5 * raw + 1) / 3;
    if rounded < 100 then rounded else 100
  }

  /** The status tier of a score: the first threshold, from the top, whose
      lower bound the score reaches. */
  function StatusTier(score: int): (t: Tier)
    ensures t == High <==> score >= 60
    ensures t == Medium <==> 30 <= score < 60
    ensures t == Low <==> score < 30
  {
    if score >= HIGH.min then High else if score >= MEDIUM.min then Medium else Low
  }

  /** The advice that belongs to each tier. */
  function Advice(tier: Tier): string {
    match tier
    case High => HIGH_ADVICE
    case Medium => MEDIUM_ADVICE
    case Low => LOW_ADVICE
  }

  /** The recommendation, chosen from the score by its own thresholds, which
      agree with the status tiers. */
  function Recommendation(score: int): (r: string)
    ensures r == Advice(StatusTier(score))
  {
    if score >= 60 then HIGH_ADVICE else if score >= 30 then MEDIUM_ADVICE else LOW_ADVICE
  }

  /** The result for a raw score and its reasons. */
  function Verdict(raw: nat, reasons: seq<Reason>): AnalysisResult {
    var score := Scale(raw);
    var status := StatusThreshold(StatusTier(score));
    AnalysisResult(score, status.title, status.color, reasons, Recommendation(score))
  }

  /** What `analyzeText(text)` returns over the rule table `rules`. */
  function Analysis(rules: seq<Category>, text: Input, test: Matcher): AnalysisResult {
    if NoText(text) then NO_TEXT_RESULT
    else
      var normalized := Normalize(text.s);
      Verdict(TableRaw(rules, |rules|, test, normalized), TableReasons(rules, |rules|, test, normalized))
  }

  // ── analyzeText ────────────────────────────────────────────────────────

  /** The match loop of `analyzeText`: for every category in table order and
      every pattern of it in declaration order, a pattern that matches adds the
      category's weight to the raw score and appends its reason. */
  method MatchRules(rules: seq<Category>, normalizedText: string, test: Matcher)
    returns (rawScore: nat, matchedReasons: seq<Reason>)
    ensures rawScore == TableRaw(rules, |rules|, test, normalizedText)
    ensures matchedReasons == TableReasons(rules, |rules|, test, normalizedText)
  {
    matchedReasons := [];
    rawScore := 0;
    var i := 0;
    while i < |rules|
      invariant 0 <= i <= |rules|
      invariant matchedReasons == TableReasons(rules, i, test, normalizedText)
      invariant rawScore == TableRaw(rules, i, test, normalizedText)
    {
      var category := rules[i];
      var j := 0;
      while j < |category.patterns|
        invariant 0 <= j <= |category.patterns|
        invariant matchedReasons
          == TableReasons(rules, i, test, normalizedText) + CategoryReasons(category, j, test, normalizedText)
        invariant rawScore
          == TableRaw(rules, i, test, normalizedText) + CategoryRaw(category, j, test, normalizedText)
      {
        var pattern := category.patterns[j];
        if test(pattern, normalizedText) {
          rawScore := rawScore + category.weight;
          matchedReasons := matchedReasons + [Reason(category.name, pattern.flag)];
        }
        j := j + 1;
      }
      i := i + 1;
    }
  }

  /** `analyzeText(text)`: the scorer over the module's rule table. */
  method AnalyzeText(text: Input, test: Matcher) returns (result: AnalysisResult)
    ensures result == Analysis(SCAM_PATTERNS, text, test)
  {
    result := AnalyzeWith(SCAM_PATTERNS, text, test);
  }

  /** The body of `analyzeText`, with the rule table it walks as a parameter. */
  method AnalyzeWith(rules: seq<Category>, text: Input, test: Matcher) returns (result: AnalysisResult)
    ensures result == Analysis(rules, text, test)
  {
    if NoText(text) {
      return NO_TEXT_RESULT;
    }

    var normalizedText := Normalize(text.s);
    var rawScore, matchedReasons := MatchRules(rules, normalizedText, test);

    var score := Scale(rawScore);

    var status, statusColor;
    if score >= HIGH.min {
      status, statusColor := HIGH.title, HIGH.color;
    } else if score >= MEDIUM.min {
      status, statusColor := MEDIUM.title, MEDIUM.color;
    } else {
      status, statusColor := LOW.title, LOW.color;
    }

    var recommendation;
    if score >= 60 {
      recommendation := HIGH_ADVICE;
    } else if score >= 30 {
      recommendation := MEDIUM_ADVICE;
    } else {
      recommendation := LOW_ADVICE;
    }

    result := AnalysisResult(score, status, statusColor, matchedReasons, recommendation);
  }
}
