/**
 * The rule-based attack classifier (`AttackDetector` in attack_detection.py).
 *
 * A feature vector is scored by nine independent threshold checks and then
 * labelled by the first of eleven ordered rules that matches, falling back
 * to "Normal". The specification is table-driven: `CHECKS` and `RULES` are
 * the ordered tables, `Classify` reads them, and `DetectAttack` is the
 * procedure of the source, which walks the same tables with two loops and
 * is proved equal to `Classify`.
 */
module AttackDetection {
  import opened Common

  /** The twelve categories, in the order of `ATTACK_TYPES`. */
  const ATTACK_TYPES: seq<string> := [
    "Normal", "Malware", "Phishing", "DoS", "DDoS", "Man-in-the-Middle",
    "SQL Injection", "Cross-Site Scripting", "Social Engineering",
    "Zero-Day Exploit", "Insider Threat", "Spoofing / Password Attack"
  ]

  /** `ATTACK_THRESHOLDS`: one constant per feature the checks compare. */
  const RATE_THRESHOLD := 5000.0
  const SYNACK_THRESHOLD := 200.0
  const TCPRTT_THRESHOLD := 1500.0
  const DINPKT_THRESHOLD := 800.0
  const SBYTES_THRESHOLD := 90000.0
  const DBYTES_THRESHOLD := 1000.0
  const DMEAN_THRESHOLD := 0.7
  const SMEAN_THRESHOLD := 0.3
  const ACKDAT_THRESHOLD := 500.0

  /** `SEVERITY_LEVELS`: each level with the attack types it covers, in dictionary order. */
  const SEVERITY_LEVELS: seq<(string, seq<string>)> := [
    ("Critical", ["DDoS", "Zero-Day Exploit"]),
    ("High", ["DoS", "Malware", "Phishing", "Man-in-the-Middle", "Insider Threat", "Spoofing / Password Attack"]),
    ("Medium", ["SQL Injection", "Cross-Site Scripting", "Social Engineering"]),
    ("Low", ["Normal"])
  ]

  const NORMAL := "Normal"
  const NORMAL_CONFIDENCE := 0.98
  const CANNED_INDICATORS: seq<string> := ["Normal traffic pattern", "No malicious indicators detected"]

  /** The nine fields the detector reads. */
  datatype Features = Features(
    sbytes: real, dbytes: real, rate: real, dinpkt: real, tcprtt: real,
    synack: real, ackdat: real, smean: real, dmean: real)

  /** The tuple `(attack_type, confidence, severity, risk_score, indicators)`. */
  datatype Verdict = Verdict(
    attackType: string, confidence: real, severity: string,
    riskScore: int, indicators: seq<string>)

  /** `params.get(key, 0)` for each field. */
  function FeaturesOf(params: map<string, real>): Features {
    Features(Field(params, "sbytes"), Field(params, "dbytes"), Field(params, "rate"),
             Field(params, "dinpkt"), Field(params, "tcprtt"), Field(params, "synack"),
             Field(params, "ackdat"), Field(params, "smean"), Field(params, "dmean"))
  }

  /** Every field is read from the key of its own name, and is 0 when that key is missing. */
  lemma FeaturesOfKeys(params: map<string, real>)
    ensures var f := FeaturesOf(params);
      && f.sbytes == (if "sbytes" in params then params["sbytes"] else 0.0)
      && f.dbytes == (if "dbytes" in params then params["dbytes"] else 0.0)
      && f.rate == (if "rate" in params then params["rate"] else 0.0)
      && f.dinpkt == (if "dinpkt" in params then params["dinpkt"] else 0.0)
      && f.tcprtt == (if "tcprtt" in params then params["tcprtt"] else 0.0)
      && f.synack == (if "synack" in params then params["synack"] else 0.0)
      && f.ackdat == (if "ackdat" in params then params["ackdat"] else 0.0)
      && f.smean == (if "smean" in params then params["smean"] else 0.0)
      && f.dmean == (if "dmean" in params then params["dmean"] else 0.0)
  {
  }

  /** `params.get(k, 0)`: the stored value, or 0 for a missing key. */
  function Field(params: map<string, real>, k: string): real {
    if k in params then params[k] else 0.0
  }

  // ---------------------------------------------------------------------
  // Risk score: nine independent threshold checks
  // ---------------------------------------------------------------------

  datatype Check =
    | RateCheck | SynAckCheck | TcpRttCheck | DinPktCheck | SBytesCheck
    | MinimalResponseCheck | DMeanCheck | SourceEntropyCheck | AckDatCheck
  {
    predicate Fires(f: Features) {
      match this
      case RateCheck => f.rate > RATE_THRESHOLD
      case SynAckCheck => f.synack > SYNACK_THRESHOLD
      case TcpRttCheck => f.tcprtt > TCPRTT_THRESHOLD
      case DinPktCheck => f.dinpkt > DINPKT_THRESHOLD
      case SBytesCheck => f.sbytes > SBYTES_THRESHOLD
      case MinimalResponseCheck => f.dbytes < DBYTES_THRESHOLD && f.sbytes > 50000.0
      case DMeanCheck => f.dmean > DMEAN_THRESHOLD
      case SourceEntropyCheck => f.smean < SMEAN_THRESHOLD && f.dmean > 0.5
      case AckDatCheck => f.ackdat > ACKDAT_THRESHOLD
    }

    function Increment(): nat {
      match this
      case RateCheck => 25
      case SynAckCheck => 20
      case TcpRttCheck => 15
      case DinPktCheck => 15
      case SBytesCheck => 20
      case MinimalResponseCheck => 10
      case DMeanCheck => 10
      case SourceEntropyCheck => 10
      case AckDatCheck => 15
    }

    function Indicator(): string {
      match this
      case RateCheck => "High traffic rate detected"
      case SynAckCheck => "Multiple SYN-ACK packets"
      case TcpRttCheck => "High TCP round-trip time"
      case DinPktCheck => "High destination input packets"
      case SBytesCheck => "Abnormally high source bytes"
      case MinimalResponseCheck => "Minimal response from destination"
      case DMeanCheck => "Destination entropy high"
      case SourceEntropyCheck => "Source entropy anomaly"
      case AckDatCheck => "High ACK-DAT packets detected"
    }
  }

  /** The checks in the order the detector evaluates them. */
  const CHECKS: seq<Check> := [
    RateCheck, SynAckCheck, TcpRttCheck, DinPktCheck, SBytesCheck,
    MinimalResponseCheck, DMeanCheck, SourceEntropyCheck, AckDatCheck
  ]

  /** What one check adds to the score on `f`. */
  function Contribution(c: Check, f: Features): nat {
    if c.Fires(f) then c.Increment() else 0
  }

  /** What one check appends to the indicators on `f`. */
  function Evidence(c: Check, f: Features): seq<string> {
    if c.Fires(f) then [c.Indicator()] else []
  }

  /** Sum of the increments of those of the first `k` checks that fire on `f`. */
  function Score(f: Features, k: nat): nat
    requires k <= |CHECKS|
  {
    if k == 0 then 0 else Score(f, k - 1) + Contribution(CHECKS[k - 1], f)
  }

  /** Indicators of those of the first `k` checks that fire on `f`, in check order. */
  function Fired(f: Features, k: nat): seq<string>
    requires k <= |CHECKS|
  {
    if k == 0 then [] else Fired(f, k - 1) + Evidence(CHECKS[k - 1], f)
  }

  /** Sum of the increments of the first `k` checks: the largest score they can produce. */
  function MaxScore(k: nat): nat
    requires k <= |CHECKS|
  {
    if k == 0 then 0 else MaxScore(k - 1) + CHECKS[k - 1].Increment()
  }

  /** `min(100, max(0, x))`. */
  function Clamp(x: int): (r: int)
    ensures 0 <= r <= 100
    ensures 0 <= x <= 100 ==> r == x
    ensures x > 100 ==> r == 100
    ensures x < 0 ==> r == 0
  {
    Min(100, if x < 0 then 0 else x)
  }

  // ---------------------------------------------------------------------
  // Attack type: eleven ordered rules
  // ---------------------------------------------------------------------

  datatype Rule =
    | DDoSRule | DoSRule | MalwareRule | PhishingRule | MitmRule | SqlInjectionRule
    | XssRule | SocialEngineeringRule | ZeroDayRule | InsiderThreatRule | SpoofingRule
  {
    predicate Matches(f: Features) {
      match this
      case DDoSRule => f.rate > 5000.0 && f.synack > 200.0
      case DoSRule => f.tcprtt > 1500.0 && f.dinpkt > 800.0
      case MalwareRule => f.sbytes > 90000.0 && f.dbytes < 1000.0
      case PhishingRule => f.dmean > 0.7 && f.smean < 0.3
      case MitmRule => f.ackdat > 500.0 && f.synack < 50.0 && f.rate > 3000.0
      case SqlInjectionRule => f.dinpkt > 1000.0 && f.tcprtt < 100.0 && f.rate > 4000.0
      case XssRule => f.smean > 0.8 && f.dmean > 0.8 && f.sbytes > 50000.0
      case SocialEngineeringRule => f.rate < 100.0 && f.tcprtt > 2000.0
      case ZeroDayRule => f.sbytes > 100000.0 && f.rate > 6000.0 && f.synack > 300.0
      case InsiderThreatRule => f.dmean < 0.2 && f.smean > 0.9 && f.ackdat > 300.0
      case SpoofingRule => f.synack > 400.0 || (f.rate > 2000.0 && f.tcprtt < 50.0)
    }

    function AttackType(): string {
      match this
      case DDoSRule => "DDoS"
      case DoSRule => "DoS"
      case MalwareRule => "Malware"
      case PhishingRule => "Phishing"
      case MitmRule => "Man-in-the-Middle"
      case SqlInjectionRule => "SQL Injection"
      case XssRule => "Cross-Site Scripting"
      case SocialEngineeringRule => "Social Engineering"
      case ZeroDayRule => "Zero-Day Exploit"
      case InsiderThreatRule => "Insider Threat"
      case SpoofingRule => "Spoofing / Password Attack"
    }

    function Confidence(): real {
      match this
      case DDoSRule => 0.95
      case DoSRule => 0.92
      case MalwareRule => 0.88
      case PhishingRule => 0.85
      case MitmRule => 0.82
      case SqlInjectionRule => 0.79
      case XssRule => 0.76
      case SocialEngineeringRule => 0.73
      case ZeroDayRule => 0.89
      case InsiderThreatRule => 0.81
      case SpoofingRule => 0.84
    }

    /** The severity written literally in the rule's return statement. */
    function Severity(): string {
      match this
      case DDoSRule => "Critical"
      case DoSRule => "High"
      case MalwareRule => "High"
      case PhishingRule => "High"
      case MitmRule => "High"
      case SqlInjectionRule => "Medium"
      case XssRule => "Medium"
      case SocialEngineeringRule => "Medium"
      case ZeroDayRule => "Critical"
      case InsiderThreatRule => "High"
      case SpoofingRule => "High"
    }

    function Indicator(): string {
      match this
      case DDoSRule => "Distributed attack pattern"
      case DoSRule => "Congestion pattern detected"
      case MalwareRule => "Possible data exfiltration"
      case PhishingRule => "Credential harvesting pattern"
      case MitmRule => "Possible session hijacking"
      case SqlInjectionRule => "Database query manipulation"
      case XssRule => "Script injection pattern"
      case SocialEngineeringRule => "Possible human interaction attack"
      case ZeroDayRule => "Unknown vulnerability pattern"
      case InsiderThreatRule => "Internal actor behavior"
      case SpoofingRule => "Brute force attempt pattern"
    }
  }

  /** The rules in the order the detector tries them. */
  const RULES: seq<Rule> := [
    DDoSRule, DoSRule, MalwareRule, PhishingRule, MitmRule, SqlInjectionRule,
    XssRule, SocialEngineeringRule, ZeroDayRule, InsiderThreatRule, SpoofingRule
  ]

  /** Index of the first rule of `rules` that matches `f`, or `|rules|` when none does. */
  function FirstMatch(rules: seq<Rule>, f: Features): (i: nat)
    ensures i <= |rules|
  {
    if rules == [] then 0
    else if rules[0].Matches(f) then 0
    else 1 + FirstMatch(rules[1..], f)
  }

  /** `FirstMatch` is the first-match rule: every earlier rule fails, the chosen one holds, and `|rules|` means none holds. */
  lemma {:induction false} FirstMatchSpec(rules: seq<Rule>, f: Features)
    ensures var i := FirstMatch(rules, f);
      && (forall j :: 0 <= j < i ==> !rules[j].Matches(f))
      && (i < |rules| ==> rules[i].Matches(f))
      && (i == |rules| <==> forall r :: r in rules ==> !r.Matches(f))
  {
    if rules != [] && !rules[0].Matches(f) {
      FirstMatchSpec(rules[1..], f);
      var i := FirstMatch(rules, f);
      forall j | 0 <= j < i
        ensures !rules[j].Matches(f)
      {
        if j > 0 {
          assert rules[j] == rules[1..][j - 1];
        }
      }
      if forall r :: r in rules[1..] ==> !r.Matches(f) {
        forall r | r in rules
          ensures !r.Matches(f)
        {
          if r != rules[0] {
            var k :| 0 <= k < |rules| && rules[k] == r;
            assert rules[1..][k - 1] == r;
          }
        }
      }
    }
  }

  /** The first-match index is determined by the first-match rule. */
  lemma FirstMatchIs(rules: seq<Rule>, f: Features, k: nat)
    requires k <= |rules|
    requires forall j :: 0 <= j < k ==> !rules[j].Matches(f)
    requires k < |rules| ==> rules[k].Matches(f)
    ensures FirstMatch(rules, f) == k
  {
    FirstMatchSpec(rules, f);
  }

  /** The severity level whose list holds `t`, searching the levels in order. */
  function SeverityOf(levels: seq<(string, seq<string>)>, t: string): Option<string> {
    if levels == [] then None
    else if t in levels[0].1 then Some(levels[0].0)
    else SeverityOf(levels[1..], t)
  }

  /** `SeverityOf` finds the first level that lists `t`, and finds none exactly when no level lists it. */
  lemma {:induction false} SeverityOfSpec(levels: seq<(string, seq<string>)>, t: string)
    ensures SeverityOf(levels, t).None? <==> forall i :: 0 <= i < |levels| ==> t !in levels[i].1
    ensures SeverityOf(levels, t).Some? ==>
      exists i :: (0 <= i < |levels| && levels[i].0 == SeverityOf(levels, t).value && t in levels[i].1
                   && forall j :: 0 <= j < i ==> t !in levels[j].1)
  {
    if levels != [] && t !in levels[0].1 {
      SeverityOfSpec(levels[1..], t);
      if SeverityOf(levels, t).Some? {
        var i :| 0 <= i < |levels[1..]| && levels[1..][i].0 == SeverityOf(levels, t).value && t in levels[1..][i].1
          && forall j :: 0 <= j < i ==> t !in levels[1..][j].1;
        assert levels[i + 1] == levels[1..][i];
        forall j | 0 <= j < i + 1
          ensures t !in levels[j].1
        {
          if j > 0 {
            assert levels[j] == levels[1..][j - 1];
          }
        }
      } else {
        forall i | 0 <= i < |levels|
          ensures t !in levels[i].1
        {
          if i > 0 {
            assert levels[i] == levels[1..][i - 1];
          }
        }
      }
    } else if levels != [] {
      assert 0 < |levels| && t in levels[0].1;
    }
  }

  // ---------------------------------------------------------------------
  // The classifier
  // ---------------------------------------------------------------------

  /** The verdict the detector returns for `f`, read off the two tables. */
  function Classify(f: Features): (v: Verdict)
    ensures 0 <= v.riskScore <= 100
    ensures v.indicators != []
  {
    var score := Clamp(Score(f, |CHECKS|));
    var fired := Fired(f, |CHECKS|);
    var i := FirstMatch(RULES, f);
    if i < |RULES| then
      var r := RULES[i];
      Verdict(r.AttackType(), r.Confidence(), r.Severity(), score, fired + [r.Indicator()])
    else
      Verdict(NORMAL, NORMAL_CONFIDENCE, "Low", score, if fired == [] then CANNED_INDICATORS else fired)
  }

  /**
   * `detect_attack`: accumulates the score and the indicators check by
   * check, clamps the score, then returns from the first rule that matches.
   * The source writes the nine checks and the eleven rules out one after
   * another; here each loop walks the corresponding table in that order,
   * one iteration per `if` of the source.
   */
  method DetectAttack(params: map<string, real>) returns (v: Verdict)
    ensures v == Classify(FeaturesOf(params))
  {
    var f := FeaturesOf(params);
    var indicators: seq<string> := [];
    var riskScore := 0;

    // Risk score: each check that fires adds its increment and its indicator.
    for k := 0 to |CHECKS|
      invariant riskScore == Score(f, k) && indicators == Fired(f, k)
    {
      var c := CHECKS[k];
      if c.Fires(f) {
        riskScore := riskScore + c.Increment();
        indicators := indicators + [c.Indicator()];
      }
    }
    riskScore := Clamp(riskScore);

    // Attack type: the first matching rule wins.
    var i := 0;
    while i < |RULES|
      invariant 0 <= i <= |RULES|
      invariant FirstMatch(RULES, f) == i + FirstMatch(RULES[i..], f)
    {
      var r := RULES[i];
      if r.Matches(f) {
        return Verdict(r.AttackType(), r.Confidence(), r.Severity(), riskScore, indicators + [r.Indicator()]);
      }
      assert RULES[i..][1..] == RULES[i + 1..];
      i := i + 1;
    }

    if indicators == [] {
      indicators := CANNED_INDICATORS;
    }
    return Verdict(NORMAL, NORMAL_CONFIDENCE, "Low", riskScore, indicators);
  }

  // ---------------------------------------------------------------------
  // Recommendations
  // ---------------------------------------------------------------------

  const DEFAULT_RECOMMENDATIONS: seq<string> := ["Review security policies", "Monitor device activity"]

  /** The recommendation table of `get_recommendations`. */
  const RECOMMENDATIONS: map<string, seq<string>> := map[
    "Normal" := ["Monitor regularly", "Continue normal operations"],
    "Malware" := ["Run antivirus scan immediately", "Isolate device from network",
                  "Check for unauthorized software", "Review recent file modifications"],
    "Phishing" := ["Review recent communications", "Change passwords immediately",
                   "Enable two-factor authentication", "Check email forwarding rules"],
    "DoS" := ["Block suspicious source IPs", "Increase bandwidth capacity",
              "Enable rate limiting", "Contact ISP for mitigation"],
    "DDoS" := ["Activate DDoS protection service", "Contact ISP immediately",
               "Enable traffic filtering", "Implement geo-blocking if needed"],
    "Man-in-the-Middle" := ["Verify SSL certificates", "Update encryption protocols",
                            "Check network integrity", "Audit VPN connections"],
    "SQL Injection" := ["Patch application immediately", "Review database access logs",
                        "Implement parameterized queries", "Enable SQL query monitoring"],
    "Cross-Site Scripting" := ["Sanitize all user inputs", "Update security headers",
                               "Patch vulnerabilities", "Run security audit"],
    "Social Engineering" := ["Train users on security", "Review access logs",
                             "Implement additional verification", "Audit permission changes"],
    "Zero-Day Exploit" := ["Isolate system immediately", "Contact vendor for patches",
                           "Monitor for further activity", "Document incident thoroughly"],
    "Insider Threat" := ["Review access logs", "Audit user permissions",
                         "Investigate activity", "Implement additional monitoring"],
    "Spoofing / Password Attack" := ["Force password reset for all users", "Enable multi-factor authentication",
                                     "Review authentication logs", "Check for compromised credentials"]
  ]

  /** `get_recommendations` (and its wrapper `get_attack_recommendations`): table lookup with a default. */
  function Recommendations(attackType: string): (r: seq<string>)
    ensures attackType in RECOMMENDATIONS ==> r == RECOMMENDATIONS[attackType]
    ensures attackType !in RECOMMENDATIONS ==> r == DEFAULT_RECOMMENDATIONS
  {
    if attackType in RECOMMENDATIONS then RECOMMENDATIONS[attackType] else DEFAULT_RECOMMENDATIONS
  }

  /** The table covers exactly the twelve attack types. */
  lemma RecommendationKeys()
    ensures RECOMMENDATIONS.Keys == set t | t in ATTACK_TYPES
  {
    assert forall t :: t in ATTACK_TYPES ==> t in RECOMMENDATIONS;
  }

  /** Two actions for Normal. */
  lemma NormalRecommendationCount()
    ensures |Recommendations(NORMAL)| == 2
  {
  }

  /** Four actions for each attack type. */
  lemma AttackRecommendationCount(t: string)
    requires t in ATTACK_TYPES && t != NORMAL
    ensures |Recommendations(t)| == 4
  {
  }

  /** The default pair for any string that is not an attack type. */
  lemma UnknownTypeGetsDefault(t: string)
    requires t !in ATTACK_TYPES
    ensures Recommendations(t) == DEFAULT_RECOMMENDATIONS
  {
    RecommendationKeys();
  }

  // ---------------------------------------------------------------------
  // Properties of the risk score and the indicators
  // ---------------------------------------------------------------------

  /** The nine increments sum to 140. */
  lemma MaxScoreIs140()
    ensures MaxScore(|CHECKS|) == 140
  {
    assert MaxScore(1) == 25;
    assert MaxScore(2) == 45;
    assert MaxScore(3) == 60;
    assert MaxScore(4) == 75;
    assert MaxScore(5) == 95;
    assert MaxScore(6) == 105;
    assert MaxScore(7) == 115;
    assert MaxScore(8) == 125;
  }

  /** The score written out as the sum over the nine checks, in source order. */
  lemma ScoreSum(f: Features)
    ensures Score(f, |CHECKS|) ==
      Contribution(RateCheck, f) + Contribution(SynAckCheck, f) + Contribution(TcpRttCheck, f)
      + Contribution(DinPktCheck, f) + Contribution(SBytesCheck, f) + Contribution(MinimalResponseCheck, f)
      + Contribution(DMeanCheck, f) + Contribution(SourceEntropyCheck, f) + Contribution(AckDatCheck, f)
    ensures Fired(f, |CHECKS|) ==
      Evidence(RateCheck, f) + Evidence(SynAckCheck, f) + Evidence(TcpRttCheck, f)
      + Evidence(DinPktCheck, f) + Evidence(SBytesCheck, f) + Evidence(MinimalResponseCheck, f)
      + Evidence(DMeanCheck, f) + Evidence(SourceEntropyCheck, f) + Evidence(AckDatCheck, f)
  {
    assert Score(f, 1) == Contribution(RateCheck, f);
    assert Fired(f, 1) == Evidence(RateCheck, f);
    assert Score(f, 2) == Score(f, 1) + Contribution(SynAckCheck, f);
    assert Score(f, 3) == Score(f, 2) + Contribution(TcpRttCheck, f);
    assert Score(f, 4) == Score(f, 3) + Contribution(DinPktCheck, f);
    assert Score(f, 5) == Score(f, 4) + Contribution(SBytesCheck, f);
    assert Score(f, 6) == Score(f, 5) + Contribution(MinimalResponseCheck, f);
    assert Score(f, 7) == Score(f, 6) + Contribution(DMeanCheck, f);
    assert Score(f, 8) == Score(f, 7) + Contribution(SourceEntropyCheck, f);
    assert Fired(f, 2) == Fired(f, 1) + Evidence(SynAckCheck, f);
    assert Fired(f, 3) == Fired(f, 2) + Evidence(TcpRttCheck, f);
    assert Fired(f, 4) == Fired(f, 3) + Evidence(DinPktCheck, f);
    assert Fired(f, 5) == Fired(f, 4) + Evidence(SBytesCheck, f);
    assert Fired(f, 6) == Fired(f, 5) + Evidence(MinimalResponseCheck, f);
    assert Fired(f, 7) == Fired(f, 6) + Evidence(DMeanCheck, f);
    assert Fired(f, 8) == Fired(f, 7) + Evidence(SourceEntropyCheck, f);
  }

  /** The raw score never exceeds the sum of the increments it has seen. */
  lemma {:induction false} ScoreBound(f: Features, k: nat)
    requires k <= |CHECKS|
    ensures Score(f, k) <= MaxScore(k)
  {
    if k > 0 {
      ScoreBound(f, k - 1);
    }
  }

  /** When every check fires the raw score is 140, which the clamp cuts to 100. */
  lemma {:induction false} AllChecksFire(f: Features, k: nat)
    requires k <= |CHECKS|
    requires forall c :: c in CHECKS ==> c.Fires(f)
    ensures Score(f, k) == MaxScore(k)
    ensures k == |CHECKS| ==> Classify(f).riskScore == 100
  {
    if k > 0 {
      AllChecksFire(f, k - 1);
      assert CHECKS[k - 1] in CHECKS;
    }
    if k == |CHECKS| {
      MaxScoreIs140();
    }
  }

  /**
   * Whatever the rule chain decides, the reported score is the raw sum
   * clamped to [0, 100], and the raw sum is at most 140.
   */
  lemma RiskScoreOfVerdict(f: Features)
    ensures Score(f, |CHECKS|) <= 140
    ensures Classify(f).riskScore == Min(100, Score(f, |CHECKS|))
    ensures 0 <= Classify(f).riskScore <= 100
  {
    ScoreBound(f, |CHECKS|);
    MaxScoreIs140();
  }

  /** A score of zero means no check fired, and conversely. */
  lemma {:induction false} ScoreZeroIffNoIndicators(f: Features, k: nat)
    requires k <= |CHECKS|
    ensures Score(f, k) == 0 <==> Fired(f, k) == []
  {
    if k > 0 {
      ScoreZeroIffNoIndicators(f, k - 1);
      assert CHECKS[k - 1].Increment() > 0;
    }
  }

  /** An indicator is reported exactly when one of the first `k` checks that fired contributes it. */
  lemma {:induction false} FiredMembers(f: Features, k: nat, x: string)
    requires k <= |CHECKS|
    ensures x in Fired(f, k) <==> exists j :: 0 <= j < k && CHECKS[j].Fires(f) && CHECKS[j].Indicator() == x
  {
    if k > 0 {
      FiredMembers(f, k - 1, x);
      assert Fired(f, k) == Fired(f, k - 1) + Evidence(CHECKS[k - 1], f);
      if x in Fired(f, k - 1) {
        var j :| 0 <= j < k - 1 && CHECKS[j].Fires(f) && CHECKS[j].Indicator() == x;
        assert 0 <= j < k;
      }
    }
  }

  /** Each check fires on `g` whenever it fires on `f`, for `g` at least `f` in the "higher is worse" fields. */
  ghost predicate Dominates(g: Features, f: Features) {
    g.rate >= f.rate && g.synack >= f.synack && g.tcprtt >= f.tcprtt && g.dinpkt >= f.dinpkt
    && g.sbytes >= f.sbytes && g.dmean >= f.dmean && g.ackdat >= f.ackdat
    && g.dbytes == f.dbytes && g.smean == f.smean
  }

  /** Raising `rate`, `synack`, `tcprtt`, `dinpkt`, `sbytes`, `dmean` or `ackdat` never lowers the score. */
  lemma {:induction false} ScoreMonotone(f: Features, g: Features, k: nat)
    requires k <= |CHECKS| && Dominates(g, f)
    ensures Score(f, k) <= Score(g, k)
    ensures Clamp(Score(f, k)) <= Clamp(Score(g, k))
  {
    if k > 0 {
      ScoreMonotone(f, g, k - 1);
      var c := CHECKS[k - 1];
      assert c.Fires(f) ==> c.Fires(g);
    }
  }

  /** A base vector where only "minimal response" and "source entropy anomaly" fire. */
  const LOW_REPLY := Features(60000.0, 0.0, 0.0, 0.0, 0.0, 0.0, 0.0, 0.0, 0.6)

  /** Raising `dbytes` can lower the score: it appears under `<`. */
  lemma NotMonotoneInDbytes()
    ensures Score(LOW_REPLY.(dbytes := 2000.0), |CHECKS|) < Score(LOW_REPLY, |CHECKS|)
  {
    ScoreSum(LOW_REPLY);
    ScoreSum(LOW_REPLY.(dbytes := 2000.0));
  }

  /** Raising `smean` can lower the score: it appears under `<`. */
  lemma NotMonotoneInSmean()
    ensures Score(LOW_REPLY.(smean := 0.5), |CHECKS|) < Score(LOW_REPLY, |CHECKS|)
  {
    ScoreSum(LOW_REPLY);
    ScoreSum(LOW_REPLY.(smean := 0.5));
  }

  /**
   * All threshold comparisons are strict: a field sitting exactly on its
   * threshold does not fire its check, whatever the other fields hold, and
   * a rate or SYN-ACK count on its threshold does not satisfy the DDoS rule.
   */
  lemma ThresholdsAreStrict(f: Features)
    ensures f.rate == RATE_THRESHOLD ==> !RateCheck.Fires(f)
    ensures f.synack == SYNACK_THRESHOLD ==> !SynAckCheck.Fires(f)
    ensures f.tcprtt == TCPRTT_THRESHOLD ==> !TcpRttCheck.Fires(f)
    ensures f.dinpkt == DINPKT_THRESHOLD ==> !DinPktCheck.Fires(f)
    ensures f.sbytes == SBYTES_THRESHOLD ==> !SBytesCheck.Fires(f)
    ensures f.dbytes == DBYTES_THRESHOLD ==> !MinimalResponseCheck.Fires(f)
    ensures f.dmean == DMEAN_THRESHOLD ==> !DMeanCheck.Fires(f)
    ensures f.smean == SMEAN_THRESHOLD ==> !SourceEntropyCheck.Fires(f)
    ensures f.ackdat == ACKDAT_THRESHOLD ==> !AckDatCheck.Fires(f)
    ensures f.rate == RATE_THRESHOLD || f.synack == SYNACK_THRESHOLD ==> !DDoSRule.Matches(f)
  {
  }

  // ---------------------------------------------------------------------
  // Properties of the rule chain
  // ---------------------------------------------------------------------

  /** Every rule reports one of the attack types other than Normal, with a confidence in (0, 1]. */
  lemma RuleTypeKnown(r: Rule)
    ensures r.AttackType() in ATTACK_TYPES && r.AttackType() != NORMAL
    ensures 0.0 < r.Confidence() <= 1.0
  {
    match r
    case DDoSRule =>
    case DoSRule =>
    case MalwareRule =>
    case PhishingRule =>
    case MitmRule =>
    case SqlInjectionRule =>
    case XssRule =>
    case SocialEngineeringRule =>
    case ZeroDayRule =>
    case InsiderThreatRule =>
    case SpoofingRule =>
  }

  /** Every rule's hard-coded severity is the level `SEVERITY_LEVELS` lists its type under. */
  lemma RuleSeverityAgrees(r: Rule)
    ensures SeverityOf(SEVERITY_LEVELS, r.AttackType()) == Some(r.Severity())
  {
    match r
    case DDoSRule =>
    case DoSRule =>
    case MalwareRule =>
    case PhishingRule =>
    case MitmRule =>
    case SqlInjectionRule =>
    case XssRule =>
    case SocialEngineeringRule =>
    case ZeroDayRule =>
    case InsiderThreatRule =>
    case SpoofingRule =>
  }

  /** Distinct rules report distinct attack types. */
  lemma RuleTypesDistinct(r: Rule, s: Rule)
    requires r.AttackType() == s.AttackType()
    ensures r == s
  {
  }

  /** The verdict is the one of the first rule, in source order, that matches. */
  lemma {:induction false} FirstRuleWins(f: Features, k: nat)
    requires k < |RULES| && RULES[k].Matches(f)
    requires forall j :: 0 <= j < k ==> !RULES[j].Matches(f)
    ensures Classify(f).attackType == RULES[k].AttackType()
    ensures Classify(f).confidence == RULES[k].Confidence()
    ensures Classify(f).severity == RULES[k].Severity()
  {
    FirstMatchIs(RULES, f, k);
  }

  /** A vector that satisfies the DDoS predicate is labelled DDoS, whatever else it satisfies (e.g. DoS). */
  lemma DDoSTakesPrecedence(f: Features)
    requires f.rate > 5000.0 && f.synack > 200.0
    ensures Classify(f).attackType == "DDoS" && Classify(f).confidence == 0.95 && Classify(f).severity == "Critical"
  {
    FirstRuleWins(f, 0);
  }

  /** The Zero-Day predicate implies the DDoS predicate, which is tried first. */
  lemma ZeroDayImpliesDDoS(f: Features)
    ensures ZeroDayRule.Matches(f) ==> DDoSRule.Matches(f)
  {
  }

  /** "Zero-Day Exploit" is never reported. */
  lemma ZeroDayNeverReturned(f: Features)
    ensures Classify(f).attackType != "Zero-Day Exploit"
  {
    ZeroDayImpliesDDoS(f);
    FirstMatchSpec(RULES, f);
    assert FirstMatch(RULES, f) != 8;
  }

  /**
   * Every verdict is well formed: its type is one of `ATTACK_TYPES`, its
   * severity is the one `SEVERITY_LEVELS` gives that type, and its
   * confidence is the matching rule's constant, or 0.98 for Normal.
   */
  lemma VerdictConsistent(f: Features)
    ensures Classify(f).attackType in ATTACK_TYPES
    ensures SeverityOf(SEVERITY_LEVELS, Classify(f).attackType) == Some(Classify(f).severity)
    ensures 0.0 < Classify(f).confidence <= 1.0
    ensures Classify(f).attackType == NORMAL <==> forall r :: r in RULES ==> !r.Matches(f)
    ensures Classify(f).attackType == NORMAL ==> Classify(f).confidence == NORMAL_CONFIDENCE
    ensures Classify(f).attackType != NORMAL ==>
      exists r :: r in RULES && r.Matches(f) && Classify(f).confidence == r.Confidence()
  {
    var i := FirstMatch(RULES, f);
    FirstMatchSpec(RULES, f);
    if i < |RULES| {
      RuleTypeKnown(RULES[i]);
      RuleSeverityAgrees(RULES[i]);
      assert RULES[i] in RULES;
    }
  }

  /**
   * Indicators: for an attack, the fired-check indicators in check order
   * and then exactly one rule indicator; for Normal, the fired-check
   * indicators, or the canned pair when none fired (exactly when the score is 0).
   */
  lemma IndicatorShape(f: Features)
    ensures var v := Classify(f);
      v.attackType != NORMAL ==>
        |v.indicators| == |Fired(f, |CHECKS|)| + 1
        && v.indicators[..|v.indicators| - 1] == Fired(f, |CHECKS|)
        && exists r :: r in RULES && r.AttackType() == v.attackType && v.indicators[|v.indicators| - 1] == r.Indicator()
    ensures var v := Classify(f);
      v.attackType == NORMAL ==>
        (v.riskScore == 0 ==> v.indicators == CANNED_INDICATORS)
        && (v.riskScore != 0 ==> v.indicators == Fired(f, |CHECKS|))
  {
    var v := Classify(f);
    var i := FirstMatch(RULES, f);
    FirstMatchSpec(RULES, f);
    ScoreZeroIffNoIndicators(f, |CHECKS|);
    if i < |RULES| {
      assert RULES[i] in RULES;
      assert v.indicators[..|v.indicators| - 1] == Fired(f, |CHECKS|);
    }
  }

  /** Traffic that trips no check and no rule gets the quiet Normal verdict. */
  lemma QuietTrafficIsNormal(f: Features)
    requires forall c :: c in CHECKS ==> !c.Fires(f)
    requires forall r :: r in RULES ==> !r.Matches(f)
    ensures Classify(f) == Verdict(NORMAL, NORMAL_CONFIDENCE, "Low", 0, CANNED_INDICATORS)
  {
    ScoreSum(f);
    FirstMatchSpec(RULES, f);
    assert Score(f, |CHECKS|) == 0;
    assert Fired(f, |CHECKS|) == [];
  }

  /** The all-zero vector (every key absent) is Normal, score 0, with the canned indicators. */
  lemma EmptyParamsAreNormal()
    ensures Classify(FeaturesOf(map[])) == Verdict(NORMAL, 0.98, "Low", 0, CANNED_INDICATORS)
  {
    var f := FeaturesOf(map[]);
    assert f == Features(0.0, 0.0, 0.0, 0.0, 0.0, 0.0, 0.0, 0.0, 0.0);
    QuietTrafficIsNormal(f);
  }
}
