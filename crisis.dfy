/**
 * The crisis-signal classifier: a message is lower-cased, tested for substring
 * occurrences of the phrases of four keyword lists, and given one severity
 * level and one recommended action by a fixed precedence
 * (CRITICAL > URGENT > CONCERNING > NORMAL).
 *
 * The classifier is stated over any keyword lexicon; `CrisisKeywords` is the
 * one the application uses.
 */
module CrisisDetection {
  import opened Text

  datatype Category = Suicide | SelfHarm | Violence | ImmediateRisk

  /** The four keyword lists, each in lexicon order. */
  datatype Lexicon = Lexicon(
    suicide: seq<string>,
    selfHarm: seq<string>,
    violence: seq<string>,
    immediateRisk: seq<string>)
  {
    function Keywords(c: Category): seq<string> {
      match c
      case Suicide => suicide
      case SelfHarm => selfHarm
      case Violence => violence
      case ImmediateRisk => immediateRisk
    }

    /** All phrases, categories in the order the classifier reports them. */
    function All(): seq<string> {
      suicide + selfHarm + violence + immediateRisk
    }
  }

  const SuicideKeywords: seq<string> := [
    "kill myself", "end my life", "want to die", "suicide", "suicidal",
    "end it all", "no reason to live", "better off dead", "can't go on"
  ]
  const SelfHarmKeywords: seq<string> := [
    "hurt myself", "cut myself", "self harm", "self-harm", "harm myself"
  ]
  const ViolenceKeywords: seq<string> := [
    "hurt someone", "kill them", "hurt him", "hurt her", "violent thoughts"
  ]
  const ImmediateRiskKeywords: seq<string> := [
    "pills", "overdose", "gun", "knife", "bridge", "rope", "tonight", "right now", "today"
  ]

  /** The application's lexicon. */
  const CrisisKeywords: Lexicon :=
    Lexicon(SuicideKeywords, SelfHarmKeywords, ViolenceKeywords, ImmediateRiskKeywords)

  datatype Level = Normal | Concerning | Urgent | Critical

  /** The table of severity names. */
  function SeverityValue(l: Level): string {
    match l
    case Normal => "normal"
    case Concerning => "concerning"
    case Urgent => "urgent"
    case Critical => "critical"
  }

  /** Position of a level in the escalation order. */
  function Rank(l: Level): nat {
    match l
    case Normal => 0
    case Concerning => 1
    case Urgent => 2
    case Critical => 3
  }

  datatype Action =
    | ContinueSession
    | FlagForCounselorReview
    | EscalateToCrisisCounselor
    | ImmediateIntervention

  /** The one action each level prescribes. */
  function ActionFor(l: Level): Action {
    match l
    case Normal => ContinueSession
    case Concerning => FlagForCounselorReview
    case Urgent => EscalateToCrisisCounselor
    case Critical => ImmediateIntervention
  }

  /** Distinct levels have distinct names and prescribe distinct actions. */
  lemma LevelsAreDistinguished(l: Level, l': Level)
    requires l != l'
    ensures SeverityValue(l) != SeverityValue(l')
    ensures ActionFor(l) != ActionFor(l')
  {
  }

  datatype Verdict = Verdict(level: Level, keywords: seq<string>, recommendedAction: Action)

  /**
   * The `filter` of one keyword list: the keywords whose lower-cased form
   * occurs in the (already lower-cased) message, in list order.
   */
  function Matches(keywords: seq<string>, lowerMessage: string): (r: seq<string>)
    ensures |r| <= |keywords|
    ensures forall k :: k in r <==> k in keywords && IsSubstring(Lower(k), lowerMessage)
  {
    if keywords == [] then []
    else
      ContainsIsSubstring(lowerMessage, Lower(keywords[0]));
      var rest := Matches(keywords[1..], lowerMessage);
      if Contains(lowerMessage, Lower(keywords[0])) then [keywords[0]] + rest else rest
  }

  /** Filtering a concatenation is the concatenation of the filtered parts. */
  lemma {:induction false} MatchesOfConcat(a: seq<string>, b: seq<string>, lowerMessage: string)
    ensures Matches(a + b, lowerMessage) == Matches(a, lowerMessage) + Matches(b, lowerMessage)
  {
    if a != [] {
      assert (a + b)[1..] == a[1..] + b;
      MatchesOfConcat(a[1..], b, lowerMessage);
    } else {
      assert a + b == b;
    }
  }

  /** The four per-category filters, concatenated, are the filter of the whole lexicon. */
  lemma AllMatches(lex: Lexicon, lowerMessage: string)
    ensures Matches(lex.All(), lowerMessage) ==
      Matches(lex.suicide, lowerMessage) + Matches(lex.selfHarm, lowerMessage)
      + Matches(lex.violence, lowerMessage) + Matches(lex.immediateRisk, lowerMessage)
  {
    var s, h, v, i := lex.suicide, lex.selfHarm, lex.violence, lex.immediateRisk;
    MatchesOfConcat(s + h + v, i, lowerMessage);
    MatchesOfConcat(s + h, v, lowerMessage);
    MatchesOfConcat(s, h, lowerMessage);
  }

  /** Some keyword of category `c` occurs in the lower-cased message. */
  ghost predicate Hits(lex: Lexicon, c: Category, message: string) {
    exists k :: k in lex.Keywords(c) && IsSubstring(Lower(k), Lower(message))
  }

  /** A category's filter is non-empty exactly when the category is hit. */
  lemma MatchesDetectHits(lex: Lexicon, c: Category, message: string)
    ensures |Matches(lex.Keywords(c), Lower(message))| > 0 <==> Hits(lex, c, message)
  {
    var r := Matches(lex.Keywords(c), Lower(message));
    if |r| > 0 {
      assert r[0] in r;
    }
  }

  function DetectCrisisLevel(lex: Lexicon, message: string): (v: Verdict)
    ensures v.recommendedAction == ActionFor(v.level)
    ensures v.level == LevelOf(Hits(lex, Suicide, message), Hits(lex, SelfHarm, message),
                               Hits(lex, Violence, message), Hits(lex, ImmediateRisk, message))
    ensures v.level == Normal ==> v.keywords == []
    ensures v.level != Normal ==> v.keywords == Matches(lex.All(), Lower(message))
  {
    var lowerMessage := Lower(message);
    var suicideMatches := Matches(lex.suicide, lowerMessage);
    var selfHarmMatches := Matches(lex.selfHarm, lowerMessage);
    var violenceMatches := Matches(lex.violence, lowerMessage);
    var immediateRiskMatches := Matches(lex.immediateRisk, lowerMessage);
    var foundKeywords := suicideMatches + selfHarmMatches + violenceMatches + immediateRiskMatches;
    AllMatches(lex, lowerMessage);
    HitFlags(lex, message);
    var level := LevelOf(|suicideMatches| > 0, |selfHarmMatches| > 0, |violenceMatches| > 0, |immediateRiskMatches| > 0);
    Verdict(level, if level == Normal then [] else foundKeywords, ActionFor(level))
  }

  /** Each category's filter is non-empty exactly when that category is hit. */
  lemma HitFlags(lex: Lexicon, message: string)
    ensures (|Matches(lex.suicide, Lower(message))| > 0) == Hits(lex, Suicide, message)
    ensures (|Matches(lex.selfHarm, Lower(message))| > 0) == Hits(lex, SelfHarm, message)
    ensures (|Matches(lex.violence, Lower(message))| > 0) == Hits(lex, Violence, message)
    ensures (|Matches(lex.immediateRisk, Lower(message))| > 0) == Hits(lex, ImmediateRisk, message)
  {
    MatchesDetectHits(lex, Suicide, message);
    MatchesDetectHits(lex, SelfHarm, message);
    MatchesDetectHits(lex, Violence, message);
    MatchesDetectHits(lex, ImmediateRisk, message);
  }

  /** The if-chain of `detectCrisisLevel`, on which categories were hit. */
  function LevelOf(suicide: bool, selfHarm: bool, violence: bool, immediateRisk: bool): (l: Level)
    ensures l == Critical <==> suicide && immediateRisk
    ensures l == Urgent <==> (suicide || violence) && !(suicide && immediateRisk)
    ensures l == Concerning <==> selfHarm && !suicide && !violence
    ensures l == Normal <==> !suicide && !selfHarm && !violence
  {
    if suicide && immediateRisk then Critical
    else if suicide || violence then Urgent
    else if selfHarm then Concerning
    else Normal
  }

  /** Every phrase of the application's lexicon is already lower case and non-empty. */
  lemma CrisisKeywordsAreLowerCase()
    ensures forall k :: k in CrisisKeywords.All() ==> Lower(k) == k && k != ""
  {
    forall k | k in CrisisKeywords.All() ensures Lower(k) == k && k != "" {
      if k in SuicideKeywords {
        SuicideKeywordLower(k);
      } else if k in SelfHarmKeywords {
        SelfHarmKeywordLower(k);
      } else if k in ViolenceKeywords {
        ViolenceKeywordLower(k);
      } else {
        ImmediateRiskKeywordLower(k);
      }
    }
  }

  lemma SuicideKeywordLower(k: string)
    requires k in SuicideKeywords
    ensures Lower(k) == k && k != ""
  {
    LowerOfLowerCase(k);
  }

  lemma SelfHarmKeywordLower(k: string)
    requires k in SelfHarmKeywords
    ensures Lower(k) == k && k != ""
  {
    LowerOfLowerCase(k);
  }

  lemma ViolenceKeywordLower(k: string)
    requires k in ViolenceKeywords
    ensures Lower(k) == k && k != ""
  {
    LowerOfLowerCase(k);
  }

  lemma ImmediateRiskKeywordLower(k: string)
    requires k in ImmediateRiskKeywords
    ensures Lower(k) == k && k != ""
  {
    LowerOfLowerCase(k);
  }

  /**
   * Outside NORMAL, the reported keywords are exactly the phrases of the
   * application's lexicon that occur in the lower-cased message.
   */
  lemma KeywordsAreOccurrences(message: string)
    ensures var v := DetectCrisisLevel(CrisisKeywords, message);
      v.level != Normal ==>
        forall k :: k in v.keywords <==> k in CrisisKeywords.All() && IsSubstring(k, Lower(message))
  {
    CrisisKeywordsAreLowerCase();
  }

  /** A message and its lower-case form are classified identically. */
  lemma CaseInsensitive(lex: Lexicon, message: string)
    ensures DetectCrisisLevel(lex, Lower(message)) == DetectCrisisLevel(lex, message)
  {
    LowerFacts(message, "");
  }

  /** Adding text before or after a message never lowers its severity. */
  lemma {:induction false} MonotoneUnderExtension(lex: Lexicon, message: string, extra: string)
    ensures Rank(DetectCrisisLevel(lex, message).level)
         <= Rank(DetectCrisisLevel(lex, message + extra).level)
    ensures Rank(DetectCrisisLevel(lex, message).level)
         <= Rank(DetectCrisisLevel(lex, extra + message).level)
  {
    forall c | Hits(lex, c, message)
      ensures Hits(lex, c, message + extra) && Hits(lex, c, extra + message)
    {
      var k :| k in lex.Keywords(c) && IsSubstring(Lower(k), Lower(message));
      SubstringOfExtension(Lower(k), Lower(message), Lower(extra));
      LowerFacts(message, extra);
      LowerFacts(extra, message);
    }
  }

  /** No phrase of a category without empty phrases occurs in the empty message. */
  lemma NoHitsInEmptyMessage(lex: Lexicon, c: Category)
    requires forall k :: k in lex.Keywords(c) ==> k != ""
    ensures !Hits(lex, c, "")
  {
  }

  /** The empty message is NORMAL with no keywords. */
  lemma EmptyMessageIsNormal()
    ensures DetectCrisisLevel(CrisisKeywords, "") == Verdict(Normal, [], ContinueSession)
  {
    CrisisKeywordsAreLowerCase();
    NoHitsInEmptyMessage(CrisisKeywords, Suicide);
    NoHitsInEmptyMessage(CrisisKeywords, SelfHarm);
    NoHitsInEmptyMessage(CrisisKeywords, Violence);
  }

  /** A phrase occurs in a message built around it, whatever the case of the rest. */
  lemma PhraseInMessage(before: string, phrase: string, after: string)
    requires Lower(phrase) == phrase
    ensures IsSubstring(phrase, Lower(before + phrase + after))
  {
    assert OccursAt(phrase, phrase, 0);
    SubstringOfExtension(phrase, phrase, Lower(after));
    SubstringOfExtension(phrase, phrase + Lower(after), Lower(before));
    LowerFacts(before, phrase);
    LowerFacts(before + phrase, after);
    assert Lower(before) + (phrase + Lower(after)) == Lower(before + phrase + after);
  }

  /** Matching ignores word boundaries: "gun" is found inside "begun". */
  lemma NoWordBoundaries()
    ensures Hits(CrisisKeywords, ImmediateRisk, "It has be" + "gun" + "")
  {
    LowerOfLowerCase("gun");
    PhraseInMessage("It has be", "gun", "");
    assert "gun" in CrisisKeywords.immediateRisk;
  }

  /** A suicide phrase together with a time frame is CRITICAL, whatever else the message says. */
  lemma CriticalScenario(before: string, between: string, after: string)
    ensures DetectCrisisLevel(CrisisKeywords, before + "kill myself" + between + "tonight" + after).level
         == Critical
  {
    var m := before + "kill myself" + between + "tonight" + after;
    LowerOfLowerCase("kill myself");
    LowerOfLowerCase("tonight");
    PhraseInMessage(before, "kill myself", between + "tonight" + after);
    PhraseInMessage(before + "kill myself" + between, "tonight", after);
    assert before + "kill myself" + (between + "tonight" + after) == m;
    assert "kill myself" in CrisisKeywords.suicide && "tonight" in CrisisKeywords.immediateRisk;
  }

  /** The crisis response text; `{emergency_number}` is a placeholder that no code in the source fills. */
  const CrisisResponseTemplate: string :=
    "I'm really concerned about what you just shared. Your safety is my top priority.\n\n"
    + "Please know:\n"
    + "- You are not alone in this\n"
    + "- These feelings are temporary, even though they feel overwhelming right now\n"
    + "- There are people who want to help you\n\n"
    + "If you're in immediate danger, please:\n"
    + "1. Call {emergency_number}\n"
    + "2. Go to the nearest emergency room\n"
    + "3. Reach out to someone you trust\n\n"
    + "I'm here with you. Can we talk about what's making you feel this way?"
}
