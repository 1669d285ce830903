/** Crisis scoring of a conversation transcript (server/services/crisisDetection.js).

    The analyser keeps the user turns of a transcript, lower-cases and joins
    them, looks for three fixed tiers of risk phrases by plain substring
    containment, and turns the weighted count of the phrases found into a
    crisis level.  `Analyze` is the specification; `AnalyzeConversation` is
    the service's loop-based computation, proved equal to it. */
module CrisisDetection {
  import opened Text

  /** One transcript entry as the HTTP body carries it; `role` is free text. */
  datatype Message = Message(role: string, content: string)

  /** The five levels the analyser emits, lowest first. */
  datatype CrisisLevel = NoRisk | Low | Medium | High | Critical
  {
    /** The string the service puts in `crisisLevel`. */
    function Name(): string
    {
      match this
      case NoRisk => "none"
      case Low => "low"
      case Medium => "medium"
      case High => "high"
      case Critical => "critical"
    }

    /** Position in the order none < low < medium < high < critical. */
    function Rank(): nat
    {
      match this
      case NoRisk => 0
      case Low => 1
      case Medium => 2
      case High => 3
      case Critical => 4
    }
  }

  /** The object `analyzeConversation` returns. */
  datatype CrisisAnalysis = CrisisAnalysis(
    isCrisis: bool,
    crisisLevel: CrisisLevel,
    crisisScore: nat,
    detectedKeywords: seq<string>,
    requiresIntervention: bool,
    timestamp: int)

  // The three phrase tiers of `crisisKeywords` and their weights.

  const SuicidePhrases: seq<string> := [
    "kill myself", "end my life", "want to die", "suicide", "suicidal",
    "not worth living", "better off dead", "end it all", "take my life",
    "no reason to live", "want to disappear", "harm myself"]

  const SelfHarmPhrases: seq<string> := [
    "hurt myself", "cut myself", "self harm", "self-harm", "injure myself",
    "pain myself", "punish myself"]

  const SeverePhrases: seq<string> := [
    "can't go on", "give up", "no hope", "hopeless", "worthless",
    "burden to everyone", "everyone would be better without me",
    "can't take it anymore", "too much pain"]

  const SuicideWeight: nat := 10
  const SelfHarmWeight: nat := 7
  const SevereWeight: nat := 3

  /** The score at and above which the analysis asks for intervention. */
  const InterventionThreshold: nat := 10

  /** Every phrase of the three tiers, in the order they are scanned. */
  function AllPhrases(): seq<string>
  {
    SuicidePhrases + SelfHarmPhrases + SeverePhrases
  }

  // ---------------------------------------------------------------------
  // Specification

  /** `messages.filter(m => m.role === 'user').map(m => m.content)`. */
  function UserContents(messages: seq<Message>): seq<string>
  {
    if messages == [] then []
    else (if messages[0].role == "user" then [messages[0].content] else [])
         + UserContents(messages[1..])
  }

  /** Lower-cases every entry. */
  function LowerAll(xs: seq<string>): (r: seq<string>)
    ensures |r| == |xs|
    ensures forall i :: 0 <= i < |xs| ==> r[i] == ToLower(xs[i])
  {
    if xs == [] then [] else [ToLower(xs[0])] + LowerAll(xs[1..])
  }

  /** The text that is scanned: the lower-cased user turns joined by spaces. */
  function UserText(messages: seq<Message>): string
  {
    Join(LowerAll(UserContents(messages)), " ")
  }

  /** `xs` is `ys` with some entries dropped, the rest kept in order. */
  predicate SubsequenceOf<T(==)>(xs: seq<T>, ys: seq<T>)
    decreases |ys|
  {
    || xs == []
    || (&& ys != []
        && (|| (xs[|xs| - 1] == ys[|ys| - 1] && SubsequenceOf(xs[..|xs| - 1], ys[..|ys| - 1]))
            || SubsequenceOf(xs, ys[..|ys| - 1])))
  }

  /** The phrases of `tier` that occur in `text`, in tier order. */
  function Present(tier: seq<string>, text: string): (r: seq<string>)
    ensures |r| <= |tier|
    ensures SubsequenceOf(r, tier)
    ensures forall i :: 0 <= i < |r| ==> Contains(text, r[i])
  {
    if tier == [] then []
    else
      var init, last := tier[..|tier| - 1], tier[|tier| - 1];
      var earlier := Present(init, text);
      if Contains(text, last) then
        assert (earlier + [last])[..|earlier|] == earlier;
        earlier + [last]
      else
        assert earlier + [] == earlier;
        earlier + []
  }

  /** A phrase is reported for a tier exactly when it belongs to the tier
      and occurs in the text. */
  lemma {:induction false} PresentMembers(tier: seq<string>, text: string)
    ensures forall k :: k in Present(tier, text) <==> (k in tier && Contains(text, k))
    decreases |tier|
  {
    if tier != [] {
      PresentMembers(tier[..|tier| - 1], text);
      assert tier == tier[..|tier| - 1] + [tier[|tier| - 1]];
    }
  }

  /** The score: each phrase found adds its tier's weight once. */
  function Score(text: string): nat
  {
    SuicideWeight * |Present(SuicidePhrases, text)|
    + SelfHarmWeight * |Present(SelfHarmPhrases, text)|
    + SevereWeight * |Present(SeverePhrases, text)|
  }

  /** The phrases found, tier by tier, before de-duplication. */
  function Found(text: string): seq<string>
  {
    Present(SuicidePhrases, text) + Present(SelfHarmPhrases, text) + Present(SeverePhrases, text)
  }

  predicate NoDuplicates<T(==)>(xs: seq<T>)
  {
    forall i, j :: 0 <= i < j < |xs| ==> xs[i] != xs[j]
  }

  /** `[...new Set(xs)]`: the first occurrence of each entry, in order. */
  function Dedup<T(==, !new)>(xs: seq<T>): (r: seq<T>)
    ensures NoDuplicates(r)
    ensures forall x :: x in r <==> x in xs
    ensures |r| <= |xs|
  {
    if xs == [] then []
    else
      var d := Dedup(xs[..|xs| - 1]);
      var x := xs[|xs| - 1];
      assert forall y :: y in xs <==> y in xs[..|xs| - 1] || y == x;
      if x in d then d else d + [x]
  }

  /** On a list without duplicates the de-duplication changes nothing, so
      first occurrences keep their original order. */
  lemma {:induction false} DedupDistinct<T(!new)>(xs: seq<T>)
    requires NoDuplicates(xs)
    ensures Dedup(xs) == xs
    decreases |xs|
  {
    if xs != [] {
      var init := xs[..|xs| - 1];
      DedupDistinct(init);
      assert xs[|xs| - 1] !in init;
      assert init + [xs[|xs| - 1]] == xs;
    }
  }

  /** A tier without repeated phrases reports none twice. */
  lemma {:induction false} PresentDistinct(tier: seq<string>, text: string)
    requires NoDuplicates(tier)
    ensures NoDuplicates(Present(tier, text))
    decreases |tier|
  {
    if tier != [] {
      var init := tier[..|tier| - 1];
      PresentDistinct(init, text);
      PresentMembers(init, text);
      assert tier[|tier| - 1] !in init;
    }
  }

  /** Two duplicate-free lists with no common entry concatenate into a
      duplicate-free list. */
  lemma ConcatDistinct<T>(a: seq<T>, b: seq<T>)
    requires NoDuplicates(a) && NoDuplicates(b)
    requires forall x :: x in a ==> x !in b
    ensures NoDuplicates(a + b)
  {
    forall i, j | 0 <= i < j < |a + b| ensures (a + b)[i] != (a + b)[j] {
      if i < |a| && |a| <= j {
        assert (a + b)[i] in a && (a + b)[j] in b;
      }
    }
  }

  /** No tier lists a phrase twice. */
  lemma TierPhrasesDistinct()
    ensures NoDuplicates(SuicidePhrases) && NoDuplicates(SelfHarmPhrases) && NoDuplicates(SeverePhrases)
  {
  }

  /** No phrase belongs to two tiers. */
  lemma TiersDisjoint()
    ensures forall k :: k in SuicidePhrases ==> k !in SelfHarmPhrases && k !in SeverePhrases
    ensures forall k :: k in SelfHarmPhrases ==> k !in SeverePhrases
  {
  }

  /** The phrases found, tier by tier, are never repeated. */
  lemma FoundDistinct(text: string)
    ensures NoDuplicates(Found(text))
  {
    var p1, p2, p3 := Present(SuicidePhrases, text), Present(SelfHarmPhrases, text), Present(SeverePhrases, text);
    TierPhrasesDistinct();
    TiersDisjoint();
    PresentDistinct(SuicidePhrases, text);
    PresentDistinct(SelfHarmPhrases, text);
    PresentDistinct(SeverePhrases, text);
    PresentMembers(SuicidePhrases, text);
    PresentMembers(SelfHarmPhrases, text);
    PresentMembers(SeverePhrases, text);
    ConcatDistinct(p1, p2);
    ConcatDistinct(p1 + p2, p3);
  }

  /** The level for a score, thresholds checked highest first. */
  function LevelFor(score: int): CrisisLevel
  {
    if score >= 10 then Critical
    else if score >= 7 then High
    else if score >= 4 then Medium
    else if score >= 2 then Low
    else NoRisk
  }

  /** What `analyzeConversation(messages)` returns when the clock reads `now`. */
  function Analyze(messages: seq<Message>, now: int): (r: CrisisAnalysis)
    ensures r.isCrisis == r.requiresIntervention
    ensures r.requiresIntervention <==> r.crisisScore >= InterventionThreshold
    ensures r.crisisLevel == LevelFor(r.crisisScore)
    ensures r.detectedKeywords == [] <==> r.crisisScore == 0
    ensures NoDuplicates(r.detectedKeywords)
    ensures r.timestamp == now
  {
    var text := UserText(messages);
    var score := Score(text);
    CrisisAnalysis(
      score >= InterventionThreshold,
      LevelFor(score),
      score,
      Dedup(Found(text)),
      score >= InterventionThreshold,
      now)
  }

  // ---------------------------------------------------------------------
  // The service's computation

  /** Scanning one more phrase of a tier adds it when it occurs. */
  lemma PresentStep(tier: seq<string>, i: nat, text: string)
    requires i < |tier|
    ensures Present(tier[..i + 1], text) == Present(tier[..i], text) + (if Contains(text, tier[i]) then [tier[i]] else [])
  {
    assert tier[..i + 1][..i] == tier[..i];
  }

  lemma MultiplyOneMore(w: nat, c: nat)
    ensures w * (c + 1) == w * c + w
  {
  }

  /** One `forEach` over a tier: adds `weight` and records the phrase for
      every phrase of `tier` that occurs in `text`. */
  method ScanTier(text: string, tier: seq<string>, weight: nat, score0: nat, found0: seq<string>)
    returns (score: nat, found: seq<string>)
    ensures score == score0 + weight * |Present(tier, text)|
    ensures found == found0 + Present(tier, text)
  {
    score, found := score0, found0;
    for i := 0 to |tier|
      invariant score == score0 + weight * |Present(tier[..i], text)|
      invariant found == found0 + Present(tier[..i], text)
    {
      PresentStep(tier, i, text);
      ghost var count := |Present(tier[..i], text)|;
      if Contains(text, tier[i]) {
        assert |Present(tier[..i + 1], text)| == count + 1;
        MultiplyOneMore(weight, count);
        score := score + weight;
        found := found + [tier[i]];
      } else {
        assert |Present(tier[..i + 1], text)| == count;
      }
    }
    assert tier[..|tier|] == tier;
  }

  /** The three tier scans of `analyzeConversation`, in their order. */
  method ScanTiers(userMessages: string) returns (crisisScore: nat, detectedKeywords: seq<string>)
    ensures crisisScore == Score(userMessages)
    ensures detectedKeywords == Found(userMessages)
  {
    crisisScore, detectedKeywords := 0, [];
    crisisScore, detectedKeywords := ScanTier(userMessages, SuicidePhrases, SuicideWeight, crisisScore, detectedKeywords);
    crisisScore, detectedKeywords := ScanTier(userMessages, SelfHarmPhrases, SelfHarmWeight, crisisScore, detectedKeywords);
    crisisScore, detectedKeywords := ScanTier(userMessages, SeverePhrases, SevereWeight, crisisScore, detectedKeywords);
  }

  /** `analyzeConversation`: three scans accumulating `crisisScore` and
      `detectedKeywords`, then the level cascade. */
  method AnalyzeConversation(messages: seq<Message>, now: int) returns (a: CrisisAnalysis)
    ensures a == Analyze(messages, now)
  {
    var userMessages := UserText(messages);
    var crisisScore, detectedKeywords := ScanTiers(userMessages);

    var crisisLevel := NoRisk;
    if crisisScore >= 10 {
      crisisLevel := Critical;
    } else if crisisScore >= 7 {
      crisisLevel := High;
    } else if crisisScore >= 4 {
      crisisLevel := Medium;
    } else if crisisScore >= 2 {
      crisisLevel := Low;
    }
    assert crisisLevel == LevelFor(crisisScore);

    a := CrisisAnalysis(
      crisisScore >= 10,
      crisisLevel,
      crisisScore,
      Dedup(detectedKeywords),
      crisisScore >= 10,
      now);
  }

  // ---------------------------------------------------------------------
  // Properties of the analysis

  lemma {:induction false} UserContentsAppend(xs: seq<Message>, ys: seq<Message>)
    ensures UserContents(xs + ys) == UserContents(xs) + UserContents(ys)
    decreases |xs|
  {
    if xs == [] {
      assert xs + ys == ys;
    } else {
      assert (xs + ys)[1..] == xs[1..] + ys;
      UserContentsAppend(xs[1..], ys);
    }
  }

  /** Inserting a turn whose role is not exactly "user" anywhere in the
      transcript leaves the analysis unchanged. */
  lemma NonUserTurnIgnored(messages: seq<Message>, i: nat, m: Message, now: int)
    requires i <= |messages|
    requires m.role != "user"
    ensures Analyze(messages[..i] + [m] + messages[i..], now) == Analyze(messages, now)
  {
    var before, after := messages[..i], messages[i..];
    UserContentsAppend(before + [m], after);
    UserContentsAppend(before, [m]);
    UserContentsAppend(before, after);
    assert UserContents([m]) == [];
    assert before + after == messages;
    assert UserContents(before + [m] + after) == UserContents(messages);
  }

  /** Changing what a non-user turn says leaves the analysis unchanged. */
  lemma NonUserContentIgnored(messages: seq<Message>, i: nat, content: string, now: int)
    requires i < |messages|
    requires messages[i].role != "user"
    ensures Analyze(messages[i := Message(messages[i].role, content)], now) == Analyze(messages, now)
  {
    var edited := messages[i := Message(messages[i].role, content)];
    assert edited == messages[..i] + [edited[i]] + messages[i + 1..];
    assert messages == messages[..i] + [messages[i]] + messages[i + 1..];
    UserContentsAppend(messages[..i] + [edited[i]], messages[i + 1..]);
    UserContentsAppend(messages[..i], [edited[i]]);
    UserContentsAppend(messages[..i] + [messages[i]], messages[i + 1..]);
    UserContentsAppend(messages[..i], [messages[i]]);
  }

  /** The score is the weighted count of the distinct phrases present and
      lies between 0 and 10·12 + 7·7 + 3·9 = 196. */
  lemma ScoreBounds(messages: seq<Message>, now: int)
    ensures 0 <= Analyze(messages, now).crisisScore <= 196
  {
    var text := UserText(messages);
    assert |Present(SuicidePhrases, text)| <= 12;
    assert |Present(SelfHarmPhrases, text)| <= 7;
    assert |Present(SeverePhrases, text)| <= 9;
  }

  lemma {:induction false} PresentNone(tier: seq<string>, text: string)
    requires forall k :: k in tier ==> !Contains(text, k)
    ensures Present(tier, text) == []
    decreases |tier|
  {
    if tier != [] {
      PresentNone(tier[..|tier| - 1], text);
    }
  }

  /** Scanning a tier in two parts finds what scanning it whole finds. */
  lemma {:induction false} PresentAppend(a: seq<string>, b: seq<string>, text: string)
    ensures Present(a + b, text) == Present(a, text) + Present(b, text)
    decreases |b|
  {
    if b != [] {
      var b' := b[..|b| - 1];
      assert (a + b)[..|a + b| - 1] == a + b';
      PresentAppend(a, b', text);
    } else {
      assert a + b == a;
    }
  }

  lemma {:induction false} PresentDependsOnPresence(tier: seq<string>, t1: string, t2: string)
    requires forall k :: k in tier ==> (Contains(t1, k) <==> Contains(t2, k))
    ensures Present(tier, t1) == Present(tier, t2)
    decreases |tier|
  {
    if tier != [] {
      PresentDependsOnPresence(tier[..|tier| - 1], t1, t2);
    }
  }

  /** The analysis depends only on WHICH phrases occur in the user text, not
      on how often or where: repeating a phrase adds nothing. */
  lemma PresenceDeterminesAnalysis(m1: seq<Message>, m2: seq<Message>, now: int)
    requires forall k :: k in AllPhrases() ==> (Contains(UserText(m1), k) <==> Contains(UserText(m2), k))
    ensures Analyze(m1, now) == Analyze(m2, now)
  {
    var t1, t2 := UserText(m1), UserText(m2);
    PresentDependsOnPresence(SuicidePhrases, t1, t2);
    PresentDependsOnPresence(SelfHarmPhrases, t1, t2);
    PresentDependsOnPresence(SeverePhrases, t1, t2);
  }

  /** The level is a monotone step function of the score. */
  lemma LevelMonotone(s1: int, s2: int)
    requires s1 <= s2
    ensures LevelFor(s1).Rank() <= LevelFor(s2).Rank()
  {
  }

  /** The exact thresholds: 10 critical, 7..9 high, 4..6 medium, 2..3 low,
      below 2 none. */
  lemma LevelThresholds(score: int)
    ensures LevelFor(score) == Critical <==> score >= 10
    ensures LevelFor(score) == High <==> 7 <= score < 10
    ensures LevelFor(score) == Medium <==> 4 <= score < 7
    ensures LevelFor(score) == Low <==> 2 <= score < 4
    ensures LevelFor(score) == NoRisk <==> score < 2
  {
  }

  /** A score below the intervention threshold can only be 0, 3, 6, 7 or 9;
      so "low" is only ever reached with 3, "medium" with 6 and "high" with
      7 or 9. */
  lemma ReachableScoresBelowThreshold(messages: seq<Message>, now: int)
    requires Analyze(messages, now).crisisScore < 10
    ensures Analyze(messages, now).crisisScore in {0, 3, 6, 7, 9}
  {
    var text := UserText(messages);
    var a, b, c := |Present(SuicidePhrases, text)|, |Present(SelfHarmPhrases, text)|, |Present(SeverePhrases, text)|;
    assert 10 * a + 7 * b + 3 * c < 10;
    assert a == 0;
    assert b <= 1;
    if b == 1 {
      assert c == 0;
    } else {
      assert c <= 3;
    }
  }

  /** `isCrisis`, `requiresIntervention`, a score of at least 10 and the
      level "critical" are one and the same condition. */
  lemma InterventionIffCritical(messages: seq<Message>, now: int)
    ensures var a := Analyze(messages, now);
      && a.isCrisis == a.requiresIntervention
      && (a.requiresIntervention <==> a.crisisScore >= InterventionThreshold)
      && (a.requiresIntervention <==> a.crisisLevel == Critical)
  {
  }

  /** `detectedKeywords` has no duplicates and holds exactly the listed
      phrases that occur in the user text. */
  lemma DetectedKeywordsExact(messages: seq<Message>, now: int)
    ensures NoDuplicates(Analyze(messages, now).detectedKeywords)
    ensures forall k :: k in Analyze(messages, now).detectedKeywords <==> (k in AllPhrases() && Contains(UserText(messages), k))
  {
    var text := UserText(messages);
    PresentMembers(SuicidePhrases, text);
    PresentMembers(SelfHarmPhrases, text);
    PresentMembers(SeverePhrases, text);
  }

  /** `detectedKeywords` lists the phrases found in scan order: the
      suicide tier's first, then self-harm, then the severe tier, each in
      its listed order. De-duplication removes nothing because no phrase
      is listed twice. */
  lemma KeywordsInScanOrder(messages: seq<Message>, now: int)
    ensures Analyze(messages, now).detectedKeywords == Found(UserText(messages))
    ensures Analyze(messages, now).detectedKeywords
      == Present(SuicidePhrases, UserText(messages)) + Present(SelfHarmPhrases, UserText(messages))
         + Present(SeverePhrases, UserText(messages))
  {
    FoundDistinct(UserText(messages));
    DedupDistinct(Found(UserText(messages)));
  }

  lemma {:induction false} NoUserContents(messages: seq<Message>)
    requires forall i :: 0 <= i < |messages| ==> messages[i].role != "user"
    ensures UserContents(messages) == []
    decreases |messages|
  {
    if messages != [] {
      NoUserContents(messages[1..]);
    }
  }

  /** An empty transcript, or one without user turns, scores 0 at level
      none with no keywords. */
  lemma NoUserTurnsNoRisk(messages: seq<Message>, now: int)
    requires forall i :: 0 <= i < |messages| ==> messages[i].role != "user"
    ensures Analyze(messages, now).crisisScore == 0
    ensures Analyze(messages, now).crisisLevel == NoRisk
    ensures Analyze(messages, now).detectedKeywords == []
    ensures !Analyze(messages, now).requiresIntervention
  {
    NoUserContents(messages);
    assert UserText(messages) == [];
    forall k | k in AllPhrases() ensures !Contains([], k) {
      EmptyContainsOnlyEmpty(k);
    }
    PresentNone(SuicidePhrases, []);
    PresentNone(SelfHarmPhrases, []);
    PresentNone(SeverePhrases, []);
  }

  // ---------------------------------------------------------------------
  // Summary for the emergency contacts

  /** `xs.slice(-n)`: the last `n` entries, or all of them when fewer. */
  function LastN<T>(xs: seq<T>, n: nat): (r: seq<T>)
    ensures |r| == if |xs| < n then |xs| else n
    ensures r == xs[|xs| - |r|..]
  {
    if |xs| <= n then xs else xs[|xs| - n..]
  }

  /** The recent-conversation clause: the last five user turns, unchanged
      and in order, joined by ". ". */
  function RecentContext(messages: seq<Message>): string
  {
    Join(LastN(UserContents(messages), 5), ". ")
  }

  const SummaryClosing: string :=
    ". \n    This person may be in immediate danger and requires urgent attention. \n"
    + "    Please contact them immediately or call emergency services if you cannot reach them."

  /** `generateCrisisSummary(user, messages, analysis)`: a fixed template
      around the user's name, the level, the keywords joined by ", " and the
      recent context. */
  function GenerateCrisisSummary(userName: string, messages: seq<Message>, analysis: CrisisAnalysis): (r: string)
    ensures Contains(r, userName)
    ensures Contains(r, analysis.crisisLevel.Name())
    ensures Contains(r, Join(analysis.detectedKeywords, ", "))
    ensures Contains(r, RecentContext(messages))
  {
    var level, kws, ctx := analysis.crisisLevel.Name(), Join(analysis.detectedKeywords, ", "), RecentContext(messages);
    var tail4 := ". \n    Recent conversation context: " + ctx + SummaryClosing;
    var tail3 := ". \n    Detected indicators: " + kws + tail4;
    var tail2 := ". \n    Crisis level: " + level + tail3;
    var head := "Emergency alert for ";
    ContainsMiddle(". \n    Recent conversation context: ", ctx, SummaryClosing);
    ContainsMiddle(". \n    Detected indicators: ", kws, tail4);
    ContainsMiddle(". \n    Crisis level: ", level, tail3);
    ContainsMiddle(head, userName, tail2);
    ContainsRight(head + userName, tail2, level);
    ContainsRight(". \n    Crisis level: " + level, tail3, kws);
    ContainsRight(head + userName, tail2, kws);
    ContainsRight(". \n    Detected indicators: " + kws, tail4, ctx);
    ContainsRight(". \n    Crisis level: " + level, tail3, ctx);
    ContainsRight(head + userName, tail2, ctx);
    head + userName + tail2
  }

  /** The summary's context is built from at most the last five user turns,
      in their original order, and is empty when there are none. */
  lemma RecentContextIsLastFive(messages: seq<Message>)
    ensures var us := UserContents(messages);
      RecentContext(messages) == Join(us[|us| - (if |us| < 5 then |us| else 5)..], ". ")
    ensures UserContents(messages) == [] ==> RecentContext(messages) == ""
  {
  }

  // ---------------------------------------------------------------------
  // Hotlines

  datatype UsResources = UsResources(suicide: string, crisis: string, text: string)
  datatype InternationalResources = InternationalResources(suicide: string, crisis: string)
  datatype CrisisResources = CrisisResources(us: UsResources, international: InternationalResources)

  /** `getCrisisResources()`: the fixed hotline table. */
  function GetCrisisResources(): (r: CrisisResources)
    ensures r.us.suicide == r.international.suicide && r.us.crisis == r.international.crisis
    ensures r.us.suicide != r.us.crisis
  {
    CrisisResources(
      UsResources("988", "1-800-273-8255", "Text HOME to 741741"),
      InternationalResources("988", "1-800-273-8255"))
  }
}
