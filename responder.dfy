/**
 * The landing page's chat widget (`generateResponse` in
 * src/components/landing/AIWidget.jsx): a keyword-scoring responder over a
 * fixed knowledge base.
 *
 * The specification is the function `Classify`, which names the kind of
 * reply for a normalised question; `Say` turns it into the canned text.
 * `FindBestMatch` and `GenerateResponse` are the source's loops, proved to
 * compute what `Classify` names. `Math.random()` is the parameter `rand`.
 */
module Responder {
  import opened Wrappers
  import opened Text

  datatype Entry = Entry(keywords: seq<string>, response: string)

  /** The kind of reply: which branch of `generateResponse` produced it. */
  datatype Reply =
    | Greeting
    | Thanks
    | Answer(entry: nat)
    | MoreDetail
    | DemoInfo
    | Fallback(index: nat)

  /** The running state of the scoring loop: `bestMatch` and `highestScore`. */
  datatype Pick = Pick(best: Option<nat>, high: nat)

  const KnowledgeBase: seq<Entry> := [
    Entry(["what is", "what are you", "tell me about", "introduce", "sangbo berde", "system"],
      "SANGBO BERDE is an innovative waste management system that transforms waste into wealth through sustainable composting. We combine workforce management, mobile alerts, community reporting, and data analytics to create efficient waste collection and processing operations."),
    Entry(["features", "capabilities", "what can you do", "what do you offer", "services"],
      "Our system includes: 1) Workforce Management - digital scheduling and attendance tracking, 2) Mobile Response Alerts - real-time notifications for routes and issues, 3) Community Reporting - citizen portal for waste complaints, and 4) Data Dashboard - analytics for performance monitoring."),
    Entry(["workforce", "staff", "employee", "team", "workers", "management"],
      "Our workforce management features include GPS-based attendance tracking, QR code check-in/check-out, real-time task assignments, and performance analytics. Staff can use mobile apps for route navigation and task completion."),
    Entry(["mobile", "alert", "notification", "phone", "app", "response"],
      "The mobile response system provides real-time notifications for route updates, facility load monitoring, environmental alerts, and emergency notifications. Staff receive instant updates about their assignments and any urgent community issues."),
    Entry(["community", "citizen", "reporting", "complaint", "issue", "portal"],
      "Citizens can use our community reporting portal to submit waste collection issues, improper disposal complaints, or facility concerns. Reports include photo documentation, GPS location tracking, and status updates."),
    Entry(["dashboard", "analytics", "data", "report", "performance", "monitor"],
      "The data dashboard provides HR officers and facility managers with real-time analytics, performance metrics, efficiency reports, and trend analysis. It helps monitor staff performance, collection efficiency, and compost output."),
    Entry(["compost", "sustainable", "environment", "green", "eco", "waste diversion"],
      "We focus on waste diversion from landfills through efficient composting. Our system produces high-quality compost for agricultural use while reducing carbon footprint and optimizing collection routes."),
    Entry(["contact", "reach", "support", "help", "email", "phone", "office"],
      "You can reach us at: Email: info@sangboberde.com, Phone: +63 993-819-0512, or visit our office at Plaza Maestro Commercial Complex, Vigan City, Ilocos Sur."),
    Entry(["cost", "price", "pricing", "fee", "charge", "budget", "expensive"],
      "Our pricing depends on the size of your city and specific requirements. We offer customized solutions starting from basic implementations to comprehensive city-wide systems. Contact us for a detailed quote tailored to your needs."),
    Entry(["start", "begin", "get started", "implementation", "setup", "onboard"],
      "To get started with SANGBO BERDE, contact our team for a consultation. We'll assess your needs, provide a customized implementation plan, and guide you through the setup process. Visit our authentication page to create your account."),
    Entry(["training", "learn", "teach", "education", "course", "tutorial"],
      "We provide comprehensive training programs for all user roles including administrators, supervisors, field staff, and citizens. Training includes system usage, best practices, and ongoing support to ensure successful implementation."),
    Entry(["benefit", "advantage", "why choose", "why use", "value"],
      "SANGBO BERDE offers numerous benefits: reduced operational costs, improved efficiency, better community engagement, sustainable waste practices, real-time monitoring, and comprehensive reporting. Our system helps cities achieve their waste management goals effectively."),
    Entry(["qr", "code", "attendance", "check", "tracking"],
      "Our QR code attendance system allows for seamless check-in/check-out processes. Staff can scan QR codes at designated locations for accurate time tracking and location verification."),
    Entry(["gps", "location", "tracking", "route", "navigation"],
      "GPS tracking enables real-time location monitoring of waste collection vehicles and staff. This ensures efficient route optimization, accurate attendance verification, and improved operational oversight.")
  ]

  const GreetingWords: seq<string> := ["hello", "hi", "hey", "greetings", "good morning", "good afternoon", "good evening"]
  const ThanksWords: seq<string> := ["thank you", "thanks", "appreciate", "grateful"]

  const GreetingReply := "Hello! Welcome to SANGBO BERDE. How can I help you learn more about our waste management system?"
  const ThanksReply := "You're welcome! I'm here to help you understand how SANGBO BERDE can transform your waste management operations. Feel free to ask me anything else!"
  const MoreDetailReply := "I'd be happy to provide more details! Could you specify which aspect of SANGBO BERDE you'd like me to elaborate on? I can explain our workforce management, mobile alerts, community reporting, or analytics features in more detail."
  const DemoReply := "While I can't show you a live demo here, I can describe how our system works. Would you like me to walk you through a typical workflow, such as how waste collection is managed or how community reports are processed?"

  const FallbackCount := 4

  /** The `i`-th of the four fallback replies (`intelligentFallbacks`). */
  function FallbackText(i: nat): string {
    if i == 0 then "That's an interesting question about SANGBO BERDE! While I might not have the exact details you're looking for, I can tell you about our core features: workforce management, mobile alerts, community reporting, and data analytics. What specific aspect interests you most?"
    else if i == 1 then "I'd love to help you with that! As SANGBO BERDE's AI assistant, I specialize in information about our waste management system. Could you rephrase your question or tell me more about what you're trying to learn?"
    else if i == 2 then "Great question! I'm designed to help you understand how SANGBO BERDE transforms waste management. I can provide detailed information about our technology, features, benefits, and implementation process. What would you like to know more about?"
    else "I'm here to assist you with information about SANGBO BERDE's comprehensive waste management solution. While I don't have that specific detail, I can share insights about our workforce management, mobile response system, community engagement tools, and performance analytics. How can I help you today?"
  }

  // ---------------------------------------------------------------------
  // Scoring

  /** What one question word adds for one keyword: 2 if the word lies inside the keyword, 1 if the keyword lies inside the word; words of at most 2 characters add nothing. */
  function WordTerm(keyword: string, word: string): (t: nat)
    ensures t <= 3
    ensures |word| <= 2 ==> t == 0
    ensures t >= 2 <==> |word| > 2 && Contains(keyword, word)
    ensures t % 2 == 1 <==> |word| > 2 && Contains(word, keyword)
  {
    (if |word| > 2 && Contains(keyword, word) then 2 else 0) +
    (if |word| > 2 && Contains(word, keyword) then 1 else 0)
  }

  /** The partial-match points of one keyword over the question's words. */
  function WordsScore(keyword: string, words: seq<string>): (n: nat)
    ensures n <= 3 * |words|
    ensures (forall k :: 0 <= k < |words| ==> |words[k]| <= 2) ==> n == 0
  {
    if words == [] then 0
    else WordsScore(keyword, words[..|words| - 1]) + WordTerm(keyword, words[|words| - 1])
  }

  /** One keyword's points: 3 for an exact occurrence in the question, plus its partial-match points. */
  function KeywordScore(keyword: string, q: string, words: seq<string>): (n: nat)
    ensures Contains(q, keyword) ==> n >= 3
    ensures n <= 3 + 3 * |words|
  {
    (if Contains(q, keyword) then 3 else 0) + WordsScore(keyword, words)
  }

  /** An entry's score: the sum of its keywords' points. */
  function EntryScore(keywords: seq<string>, q: string, words: seq<string>): (n: nat)
    ensures forall k :: 0 <= k < |keywords| ==> n >= KeywordScore(keywords[k], q, words)
  {
    if keywords == [] then 0
    else EntryScore(keywords[..|keywords| - 1], q, words) + KeywordScore(keywords[|keywords| - 1], q, words)
  }

  /** The score of every entry of `kb` for the question `q`, in knowledge-base order. */
  function Scores(kb: seq<Entry>, q: string): (s: seq<nat>)
    ensures |s| == |kb|
    ensures forall i, k :: 0 <= i < |kb| && 0 <= k < |kb[i].keywords| && Contains(q, kb[i].keywords[k]) ==> s[i] >= 3
  {
    var words := Split(q);
    seq(|kb|, i requires 0 <= i < |kb| => EntryScore(kb[i].keywords, q, words))
  }

  /**
   * The scoring loop's final `bestMatch`/`highestScore` over the scores `s`:
   * `high` is the largest score (0 when there is none), and `best` is the
   * first index that reaches it, or `None` when every score is 0.
   */
  function Argmax(s: seq<nat>): (p: Pick)
    ensures forall j :: 0 <= j < |s| ==> s[j] <= p.high
    ensures p.best.None? ==> p.high == 0
    ensures p.best.Some? ==> p.best.value < |s| && s[p.best.value] == p.high && p.high > 0
    ensures p.best.Some? ==> forall j :: 0 <= j < p.best.value ==> s[j] < p.high
  {
    if s == [] then Pick(None, 0)
    else
      var p := Argmax(s[..|s| - 1]);
      if s[|s| - 1] > p.high then Pick(Some(|s| - 1), s[|s| - 1]) else p
  }

  // ---------------------------------------------------------------------
  // The reply

  /** The index of the random fallback: the floor of four times the random number `rand`. */
  function FallbackIndex(rand: real): (i: nat)
    requires 0.0 <= rand < 1.0
    ensures i < FallbackCount
    ensures i as real <= rand * 4.0 < i as real + 1.0
  {
    (rand * 4.0).Floor
  }

  predicate AsksForDetail(q: string) {
    Contains(q, "more") || Contains(q, "detail") || Contains(q, "explain")
  }

  predicate AsksForDemo(q: string) {
    Contains(q, "demo") || Contains(q, "show") || Contains(q, "see")
  }

  /** The branch `generateResponse` takes for the normalised question `q` over the knowledge base `kb`. */
  function Classify(q: string, rand: real, kb: seq<Entry>): (r: Reply)
    requires 0.0 <= rand < 1.0
    ensures r.Answer? ==> r.entry < |kb|
    ensures r.Fallback? ==> r.index < FallbackCount
  {
    if ContainsAnyWord(q, GreetingWords) then Greeting
    else if ContainsAnyWord(q, ThanksWords) then Thanks
    else
      var p := Argmax(Scores(kb, q));
      if p.best.Some? && p.high >= 2 then Answer(p.best.value)
      else Unmatched(q, rand)
  }

  /** The reply when no knowledge-base entry reaches the threshold: the two contextual checks, then a fallback. */
  function Unmatched(q: string, rand: real): (r: Reply)
    requires 0.0 <= rand < 1.0
    ensures r.MoreDetail? || r.DemoInfo? || r.Fallback?
    ensures r.Fallback? ==> r.index < FallbackCount && r.index as real <= rand * 4.0 < r.index as real + 1.0
  {
    if AsksForDetail(q) then MoreDetail
    else if AsksForDemo(q) then DemoInfo
    else Fallback(FallbackIndex(rand))
  }

  /** The reply of `generateResponse(question)` when `Math.random()` returns `rand`. */
  function Respond(question: string, rand: real): (r: Reply)
    requires 0.0 <= rand < 1.0
    ensures r.Answer? ==> r.entry < |KnowledgeBase|
    ensures r.Fallback? ==> r.index < FallbackCount
  {
    Classify(Normalize(question), rand, KnowledgeBase)
  }

  /** The text of a reply. */
  function Say(r: Reply, kb: seq<Entry>): string {
    match r
    case Greeting => GreetingReply
    case Thanks => ThanksReply
    case Answer(i) => if i < |kb| then kb[i].response else ""
    case MoreDetail => MoreDetailReply
    case DemoInfo => DemoReply
    case Fallback(i) => FallbackText(i)
  }

  // ---------------------------------------------------------------------
  // The source's loops

  /** The body of the scoring loop for one knowledge-base entry: its `score`. */
  method ScoreEntry(keywords: seq<string>, q: string, questionWords: seq<string>) returns (score: nat)
    ensures score == EntryScore(keywords, q, questionWords)
  {
    score := 0;
    var k := 0;
    while k < |keywords|
      invariant 0 <= k <= |keywords|
      invariant score == EntryScore(keywords[..k], q, questionWords)
    {
      var keyword := keywords[k];
      ghost var before := score;
      if Contains(q, keyword) {
        score := score + 3;
      }
      var w := 0;
      while w < |questionWords|
        invariant 0 <= w <= |questionWords|
        invariant score == before + (if Contains(q, keyword) then 3 else 0) + WordsScore(keyword, questionWords[..w])
      {
        var word := questionWords[w];
        if |word| > 2 && Contains(keyword, word) {
          score := score + 2;
        }
        if |word| > 2 && Contains(word, keyword) {
          score := score + 1;
        }
        assert questionWords[..w + 1][..w] == questionWords[..w];
        w := w + 1;
      }
      assert questionWords[..w] == questionWords;
      assert keywords[..k + 1][..k] == keywords[..k];
      k := k + 1;
    }
    assert keywords[..k] == keywords;
  }

  /** The scoring loop of `generateResponse`: `bestMatch` and `highestScore` after every entry is scored. */
  method FindBestMatch(kb: seq<Entry>, q: string) returns (bestMatch: Option<nat>, highestScore: nat)
    ensures Pick(bestMatch, highestScore) == Argmax(Scores(kb, q))
  {
    bestMatch, highestScore := None, 0;
    ghost var scores := Scores(kb, q);
    var n := 0;
    while n < |kb|
      invariant 0 <= n <= |kb|
      invariant Pick(bestMatch, highestScore) == Argmax(scores[..n])
    {
      var questionWords := Split(q);
      var score := ScoreEntry(kb[n].keywords, q, questionWords);
      assert score == scores[n];
      assert scores[..n + 1][..n] == scores[..n];
      if score > highestScore {
        bestMatch := Some(n);
        highestScore := score;
      }
      n := n + 1;
    }
    assert scores[..n] == scores;
  }

  /** `generateResponse(question)` with `Math.random()` returning `rand`, over the knowledge base `kb`. */
  method GenerateResponse(kb: seq<Entry>, question: string, rand: real) returns (reply: string)
    requires 0.0 <= rand < 1.0
    ensures reply == Say(Classify(Normalize(question), rand, kb), kb)
  {
    var lowerQuestion := Trim(Lower(question));
    reply := ReplyTo(kb, lowerQuestion, rand);
  }

  /** Everything `generateResponse` does after normalising its input `lowerQuestion`. */
  method ReplyTo(kb: seq<Entry>, lowerQuestion: string, rand: real) returns (reply: string)
    requires 0.0 <= rand < 1.0
    ensures reply == Say(Classify(lowerQuestion, rand, kb), kb)
  {
    if ContainsAnyWord(lowerQuestion, GreetingWords) {
      return GreetingReply;
    }
    if ContainsAnyWord(lowerQuestion, ThanksWords) {
      return ThanksReply;
    }
    var bestMatch, highestScore := FindBestMatch(kb, lowerQuestion);
    if bestMatch.Some? && highestScore >= 2 {
      return kb[bestMatch.value].response;
    }
    reply := ContextualReply(lowerQuestion, rand);
  }

  /** The contextual replies and the random fallback of `generateResponse`. */
  method ContextualReply(lowerQuestion: string, rand: real) returns (reply: string)
    requires 0.0 <= rand < 1.0
    ensures reply == Say(Unmatched(lowerQuestion, rand), [])
  {
    if AsksForDetail(lowerQuestion) {
      return MoreDetailReply;
    }
    if AsksForDemo(lowerQuestion) {
      return DemoReply;
    }
    return FallbackText(FallbackIndex(rand));
  }
}

/** What `generateResponse` promises, stated over `Classify`. */
module ResponderFacts {
  import opened Wrappers
  import opened Text
  import opened Responder

  /** The reply depends on the question only through its normal form. */
  lemma ReplyDependsOnNormalForm(question: string, rand: real)
    requires 0.0 <= rand < 1.0
    ensures Respond(Normalize(question), rand) == Respond(question, rand)
  {
    NormalizeIdempotent(question);
  }

  /**
   * The knowledge base has 14 entries, and two keywords are shared: "phone"
   * by the mobile-alert and the contact entries, "tracking" by the QR-code
   * and the GPS entries. A question whose only match is a shared keyword
   * therefore ties, and `TieGoesToFirst` decides it.
   */
  lemma SharedKeywords()
    ensures |KnowledgeBase| == 14
    ensures forall e :: 0 <= e < |KnowledgeBase| ==> |KnowledgeBase[e].keywords| >= 5
    ensures KnowledgeBase[3].keywords[3] == "phone" && KnowledgeBase[7].keywords[5] == "phone"
    ensures KnowledgeBase[12].keywords[4] == "tracking" && KnowledgeBase[13].keywords[2] == "tracking"
  {
  }

  /** Greeting is checked first and gratitude second, whatever the knowledge base holds. */
  lemma GreetingThenThanks(q: string, rand: real, kb: seq<Entry>)
    requires 0.0 <= rand < 1.0
    ensures ContainsAnyWord(q, GreetingWords) ==> Classify(q, rand, kb) == Greeting
    ensures !ContainsAnyWord(q, GreetingWords) && ContainsAnyWord(q, ThanksWords) ==> Classify(q, rand, kb) == Thanks
    ensures !Classify(q, rand, kb).Greeting? && !Classify(q, rand, kb).Thanks? ==>
              !ContainsAnyWord(q, GreetingWords) && !ContainsAnyWord(q, ThanksWords)
  {
  }

  /** A keyword that occurs verbatim in the question gives its entry at least 3 points. */
  lemma {:induction false} KeywordOccurrenceScores(keywords: seq<string>, q: string, words: seq<string>, k: nat)
    requires k < |keywords| && Contains(q, keywords[k])
    ensures EntryScore(keywords, q, words) >= 3
    decreases |keywords|
  {
    if k < |keywords| - 1 {
      KeywordOccurrenceScores(keywords[..|keywords| - 1], q, words, k);
    }
  }

  /**
   * A knowledge-base answer is given exactly when the question is neither a
   * greeting nor a thanks and some entry scores at least 2; the answer is
   * then the first entry with the highest score.
   */
  lemma AnswerIff(q: string, rand: real, kb: seq<Entry>)
    requires 0.0 <= rand < 1.0
    ensures Classify(q, rand, kb).Answer? <==>
              !ContainsAnyWord(q, GreetingWords) && !ContainsAnyWord(q, ThanksWords) &&
              exists e :: 0 <= e < |kb| && Scores(kb, q)[e] >= 2
    ensures Classify(q, rand, kb).Answer? ==>
              var i := Classify(q, rand, kb).entry;
              i < |kb| && Scores(kb, q)[i] >= 2 &&
              (forall j :: 0 <= j < |kb| ==> Scores(kb, q)[j] <= Scores(kb, q)[i]) &&
              (forall j :: 0 <= j < i ==> Scores(kb, q)[j] < Scores(kb, q)[i])
  {
    var s := Scores(kb, q);
    if exists e :: 0 <= e < |kb| && s[e] >= 2 {
      var e :| 0 <= e < |kb| && s[e] >= 2;
      assert Argmax(s).high >= s[e];
    }
  }

  /** `bestMatch` stays null exactly when every entry scores 0. */
  lemma NoMatchIff(s: seq<nat>)
    ensures Argmax(s).best.None? <==> forall j :: 0 <= j < |s| ==> s[j] == 0
  {
    if Argmax(s).best.Some? {
      assert s[Argmax(s).best.value] > 0;
    }
  }

  /** An entry that ties with an earlier one is never the answer. */
  lemma TieGoesToFirst(q: string, rand: real, kb: seq<Entry>, i: nat, j: nat)
    requires 0.0 <= rand < 1.0
    requires i < j < |kb| && Scores(kb, q)[i] == Scores(kb, q)[j]
    ensures Classify(q, rand, kb) != Answer(j)
  {
    AnswerIff(q, rand, kb);
  }

  /**
   * When the question is neither a greeting nor a thanks and one keyword of
   * one entry occurs in it verbatim, the reply is a knowledge-base answer,
   * never a contextual reply or a fallback, and the chosen entry scores at
   * least 3.
   */
  lemma KeywordOccurrenceAnswers(q: string, rand: real, kb: seq<Entry>, e: nat, k: nat)
    requires 0.0 <= rand < 1.0
    requires !ContainsAnyWord(q, GreetingWords) && !ContainsAnyWord(q, ThanksWords)
    requires e < |kb| && k < |kb[e].keywords| && Contains(q, kb[e].keywords[k])
    ensures Classify(q, rand, kb).Answer?
    ensures Scores(kb, q)[Classify(q, rand, kb).entry] >= 3
  {
    KeywordOccurrenceScores(kb[e].keywords, q, Split(q), k);
    var s := Scores(kb, q);
    assert s[e] >= 3;
    assert Argmax(s).high >= 3;
    AnswerIff(q, rand, kb);
  }

  /** Below the threshold, asking for detail wins over asking for a demo. */
  lemma DetailBeforeDemo(q: string, rand: real)
    requires 0.0 <= rand < 1.0
    ensures AsksForDetail(q) ==> Unmatched(q, rand) == MoreDetail
    ensures !AsksForDetail(q) && AsksForDemo(q) ==> Unmatched(q, rand) == DemoInfo
    ensures !AsksForDetail(q) && !AsksForDemo(q) ==> Unmatched(q, rand).Fallback?
  {
  }

  /** The reply is always one of the canned texts: the function never fails. */
  lemma ReplyIsCanned(q: string, rand: real, kb: seq<Entry>)
    requires 0.0 <= rand < 1.0
    ensures var t := Say(Classify(q, rand, kb), kb);
            t == GreetingReply || t == ThanksReply || t == MoreDetailReply || t == DemoReply ||
            (exists i :: 0 <= i < |kb| && t == kb[i].response) ||
            (exists i :: 0 <= i < FallbackCount && t == FallbackText(i))
  {
    var r := Classify(q, rand, kb);
    if r.Answer? {
      AnswerIff(q, rand, kb);
    } else if r.Fallback? {
      assert r.index < FallbackCount;
    }
  }
}
