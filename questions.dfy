/**
 * Turning a generated reply into a list of technical questions, and the
 * keyword-driven canned questions used when that yields fewer than three.
 */
module Questions {
  import opened Strings
  import opened Utils

  // ---------------------------------------------------------------------------
  // Parsing a generated reply
  // ---------------------------------------------------------------------------

  /** The bullet as it appears in the source: the three characters U+00E2 U+20AC U+00A2. */
  const Bullet: string := "\U{E2}\U{20AC}\U{A2}"

  /** The set `'0123456789.-\u00e2\u20ac\u00a2) '` removed from the front of a question line: digits, '.', '-', the bullet's characters, ')' and ' '. */
  predicate IsPrefixChar(c: char) {
    IsDigit(c) || c == '.' || c == '-' || c == Bullet[0] || c == Bullet[1] || c == Bullet[2] || c == ')' || c == ' '
  }

  /** The line starts with the bullet (`line.startswith(bullet)`). */
  predicate StartsWithBullet(line: string) {
    |line| >= 3 && line[0] == Bullet[0] && line[1] == Bullet[1] && line[2] == Bullet[2]
  }

  lemma StartsWithBulletIsPrefix(line: string)
    ensures StartsWithBullet(line) <==> Bullet <= line
  {
    if StartsWithBullet(line) {
      assert line[..3] == Bullet;
    }
  }

  /** A stripped line that opens a new question: it starts with a digit, '-' or the bullet. */
  predicate StartsQuestion(line: string) {
    line != [] && (IsDigit(line[0]) || line[0] == '-' || StartsWithBullet(line))
  }

  /** The text of a question line once its numbering or bullet is removed. */
  function CleanHead(line: string): (r: string)
    ensures Trimmed(r)
  {
    Strip(LStripWhile(line, IsPrefixChar))
  }

  /** The loop state: the questions finished so far and the one being accumulated. */
  datatype Scan = Scan(questions: seq<string>, current: string)

  /** One iteration of the parse loop on a raw line. */
  function ScanLine(st: Scan, raw: string): Scan {
    var line := Strip(raw);
    if line != [] && StartsQuestion(line) then
      Scan(if st.current != [] then st.questions + [Strip(st.current)] else st.questions, CleanHead(line))
    else if st.current != [] && line != [] then
      Scan(st.questions, st.current + " " + line)
    else st
  }

  /** The parse loop over all lines, from an empty state. */
  function ScanLines(lines: seq<string>): Scan
    decreases |lines|
  {
    if lines == [] then Scan([], [])
    else ScanLine(ScanLines(lines[..|lines| - 1]), lines[|lines| - 1])
  }

  /** One more line of the reply is one more step of the parse loop. */
  lemma ScanLinesStep(lines: seq<string>, i: nat)
    requires i < |lines|
    ensures ScanLines(lines[..i + 1]) == ScanLine(ScanLines(lines[..i]), lines[i])
  {
    assert lines[..i + 1][..i] == lines[..i];
  }

  /** After the loop: the question still being accumulated is appended. */
  function Finish(st: Scan): seq<string> {
    if st.current != [] then st.questions + [Strip(st.current)] else st.questions
  }

  /** The questions parsed out of a reply, before filtering. */
  function ParseQuestions(response: string): seq<string> {
    Finish(ScanLines(Split(response, '\n')))
  }

  /** The text a raw line contributes when it opens a question. */
  function Cleaned(raw: string): string {
    CleanHead(Strip(raw))
  }

  /** A line that opens a question with some text after its numbering. */
  predicate IsHead(raw: string) {
    StartsQuestion(Strip(raw)) && Cleaned(raw) != []
  }

  /** Positions of the lines satisfying `p`, in increasing order. */
  function Positions(lines: seq<string>, p: string -> bool): (r: seq<nat>)
    ensures forall k :: 0 <= k < |r| ==> r[k] < |lines| && p(lines[r[k]])
    ensures forall k, l :: 0 <= k < l < |r| ==> r[k] < r[l]
    ensures forall n :: 0 <= n < |lines| && p(lines[n]) ==> n in r
    decreases |lines|
  {
    if lines == [] then []
    else
      var n := |lines| - 1;
      var init := Positions(lines[..n], p);
      assert forall m :: 0 <= m < n ==> lines[..n][m] == lines[m];
      init + (if p(lines[n]) then [n] else [])
  }

  /** No line satisfies `p` exactly when no position is reported. */
  lemma {:induction false} PositionsEmpty(lines: seq<string>, p: string -> bool)
    requires forall n :: 0 <= n < |lines| ==> !p(lines[n])
    ensures Positions(lines, p) == []
    decreases |lines|
  {
    if lines != [] {
      var n := |lines| - 1;
      forall m | 0 <= m < n ensures !p(lines[..n][m]) {
        assert lines[..n][m] == lines[m];
      }
      PositionsEmpty(lines[..n], p);
    }
  }

  /** Positions of the lines that open a question, in order. */
  function Heads(lines: seq<string>): seq<nat> {
    Positions(lines, IsHead)
  }

  /** The texts of the lines that open a question, in order. */
  function HeadTexts(lines: seq<string>): seq<string>
    decreases |lines|
  {
    if lines == [] then []
    else
      var n := |lines| - 1;
      HeadTexts(lines[..n]) + (if IsHead(lines[n]) then [Cleaned(lines[n])] else [])
  }

  lemma {:induction false} HeadTextsAtHeads(lines: seq<string>)
    ensures |HeadTexts(lines)| == |Heads(lines)|
    ensures forall k :: 0 <= k < |Heads(lines)| ==> HeadTexts(lines)[k] == Cleaned(lines[Heads(lines)[k]])
    decreases |lines|
  {
    if lines != [] {
      var n := |lines| - 1;
      var init := lines[..n];
      HeadTextsAtHeads(init);
      var ht, h := HeadTexts(lines), Heads(lines);
      var ht0, h0 := HeadTexts(init), Heads(init);
      assert ht == ht0 + (if IsHead(lines[n]) then [Cleaned(lines[n])] else []);
      assert h == h0 + (if IsHead(lines[n]) then [n] else []);
      forall k | 0 <= k < |h| ensures ht[k] == Cleaned(lines[h[k]]) {
        if k < |h0| {
          assert ht[k] == ht0[k] && h[k] == h0[k];
          assert init[h0[k]] == lines[h0[k]];
        }
      }
    }
  }

  /**
   * What the parse loop maintains, given the texts `ht` of the question lines
   * seen so far: one question per text, the finished ones first, each
   * beginning with its text, and the one being accumulated trimmed.
   */
  predicate Follows(ht: seq<string>, st: Scan) {
    && |st.questions| + (if st.current != [] then 1 else 0) == |ht|
    && (forall k :: 0 <= k < |st.questions| ==> ht[k] <= st.questions[k])
    && (st.current != [] ==> Trimmed(st.current) && ht[|ht| - 1] <= st.current)
  }

  /** What the parse loop maintains about the lines seen so far. */
  predicate ScanFollowsHeads(lines: seq<string>, st: Scan) {
    Follows(HeadTexts(lines), st)
  }

  /** The finished questions once the one being accumulated is closed. */
  function Closed(st: Scan): seq<string> {
    if st.current != [] then st.questions + [st.current] else st.questions
  }

  /** Closing the current question leaves one question per text, each beginning with it. */
  lemma ClosedFollows(ht: seq<string>, st: Scan)
    requires Follows(ht, st)
    ensures |Closed(st)| == |ht| && forall k :: 0 <= k < |ht| ==> ht[k] <= Closed(st)[k]
  {
  }

  /** Opening a question closes the current one; its text `c` is a new head text unless empty. */
  lemma FollowsOpen(ht: seq<string>, st: Scan, c: string)
    requires Follows(ht, st) && Trimmed(c)
    ensures Follows(ht + (if c != [] then [c] else []), Scan(Closed(st), c))
  {
    ClosedFollows(ht, st);
  }

  /** A continuation line extends the current question, which stays trimmed and keeps its start. */
  lemma FollowsExtend(ht: seq<string>, st: Scan, line: string)
    requires Follows(ht, st) && st.current != [] && line != [] && Trimmed(line)
    ensures Follows(ht, Scan(st.questions, st.current + " " + line))
  {
    var cur := st.current + " " + line;
    assert cur[0] == st.current[0] && cur[|cur| - 1] == line[|line| - 1];
    assert st.current <= cur;
  }

  /** The head texts of a non-empty run of lines: those before the last, then the last one's if it is a head. */
  lemma HeadTextsLast(lines: seq<string>)
    requires lines != []
    ensures var n := |lines| - 1;
      HeadTexts(lines) == HeadTexts(lines[..n]) + (if IsHead(lines[n]) then [Cleaned(lines[n])] else [])
  {
  }

  /** A line opening a question closes the current one and starts its own; it is a head when its text is non-empty. */
  lemma ScanLineOpens(st: Scan, raw: string)
    requires Strip(raw) != [] && StartsQuestion(Strip(raw))
    requires st.current != [] ==> Trimmed(st.current)
    ensures ScanLine(st, raw) == Scan(Closed(st), Cleaned(raw))
    ensures IsHead(raw) <==> Cleaned(raw) != []
  {
    if st.current != [] {
      StripTrimmed(st.current);
    }
  }

  /** Any other line is no head; a non-blank one extends the current question, if any. */
  lemma ScanLineOther(st: Scan, raw: string)
    requires !(Strip(raw) != [] && StartsQuestion(Strip(raw)))
    ensures !IsHead(raw)
    ensures ScanLine(st, raw) ==
      if st.current != [] && Strip(raw) != [] then Scan(st.questions, st.current + " " + Strip(raw)) else st
  {
  }

  lemma {:induction false} ScanLinesFollowsHeads(lines: seq<string>)
    ensures ScanFollowsHeads(lines, ScanLines(lines))
    decreases |lines|
  {
    if lines != [] {
      var n := |lines| - 1;
      var raw, line := lines[n], Strip(lines[n]);
      ScanLinesFollowsHeads(lines[..n]);
      var st, ht0 := ScanLines(lines[..n]), HeadTexts(lines[..n]);
      HeadTextsLast(lines);
      if line != [] && StartsQuestion(line) {
        ScanLineOpens(st, raw);
        FollowsOpen(ht0, st, Cleaned(raw));
      } else {
        ScanLineOther(st, raw);
        if st.current != [] && line != [] {
          FollowsExtend(ht0, st, line);
        }
      }
    }
  }

  /**
   * The parsed questions follow the question lines in order: there is one
   * question per line that opens one, and each question begins with that
   * line's text without its numbering.
   */
  lemma ParsedFollowHeads(lines: seq<string>)
    ensures var qs, h := Finish(ScanLines(lines)), Heads(lines);
      && |qs| == |h|
      && forall k :: 0 <= k < |qs| ==> Cleaned(lines[h[k]]) <= qs[k]
  {
    ScanLinesFollowsHeads(lines);
    HeadTextsAtHeads(lines);
    var st := ScanLines(lines);
    if st.current != [] {
      StripTrimmed(st.current);
    }
    assert Finish(st) == Closed(st);
    ClosedFollows(HeadTexts(lines), st);
  }

  /** A reply with no line opening a question yields no question. */
  lemma NoHeadsNoQuestions(response: string)
    requires forall l :: l in Split(response, '\n') ==> !IsHead(l)
    ensures ParseQuestions(response) == []
  {
    var lines := Split(response, '\n');
    ParsedFollowHeads(lines);
    forall n | 0 <= n < |lines| ensures !IsHead(lines[n]) {
      assert lines[n] in lines;
    }
    PositionsEmpty(lines, IsHead);
  }

  /** `[q for q in questions if len(q) > 10]` */
  function KeepLong(qs: seq<string>): (r: seq<string>)
    ensures |r| <= |qs|
    decreases |qs|
  {
    if qs == [] then []
    else
      var last := qs[|qs| - 1];
      KeepLong(qs[..|qs| - 1]) + (if |last| > 10 then [last] else [])
  }

  /** The kept questions are exactly the candidates longer than ten characters. */
  lemma {:induction false} KeepLongMembers(qs: seq<string>)
    ensures forall q :: q in KeepLong(qs) <==> q in qs && |q| > 10
    decreases |qs|
  {
    if qs != [] {
      var init := qs[..|qs| - 1];
      KeepLongMembers(init);
      assert qs == init + [qs[|qs| - 1]];
    }
  }

  /** One more candidate is kept exactly when it is longer than ten characters. */
  lemma KeepLongStep(qs: seq<string>, j: nat)
    requires j < |qs|
    ensures KeepLong(qs[..j + 1]) == KeepLong(qs[..j]) + (if |qs[j]| > 10 then [qs[j]] else [])
  {
    assert qs[..j + 1][..j] == qs[..j];
  }

  /** `qs[:n]` */
  function Take(qs: seq<string>, n: nat): (r: seq<string>)
    ensures |r| == if |qs| < n then |qs| else n
    ensures r <= qs
  {
    if |qs| <= n then qs else qs[..n]
  }

  // ---------------------------------------------------------------------------
  // Canned questions
  // ---------------------------------------------------------------------------

  /** The topics of the canned questions; `General` is what a stack matching no other topic gets. */
  datatype Topic = Python | JavaScript | React | Database | DevOps | Java | MachineLearning | General

  /** The topics in the order they are tested; `General` is not tested. */
  const Topics: seq<Topic> := [Python, JavaScript, React, Database, DevOps, Java, MachineLearning]

  /** The keywords of a topic: it matches when any of them occurs in the tech stack. */
  function Keywords(t: Topic): seq<string> {
    match t
    case Python => ["python"]
    case JavaScript => ["javascript", "react", "angular", "vue", "node"]
    case React => ["react"]
    case Database => ["sql", "mysql", "postgresql", "database", "mongodb"]
    case DevOps => ["docker", "kubernetes", "aws", "azure", "devops"]
    case Java => ["java"]
    case MachineLearning => ["machine learning", "ml", "tensorflow", "pytorch", "data science"]
    case General => []
  }

  /** How many canned questions a topic has: three each, five general ones. */
  function QuestionCount(t: Topic): nat {
    if t == General then 5 else 3
  }

  /** Canned question `i` of a topic. */
  function Question(t: Topic, i: nat): string
    requires i < QuestionCount(t)
  {
    match t
    case Python =>
      if i == 0 then "Explain the difference between a list and a tuple in Python. When would you use each?" else
      if i == 1 then "What are Python decorators and can you give an example of when you'd use one?" else
      "How does Python's garbage collection work? What is reference counting?"
    case JavaScript =>
      if i == 0 then "Explain the concept of closures in JavaScript with a practical example." else
      if i == 1 then "What is the event loop in JavaScript and how does it handle asynchronous operations?" else
      "Describe the difference between '==' and '===' in JavaScript."
    case React =>
      if i == 0 then "Explain the Virtual DOM in React and how it improves performance." else
      if i == 1 then "What are React Hooks? Explain useState and useEffect with examples." else
      "How do you handle state management in large React applications?"
    case Database =>
      if i == 0 then "Explain the difference between SQL and NoSQL databases. When would you choose one over the other?" else
      if i == 1 then "What are database indexes and how do they improve query performance?" else
      "Describe ACID properties in databases and why they're important."
    case DevOps =>
      if i == 0 then "Explain the difference between containers and virtual machines." else
      if i == 1 then "What is CI/CD and why is it important in modern software development?" else
      "Describe your experience with cloud services and infrastructure as code."
    case Java =>
      if i == 0 then "Explain the difference between an abstract class and an interface in Java." else
      if i == 1 then "What is the Java Virtual Machine (JVM) and how does it work?" else
      "Describe the concept of multithreading in Java and how you handle synchronization."
    case MachineLearning =>
      if i == 0 then "Explain the difference between supervised and unsupervised learning with examples." else
      if i == 1 then "What is overfitting and how do you prevent it?" else
      "Describe a machine learning project you've worked on and the challenges you faced."
    case General =>
      if i == 0 then "Describe a challenging technical problem you solved recently. What was your approach?" else
      if i == 1 then "How do you ensure code quality in your projects? What practices do you follow?" else
      if i == 2 then "Explain your experience with version control systems and collaborative development." else
      if i == 3 then "How do you approach learning new technologies or frameworks?" else
      "Describe your debugging process when encountering a difficult bug."
  }

  /** The canned questions of a topic, in order. */
  function TopicQuestions(t: Topic): (r: seq<string>)
    ensures |r| == QuestionCount(t)
  {
    seq(QuestionCount(t), i requires 0 <= i < QuestionCount(t) => Question(t, i))
  }

  predicate TopicMatches(t: Topic, tech: string) {
    AnyOccurs(Keywords(t), tech)
  }

  /** The questions of the matching topics, concatenated in order. */
  function GroupQuestions(topics: seq<Topic>, tech: string): seq<string>
    decreases |topics|
  {
    if topics == [] then []
    else
      var last := topics[|topics| - 1];
      GroupQuestions(topics[..|topics| - 1], tech) + (if TopicMatches(last, tech) then TopicQuestions(last) else [])
  }

  /** One more topic adds its questions exactly when it matches. */
  lemma GroupQuestionsStep(topics: seq<Topic>, k: nat, tech: string)
    requires k < |topics|
    ensures GroupQuestions(topics[..k + 1], tech) ==
      GroupQuestions(topics[..k], tech) + (if TopicMatches(topics[k], tech) then TopicQuestions(topics[k]) else [])
  {
    assert topics[..k + 1][..k] == topics[..k];
  }

  /** How many of the topics match. */
  function MatchCount(topics: seq<Topic>, tech: string): nat
    decreases |topics|
  {
    if topics == [] then 0
    else
      MatchCount(topics[..|topics| - 1], tech) + (if TopicMatches(topics[|topics| - 1], tech) then 1 else 0)
  }

  /** The specification of `_get_fallback_questions` on the lower-cased raw tech stack. */
  function FallbackQuestions(tech: string): (r: seq<string>)
    ensures 3 <= |r| <= 5
  {
    var fromGroups := GroupQuestions(Topics, tech);
    GroupQuestionsCount(Topics, tech);
    Take(if |fromGroups| < 3 then fromGroups + TopicQuestions(General) else fromGroups, 5)
  }

  /** Each matching topic contributes exactly three questions. */
  lemma {:induction false} GroupQuestionsCount(topics: seq<Topic>, tech: string)
    requires General !in topics
    ensures |GroupQuestions(topics, tech)| == 3 * MatchCount(topics, tech)
    decreases |topics|
  {
    if topics != [] {
      var init := topics[..|topics| - 1];
      assert General !in init by {
        assert forall t :: t in init ==> t in topics;
      }
      GroupQuestionsCount(init, tech);
    }
  }

  lemma {:induction false} MatchCountZero(topics: seq<Topic>, tech: string)
    ensures MatchCount(topics, tech) == 0 <==> forall t :: t in topics ==> !TopicMatches(t, tech)
    decreases |topics|
  {
    if topics != [] {
      var init := topics[..|topics| - 1];
      var last := topics[|topics| - 1];
      MatchCountZero(init, tech);
      assert forall t :: t in topics <==> t in init || t == last by {
        assert topics == init + [last];
      }
    }
  }

  /**
   * The canned list always has three to five questions: the general questions
   * when no topic matched, and otherwise the first five questions of the
   * matching topics.
   */
  lemma FallbackQuestionsShape(tech: string)
    ensures 3 <= |FallbackQuestions(tech)| <= 5
    ensures (forall t :: t in Topics ==> !TopicMatches(t, tech)) ==> FallbackQuestions(tech) == TopicQuestions(General)
    ensures (exists t :: t in Topics && TopicMatches(t, tech)) ==>
      FallbackQuestions(tech) == Take(GroupQuestions(Topics, tech), 5)
  {
    var groups := GroupQuestions(Topics, tech);
    GroupQuestionsCount(Topics, tech);
    MatchCountZero(Topics, tech);
    if MatchCount(Topics, tech) == 0 {
      EmptyGroupQuestions(Topics, tech);
      assert groups + TopicQuestions(General) == TopicQuestions(General);
    } else {
      assert |groups| >= 3;
    }
  }

  lemma {:induction false} EmptyGroupQuestions(topics: seq<Topic>, tech: string)
    requires forall t :: t in topics ==> !TopicMatches(t, tech)
    ensures GroupQuestions(topics, tech) == []
    decreases |topics|
  {
    if topics != [] {
      var init := topics[..|topics| - 1];
      assert forall t :: t in init ==> t in topics;
      EmptyGroupQuestions(init, tech);
    }
  }

  /** The questions of two runs of topics are those of the first run followed by those of the second. */
  lemma {:induction false} GroupQuestionsConcat(a: seq<Topic>, b: seq<Topic>, tech: string)
    ensures GroupQuestions(a + b, tech) == GroupQuestions(a, tech) + GroupQuestions(b, tech)
    decreases |b|
  {
    if b != [] {
      var init := b[..|b| - 1];
      assert (a + b)[..|a + b| - 1] == a + init;
      GroupQuestionsConcat(a, init, tech);
    } else {
      assert a + b == a;
    }
  }

  /** A stack mentioning Python gets the three Python questions first. */
  lemma PythonQuestionsFirst(tech: string)
    requires TopicMatches(Python, tech)
    ensures TopicQuestions(Python) <= FallbackQuestions(tech)
  {
    var rest := Topics[1..];
    GroupQuestionsConcat([Python], rest, tech);
    assert Topics == [Python] + rest;
    assert GroupQuestions([Python], tech) == TopicQuestions(Python) by {
      assert [Python][..0] == [];
    }
    FallbackQuestionsShape(tech);
    assert Python in Topics;
  }
}
