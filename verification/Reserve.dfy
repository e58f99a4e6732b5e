/** The room an admission reserves for the recovery prompts that its Work may need later. */
module Reserve {
  import opened Common
  import Tables
  import opened Text
  import opened Prompt
  import opened Continuation
  import opened Selection
  import opened Assembly

  const MAX_QUESTION: nat := 8192
  const MAX_ANSWER: nat := 8192
  const MAX_INTEGER: nat := 9223372036854775807

  // ---------------------------------------------------------------- what a base prompt weighs

  /** The part that depends on what the admission already knows. */
  function Known(w: Wording, title: string, repository: string, prompt: string, branch: string): nat
    requires w.Valid()
  {
    Total(w.frame) + Bytes(title) + Bytes(repository) + 2 * MAX_BRANCH + 2 * Bytes(branch) + Bytes(prompt)
    + Total(w.recovery) + Bytes(w.header) + Total(w.marker)
  }

  /** The part that depends on what happens to the Work. */
  function Recovery(s: State, records: nat): nat {
    Bytes(OrNone(s.pendingResume)) + Bytes(OrNone(s.checkpoint)) + Bytes(OrNone(s.url))
    + Bytes(OrNone(s.headBranch)) + Bytes(OrNone(s.headSha)) + Bytes(Truth(s.retryMayRepeat))
    + Bytes(Escape(OrNone(s.question))) + Bytes(OrNone(s.answer)) + Counts(records, 0, records)
  }

  lemma RecoveryTotal(s: State)
    ensures Total(RecoveryValues(s)) == Bytes(s.resolvedPrompt) + Bytes(s.publishBranch)
      + Bytes(OrNone(s.pendingResume)) + Bytes(OrNone(s.checkpoint)) + Bytes(OrNone(s.url))
      + Bytes(OrNone(s.headBranch)) + Bytes(OrNone(s.headSha)) + Bytes(Truth(s.retryMayRepeat))
      + Bytes(Escape(OrNone(s.question))) + Bytes(OrNone(s.answer))
  {
    hide Total, Bytes, OrNone, Escape, Truth;
    var v := RecoveryValues(s);
    TotalOfSeven(v[3], v[4], v[5], v[6], v[7], v[8], v[9]);
    TotalOfCons(v[2], v[3..]);
    TotalOfCons(v[1], v[2..]);
    TotalOfCons(v[0], v[1..]);
    assert v[3..] == [v[3], v[4], v[5], v[6], v[7], v[8], v[9]];
    assert v[2..] == [v[2]] + v[3..] && v[1..] == [v[1]] + v[2..] && v == [v[0]] + v[1..];
  }

  lemma BaseWeight(w: Wording, digest: string -> string, s: State, history: seq<Entry>)
    requires w.Valid() && IsDigest(digest)
    ensures Bytes(Framed(w, s, Base(w, digest, s, history))) ==
      Known(w, s.title, s.repository, s.resolvedPrompt, s.publishBranch) + Recovery(s, |history|)
  {
    hide Bytes, Framed, Base, Counts, OrNone, Escape, Truth, IsDigest;
    WeightOfBase(w, digest, s, history);
    BytesOfInterleave(w.recovery, RecoveryValues(s));
    RecoveryTotal(s);
  }

  // ---------------------------------------------------------------- the reserve

  function ReserveUrl(): string { "https://github.com/" + Repeat('r', 2028) }

  /** agentContinuationReserveFits' worst case. */
  function ReserveState(title: string, repository: string, prompt: string, branch: string): State {
    State(title, repository, prompt, branch, Repeat(0x85 as char, MAX_QUESTION / 2), Repeat('a', MAX_ANSWER),
          Repeat('f', 64), Repeat('f', 64), ReserveUrl(), Repeat('b', 255), Repeat('f', 64), true)
  }

  function ReserveHistory(): (history: seq<Entry>)
    ensures |history| == 2
  {
    [Entry(MAX_INTEGER, false, "needs-input", "agent", Repeat('q', MAX_QUESTION), "", "", "", Repeat('f', 64), MAX_INTEGER, false),
     Entry(MAX_INTEGER, true, "", "operator", Repeat('a', MAX_ANSWER), "", "", "", "", MAX_INTEGER, true)]
  }

  predicate ReserveFits(w: Wording, digest: string -> string, title: string, repository: string, prompt: string, branch: string)
    requires w.Valid()
  {
    var s := ReserveState(title, repository, prompt, branch);
    var assembled := Assembled(w, digest, s, ReserveHistory());
    assembled.Some? && PromptFits(w, s, assembled.value)
  }

  const RESERVED: nat := 35335

  lemma FilledBytes(c: char, n: nat)
    requires 0 < n
    ensures Bytes(Repeat(c, n)) == Bytes(OrNone(Repeat(c, n))) == Width(c) * n
  {
    BytesOfRepeat(c, n);
  }

  lemma ReserveUrlBytes()
    ensures Bytes(ReserveUrl()) == Bytes(OrNone(ReserveUrl())) == 2047
  {
    hide Bytes, Repeat;
    AsciiBytes("https://github.com/");
    BytesOfRepeat('r', 2028);
    BytesOfConcat("https://github.com/", Repeat('r', 2028));
  }

  lemma ReservedIs(title: string, repository: string, prompt: string, branch: string)
    ensures Recovery(ReserveState(title, repository, prompt, branch), 2) == RESERVED
  {
    hide Bytes, Repeat, Escape, OrNone, Truth, Counts, ReserveUrl;
    QuestionReserve();
    ReserveUrlBytes();
    FilledBytes('a', MAX_ANSWER);
    FilledBytes('f', 64);
    FilledBytes('b', 255);
    TruthBytes(true);
    assert Counts(2, 0, 2) == 67 by { TwoCounts(); }
  }

  lemma TwoCounts()
    ensures Counts(2, 0, 2) == 67
  {
  }

  lemma QuestionReserve()
    ensures Bytes(Escape(OrNone(Repeat(0x85 as char, MAX_QUESTION / 2)))) == 3 * MAX_QUESTION + 2
  {
    var q := Repeat(0x85 as char, MAX_QUESTION / 2);
    BytesOfEscape(q);
    EscapeExpands(q);
    BytesOfRepeat(0x85 as char, MAX_QUESTION / 2);
    hide Bytes, EscapeAll, Repeat;
  }

  /** The reserve is a plain budget: what is known plus a fixed number of bytes. */
  lemma ReserveIsABudget(w: Wording, digest: string -> string, title: string, repository: string, prompt: string, branch: string)
    requires w.Valid() && IsDigest(digest)
    ensures ReserveFits(w, digest, title, repository, prompt, branch)
      <==> Known(w, title, repository, prompt, branch) + RESERVED <= MAX_PROMPT
  {
    hide Bytes, Framed, Base, Known, Recovery, ReserveHistory, IsDigest, Assembled;
    var s := ReserveState(title, repository, prompt, branch);
    AssembledFits(w, digest, s, ReserveHistory());
    BaseWeight(w, digest, s, ReserveHistory());
    ReservedIs(title, repository, prompt, branch);
  }

  /** Later recovery prompts of Work admitted with some resolved prompt. */
  predicate LaterFits(w: Wording, digest: string -> string, s: State, history: seq<Entry>, prompt: string)
    requires w.Valid()
  {
    Assembled(w, digest, s.(resolvedPrompt := prompt), history).Some?
  }

  lemma LaterIsABudget(w: Wording, digest: string -> string, s: State, history: seq<Entry>, prompt: string)
    requires w.Valid() && IsDigest(digest)
    ensures LaterFits(w, digest, s, history, prompt)
      <==> Known(w, s.title, s.repository, prompt, s.publishBranch) + Recovery(s, |history|) <= MAX_PROMPT
  {
    hide Bytes, Framed, Base, Known, IsDigest, Assembled;
    AssembledFits(w, digest, s.(resolvedPrompt := prompt), history);
    BaseWeight(w, digest, s.(resolvedPrompt := prompt), history);
    hide Recovery;
    SameRecovery(s, prompt, |history|);
  }

  lemma SameRecovery(s: State, prompt: string, n: nat)
    ensures Recovery(s.(resolvedPrompt := prompt), n) == Recovery(s, n)
  {
    hide Bytes, Counts, Escape, OrNone;
  }

  /** The longest prompt of one letter that an admission still takes. */
  function Tightest(w: Wording, s: State): string
    requires w.Valid()
  {
    var taken := RESERVED + Known(w, s.title, s.repository, "", s.publishBranch);
    Repeat('a', if taken <= MAX_PROMPT then MAX_PROMPT - taken else 0)
  }

  /** If what happens to the Work takes more than was reserved, that prompt is admitted and then fails. */
  lemma TightestFails(w: Wording, digest: string -> string, s: State, history: seq<Entry>)
    requires w.Valid() && IsDigest(digest) && RESERVED < Recovery(s, |history|)
    requires ReserveFits(w, digest, s.title, s.repository, "", s.publishBranch)
    ensures ReserveFits(w, digest, s.title, s.repository, Tightest(w, s), s.publishBranch)
    ensures !LaterFits(w, digest, s, history, Tightest(w, s))
  {
    hide Recovery, IsDigest, ReserveFits, LaterFits, Known, Repeat;
    ReserveIsABudget(w, digest, s.title, s.repository, "", s.publishBranch);
    KnownGrows(w, s.title, s.repository, |Tightest(w, s)|, s.publishBranch);
    ReserveIsABudget(w, digest, s.title, s.repository, Tightest(w, s), s.publishBranch);
    LaterIsABudget(w, digest, s, history, Tightest(w, s));
  }

  /** The reserve covers what later happens to the Work, for every prompt it admits, exactly when that takes no
      more bytes than were reserved. */
  lemma ReserveIsExact(w: Wording, digest: string -> string, s: State, history: seq<Entry>)
    requires w.Valid() && IsDigest(digest)
    requires ReserveFits(w, digest, s.title, s.repository, "", s.publishBranch)
    ensures (forall prompt :: ReserveFits(w, digest, s.title, s.repository, prompt, s.publishBranch)
                              ==> LaterFits(w, digest, s, history, prompt))
      <==> Recovery(s, |history|) <= RESERVED
  {
    hide Recovery, IsDigest, ReserveFits, LaterFits, Known;
    forall prompt
      ensures ReserveFits(w, digest, s.title, s.repository, prompt, s.publishBranch)
        <==> Known(w, s.title, s.repository, prompt, s.publishBranch) + RESERVED <= MAX_PROMPT
      ensures LaterFits(w, digest, s, history, prompt)
        <==> Known(w, s.title, s.repository, prompt, s.publishBranch) + Recovery(s, |history|) <= MAX_PROMPT
    {
      ReserveIsABudget(w, digest, s.title, s.repository, prompt, s.publishBranch);
      LaterIsABudget(w, digest, s, history, prompt);
    }
    if Recovery(s, |history|) > RESERVED { TightestFails(w, digest, s, history); }
  }

  lemma KnownGrows(w: Wording, title: string, repository: string, room: nat, branch: string)
    requires w.Valid()
    ensures Known(w, title, repository, Repeat('a', room), branch) == Known(w, title, repository, "", branch) + room
  {
    BytesOfRepeat('a', room);
    assert Bytes("") == 0;
    hide Bytes, Repeat, Total;
  }

  // ---------------------------------------------------------------- what the protocol allows

  /** The limits that updates, answers and shas respect; a question that was asked is not blank. */
  predicate WithinLimits(s: State, records: nat) {
    && Bytes(s.pendingResume) <= 64 && Bytes(s.checkpoint) <= 64 && Bytes(s.headSha) <= 64
    && Bytes(s.url) <= 2048 && Bytes(s.headBranch) <= 255
    && Bytes(s.question) <= MAX_QUESTION && (s.question == "" || !Tables.Blank(s.question))
    && Bytes(s.answer) <= MAX_ANSWER && records <= MAX_INTEGER
  }

  lemma OrNoneBytes(value: string, limit: nat)
    requires Bytes(value) <= limit && 6 <= limit
    ensures Bytes(OrNone(value)) <= limit && Bytes(OrNone("")) == 6
  {
    AsciiBytes("(none)");
  }

  /** A next-line character is white space, so a question never attains the factor three: two bytes are left over. */
  lemma QuestionBytes(question: string)
    requires Bytes(question) <= MAX_QUESTION && (question == "" || !Tables.Blank(question))
    ensures Bytes(Escape(OrNone(question))) <= 3 * MAX_QUESTION
  {
    BytesOfEscape(OrNone(question));
    if question == "" {
      EscapeExpands("(none)");
      NoneBytes();
    } else {
      EscapeLoses(question);
      NextLinesAreBlank(question);
    }
    hide Bytes, EscapeAll;
  }

  lemma NextLinesAreBlank(text: string)
    requires !Tables.Blank(text)
    ensures exists i :: 0 <= i < |text| && !NextLine(text[i])
  {
    var i :| 0 <= i < |text| && !Tables.IsSpace(text[i]);
    assert !NextLine(text[i]);
  }

  lemma NineteenDigits(n: nat)
    requires n <= MAX_INTEGER
    ensures |Decimal(n)| <= 19
  {
    assert Power10(5) == 100000;
    assert Power10(10) == 10000000000;
    assert Power10(15) == 1000000000000000;
    assert Power10(19) == 10000000000000000000;
    DecimalFits(n, 19);
  }

  /** Everything but the pull request, the retry flag and the record count takes at most what was reserved for it. */
  lemma RecoveryAtMost(s: State, records: nat)
    requires WithinLimits(s, records)
    ensures Recovery(s, records) <= RESERVED - 2 - 2047 - 255 - 64 - 4 - 67
      + Bytes(OrNone(s.url)) + Bytes(OrNone(s.headBranch)) + Bytes(OrNone(s.headSha))
      + Bytes(Truth(s.retryMayRepeat)) + Counts(records, 0, records)
  {
    hide Bytes, OrNone, Escape, Truth, Counts;
    OrNoneBytes(s.pendingResume, 64);
    OrNoneBytes(s.checkpoint, 64);
    OrNoneBytes(s.answer, MAX_ANSWER);
    QuestionBytes(s.question);
  }

  lemma TruthBytes(b: bool)
    ensures Bytes(Truth(b)) == if b then 4 else 5
  {
    AsciiBytes(Truth(b));
  }

  /** Work without a recorded pull request never outgrows its reserve. */
  lemma WithoutPullRequest(w: Wording, digest: string -> string, s: State, history: seq<Entry>)
    requires w.Valid() && IsDigest(digest) && WithinLimits(s, |history|)
    requires s.url == "" && s.headBranch == "" && s.headSha == ""
    requires ReserveFits(w, digest, s.title, s.repository, s.resolvedPrompt, s.publishBranch)
    ensures Assembled(w, digest, s, history).Some?
  {
    hide Bytes, Recovery, Known, ReserveFits, IsDigest, Decimal, OrNone, Truth, Assembled, WithinLimits;
    RecoveryAtMost(s, |history|);
    NoneBytes();
    TruthBytes(s.retryMayRepeat);
    LimitOfRecords(s, |history|);
    NineteenDigits(|history|);
    SmallDecimals(0);
    ReserveIsABudget(w, digest, s.title, s.repository, s.resolvedPrompt, s.publishBranch);
    LaterIsABudget(w, digest, s, history, s.resolvedPrompt);
  }

  lemma NoneBytes()
    ensures Bytes(OrNone("")) == 6
  {
    AsciiBytes("(none)");
  }

  lemma LimitOfRecords(s: State, records: nat)
    requires WithinLimits(s, records)
    ensures records <= MAX_INTEGER && Bytes(s.headBranch) <= 255 && Bytes(s.headSha) <= 64
  {
  }

  /** What a pull request of this many bytes and a history of this many records leave of the reserve. */
  predicate Coverable(url: nat, records: nat) { url + 2 * (|Decimal(records)| - 1) <= 2049 }

  lemma CountsOf(records: nat)
    ensures Counts(records, 0, records) <= 65 + 2 * |Decimal(records)|
    ensures 0 < records ==> Counts(records, 0, records) == 65 + 2 * |Decimal(records)|
  {
    SmallDecimals(0);
    hide Decimal;
  }

  /** Work with a recorded pull request and the retry flag stays within its reserve under that condition. */
  lemma WithPullRequest(w: Wording, digest: string -> string, s: State, history: seq<Entry>)
    requires w.Valid() && IsDigest(digest) && WithinLimits(s, |history|)
    requires s.url != "" && s.retryMayRepeat && Coverable(Bytes(s.url), |history|)
    requires ReserveFits(w, digest, s.title, s.repository, s.resolvedPrompt, s.publishBranch)
    ensures Assembled(w, digest, s, history).Some?
  {
    hide Bytes, Recovery, Known, ReserveFits, IsDigest, Decimal, Counts, Truth, Assembled, WithinLimits;
    RecoveryAtMost(s, |history|);
    CountsOf(|history|);
    LimitOfRecords(s, |history|);
    OrNoneBytes(s.headBranch, 255);
    OrNoneBytes(s.headSha, 64);
    assert Bytes(OrNone(s.url)) == Bytes(s.url);
    TruthBytes(true);
    ReserveIsABudget(w, digest, s.title, s.repository, s.resolvedPrompt, s.publishBranch);
    LaterIsABudget(w, digest, s, history, s.resolvedPrompt);
  }

  // ---------------------------------------------------------------- where it falls short

  /** The question that weighs most once escaped. */
  function WorstQuestion(): string { Repeat(0x85 as char, MAX_QUESTION / 2 - 1) + "\\\\" }

  lemma TwoBackslashes()
    ensures Bytes("\\\\") == 2 && Bytes(EscapeAll("\\\\")) == 4 && !Tables.IsSpace("\\\\"[0])
  {
    var rest := "\\\\";
    AsciiBytes(rest);
    assert rest[1..] == "\\" && rest[1..][1..] == "";
    assert EscapeAll(rest) == "\\\\\\\\";
    AsciiBytes("\\\\\\\\");
  }

  lemma NextLinesAndBackslashes(n: nat)
    ensures var text := Repeat(0x85 as char, n) + "\\\\";
      Bytes(text) == 2 * n + 2 && Bytes(EscapeAll(text)) == 6 * n + 4 && !Tables.Blank(text) && text != ""
  {
    var lines, rest := Repeat(0x85 as char, n), "\\\\";
    TwoBackslashes();
    BytesOfRepeat(0x85 as char, n);
    EscapeExpands(lines);
    assert (lines + rest)[n] == rest[0];
    hide Bytes, EscapeAll, Repeat, Tables.IsSpace;
    BytesOfConcat(lines, rest);
    EscapeOfConcat(lines, rest);
    BytesOfConcat(EscapeAll(lines), EscapeAll(rest));
  }

  lemma WorstQuestionBytes()
    ensures Bytes(WorstQuestion()) == MAX_QUESTION && !Tables.Blank(WorstQuestion()) && WorstQuestion() != ""
    ensures Bytes(Escape(OrNone(WorstQuestion()))) == 3 * MAX_QUESTION
  {
    hide Bytes, EscapeAll, Repeat, Tables.Blank, Escape;
    NextLinesAndBackslashes(MAX_QUESTION / 2 - 1);
    BytesOfEscape(WorstQuestion());
  }

  /** Everything as long as it can be, but for the pull request's URL. */
  function WorstState(title: string, repository: string, branch: string, url: string): State {
    ReserveState(title, repository, "", branch).(question := WorstQuestion(), url := url)
  }

  lemma WorstIsWithin(title: string, repository: string, branch: string, url: string, records: nat)
    requires Bytes(url) <= 2048 && records <= MAX_INTEGER
    ensures WithinLimits(WorstState(title, repository, branch, url), records)
  {
    hide Bytes, Repeat, ReserveUrl, WorstQuestion, Tables.Blank;
    WorstQuestionBytes();
    BytesOfRepeat('a', MAX_ANSWER);
    BytesOfRepeat('f', 64);
    BytesOfRepeat('b', 255);
  }

  lemma WorstRecovery(title: string, repository: string, branch: string, url: string, records: nat)
    requires url != "" && 0 < records
    ensures Recovery(WorstState(title, repository, branch, url), records)
      == RESERVED - 2 - 2047 + Bytes(url) - 67 + 65 + 2 * |Decimal(records)|
  {
    assert Bytes(OrNone(url)) == Bytes(url);
    hide Bytes, Repeat, Escape, OrNone, Truth, Counts, Decimal, ReserveUrl, WorstQuestion;
    ReservedIs(title, repository, "", branch);
    QuestionReserve();
    WorstQuestionBytes();
    ReserveUrlBytes();
    CountsOf(records);
    assert Counts(2, 0, 2) == 67 by { TwoCounts(); }
  }

  /** A later state of the Work that an admission fixed, within all limits, with its pull request and retry flag. */
  predicate LaterState(s: State, title: string, repository: string, branch: string, url: string, records: nat) {
    && s.title == title && s.repository == repository && s.publishBranch == branch && s.url == url && s.retryMayRepeat
    && WithinLimits(s, records)
  }

  /** With a recorded pull request and the retry flag, every admitted prompt and every later state fit if and only if
      the URL and the number of records satisfy the condition. */
  lemma PullRequestIsCoveredIff(w: Wording, digest: string -> string, title: string, repository: string, branch: string,
                                url: string, history: seq<Entry>)
    requires w.Valid() && IsDigest(digest) && ReserveFits(w, digest, title, repository, "", branch)
    requires url != "" && Bytes(url) <= 2048 && 0 < |history| <= MAX_INTEGER
    ensures (forall s, prompt ::
               LaterState(s, title, repository, branch, url, |history|) && ReserveFits(w, digest, title, repository, prompt, branch)
               ==> LaterFits(w, digest, s, history, prompt))
      <==> Coverable(Bytes(url), |history|)
  {
    hide Bytes, Recovery, IsDigest, ReserveFits, LaterFits, WithinLimits, Decimal, Tightest, Assembled, WorstState;
    if Coverable(Bytes(url), |history|) {
      forall s, prompt | LaterState(s, title, repository, branch, url, |history|) && ReserveFits(w, digest, title, repository, prompt, branch)
        ensures LaterFits(w, digest, s, history, prompt)
      {
        PromptAside(s, prompt, |history|);
        WithPullRequest(w, digest, s.(resolvedPrompt := prompt), history);
        assert LaterFits(w, digest, s, history, prompt) by { FitsIsLaterFits(w, digest, s, history, prompt); }
      }
    } else {
      WorstFails(w, digest, title, repository, branch, url, history);
      var s := WorstState(title, repository, branch, url);
      assert LaterState(s, title, repository, branch, url, |history|);
    }
  }

  lemma PromptAside(s: State, prompt: string, records: nat)
    requires WithinLimits(s, records)
    ensures WithinLimits(s.(resolvedPrompt := prompt), records)
  {
    hide Bytes, Tables.Blank;
  }

  lemma FitsIsLaterFits(w: Wording, digest: string -> string, s: State, history: seq<Entry>, prompt: string)
    requires w.Valid() && Assembled(w, digest, s.(resolvedPrompt := prompt), history).Some?
    ensures LaterFits(w, digest, s, history, prompt)
  {
    hide Assembled;
  }

  /** Where the condition fails, the longest admitted prompt does not fit the worst question, answer and history. */
  lemma WorstFails(w: Wording, digest: string -> string, title: string, repository: string, branch: string,
                   url: string, history: seq<Entry>)
    requires w.Valid() && IsDigest(digest) && ReserveFits(w, digest, title, repository, "", branch)
    requires url != "" && Bytes(url) <= 2048 && 0 < |history| <= MAX_INTEGER && !Coverable(Bytes(url), |history|)
    ensures var s := WorstState(title, repository, branch, url);
      && LaterState(s, title, repository, branch, url, |history|)
      && ReserveFits(w, digest, title, repository, Tightest(w, s), branch)
      && !LaterFits(w, digest, s, history, Tightest(w, s))
  {
    hide Bytes, Recovery, IsDigest, ReserveFits, LaterFits, WithinLimits, Decimal, Tightest, WorstQuestion, ReserveUrl, Repeat;
    WorstRecovery(title, repository, branch, url, |history|);
    WorstIsWithin(title, repository, branch, url, |history|);
    TightestFails(w, digest, WorstState(title, repository, branch, url), history);
  }
}
