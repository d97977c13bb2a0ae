/** The portfolio document that R2RChatbot.generate_application_document renders from
    the applications page and the questions page (main.py:50-189). JSON scalars that the
    source only interpolates into f-strings are carried as their rendered text. The
    result is the list of lines that the source joins with '\n' and writes to a file. */
module Portfolio {
  import opened Wrappers
  import opened Text

  datatype Company = Company(name: string, location: string, careersLink: string, linkedinLink: string)

  datatype Employee = Employee(
    name: string, jobTitle: string, email: string, linkedinLink: string,
    contacted: string, createdAt: string)

  /** One element of `applications_data['items']`. Optional keys read with `.get` are
      `Option`s; an absent or empty `contactedEmployees` is the empty sequence. */
  datatype Application = Application(
    applicationId: string, jobTitle: string, companyName: string, jobType: string,
    company: Company, status: string, stage: string, submissionDate: string,
    atsScore: Option<string>, description: Option<string>, link: Option<string>,
    contactedEmployees: seq<Employee>, createdAt: string, updatedAt: string)

  /** One element of `questions_data['items']`. */
  datatype Question = Question(applicationId: string, question1: string, answer: string, createdAt: string)

  /** `applications_data`: an absent 'items' key reads as the empty list. */
  datatype ApplicationsPage = ApplicationsPage(items: seq<Application>, totalPages: Option<string>)

  /** `questions_data`: 'items' may be absent, which the grouping tests for explicitly. */
  datatype QuestionsPage = QuestionsPage(items: Option<seq<Question>>, totalCount: Option<string>)

  // ---------------------------------------------------------------------------
  // Grouping questions by application id (main.py:61-67)

  function AppIds(qs: seq<Question>): set<string>
  {
    set q | q in qs :: q.applicationId
  }

  /** The questions of one application, in their original relative order. */
  function QuestionsFor(qs: seq<Question>, id: string): (r: seq<Question>)
    ensures |r| <= |qs|
    ensures forall q :: q in r <==> q in qs && q.applicationId == id
  {
    if qs == [] then []
    else
      var init := qs[..|qs| - 1];
      assert forall q :: q in qs <==> q in init || q == qs[|qs| - 1];
      QuestionsFor(init, id) + (if qs[|qs| - 1].applicationId == id then [qs[|qs| - 1]] else [])
  }

  /** The reference grouping: one key per application id that occurs, holding that id's questions. */
  function Grouped(qs: seq<Question>): map<string, seq<Question>>
  {
    map id | id in AppIds(qs) :: QuestionsFor(qs, id)
  }

  /** Every question lands in the group of its own id, and every group is non-empty. */
  lemma GroupedIsSound(qs: seq<Question>)
    ensures forall q :: q in qs ==> q.applicationId in Grouped(qs) && q in Grouped(qs)[q.applicationId]
    ensures forall id :: id in Grouped(qs) ==> |Grouped(qs)[id]| > 0
  {
    forall id | id in Grouped(qs)
      ensures |Grouped(qs)[id]| > 0
    {
      var q :| q in qs && q.applicationId == id;
      assert q in QuestionsFor(qs, id);
    }
  }

  lemma NoQuestionsForAbsentId(qs: seq<Question>, id: string)
    requires id !in AppIds(qs)
    ensures QuestionsFor(qs, id) == []
  {
  }

  lemma AppIdsSnoc(qs: seq<Question>, q: Question)
    ensures AppIds(qs + [q]) == AppIds(qs) + {q.applicationId}
  {
    assert forall x :: x in qs + [q] <==> x in qs || x == q;
  }

  lemma QuestionsForSnoc(qs: seq<Question>, q: Question, id: string)
    ensures QuestionsFor(qs + [q], id) == QuestionsFor(qs, id) + (if q.applicationId == id then [q] else [])
  {
    assert (qs + [q])[..|qs|] == qs;
  }

  /** A single question forms its own group or none. */
  lemma QuestionsForSingle(q: Question, id: string)
    ensures QuestionsFor([q], id) == (if q.applicationId == id then [q] else [])
  {
    assert [q][..0] == [];
  }

  /** Selecting one id's questions commutes with concatenation. With QuestionsForSingle,
      this makes QuestionsFor a stable filter: the selected questions keep their original
      relative order, and each occurrence is kept once. */
  lemma {:induction false} QuestionsForAppend(a: seq<Question>, b: seq<Question>, id: string)
    ensures QuestionsFor(a + b, id) == QuestionsFor(a, id) + QuestionsFor(b, id)
    decreases |b|
  {
    if b == [] {
      assert a + b == a;
    } else {
      var init, q := b[..|b| - 1], b[|b| - 1];
      var tail := if q.applicationId == id then [q] else [];
      assert b == init + [q];
      assert a + b == (a + init) + [q];
      calc {
        QuestionsFor(a + b, id);
        { QuestionsForSnoc(a + init, q, id); }
        QuestionsFor(a + init, id) + tail;
        { QuestionsForAppend(a, init, id); }
        (QuestionsFor(a, id) + QuestionsFor(init, id)) + tail;
        QuestionsFor(a, id) + (QuestionsFor(init, id) + tail);
        { QuestionsForSnoc(init, q, id); }
        QuestionsFor(a, id) + QuestionsFor(b, id);
      }
    }
  }

  /** Each question of the id occurs in its group exactly as often as in the input;
      questions of other ids do not occur. */
  lemma {:induction false} QuestionsForCounts(qs: seq<Question>, id: string)
    ensures forall q :: multiset(QuestionsFor(qs, id))[q] == if q.applicationId == id then multiset(qs)[q] else 0
  {
    if qs != [] {
      var init, last := qs[..|qs| - 1], qs[|qs| - 1];
      assert qs == init + [last];
      QuestionsForSnoc(init, last, id);
      QuestionsForCounts(init, id);
    }
  }

  /** One step of the grouping loop: `q` joins the end of its id's group, which is created
      empty when the id is new. */
  function AddToGroup(groups: map<string, seq<Question>>, q: Question): (r: map<string, seq<Question>>)
    ensures r.Keys == groups.Keys + {q.applicationId}
    ensures r[q.applicationId] == (if q.applicationId in groups then groups[q.applicationId] else []) + [q]
    ensures forall id :: id in groups && id != q.applicationId ==> r[id] == groups[id]
  {
    groups[q.applicationId := (if q.applicationId in groups then groups[q.applicationId] else []) + [q]]
  }

  /** Appending one question extends exactly its own group. */
  lemma GroupedSnoc(qs: seq<Question>, q: Question)
    ensures Grouped(qs + [q]) == AddToGroup(Grouped(qs), q)
  {
    var after := Grouped(qs + [q]);
    var expected := AddToGroup(Grouped(qs), q);
    assert after.Keys == expected.Keys by {
      AppIdsSnoc(qs, q);
    }
    forall k | k in after
      ensures after[k] == expected[k]
    {
      QuestionsForSnoc(qs, q, k);
      if k !in AppIds(qs) {
        NoQuestionsForAbsentId(qs, k);
      }
    }
  }

  /** The body of the grouping loop (main.py:63-67): a new id gets an empty list first,
      then the question is appended to its id's list. */
  method AddQuestion(groups: map<string, seq<Question>>, q: Question) returns (r: map<string, seq<Question>>)
    ensures r == AddToGroup(groups, q)
  {
    var id := q.applicationId;
    r := groups;
    if id !in r {
      r := r[id := []];
    }
    r := r[id := r[id] + [q]];
  }

  /** The loop at main.py:61-67: a missing 'items' key gives the empty map. */
  method GroupQuestions(items: Option<seq<Question>>) returns (groups: map<string, seq<Question>>)
    ensures items.None? ==> groups == map[]
    ensures items.Some? ==> groups == Grouped(items.value)
  {
    groups := map[];
    if items.Some? {
      var qs := items.value;
      var i := 0;
      assert qs[..0] == [];
      assert Grouped([]) == map[];
      while i < |qs|
        invariant 0 <= i <= |qs|
        invariant groups == Grouped(qs[..i])
      {
        groups := AddQuestion(groups, qs[i]);
        assert qs[..i + 1] == qs[..i] + [qs[i]];
        GroupedSnoc(qs[..i], qs[i]);
        i := i + 1;
      }
      assert qs[..|qs|] == qs;
    }
  }

  // ---------------------------------------------------------------------------
  // Line templates

  const Rule: string := "---"  // "-" * 3
  const DefaultDescription: string := "No description available"
  const DescriptionLimit: nat := 100

  /** Date fields print only their first 10 characters (`value[:10]`). */
  function DateOf(s: string): string
  {
    Prefix(s, 10)
  }

  function Preamble(generatedOn: string, total: nat, questionsTotal: string): seq<string>
  {
    ["# Job Applications Portfolio",
     "Generated on: " + generatedOn,
     Rule,
     "",
     "## Summary",
     "Total Applications: " + NatToString(total),
     "Total Questions Answered: " + questionsTotal,
     "",
     Rule,
     ""]
  }

  function ApplicationHeader(n: nat, a: Application): string
  {
    "## APPLICATION " + NatToString(n) + ": " + a.jobTitle + " at " + a.companyName
  }

  function AtsLine(a: Application): string
  {
    match a.atsScore
    case Some(score) => "• ATS Score: " + score + "/100"
    case None => "• ATS Score: Not available"
  }

  /** Header, basic information, company details and the job description heading (20 lines). */
  function BasicSection(n: nat, a: Application): seq<string>
  {
    [ApplicationHeader(n, a),
     "",
     "### Basic Information",
     "• Application ID: " + a.applicationId,
     "• Job Title: " + a.jobTitle,
     "• Job Type: " + a.jobType,
     "• Company: " + a.companyName,
     "• Location: " + a.company.location,
     "• Application Status: " + a.status,
     "• Current Stage: " + a.stage,
     "• Submission Date: " + a.submissionDate,
     AtsLine(a),
     "",
     "### Company Details",
     "• Company Name: " + a.company.name,
     "• Location: " + a.company.location,
     "• Careers Website: " + a.company.careersLink,
     "• LinkedIn: " + a.company.linkedinLink,
     "",
     "### Job Description"]
  }

  function DescriptionLines(a: Application): seq<string>
  {
    var d := a.description.GetOr(DefaultDescription);
    if |d| > DescriptionLimit then ["```", d, "```", ""] else ["• " + d, ""]
  }

  function LinkLines(a: Application): seq<string>
  {
    if Truthy(a.link) then ["### Application Link", "• Job Posting URL: " + a.link.value, ""] else []
  }

  function EmployeeLines(e: Employee): seq<string>
  {
    ["• **" + e.name + "**",
     "  - Job Title: " + e.jobTitle,
     "  - Email: " + e.email,
     "  - LinkedIn: " + e.linkedinLink,
     "  - Contact Status: " + e.contacted,
     "  - Contacted Date: " + DateOf(e.createdAt),
     ""]
  }

  /** Seven lines per contacted employee, in list order. */
  function ReferralLines(es: seq<Employee>): (r: seq<string>)
    ensures |r| == 7 * |es|
  {
    if es == [] then [] else ReferralLines(es[..|es| - 1]) + EmployeeLines(es[|es| - 1])
  }

  const ReferralsHeading: string := "### Contacted Employees (Referrals)"

  function ReferralSection(a: Application): seq<string>
  {
    if |a.contactedEmployees| > 0 then [ReferralsHeading] + ReferralLines(a.contactedEmployees)
    else [ReferralsHeading, "• No employees contacted for referrals", ""]
  }

  function QuestionLabel(j: nat): string
  {
    "**Question " + NatToString(j) + ":** "
  }

  function QaLines(j: nat, q: Question): seq<string>
  {
    [QuestionLabel(j) + q.question1,
     "**Answer:** " + q.answer,
     "*Asked on: " + DateOf(q.createdAt) + "*",
     ""]
  }

  /** Four lines per question, numbered from 1 in group order. */
  function QuestionLines(qs: seq<Question>): (r: seq<string>)
    ensures |r| == 4 * |qs|
  {
    if qs == [] then [] else QuestionLines(qs[..|qs| - 1]) + QaLines(|qs|, qs[|qs| - 1])
  }

  const QuestionsHeading: string := "### Interview/Application Questions & Answers"

  function QuestionSection(id: string, groups: map<string, seq<Question>>): seq<string>
  {
    if id in groups then [QuestionsHeading] + QuestionLines(groups[id])
    else [QuestionsHeading, "• No questions recorded for this application", ""]
  }

  function TimelineLines(a: Application): seq<string>
  {
    ["### Timeline",
     "• Application Created: " + DateOf(a.createdAt),
     "• Last Updated: " + DateOf(a.updatedAt),
     "• Submission Date: " + a.submissionDate,
     "",
     Rule,
     ""]
  }

  /** Everything the loop body at main.py:86-178 emits for the `n`-th application. */
  function ApplicationBlock(n: nat, a: Application, groups: map<string, seq<Question>>): seq<string>
  {
    BasicSection(n, a) + DescriptionLines(a) + LinkLines(a) + ReferralSection(a)
      + QuestionSection(a.applicationId, groups) + TimelineLines(a)
  }

  /** The blocks of all applications, numbered from 1 in input order. */
  function ApplicationBlocks(apps: seq<Application>, groups: map<string, seq<Question>>): seq<string>
  {
    if apps == [] then []
    else ApplicationBlocks(apps[..|apps| - 1], groups) + ApplicationBlock(|apps|, apps[|apps| - 1], groups)
  }

  lemma ApplicationBlocksSnoc(apps: seq<Application>, i: nat, groups: map<string, seq<Question>>)
    requires i < |apps|
    ensures ApplicationBlocks(apps[..i + 1], groups)
         == ApplicationBlocks(apps[..i], groups) + ApplicationBlock(i + 1, apps[i], groups)
  {
    assert apps[..i + 1][..i] == apps[..i];
  }

  function Footer(total: nat, generatedOn: string, pages: string, questionsTotal: string): seq<string>
  {
    ["## Document Metadata",
     "• Total Applications Processed: " + NatToString(total),
     "• Document Generated: " + generatedOn,
     "• Applications Data Pages: " + pages,
     "• Questions Data Total: " + questionsTotal]
  }

  function QuestionsTotal(questions: QuestionsPage): string
  {
    questions.totalCount.GetOr("0")
  }

  function GroupsOf(questions: QuestionsPage): map<string, seq<Question>>
  {
    if questions.items.Some? then Grouped(questions.items.value) else map[]
  }

  /** The whole document. The two clock readings of the source are parameters. */
  function DocumentLines(apps: ApplicationsPage, questions: QuestionsPage, startedAt: string, finishedAt: string): seq<string>
  {
    Preamble(startedAt, |apps.items|, QuestionsTotal(questions))
      + ApplicationBlocks(apps.items, GroupsOf(questions))
      + Footer(|apps.items|, finishedAt, apps.totalPages.GetOr("1"), QuestionsTotal(questions))
  }

  // ---------------------------------------------------------------------------
  // Properties of the document

  /** The `j`-th question of a group (0-based) is printed as `**Question j+1:**`, with its
      answer and the first 10 characters of its date. */
  lemma {:induction false} QuestionLinesAt(qs: seq<Question>, j: nat)
    requires j < |qs|
    ensures QuestionLines(qs)[4 * j] == QuestionLabel(j + 1) + qs[j].question1
    ensures QuestionLines(qs)[4 * j + 1] == "**Answer:** " + qs[j].answer
    ensures QuestionLines(qs)[4 * j + 2] == "*Asked on: " + DateOf(qs[j].createdAt) + "*"
    ensures QuestionLines(qs)[4 * j + 3] == ""
  {
    var init := qs[..|qs| - 1];
    if j < |qs| - 1 {
      QuestionLinesAt(init, j);
      assert init[j] == qs[j];
    }
  }

  /** The `k`-th contacted employee's block: name first, contact date cut to 10 characters. */
  lemma {:induction false} ReferralLinesAt(es: seq<Employee>, k: nat)
    requires k < |es|
    ensures ReferralLines(es)[7 * k] == "• **" + es[k].name + "**"
    ensures ReferralLines(es)[7 * k + 5] == "  - Contacted Date: " + DateOf(es[k].createdAt)
  {
    var init := es[..|es| - 1];
    if k < |es| - 1 {
      ReferralLinesAt(init, k);
      assert init[k] == es[k];
    }
  }

  /** An application with recorded questions lists all of them, numbered from 1 in group
      order; one without gets the single fallback line. */
  lemma QuestionSectionShape(id: string, groups: map<string, seq<Question>>)
    ensures var section := QuestionSection(id, groups);
      && section[0] == QuestionsHeading
      && (id in groups ==>
            |section| == 1 + 4 * |groups[id]|
            && forall j :: 0 <= j < |groups[id]| ==>
                 section[1 + 4 * j] == QuestionLabel(j + 1) + groups[id][j].question1)
      && (id !in groups ==> section == [QuestionsHeading, "• No questions recorded for this application", ""])
  {
    if id in groups {
      var qs := groups[id];
      var lines := QuestionLines(qs);
      var section := QuestionSection(id, groups);
      assert section == [QuestionsHeading] + lines;
      forall j | 0 <= j < |qs|
        ensures section[1 + 4 * j] == QuestionLabel(j + 1) + qs[j].question1
      {
        QuestionLinesAt(qs, j);
        assert section[1 + 4 * j] == lines[4 * j];
      }
    }
  }

  /** Layout of one application's block: the numbered header first, the ATS line (score
      or "Not available"), and the description either fenced (longer than 100 characters)
      or as one bullet, with the default text when the key is absent. */
  lemma ApplicationBlockLayout(n: nat, a: Application, groups: map<string, seq<Question>>)
    ensures var block := ApplicationBlock(n, a, groups);
      var d := if a.description.Some? then a.description.value else DefaultDescription;
      && |block| > 21
      && block[0] == "## APPLICATION " + NatToString(n) + ": " + a.jobTitle + " at " + a.companyName
      && (a.atsScore.Some? ==> block[11] == "• ATS Score: " + a.atsScore.value + "/100")
      && (a.atsScore.None? ==> block[11] == "• ATS Score: Not available")
      && block[19] == "### Job Description"
      && (|d| > 100 ==> |block| > 23 && block[20..23] == ["```", d, "```"])
      && (|d| <= 100 ==> block[20] == "• " + d)
  {
    var basic := BasicSection(n, a);
    var desc := DescriptionLines(a);
    var block := ApplicationBlock(n, a, groups);
    BasicSectionLayout(n, a);
    assert block[0] == basic[0] && block[11] == basic[11] && block[19] == basic[19];
    assert block[20] == desc[0];
    if |desc| == 4 {
      assert block[20..23] == desc[..3] by {
        assert block[21] == desc[1] && block[22] == desc[2];
      }
    }
  }

  lemma BasicSectionLayout(n: nat, a: Application)
    ensures |BasicSection(n, a)| == 20
    ensures BasicSection(n, a)[0] == ApplicationHeader(n, a)
    ensures BasicSection(n, a)[11] == AtsLine(a)
    ensures BasicSection(n, a)[19] == "### Job Description"
  {
  }

  /** A sequence that starts with `x + b` starts with `x`, and holds `b` right after it. */
  lemma PrefixOfAppend(x: seq<string>, b: seq<string>, z: seq<string>)
    requires x + b <= z
    ensures x <= z && |x| + |b| <= |z|
    ensures forall k :: 0 <= k < |x| ==> z[k] == x[k]
    ensures forall k :: 0 <= k < |b| ==> z[|x| + k] == b[k]
  {
    forall k | 0 <= k < |b|
      ensures z[|x| + k] == b[k]
    {
      assert z[|x| + k] == (x + b)[|x| + k];
    }
  }

  /** Growing the application list only appends: earlier blocks are never rewritten. */
  lemma {:induction false} ApplicationBlocksPrefix(apps: seq<Application>, i: nat, groups: map<string, seq<Question>>)
    requires i <= |apps|
    ensures ApplicationBlocks(apps[..i], groups) <= ApplicationBlocks(apps, groups)
    decreases |apps| - i
  {
    if i < |apps| {
      ApplicationBlocksSnoc(apps, i, groups);
      ApplicationBlocksPrefix(apps, i + 1, groups);
      PrefixOfAppend(ApplicationBlocks(apps[..i], groups), ApplicationBlock(i + 1, apps[i], groups),
                     ApplicationBlocks(apps, groups));
    } else {
      assert apps[..i] == apps;
    }
  }

  /** In the concatenated blocks, application `i` (0-based) starts right after the blocks
      before it, with its header numbered `i + 1`. */
  lemma BlockHeaderAt(apps: seq<Application>, i: nat, groups: map<string, seq<Question>>)
    requires i < |apps|
    ensures |ApplicationBlocks(apps[..i], groups)| < |ApplicationBlocks(apps, groups)|
    ensures ApplicationBlocks(apps, groups)[|ApplicationBlocks(apps[..i], groups)|] == ApplicationHeader(i + 1, apps[i])
  {
    var block := ApplicationBlock(i + 1, apps[i], groups);
    assert block[0] == ApplicationHeader(i + 1, apps[i]);
    ApplicationBlocksPrefix(apps, i + 1, groups);
    ApplicationBlocksSnoc(apps, i, groups);
    PrefixOfAppend(ApplicationBlocks(apps[..i], groups), block, ApplicationBlocks(apps, groups));
  }

  const PreambleLength: nat := 10

  /** The summary total and the footer total both equal the number of applications. */
  lemma DocumentTotals(apps: ApplicationsPage, questions: QuestionsPage, startedAt: string, finishedAt: string)
    ensures var lines := DocumentLines(apps, questions, startedAt, finishedAt);
      && |lines| >= PreambleLength + 5
      && lines[4] == "## Summary"
      && lines[5] == "Total Applications: " + NatToString(|apps.items|)
      && lines[|lines| - 4] == "• Total Applications Processed: " + NatToString(|apps.items|)
  {
    var pre := Preamble(startedAt, |apps.items|, QuestionsTotal(questions));
    var body := ApplicationBlocks(apps.items, GroupsOf(questions));
    var foot := Footer(|apps.items|, finishedAt, apps.totalPages.GetOr("1"), QuestionsTotal(questions));
    var lines := DocumentLines(apps, questions, startedAt, finishedAt);
    PreambleShape(startedAt, |apps.items|, QuestionsTotal(questions));
    FooterShape(|apps.items|, finishedAt, apps.totalPages.GetOr("1"), QuestionsTotal(questions));
    assert lines == (pre + body) + foot;
    assert lines[4] == pre[4] && lines[5] == pre[5];
    assert lines[|lines| - 4] == foot[1];
  }

  lemma PreambleShape(generatedOn: string, total: nat, questionsTotal: string)
    ensures |Preamble(generatedOn, total, questionsTotal)| == PreambleLength
    ensures Preamble(generatedOn, total, questionsTotal)[4] == "## Summary"
    ensures Preamble(generatedOn, total, questionsTotal)[5] == "Total Applications: " + NatToString(total)
  {
  }

  lemma FooterShape(total: nat, generatedOn: string, pages: string, questionsTotal: string)
    ensures |Footer(total, generatedOn, pages, questionsTotal)| == 5
    ensures Footer(total, generatedOn, pages, questionsTotal)[1] == "• Total Applications Processed: " + NatToString(total)
  {
  }

  /** After the 10 preamble lines come the applications' blocks in input order, the
      `i`-th (0-based) opening with its header numbered `i + 1`. */
  lemma DocumentHeaderAt(apps: ApplicationsPage, questions: QuestionsPage, startedAt: string, finishedAt: string, i: nat)
    requires i < |apps.items|
    ensures var lines := DocumentLines(apps, questions, startedAt, finishedAt);
      var start := PreambleLength + |ApplicationBlocks(apps.items[..i], GroupsOf(questions))|;
      start < |lines| && lines[start] == ApplicationHeader(i + 1, apps.items[i])
  {
    var groups := GroupsOf(questions);
    BlockHeaderAt(apps.items, i, groups);
    var pre := Preamble(startedAt, |apps.items|, QuestionsTotal(questions));
    var body := ApplicationBlocks(apps.items, groups);
    var foot := Footer(|apps.items|, finishedAt, apps.totalPages.GetOr("1"), QuestionsTotal(questions));
    PrefixOfAppend(pre, body, pre + body + foot);
  }

  // ---------------------------------------------------------------------------
  // The imperative builder (main.py:61-185)

  /** The referrals loop at main.py:140-153. */
  method RenderReferrals(a: Application) returns (lines: seq<string>)
    ensures lines == ReferralSection(a)
  {
    var es := a.contactedEmployees;
    if |es| > 0 {
      lines := [ReferralsHeading];
      var k := 0;
      while k < |es|
        invariant 0 <= k <= |es|
        invariant lines == [ReferralsHeading] + ReferralLines(es[..k])
      {
        assert es[..k + 1][..k] == es[..k];
        lines := lines + EmployeeLines(es[k]);
        k := k + 1;
      }
      assert es[..|es|] == es;
    } else {
      lines := [ReferralsHeading, "• No employees contacted for referrals", ""];
    }
  }

  /** The questions loop at main.py:156-167. */
  method RenderQuestions(id: string, groups: map<string, seq<Question>>) returns (lines: seq<string>)
    ensures lines == QuestionSection(id, groups)
  {
    if id in groups {
      lines := [QuestionsHeading];
      var qs := groups[id];
      var j := 0;
      while j < |qs|
        invariant 0 <= j <= |qs|
        invariant lines == [QuestionsHeading] + QuestionLines(qs[..j])
      {
        assert qs[..j + 1][..j] == qs[..j];
        lines := lines + QaLines(j + 1, qs[j]);
        j := j + 1;
      }
      assert qs[..|qs|] == qs;
    } else {
      lines := [QuestionsHeading, "• No questions recorded for this application", ""];
    }
  }

  /** The body of the loop at main.py:86-178 for the `n`-th application. */
  method RenderApplication(n: nat, a: Application, groups: map<string, seq<Question>>) returns (block: seq<string>)
    ensures block == ApplicationBlock(n, a, groups)
  {
    var referrals := RenderReferrals(a);
    var answers := RenderQuestions(a.applicationId, groups);
    block := BasicSection(n, a) + DescriptionLines(a) + LinkLines(a) + referrals + answers + TimelineLines(a);
  }

  /** The loop over the applications at main.py:86-178. */
  method RenderApplications(apps: seq<Application>, groups: map<string, seq<Question>>) returns (body: seq<string>)
    ensures body == ApplicationBlocks(apps, groups)
  {
    body := [];
    var i := 0;
    assert apps[..0] == [];
    while i < |apps|
      invariant 0 <= i <= |apps|
      invariant body == ApplicationBlocks(apps[..i], groups)
    {
      var block := RenderApplication(i + 1, apps[i], groups);
      ApplicationBlocksSnoc(apps, i, groups);
      body := body + block;
      i := i + 1;
    }
    assert apps[..|apps|] == apps;
  }

  /** generate_application_document without the file write: the lines it joins and writes. */
  method GenerateApplicationDocument(apps: ApplicationsPage, questions: QuestionsPage, startedAt: string, finishedAt: string)
    returns (lines: seq<string>)
    ensures lines == DocumentLines(apps, questions, startedAt, finishedAt)
  {
    var groups := GroupQuestions(questions.items);
    var total := |apps.items|;
    var questionsTotal := questions.totalCount.GetOr("0");
    var body := RenderApplications(apps.items, groups);
    lines := Preamble(startedAt, total, questionsTotal) + body
      + Footer(total, finishedAt, apps.totalPages.GetOr("1"), questionsTotal);
  }
}
