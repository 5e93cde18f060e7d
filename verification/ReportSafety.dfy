/** A report built from clean contents is clean: the wording around the contents adds no token. */
module ReportSafety {
  import opened Text
  import opened BlockedTokens
  import opened Validation
  import opened ValidationOutcome
  import opened ValidationReport

  /** What a report takes over from a summary: everything but the paths and the two transcripts. */
  predicate ReportedFree(s: Summary) {
    && TokenFree(s.runId) && TokenFree(s.scenarioId) && ChecksFree(s.checks)
    && (s.handoffReason.Some? ==> TokenFree(s.handoffReason.value))
  }

  predicate NoLetters(s: string) { forall i :: 0 <= i < |s| ==> !TokenChar(s[i]) }

  lemma NoLettersIsTokenFree(s: string)
    requires NoLetters(s)
    ensures TokenFree(s)
  {
    NoPIsTokenFree(s);
  }

  lemma DecimalIsTokenFree(n: nat)
    ensures TokenFree(Decimal(n))
  {
    var d := Decimal(n);
    forall i | 0 <= i < |d| ensures !TokenChar(d[i]) { assert d[i] in d; }
    NoLettersIsTokenFree(d);
  }

  lemma BusinessEvidenceIsTokenFree(s: Summary)
    ensures TextsFree(BusinessEvidence(s))
  {
    hide TokenFree, Looked;
    var e := BusinessEvidence(s);
    forall i | 0 <= i < |e| ensures TokenFree(e[i]) { NoLettersIsTokenFree(e[i]); }
  }

  lemma SystemEvidenceIsTokenFree(s: Summary)
    ensures TextsFree(SystemEvidence(s))
  {
    hide TokenFree, Looked;
    var e := SystemEvidence(s);
    forall i | 0 <= i < |e| ensures TokenFree(e[i]) { NoLettersIsTokenFree(e[i]); }
  }

  lemma EvidenceIsTokenFree(s: Summary)
    ensures TextsFree(Evidence(s))
  {
    hide TextsFree, BusinessEvidence, SystemEvidence;
    BusinessEvidenceIsTokenFree(s);
    SystemEvidenceIsTokenFree(s);
    TextsFreeAppend(BusinessEvidence(s), SystemEvidence(s));
  }

  lemma ReadinessWording(r: Readiness)
    ensures TokenFree(ReadinessLabel(r)) && TokenFree(NextAction(r))
  {
    hide TokenFree;
    LabelWording(r);
    ActionWording(r);
  }

  lemma LabelWording(r: Readiness)
    ensures TokenFree(ReadinessLabel(r))
  {
    hide TokenFree;
    NoLettersIsTokenFree(ReadinessLabel(r));
  }

  lemma ActionWording(r: Readiness)
    ensures TokenFree(NextAction(r))
  {
    hide TokenFree;
    NoLettersIsTokenFree(NextAction(r));
  }

  lemma ScenarioNamesAreTokenFree(id: string)
    requires TokenFree(id)
    ensures TokenFree(ScenarioName(id)) && TokenFree(ScenarioNameCn(id))
  {
    hide TokenFree;
    StandardNames();
    StandardChineseNames();
  }

  lemma StandardNames()
    ensures forall sc :: sc in STANDARD_VALIDATION_SCENARIOS ==> TokenFree(sc.name)
  {
    hide TokenFree;
    OrderName();
    LogisticsName();
    ProductName();
    NoPIsTokenFree("Knowledge miss handoff");
    NoPIsTokenFree("User requested human");
  }

  lemma OrderName()
    ensures TokenFree("Order status lookup")
  {
    var s := "Order status lookup";
    assert forall i :: 0 <= i < |s| && LowerChar(s[i]) == 'd' ==> i == 2;
    assert LowerChar(s[3]) == 'e';
    ProseIsTokenFree(s);
  }

  lemma LogisticsName()
    ensures TokenFree("Logistics tracking lookup")
  {
    NoDIsTokenFree("Logistics tracking lookup");
  }

  lemma ProductName()
    ensures TokenFree("Product knowledge consultation")
  {
    hide Without, NoPair;
    ProductNameLetters();
    ProductNamePairs();
    ProseIsTokenFree("Product knowledge consultation");
  }

  lemma ProductNameLetters()
    ensures Without("Product knowledge consultation", '_', 'z', 'z', 'z')
  {
  }

  lemma ProductNamePairs()
    ensures NoPair("Product knowledge consultation", 'd', 'p')
  {
    var s := "Product knowledge consultation";
    assert forall i :: 0 <= i < |s| && LowerChar(s[i]) == 'd' ==> i == 3 || i == 14;
    assert LowerChar(s[4]) == 'u' && LowerChar(s[15]) == 'g';
  }

  lemma StandardChineseNames()
    ensures forall sc :: sc in STANDARD_VALIDATION_SCENARIOS ==> TokenFree(sc.nameCn)
  {
    hide TokenFree;
    NoLettersIsTokenFree("订单状态查询");
    NoLettersIsTokenFree("物流进度查询");
    NoLettersIsTokenFree("产品知识咨询");
    NoLettersIsTokenFree("知识低置信转人工");
    NoLettersIsTokenFree("客户主动要求人工");
  }

  lemma StandardTools()
    ensures forall sc :: sc in STANDARD_VALIDATION_SCENARIOS ==> TextsFree(sc.expectedTools)
  {
    hide TokenFree;
    LookupToolsAreTokenFree();
    OtherToolsAreTokenFree();
  }

  lemma LookupToolsAreTokenFree()
    ensures TokenFree("lookup_order") && TokenFree("lookup_logistics")
  {
    hide TokenFree, Hits;
    LetterSets();
    LackingIsTokenFree("lookup_logistics", 'n', 'w', 'y', 'y');
    LackingIsTokenFree("lookup_order", 'n', 'w', 'y', 'y');
  }

  lemma OtherToolsAreTokenFree()
    ensures TokenFree("query_product_knowledge") && TokenFree("handoff_to_human")
  {
    hide TokenFree;
    QueryToolIsTokenFree();
    HandoffToolIsTokenFree();
  }

  lemma QueryToolIsTokenFree()
    ensures TokenFree("query_product_knowledge")
  {
    hide TokenFree, Hits;
    MoreLetterSets();
    LackingIsTokenFree("query_product_knowledge", 'a', 'i', 'i', 'i');
  }

  lemma HandoffToolIsTokenFree()
    ensures TokenFree("handoff_to_human")
  {
    hide TokenFree, Hits;
    LetterSets();
    LackingIsTokenFree("handoff_to_human", 'l', 'w', 'y', 'z');
  }

  lemma CoverageIsTokenFree(s: Summary)
    requires TokenFree(s.scenarioId)
    ensures TextsFree(Coverage(s))
  {
    hide TokenFree, STANDARD_VALIDATION_SCENARIOS, Join;
    ScenarioNamesAreTokenFree(s.scenarioId);
    CoverageWording();
    LabelledIsTokenFree("验证场景：", ScenarioNameCn(s.scenarioId));
    var sc := FindScenario(s.scenarioId);
    StandardTools();
    NoLettersIsTokenFree(", ");
    if sc.Some? { JoinedIsTokenFree(sc.value.expectedTools, ", "); }
    LabelledIsTokenFree("预期工具：", if sc.Some? then Join(sc.value.expectedTools, ", ") else "未配置");
  }

  lemma CoverageWording()
    ensures TokenFree("验证场景：") && TokenFree("预期工具：") && TokenFree("未配置")
    ensures TokenFree("转人工预期：需要") && TokenFree("转人工预期：不需要")
  {
    hide TokenFree;
    NoLettersIsTokenFree("验证场景：");
    NoLettersIsTokenFree("预期工具：");
    NoLettersIsTokenFree("未配置");
    NoLettersIsTokenFree("转人工预期：需要");
    NoLettersIsTokenFree("转人工预期：不需要");
  }

  lemma ManagerSectionIsTokenFree(s: Summary)
    requires TokenFree(s.scenarioId)
    ensures SectionFree(ManagerSection(s))
  {
    hide TokenFree, DeriveReadiness, ReadinessLabel, NextAction;
    var readiness := DeriveReadiness(s);
    ReadinessWording(readiness);
    ScenarioNamesAreTokenFree(s.scenarioId);
    NoLettersIsTokenFree("老板");
    NoLettersIsTokenFree("决策人摘要");
    NoLettersIsTokenFree("结论：");
    NoLettersIsTokenFree("验证对象：");
    NoLettersIsTokenFree("建议动作：");
    LabelledIsTokenFree("结论：", ReadinessLabel(readiness));
    LabelledIsTokenFree("验证对象：", ScenarioNameCn(s.scenarioId));
    LabelledIsTokenFree("建议动作：", NextAction(readiness));
  }

  lemma HandoffBulletIsTokenFree(s: Summary)
    requires s.handoffReason.Some? ==> TokenFree(s.handoffReason.value)
    ensures TokenFree(HandoffBullet(s))
  {
    hide TokenFree;
    NoLettersIsTokenFree("无需人工介入");
    NoLettersIsTokenFree("转人工原因：");
    if s.handoffReason.Some? { LabelledIsTokenFree("转人工原因：", s.handoffReason.value); }
  }

  lemma ServiceSectionIsTokenFree(s: Summary)
    requires s.handoffReason.Some? ==> TokenFree(s.handoffReason.value)
    ensures SectionFree(ServiceSection(s))
  {
    hide TokenFree, HandoffBullet;
    HandoffBulletIsTokenFree(s);
    NoLettersIsTokenFree("客服主管");
    NoLettersIsTokenFree("客服主管关注点");
    NoLettersIsTokenFree("语音可听清");
    NoLettersIsTokenFree("语音未确认");
    NoLettersIsTokenFree("业务回答可接受");
    NoLettersIsTokenFree("业务回答需复核");
  }

  lemma IntTextIsTokenFree(n: int)
    ensures TokenFree(IntText(n) + "ms")
  {
    hide TokenFree;
    NoPIsTokenFree("ms");
    NoPIsTokenFree("-");
    var d := Decimal(if n < 0 then -n else n);
    DecimalIsTokenFree(if n < 0 then -n else n);
    LabelledIsTokenFree("-", d);
    assert IntText(n)[|IntText(n)| - 1] == d[|d| - 1] && d[|d| - 1] in d;
    JoinTokenFree(IntText(n), "ms");
  }

  lemma LatencyTextIsTokenFree(ns: seq<int>)
    ensures TokenFree(LatencyText(ns))
  {
    hide TokenFree, IntText;
    NoLettersIsTokenFree("无");
    NoLettersIsTokenFree(", ");
    var parts := seq(|ns|, i requires 0 <= i < |ns| => IntText(ns[i]) + "ms");
    forall i | 0 <= i < |parts| ensures TokenFree(parts[i]) { IntTextIsTokenFree(ns[i]); }
    JoinedIsTokenFree(parts, ", ");
  }

  lemma CountTextIsTokenFree(a: nat, b: nat)
    ensures TokenFree("检查项：" + Decimal(a) + "/" + Decimal(b) + " 通过")
  {
    hide TokenFree, Decimal;
    NoLettersIsTokenFree("检查项：");
    NoLettersIsTokenFree("/");
    NoLettersIsTokenFree(" 通过");
    DecimalIsTokenFree(a);
    DecimalIsTokenFree(b);
    JoinTokenFree("检查项：", Decimal(a));
    JoinTokenFree("检查项：" + Decimal(a), "/");
    JoinTokenFree("检查项：" + Decimal(a) + "/", Decimal(b));
    JoinTokenFree("检查项：" + Decimal(a) + "/" + Decimal(b), " 通过");
  }

  lemma TechnicalSectionIsTokenFree(s: Summary)
    ensures SectionFree(TechnicalSection(s))
  {
    hide TokenFree, StatusText, LatencyText, Decimal, CountPassed;
    StatusTextIsTokenFree(s.status);
    LatencyTextIsTokenFree(s.latencyMsValues);
    CountTextIsTokenFree(CountPassed(s.checks), |s.checks|);
    NoLettersIsTokenFree("技术同事");
    NoLettersIsTokenFree("技术复核点");
    NoLettersIsTokenFree("状态：");
    NoLettersIsTokenFree("延迟样本：");
    LabelledIsTokenFree("状态：", StatusText(s.status));
    LabelledIsTokenFree("延迟样本：", LatencyText(s.latencyMsValues));
  }

  lemma SectionsAreTokenFree(s: Summary)
    requires ReportedFree(s)
    ensures SectionsFree(Sections(s))
  {
    hide TokenFree, SectionFree, ManagerSection, ServiceSection, TechnicalSection;
    ManagerSectionIsTokenFree(s);
    ServiceSectionIsTokenFree(s);
    TechnicalSectionIsTokenFree(s);
  }

  lemma {:induction false} WarningsAreTokenFree(checks: seq<Check>)
    requires ChecksFree(checks)
    ensures TextsFree(Warnings(checks))
  {
    hide TokenFree;
    if checks != [] {
      var c := checks[0];
      assert CheckFree(c);
      NoLettersIsTokenFree(": ");
      JoinTokenFree(c.name, ": ");
      JoinTokenFree(c.name + ": ", c.detail);
      forall i | 0 <= i < |checks[1..]| ensures CheckFree(checks[1..][i]) { assert CheckFree(checks[i + 1]); }
      WarningsAreTokenFree(checks[1..]);
    }
  }

  lemma DecisionTailIsTokenFree(label_: string)
    requires TokenFree(label_)
    ensures var tail := "场景验证结果为：" + label_ + "。"; TokenFree(tail) && tail[0] == '场'
  {
    hide TokenFree;
    NoLettersIsTokenFree("场景验证结果为：");
    NoLettersIsTokenFree("。");
    LabelledIsTokenFree("场景验证结果为：", label_);
    JoinTokenFree("场景验证结果为：" + label_, "。");
  }

  lemma DecisionIsTokenFree(s: Summary)
    requires TokenFree(s.scenarioId)
    ensures TokenFree(DecisionText(s))
  {
    hide TokenFree, DeriveReadiness, ReadinessLabel, NextAction, ScenarioNameCn;
    var label_ := ReadinessLabel(DeriveReadiness(s));
    ReadinessWording(DeriveReadiness(s));
    ScenarioNamesAreTokenFree(s.scenarioId);
    DecisionTailIsTokenFree(label_);
    JoinTokenFree(ScenarioNameCn(s.scenarioId), "场景验证结果为：" + label_ + "。");
  }

  /** Two texts with punctuation between them. */
  lemma PunctuatedIsTokenFree(a: string, mark: string, b: string)
    requires TokenFree(a) && TokenFree(b) && NoLetters(mark) && mark != ""
    ensures TokenFree(a + mark + b)
  {
    hide TokenFree;
    NoLettersIsTokenFree(mark);
    JoinTokenFree(a, mark);
    JoinTokenFree(a + mark, b);
  }

  lemma CopyHeadIsTokenFree(s: Summary)
    requires TokenFree(s.scenarioId)
    ensures TokenFree(CopyHead(s)) && CopyHead(s) != "" && CopyHead(s)[|CopyHead(s)| - 1] == '\n'
  {
    hide TokenFree, DeriveReadiness, ReadinessLabel, ScenarioNameCn, NoLetters;
    var name, readiness := ScenarioNameCn(s.scenarioId), ReadinessLabel(DeriveReadiness(s));
    ReadinessWording(DeriveReadiness(s));
    ScenarioNamesAreTokenFree(s.scenarioId);
    Marks();
    NoLettersIsTokenFree("试点演示验证结果：");
    NoLettersIsTokenFree("。\n");
    LabelledIsTokenFree("试点演示验证结果：", name);
    var a := "试点演示验证结果：" + name;
    PunctuatedIsTokenFree(a, "，", readiness);
    JoinTokenFree(a + "，" + readiness, "。\n");
  }

  lemma Marks()
    ensures NoLetters("试点演示验证结果：") && NoLetters("，") && NoLetters("。\n")
  {
  }

  lemma CopyTailIsTokenFree(s: Summary)
    ensures TokenFree(CopyTail(s))
  {
    hide TokenFree, DeriveReadiness, NextAction, Evidence, Join;
    var evidence, action := Join(Evidence(s), "; "), NextAction(DeriveReadiness(s));
    ReadinessWording(DeriveReadiness(s));
    EvidenceIsTokenFree(s);
    NoLettersIsTokenFree("; ");
    JoinedIsTokenFree(Evidence(s), "; ");
    NoLettersIsTokenFree("。\n");
    NoLettersIsTokenFree("证据：");
    NoLettersIsTokenFree("下一步：");
    var a := "证据：" + evidence;
    JoinTokenFree("证据：", evidence);
    JoinTokenFree(a, "。\n");
    JoinTokenFree(a + "。\n", "下一步：");
    JoinTokenFree(a + "。\n" + "下一步：", action);
  }

  lemma CopyTextIsTokenFree(s: Summary)
    requires TokenFree(s.scenarioId)
    ensures TokenFree(CopyText(s))
  {
    hide TokenFree, CopyHead, CopyTail;
    CopyHeadIsTokenFree(s);
    CopyTailIsTokenFree(s);
    JoinTokenFree(CopyHead(s), CopyTail(s));
  }

  /** The fixed wording adds no token, so a report is served whenever what it quotes is clean. */
  lemma BuiltReportIsServed(s: Summary)
    requires ReportedFree(s)
    ensures BlockedSecretScan(EncodeReport(BuildReport(s)))
  {
    hide TokenFree, DeriveReadiness, ReadinessLabel, NextAction, Coverage, Evidence, Sections, Join, Warnings,
         CopyText, DecisionText, TextsFree, ChecksFree, SectionsFree, BlockedSecretScan, EncodeReport, ScenarioName,
         ScenarioNameCn;
    ReadinessWording(DeriveReadiness(s));
    ScenarioNamesAreTokenFree(s.scenarioId);
    CoverageIsTokenFree(s);
    EvidenceIsTokenFree(s);
    SectionsAreTokenFree(s);
    WarningsAreTokenFree(s.checks);
    DecisionIsTokenFree(s);
    CopyTextIsTokenFree(s);
    ScanOfReport(BuildReport(s));
  }

  /** A handoff reason that mentions a token shows in its bullet. */
  lemma HandoffBulletShows(s: Summary)
    requires TokenFree(HandoffBullet(s)) && s.handoffReason.Some?
    ensures TokenFree(s.handoffReason.value)
  {
    hide TokenFree;
    var reason, bullet := s.handoffReason.value, HandoffBullet(s);
    if reason == "" || reason == "none" {
      NoPIsTokenFree(reason);
    } else {
      var n := |"转人工原因："|;
      assert bullet[n..|bullet|] == reason;
      SliceTokenFree(bullet, n, |bullet|);
    }
  }

  /** And so does anything else the report takes over: it is withheld exactly if what it quotes has a token. */
  lemma BuiltReportIsServedIff(s: Summary)
    ensures BlockedSecretScan(EncodeReport(BuildReport(s))) <==> ReportedFree(s)
  {
    hide TokenFree, DeriveReadiness, ReadinessLabel, NextAction, Coverage, Evidence, Join, Warnings, CopyText,
         DecisionText, ChecksFree, BlockedSecretScan, EncodeReport, ScenarioName, ScenarioNameCn, HandoffBullet;
    if ReportedFree(s) {
      BuiltReportIsServed(s);
    } else if BlockedSecretScan(EncodeReport(BuildReport(s))) {
      ScanOfReport(BuildReport(s));
      assert SectionFree(Sections(s)[1]) && ServiceSection(s).bullets[2] == HandoffBullet(s);
      if s.handoffReason.Some? { HandoffBulletShows(s); }
    }
  }
}
