/** The fragment renderers of scripts/refactor_agents.py. Each turns one slice
    of an agent record into a Markdown fragment. Renderers the source writes
    as a loop appending to a list (fm, resp_block, tools_block,
    templates_block, handoff_block) are a method with that loop, proved equal
    to a function that describes the same text; the others are functions.
    The lemmas state each fragment's exact lines. */
module Renderers {
  import opened Text

  const BaseLink := "../instructions/agent-base.md"
  const MetricsLink := "../instructions/metrics-glossary.md"
  /** The version tag written into the front-matter and the changelog. */
  const Version := "0.2"

  const DurationLabel := "**建议时长**："
  const ProcessLabel := "**标准化流程**："
  const MetricsLabel := "**可量化指标（建议阈值）**："
  const DodLabel := "**交付标准（DoD）**："

  const ContractHeading := "输入/输出契约（Contract）"
  const InputsLabel := "**输入（Inputs）**："
  const OutputsLabel := "**输出（Outputs）**："
  const QuestionsLabel := "**输入缺失时优先追问（默认问题清单）**："

  const GatesHeading := "质量门禁（Quality Gates）"
  const GatesLinkLine := "通用门禁定义见" + " [" + BaseLink + "](" + BaseLink + ")。"
  const RoleGatesLabel := "**本角色专属门禁**："

  const ToolsHeading := "技能与工具"

  const TemplatesHeading := "模板（可复制使用）"
  const TemplatesLinkLine := "通用模板见" + " [" + BaseLink + "](" + BaseLink + ")。"
  const Fence := "```"

  const KpiHeading := "KPI（用于复盘与绩效）"
  const KpiLinkLine := "常用指标口径见" + " [" + MetricsLink + "](" + MetricsLink + ")。"

  const HandoffHeading := "协作与交接（Handoff + RACI）"
  const UpstreamLabel := "**上游我需要（Upstream）**："
  const DownstreamLabel := "**我交付给下游（Downstream）**："
  const RaciLabel := "**RACI（示例）**："
  const TableHeader := "| 场景 | R | A | C | I |"
  const TableSeparator := "|---|---|---|---|---|"

  /** A link line "caption [target](target)。" is one line when its parts are. */
  lemma LinkLineOneLine(caption: string, target: string)
    requires OneLine(caption) && OneLine(target)
    ensures OneLine(caption + " [" + target + "](" + target + ")。")
  {
  }

  // ---------------------------------------------------------------------
  // fm: the front-matter block

  /** A keyword argument of fm: a scalar value or a list of items. */
  datatype FmValue = Scalar(text: string) | Items(list: seq<string>)
  datatype FmEntry = FmEntry(key: string, value: FmValue)

  /** The "  - item" lines of a list value. */
  function ItemLines(items: seq<string>): seq<string>
  {
    seq(|items|, k requires 0 <= k < |items| => "  - " + items[k])
  }

  /** The lines one keyword argument gives: "k: v", or "k:" and its items. */
  function EntryLines(e: FmEntry): seq<string>
  {
    match e.value
    case Scalar(v) => [e.key + ": " + v]
    case Items(vs) => [e.key + ":"] + ItemLines(vs)
  }

  /** The lines of all keyword arguments, in argument order. */
  function EntriesLines(entries: seq<FmEntry>): seq<string>
  {
    if entries == [] then [] else EntryLines(entries[0]) + EntriesLines(entries[1..])
  }

  /** The text fm returns. */
  function FrontMatter(entries: seq<FmEntry>): string
  {
    JoinLines(["---"] + EntriesLines(entries) + ["---"])
  }

  lemma {:induction false} EntriesLinesAppend(a: seq<FmEntry>, b: seq<FmEntry>)
    ensures EntriesLines(a + b) == EntriesLines(a) + EntriesLines(b)
  {
    if a == [] {
      assert a + b == b;
    } else {
      assert (a + b)[1..] == a[1..] + b;
      EntriesLinesAppend(a[1..], b);
    }
  }

  lemma ItemLinesSnoc(vs: seq<string>, j: nat)
    requires j < |vs|
    ensures ItemLines(vs[..j + 1]) == ItemLines(vs[..j]) + ["  - " + vs[j]]
  {
  }

  lemma EntriesLinesSnoc(entries: seq<FmEntry>, i: nat)
    requires i < |entries|
    ensures EntriesLines(entries[..i + 1]) == EntriesLines(entries[..i]) + EntryLines(entries[i])
  {
    assert entries[..i + 1] == entries[..i] + [entries[i]];
    EntriesLinesAppend(entries[..i], [entries[i]]);
  }

  /** fm(**kwargs): builds the lines one argument at a time. */
  method RenderFrontMatter(entries: seq<FmEntry>) returns (r: string)
    ensures r == FrontMatter(entries)
  {
    var lines := ["---"];
    var i := 0;
    while i < |entries|
      invariant 0 <= i <= |entries|
      invariant lines == ["---"] + EntriesLines(entries[..i])
    {
      ghost var before := lines;
      lines := AppendEntry(lines, entries[i]);
      FrontLinesStep(entries, i, before, lines);
      i := i + 1;
    }
    FrontLinesDone(entries, lines);
    r := JoinLines(lines + ["---"]);
  }

  lemma FrontLinesStep(entries: seq<FmEntry>, i: nat, before: seq<string>, after: seq<string>)
    requires i < |entries|
    requires before == ["---"] + EntriesLines(entries[..i])
    requires after == before + EntryLines(entries[i])
    ensures after == ["---"] + EntriesLines(entries[..i + 1])
  {
    EntriesLinesSnoc(entries, i);
    AppendAssoc(["---"], EntriesLines(entries[..i]), EntryLines(entries[i]));
  }

  // Proof-cost helper: associativity of three line lists, stated once.
  lemma AppendAssoc(a: seq<string>, b: seq<string>, c: seq<string>)
    ensures a + b + c == a + (b + c)
  {
  }

  lemma FrontLinesDone(entries: seq<FmEntry>, lines: seq<string>)
    requires lines == ["---"] + EntriesLines(entries[..|entries|])
    ensures JoinLines(lines + ["---"]) == FrontMatter(entries)
  {
    assert entries[..|entries|] == entries;
  }

  /** One keyword argument of fm: a scalar line, or the list branch. */
  method AppendEntry(lines: seq<string>, e: FmEntry) returns (out: seq<string>)
    ensures out == lines + EntryLines(e)
  {
    match e.value {
      case Items(vs) =>
        out := AppendItems(lines, e.key, vs);
      case Scalar(v) =>
        out := lines + [e.key + ": " + v];
    }
  }

  /** The list branch of fm: "k:", then one "  - item" line per item. */
  method AppendItems(lines: seq<string>, key: string, vs: seq<string>) returns (out: seq<string>)
    ensures out == lines + ([key + ":"] + ItemLines(vs))
  {
    out := lines + [key + ":"];
    var j := 0;
    while j < |vs|
      invariant 0 <= j <= |vs|
      invariant out == lines + [key + ":"] + ItemLines(vs[..j])
    {
      ItemLinesSnoc(vs, j);
      out := out + ["  - " + vs[j]];
      j := j + 1;
    }
    assert vs[..j] == vs;
  }

  predicate EntryOneLine(e: FmEntry)
  {
    OneLine(e.key) &&
    match e.value
    case Scalar(v) => OneLine(v)
    case Items(vs) => AllOneLine(vs)
  }

  lemma {:induction false} EntriesLinesOneLine(entries: seq<FmEntry>)
    requires forall i :: 0 <= i < |entries| ==> EntryOneLine(entries[i])
    ensures AllOneLine(EntriesLines(entries))
  {
    if entries != [] {
      EntriesLinesOneLine(entries[1..]);
      var e := entries[0];
      assert EntryOneLine(e);
      match e.value {
        case Scalar(v) =>
        case Items(vs) =>
          assert forall k :: 0 <= k < |vs| ==> ItemLines(vs)[k] == "  - " + vs[k];
      }
    }
  }

  /** The front-matter opens with the line "---" and closes with the line
      "---", without a final line break, whatever the arguments. */
  lemma FrontMatterDelimited(entries: seq<FmEntry>)
    ensures var r := FrontMatter(entries);
      |r| >= 7 && r[..4] == "---\n" && r[|r| - 4..] == "\n---"
  {
    var body := EntriesLines(entries) + ["---"];
    assert ["---"] + EntriesLines(entries) + ["---"] == ["---"] + body;
    var tail := JoinLines(body);
    assert FrontMatter(entries) == "---" + "\n" + tail;
    JoinLast(EntriesLines(entries), "---");
  }

  /** With one-line keys and values, the lines of the front-matter are "---",
      the lines of each argument in argument order, and "---". */
  lemma FrontMatterLines(entries: seq<FmEntry>)
    requires forall i :: 0 <= i < |entries| ==> EntryOneLine(entries[i])
    ensures Split(FrontMatter(entries)) == ["---"] + EntriesLines(entries) + ["---"]
  {
    EntriesLinesOneLine(entries);
    FrontMatterSplit(entries);
  }

  lemma FrontMatterSplit(entries: seq<FmEntry>)
    requires AllOneLine(EntriesLines(entries))
    ensures Split(FrontMatter(entries)) == ["---"] + EntriesLines(entries) + ["---"]
  {
    var ls := ["---"] + EntriesLines(entries) + ["---"];
    assert AllOneLine(ls);
    JoinThenSplit(ls);
  }


  // ---------------------------------------------------------------------
  // section and sub: headings

  /** section(title): a level-2 heading with a line break on each side. */
  function Section(title: string): string
  {
    "\n## " + title + "\n"
  }

  /** sub(title): a level-3 heading with a line break on each side. */
  function Sub(title: string): string
  {
    "\n### " + title + "\n"
  }

  /** A section heading is an empty line, the line "## title", an empty line. */
  lemma SectionLines(title: string)
    requires OneLine(title)
    ensures Split(Section(title)) == ["", "## " + title, ""]
  {
    SplitFramed("## " + title);
    assert Section(title) == "\n" + ("## " + title) + "\n";
  }

  /** A sub-heading is an empty line, the line "### title", an empty line. */
  lemma SubLines(title: string)
    requires OneLine(title)
    ensures Split(Sub(title)) == ["", "### " + title, ""]
  {
    SplitFramed("### " + title);
    assert Sub(title) == "\n" + ("### " + title) + "\n";
  }

  /** The lines of a fragment made of a section heading and one-line parts. */
  lemma HeadedLines(heading: string, rest: seq<string>)
    requires OneLine(heading) && AllOneLine(rest)
    ensures Split(JoinLines([Section(heading)] + rest) + "\n") ==
      ["", "## " + heading, ""] + rest + [""]
  {
    SplitJoinedText([Section(heading)] + rest);
    SplitEachHead(Section(heading), rest);
    SectionLines(heading);
    SplitEachOneLine(rest);
  }

  /** The lines of a fragment made of a section heading, a link line and
      further parts. */
  lemma LinkedLines(heading: string, link: string, rest: seq<string>)
    requires OneLine(heading) && OneLine(link)
    ensures Split(JoinLines([Section(heading), link + "\n"] + rest) + "\n") ==
      ["", "## " + heading, "", link, ""] + SplitEach(rest) + [""]
  {
    var parts := [Section(heading), link + "\n"] + rest;
    SplitJoinedText(parts);
    assert parts[1..] == [link + "\n"] + rest;
    SplitEachHead(Section(heading), parts[1..]);
    SplitEachHead(link + "\n", rest);
    SectionLines(heading);
    SplitSpaced(link);
  }

  // ---------------------------------------------------------------------
  // resp_block: one responsibility

  /** The "{i}. {step}" lines, numbered from 1 in input order. */
  function Numbered(steps: seq<string>): seq<string>
  {
    seq(|steps|, k requires 0 <= k < |steps| => Decimal(k + 1) + ". " + steps[k])
  }

  /** The text resp_block returns. */
  function Responsibility(title: string, duration: string, steps: seq<string>,
                          metrics: seq<string>, dod: seq<string>): string
  {
    JoinLines([Sub(title), DurationLabel + duration + "\n", ProcessLabel + "\n"]
              + Numbered(steps)
              + ["\n" + MetricsLabel] + Bullets(metrics)
              + ["\n" + DodLabel] + Bullets(dod)) + "\n"
  }

  lemma NumberedSnoc(steps: seq<string>, i: nat)
    requires i < |steps|
    ensures Numbered(steps[..i + 1]) == Numbered(steps[..i]) + [Decimal(i + 1) + ". " + steps[i]]
  {
  }

  lemma BulletsSnoc(items: seq<string>, i: nat)
    requires i < |items|
    ensures Bullets(items[..i + 1]) == Bullets(items[..i]) + ["- " + items[i]]
  {
  }

  /** resp_block: appends the heading, the numbered steps and the bullets. */
  method RenderResponsibility(title: string, duration: string, steps: seq<string>,
                              metrics: seq<string>, dod: seq<string>) returns (r: string)
    ensures r == Responsibility(title, duration, steps, metrics, dod)
  {
    var parts: seq<string> := [];
    parts := parts + [Sub(title)];
    parts := parts + [DurationLabel + duration + "\n"];
    parts := parts + [ProcessLabel + "\n"];
    ghost var head := [Sub(title), DurationLabel + duration + "\n", ProcessLabel + "\n"];
    var i := 0;
    while i < |steps|
      invariant 0 <= i <= |steps|
      invariant parts == head + Numbered(steps[..i])
    {
      NumberedSnoc(steps, i);
      parts := parts + [Decimal(i + 1) + ". " + steps[i]];
      i := i + 1;
    }
    assert steps[..i] == steps;
    parts := parts + ["\n" + MetricsLabel];
    i := 0;
    while i < |metrics|
      invariant 0 <= i <= |metrics|
      invariant parts == head + Numbered(steps) + ["\n" + MetricsLabel] + Bullets(metrics[..i])
    {
      BulletsSnoc(metrics, i);
      parts := parts + ["- " + metrics[i]];
      i := i + 1;
    }
    assert metrics[..i] == metrics;
    parts := parts + ["\n" + DodLabel];
    i := 0;
    while i < |dod|
      invariant 0 <= i <= |dod|
      invariant parts == head + Numbered(steps) + ["\n" + MetricsLabel] + Bullets(metrics)
                         + ["\n" + DodLabel] + Bullets(dod[..i])
    {
      BulletsSnoc(dod, i);
      parts := parts + ["- " + dod[i]];
      i := i + 1;
    }
    assert dod[..i] == dod;
    r := JoinLines(parts) + "\n";
  }

  lemma NumberedOneLine(steps: seq<string>)
    requires AllOneLine(steps)
    ensures AllOneLine(Numbered(steps))
  {
    forall k | 0 <= k < |steps|
      ensures OneLine(Numbered(steps)[k])
    {
      DecimalOneLine(k + 1);
      assert Numbered(steps)[k] == Decimal(k + 1) + ". " + steps[k];
    }
  }

  /** Step k (from 0) is written as the numeral of k + 1, ". ", the step:
      reading the numeral back gives k + 1, so numbering starts at 1 on every
      call and counts up in input order. */
  lemma StepNumber(steps: seq<string>, k: nat)
    requires k < |steps|
    ensures var line, d := Numbered(steps)[k], Decimal(k + 1);
      |d| < |line| && line[..|d|] == d && AllDigits(d) &&
      DecimalValue(d) == k + 1 && line[|d|..] == ". " + steps[k]
  {
    var d := Decimal(k + 1);
    assert Numbered(steps)[k] == d + (". " + steps[k]);
    Halves(d, ". " + steps[k]);
    DecimalRoundTrip(k + 1);
  }

  /** The line structure of resp_block's text, with its fixed labels as
      parameters. */
  lemma ResponsibilityShape(title: string, durationLine: string, process: string,
                            metricsLabel: string, dodLabel: string,
                            numbered: seq<string>, metrics: seq<string>, dod: seq<string>)
    requires OneLine(title) && OneLine(durationLine) && OneLine(process)
    requires OneLine(metricsLabel) && OneLine(dodLabel)
    requires AllOneLine(numbered) && AllOneLine(metrics) && AllOneLine(dod)
    ensures Split(JoinLines([Sub(title), durationLine + "\n", process + "\n"]
                            + numbered
                            + ["\n" + metricsLabel] + Bullets(metrics)
                            + ["\n" + dodLabel] + Bullets(dod)) + "\n") ==
      ["", "### " + title, "", durationLine, "", process, ""]
      + numbered
      + ["", metricsLabel] + Bullets(metrics)
      + ["", dodLabel] + Bullets(dod)
      + [""]
  {
    BulletsOneLine(metrics);
    BulletsOneLine(dod);
    SplitEachOneLine(numbered);
    SplitEachOneLine(Bullets(metrics));
    SplitEachOneLine(Bullets(dod));
    var p1 := [Sub(title), durationLine + "\n", process + "\n"];
    var p2 := p1 + numbered;
    var p3 := p2 + ["\n" + metricsLabel];
    var p4 := p3 + Bullets(metrics);
    var p5 := p4 + ["\n" + dodLabel];
    var p6 := p5 + Bullets(dod);
    var l1 := ["", "### " + title, "", durationLine, "", process, ""];
    ResponsibilityHeadLines(title, durationLine, process);
    SplitEachAppend(p1, numbered);
    assert SplitEach(p2) == l1 + numbered;
    SplitCaption(metricsLabel);
    SplitEachAppend(p2, ["\n" + metricsLabel]);
    assert SplitEach(p3) == l1 + numbered + ["", metricsLabel];
    SplitEachAppend(p3, Bullets(metrics));
    assert SplitEach(p4) == l1 + numbered + ["", metricsLabel] + Bullets(metrics);
    SplitCaption(dodLabel);
    SplitEachAppend(p4, ["\n" + dodLabel]);
    assert SplitEach(p5) == l1 + numbered + ["", metricsLabel] + Bullets(metrics) + ["", dodLabel];
    SplitEachAppend(p5, Bullets(dod));
    SplitJoinedText(p6);
  }

  /** The first three parts of resp_block: sub-heading, duration, process. */
  lemma ResponsibilityHeadLines(title: string, durationLine: string, process: string)
    requires OneLine(title) && OneLine(durationLine) && OneLine(process)
    ensures SplitEach([Sub(title), durationLine + "\n", process + "\n"]) ==
      ["", "### " + title, "", durationLine, "", process, ""]
  {
    var p1 := [Sub(title), durationLine + "\n", process + "\n"];
    assert p1[1..] == [durationLine + "\n", process + "\n"];
    SplitEachHead(Sub(title), p1[1..]);
    SplitEachPair(durationLine + "\n", process + "\n");
    SubLines(title);
    SplitSpaced(durationLine);
    SplitSpaced(process);
  }

  /** With one-line inputs, a responsibility is these lines: the sub-heading,
      the duration, the process label, one numbered line per step, the
      metrics label and one bullet per metric, the DoD label and one bullet
      per DoD item, and a final empty line. */
  lemma ResponsibilityLines(title: string, duration: string, steps: seq<string>,
                            metrics: seq<string>, dod: seq<string>)
    requires OneLine(title) && OneLine(duration)
    requires AllOneLine(steps) && AllOneLine(metrics) && AllOneLine(dod)
    ensures Split(Responsibility(title, duration, steps, metrics, dod)) ==
      ["", "### " + title, "", DurationLabel + duration, "", ProcessLabel, ""]
      + Numbered(steps)
      + ["", MetricsLabel] + Bullets(metrics)
      + ["", DodLabel] + Bullets(dod)
      + [""]
  {
    NumberedOneLine(steps);
    ResponsibilityShape(title, DurationLabel + duration, ProcessLabel, MetricsLabel, DodLabel,
                        Numbered(steps), metrics, dod);
  }

  // ---------------------------------------------------------------------
  // contract, quality_gates and kpi_block: labelled bullet lists

  /** The text contract(inputs, outputs, missing_questions) returns. */
  function Contract(inputs: seq<string>, outputs: seq<string>, questions: seq<string>): string
  {
    JoinLines([Section(ContractHeading), InputsLabel] + Bullets(inputs)
              + ["\n" + OutputsLabel] + Bullets(outputs)
              + ["\n" + QuestionsLabel] + Bullets(questions)) + "\n"
  }

  /** The line structure of contract's text, with its fixed labels as
      parameters. */
  lemma ContractShape(heading: string, first: string, second: string, third: string,
                      xs: seq<string>, ys: seq<string>, zs: seq<string>)
    requires OneLine(heading) && OneLine(first) && OneLine(second) && OneLine(third)
    requires AllOneLine(xs) && AllOneLine(ys) && AllOneLine(zs)
    ensures Split(JoinLines([Section(heading), first] + Bullets(xs)
                            + ["\n" + second] + Bullets(ys)
                            + ["\n" + third] + Bullets(zs)) + "\n") ==
      ["", "## " + heading, "", first] + Bullets(xs)
      + ["", second] + Bullets(ys)
      + ["", third] + Bullets(zs)
      + [""]
  {
    BulletsOneLine(xs);
    BulletsOneLine(ys);
    BulletsOneLine(zs);
    SplitEachOneLine(Bullets(xs));
    SplitEachOneLine(Bullets(ys));
    SplitEachOneLine(Bullets(zs));
    var p1 := [Section(heading), first];
    var p2 := p1 + Bullets(xs);
    var p3 := p2 + ["\n" + second];
    var p4 := p3 + Bullets(ys);
    var p5 := p4 + ["\n" + third];
    var p6 := p5 + Bullets(zs);
    var l1 := ["", "## " + heading, "", first];
    HeadingLines(heading, first);
    SplitEachAppend(p1, Bullets(xs));
    assert SplitEach(p2) == l1 + Bullets(xs);
    SplitCaption(second);
    SplitEachAppend(p2, ["\n" + second]);
    assert SplitEach(p3) == l1 + Bullets(xs) + ["", second];
    SplitEachAppend(p3, Bullets(ys));
    assert SplitEach(p4) == l1 + Bullets(xs) + ["", second] + Bullets(ys);
    SplitCaption(third);
    SplitEachAppend(p4, ["\n" + third]);
    assert SplitEach(p5) == l1 + Bullets(xs) + ["", second] + Bullets(ys) + ["", third];
    SplitEachAppend(p5, Bullets(zs));
    SplitJoinedText(p6);
  }

  /** A section heading followed by a one-line part. */
  lemma HeadingLines(heading: string, first: string)
    requires OneLine(heading) && OneLine(first)
    ensures SplitEach([Section(heading), first]) == ["", "## " + heading, "", first]
  {
    SplitEachPair(Section(heading), first);
    SectionLines(heading);
    SplitOneLine(first);
  }

  /** With one-line items, the contract is its heading, then inputs, outputs
      and questions, each a label followed by one bullet per item in order;
      an empty list still gets its label. */
  lemma ContractLines(inputs: seq<string>, outputs: seq<string>, questions: seq<string>)
    requires AllOneLine(inputs) && AllOneLine(outputs) && AllOneLine(questions)
    ensures Split(Contract(inputs, outputs, questions)) ==
      ["", "## " + ContractHeading, "", InputsLabel] + Bullets(inputs)
      + ["", OutputsLabel] + Bullets(outputs)
      + ["", QuestionsLabel] + Bullets(questions)
      + [""]
  {
    ContractShape(ContractHeading, InputsLabel, OutputsLabel, QuestionsLabel,
                  inputs, outputs, questions);
  }

  /** The text quality_gates(gates) returns. */
  function QualityGates(gates: seq<string>): string
  {
    JoinLines([Section(GatesHeading), GatesLinkLine + "\n", RoleGatesLabel] + Bullets(gates)) + "\n"
  }

  lemma GatesShape(heading: string, link: string, caption: string, gates: seq<string>)
    requires OneLine(heading) && OneLine(link) && OneLine(caption) && AllOneLine(gates)
    ensures Split(JoinLines([Section(heading), link + "\n", caption] + Bullets(gates)) + "\n") ==
      ["", "## " + heading, "", link, ""] + ([caption] + Bullets(gates)) + [""]
  {
    BulletsOneLine(gates);
    ThreeThenRest(Section(heading), link + "\n", caption, Bullets(gates));
    LinkedLines(heading, link, [caption] + Bullets(gates));
    CaptionedOneLine(caption, Bullets(gates));
  }

  // Proof-cost helper: splits a three-line head off a list of lines.
  lemma ThreeThenRest(a: string, b: string, c: string, rest: seq<string>)
    ensures [a, b, c] + rest == [a, b] + ([c] + rest)
  {
  }

  /** With one-line gates: the heading, the fixed link to the shared base
      document, the role label, one bullet per gate in order. */
  lemma QualityGatesLines(gates: seq<string>)
    requires AllOneLine(gates)
    ensures Split(QualityGates(gates)) ==
      ["", "## " + GatesHeading, "", GatesLinkLine, ""] + ([RoleGatesLabel] + Bullets(gates)) + [""]
  {
    LinkLineOneLine("通用门禁定义见", BaseLink);
    GatesShape(GatesHeading, GatesLinkLine, RoleGatesLabel, gates);
  }

  /** The text kpi_block(items) returns. */
  function Kpi(items: seq<string>): string
  {
    JoinLines([Section(KpiHeading), KpiLinkLine + "\n"] + Bullets(items)) + "\n"
  }

  /** With one-line items: the heading, the fixed link to the metrics
      glossary, one bullet per KPI in order. */
  lemma KpiLines(items: seq<string>)
    requires AllOneLine(items)
    ensures Split(Kpi(items)) ==
      ["", "## " + KpiHeading, "", KpiLinkLine, ""] + Bullets(items) + [""]
  {
    BulletsOneLine(items);
    LinkLineOneLine("常用指标口径见", MetricsLink);
    LinkedLines(KpiHeading, KpiLinkLine, Bullets(items));
    SplitEachOneLine(Bullets(items));
  }

  // ---------------------------------------------------------------------
  // tools_block: one labelled list per category, in insertion order

  /** One entry of the tools mapping; the mapping is the list of its
      entries in insertion order. */
  datatype ToolCategory = ToolCategory(name: string, tools: seq<string>)

  /** The parts one category appends: "**name**：", its bullets, "". */
  function CategoryParts(c: ToolCategory): seq<string>
  {
    ["**" + c.name + "**："] + Bullets(c.tools) + [""]
  }

  function CategoriesParts(cs: seq<ToolCategory>): seq<string>
  {
    if cs == [] then [] else CategoryParts(cs[0]) + CategoriesParts(cs[1..])
  }

  /** The text tools_block returns. */
  function Tools(cs: seq<ToolCategory>): string
  {
    JoinLines([Section(ToolsHeading)] + CategoriesParts(cs)) + "\n"
  }

  lemma {:induction false} CategoriesPartsAppend(a: seq<ToolCategory>, b: seq<ToolCategory>)
    ensures CategoriesParts(a + b) == CategoriesParts(a) + CategoriesParts(b)
  {
    if a == [] {
      assert a + b == b;
    } else {
      assert (a + b)[1..] == a[1..] + b;
      CategoriesPartsAppend(a[1..], b);
    }
  }

  lemma CategoriesPartsSnoc(cs: seq<ToolCategory>, i: nat)
    requires i < |cs|
    ensures CategoriesParts(cs[..i + 1]) == CategoriesParts(cs[..i]) + CategoryParts(cs[i])
  {
    assert cs[..i + 1] == cs[..i] + [cs[i]];
    CategoriesPartsAppend(cs[..i], [cs[i]]);
  }

  /** tools_block(items): appends each category's label, bullets and blank. */
  method RenderTools(cs: seq<ToolCategory>) returns (r: string)
    ensures r == Tools(cs)
  {
    var parts := [Section(ToolsHeading)];
    var i := 0;
    while i < |cs|
      invariant 0 <= i <= |cs|
      invariant parts == [Section(ToolsHeading)] + CategoriesParts(cs[..i])
    {
      var c := cs[i];
      parts := parts + ["**" + c.name + "**："];
      parts := parts + Bullets(c.tools);
      parts := parts + [""];
      CategoriesPartsSnoc(cs, i);
      i := i + 1;
    }
    assert cs[..i] == cs;
    r := JoinLines(parts) + "\n";
  }

  predicate CategoryOneLine(c: ToolCategory)
  {
    OneLine(c.name) && AllOneLine(c.tools)
  }

  lemma {:induction false} CategoriesPartsOneLine(cs: seq<ToolCategory>)
    requires forall i :: 0 <= i < |cs| ==> CategoryOneLine(cs[i])
    ensures AllOneLine(CategoriesParts(cs))
  {
    if cs != [] {
      assert CategoryOneLine(cs[0]);
      BulletsOneLine(cs[0].tools);
      CategoriesPartsOneLine(cs[1..]);
    }
  }

  /** With one-line names and tools: the heading, then for every category in
      insertion order its "**name**：" line, one bullet per tool and a blank
      line. */
  lemma ToolsLines(cs: seq<ToolCategory>)
    requires forall i :: 0 <= i < |cs| ==> CategoryOneLine(cs[i])
    ensures Split(Tools(cs)) == ["", "## " + ToolsHeading, ""] + CategoriesParts(cs) + [""]
  {
    CategoriesPartsOneLine(cs);
    ToolsSplit(cs);
  }

  lemma ToolsSplit(cs: seq<ToolCategory>)
    requires AllOneLine(CategoriesParts(cs))
    ensures Split(Tools(cs)) == ["", "## " + ToolsHeading, ""] + CategoriesParts(cs) + [""]
  {
    HeadedLines(ToolsHeading, CategoriesParts(cs));
  }

  // ---------------------------------------------------------------------
  // templates_block: one fenced block per template

  datatype Template = Template(title: string, body: string)

  /** The fenced block for a body: the body without its leading and trailing
      line breaks, between "```" lines. */
  function FencedBody(body: string): string
  {
    Fence + "\n" + Strip(body, {'\n'}) + "\n" + Fence + "\n"
  }

  function TemplateParts(t: Template): seq<string>
  {
    ["### " + t.title + "\n", FencedBody(t.body)]
  }

  function TemplatesPartsAll(ts: seq<Template>): seq<string>
  {
    if ts == [] then [] else TemplateParts(ts[0]) + TemplatesPartsAll(ts[1..])
  }

  /** The text templates_block returns. */
  function Templates(ts: seq<Template>): string
  {
    JoinLines([Section(TemplatesHeading), TemplatesLinkLine + "\n"] + TemplatesPartsAll(ts)) + "\n"
  }

  lemma {:induction false} TemplatesPartsAppend(a: seq<Template>, b: seq<Template>)
    ensures TemplatesPartsAll(a + b) == TemplatesPartsAll(a) + TemplatesPartsAll(b)
  {
    if a == [] {
      assert a + b == b;
    } else {
      assert (a + b)[1..] == a[1..] + b;
      TemplatesPartsAppend(a[1..], b);
    }
  }

  lemma TemplatesPartsSnoc(ts: seq<Template>, i: nat)
    requires i < |ts|
    ensures TemplatesPartsAll(ts[..i + 1]) == TemplatesPartsAll(ts[..i]) + TemplateParts(ts[i])
  {
    assert ts[..i + 1] == ts[..i] + [ts[i]];
    TemplatesPartsAppend(ts[..i], [ts[i]]);
  }

  // Proof-cost helper: appending two lines one by one or as a pair.
  lemma AppendPairAssoc(a: seq<string>, b: seq<string>, x: string, y: string)
    ensures a + b + [x] + [y] == a + (b + [x, y])
  {
  }

  /** templates_block(items): appends each title and fenced body. */
  method RenderTemplates(ts: seq<Template>) returns (r: string)
    ensures r == Templates(ts)
  {
    var parts := [Section(TemplatesHeading), TemplatesLinkLine + "\n"];
    var i := 0;
    while i < |ts|
      invariant 0 <= i <= |ts|
      invariant parts == [Section(TemplatesHeading), TemplatesLinkLine + "\n"] + TemplatesPartsAll(ts[..i])
    {
      var t := ts[i];
      TemplatesPartsSnoc(ts, i);
      AppendPairAssoc([Section(TemplatesHeading), TemplatesLinkLine + "\n"], TemplatesPartsAll(ts[..i]),
                      "### " + t.title + "\n", FencedBody(t.body));
      parts := parts + ["### " + t.title + "\n"];
      parts := parts + [Fence + "\n" + Strip(t.body, {'\n'}) + "\n" + Fence + "\n"];
      i := i + 1;
    }
    assert ts[..i] == ts;
    r := JoinLines(parts) + "\n";
  }

  /** The body inside the fence is the original body with only its leading
      and trailing line breaks removed: every other character, whitespace
      included, is kept in place. */
  lemma FencedBodyKeepsContent(body: string)
    ensures var inner := Strip(body, {'\n'});
      (exists i :: Trimmed(body, i, inner, {'\n'})) &&
      (inner == [] || (inner[0] != '\n' && inner[|inner| - 1] != '\n'))
  {
    StripTrims(body, {'\n'});
  }

  /** The lines one template gives: "### title", a blank line, the fence,
      the lines of the trimmed body, the fence, a blank line. */
  function TemplateLines(t: Template): seq<string>
  {
    ["### " + t.title, "", Fence] + Split(Strip(t.body, {'\n'})) + [Fence, ""]
  }

  function TemplatesLinesAll(ts: seq<Template>): seq<string>
  {
    if ts == [] then [] else TemplateLines(ts[0]) + TemplatesLinesAll(ts[1..])
  }

  lemma FenceLines(fence: string, inner: string)
    requires OneLine(fence)
    ensures Split(fence + "\n" + inner + "\n" + fence + "\n") == [fence] + Split(inner) + [fence, ""]
  {
    assert fence + "\n" + inner + "\n" + fence + "\n" == fence + "\n" + (inner + "\n" + (fence + "\n"));
    SplitAround(fence, inner + "\n" + (fence + "\n"));
    SplitAround(inner, fence + "\n");
    SplitSpaced(fence);
    SplitOneLine(fence);
  }

  lemma TemplateSplit(t: Template)
    requires OneLine(t.title)
    ensures SplitEach(TemplateParts(t)) == TemplateLines(t)
  {
    TitledBlockLines(t.title, Fence, Strip(t.body, {'\n'}));
  }

  /** A "### title" part followed by a fenced block, with the fence as a
      parameter. */
  lemma TitledBlockLines(title: string, fence: string, inner: string)
    requires OneLine(title) && OneLine(fence)
    ensures SplitEach(["### " + title + "\n", fence + "\n" + inner + "\n" + fence + "\n"]) ==
      ["### " + title, "", fence] + Split(inner) + [fence, ""]
  {
    SplitEachPair("### " + title + "\n", fence + "\n" + inner + "\n" + fence + "\n");
    SplitSpaced("### " + title);
    FenceLines(fence, inner);
  }

  lemma {:induction false} TemplatesSplit(ts: seq<Template>)
    requires forall i :: 0 <= i < |ts| ==> OneLine(ts[i].title)
    ensures SplitEach(TemplatesPartsAll(ts)) == TemplatesLinesAll(ts)
  {
    if ts != [] {
      TemplatesSplit(ts[1..]);
      TemplateSplit(ts[0]);
      SplitEachAppend(TemplateParts(ts[0]), TemplatesPartsAll(ts[1..]));
    }
  }

  /** With one-line titles: the heading, the fixed link to the shared base
      document, then for every template in order its title line and its
      fenced, trimmed body. */
  lemma TemplatesLines(ts: seq<Template>)
    requires forall i :: 0 <= i < |ts| ==> OneLine(ts[i].title)
    ensures Split(Templates(ts)) ==
      ["", "## " + TemplatesHeading, "", TemplatesLinkLine, ""] + TemplatesLinesAll(ts) + [""]
  {
    TemplatesSplit(ts);
    TemplatesJoined(ts);
  }

  lemma TemplatesJoined(ts: seq<Template>)
    ensures Split(Templates(ts)) ==
      ["", "## " + TemplatesHeading, "", TemplatesLinkLine, ""] + SplitEach(TemplatesPartsAll(ts)) + [""]
  {
    LinkLineOneLine("通用模板见", BaseLink);
    LinkedLines(TemplatesHeading, TemplatesLinkLine, TemplatesPartsAll(ts));
  }

  /** No templates: the section is its heading and the link line only, with
      no fence anywhere. */
  lemma NoTemplatesNoFence()
    ensures Split(Templates([])) == ["", "## " + TemplatesHeading, "", TemplatesLinkLine, "", ""]
    ensures Fence !in Split(Templates([]))
  {
    TemplatesLines([]);
  }

  // ---------------------------------------------------------------------
  // handoff_block: upstream, downstream and the RACI table

  /** One RACI row: scenario, Responsible, Accountable, Consulted, Informed. */
  datatype Raci = Raci(scene: string, r: string, a: string, c: string, i: string)

  /** The table row of a RACI tuple, cells in column order. */
  function RaciRow(row: Raci): string
  {
    "| " + row.scene + " | " + row.r + " | " + row.a + " | " + row.c + " | " + row.i + " |"
  }

  function RaciRows(rows: seq<Raci>): seq<string>
  {
    seq(|rows|, k requires 0 <= k < |rows| => RaciRow(rows[k]))
  }

  /** The table: the fixed header and separator, then one row per tuple. */
  function Table(rows: seq<Raci>): seq<string>
  {
    [TableHeader, TableSeparator] + RaciRows(rows)
  }

  /** The text handoff_block returns. */
  function Handoff(upstream: seq<string>, downstream: seq<string>, rows: seq<Raci>): string
  {
    JoinLines([Section(HandoffHeading), UpstreamLabel] + Bullets(upstream)
              + ["\n" + DownstreamLabel] + Bullets(downstream)
              + ["\n" + RaciLabel + "\n", TableHeader, TableSeparator] + RaciRows(rows)) + "\n"
  }

  lemma RaciRowsSnoc(rows: seq<Raci>, i: nat)
    requires i < |rows|
    ensures RaciRows(rows[..i + 1]) == RaciRows(rows[..i]) + [RaciRow(rows[i])]
  {
  }

  /** handoff_block: the two lists, the fixed table head, one row per tuple. */
  method RenderHandoff(upstream: seq<string>, downstream: seq<string>,
                       rows: seq<Raci>) returns (r: string)
    ensures r == Handoff(upstream, downstream, rows)
  {
    var parts := [Section(HandoffHeading)];
    parts := parts + [UpstreamLabel];
    parts := parts + Bullets(upstream);
    parts := parts + ["\n" + DownstreamLabel];
    parts := parts + Bullets(downstream);
    parts := parts + ["\n" + RaciLabel + "\n"];
    parts := parts + [TableHeader];
    parts := parts + [TableSeparator];
    ghost var head := [Section(HandoffHeading), UpstreamLabel] + Bullets(upstream)
                      + ["\n" + DownstreamLabel] + Bullets(downstream)
                      + ["\n" + RaciLabel + "\n", TableHeader, TableSeparator];
    assert parts == head;
    var i := 0;
    while i < |rows|
      invariant 0 <= i <= |rows|
      invariant parts == head + RaciRows(rows[..i])
    {
      var row := rows[i];
      RaciRowsSnoc(rows, i);
      parts := parts + ["| " + row.scene + " | " + row.r + " | " + row.a + " | " + row.c + " | " + row.i + " |"];
      i := i + 1;
    }
    assert rows[..i] == rows;
    r := JoinLines(parts) + "\n";
  }

  predicate RaciOneLine(row: Raci)
  {
    OneLine(row.scene) && OneLine(row.r) && OneLine(row.a) && OneLine(row.c) && OneLine(row.i)
  }

  lemma RaciRowsOneLine(rows: seq<Raci>)
    requires forall k :: 0 <= k < |rows| ==> RaciOneLine(rows[k])
    ensures AllOneLine(RaciRows(rows))
  {
    forall k | 0 <= k < |rows|
      ensures OneLine(RaciRows(rows)[k])
    {
      assert RaciOneLine(rows[k]);
    }
  }

  /** The line structure of handoff_block's text, with its fixed labels as
      parameters. */
  lemma HandoffShape(heading: string, up: string, down: string, raci: string,
                     header: string, separator: string,
                     upstream: seq<string>, downstream: seq<string>, rows: seq<string>)
    requires OneLine(heading) && OneLine(up) && OneLine(down) && OneLine(raci)
    requires OneLine(header) && OneLine(separator)
    requires AllOneLine(upstream) && AllOneLine(downstream) && AllOneLine(rows)
    ensures Split(JoinLines([Section(heading), up] + Bullets(upstream)
                            + ["\n" + down] + Bullets(downstream)
                            + ["\n" + raci + "\n", header, separator] + rows) + "\n") ==
      ["", "## " + heading, "", up] + Bullets(upstream)
      + ["", down] + Bullets(downstream)
      + ["", raci, "", header, separator] + rows + [""]
  {
    BulletsOneLine(upstream);
    BulletsOneLine(downstream);
    SplitEachOneLine(Bullets(upstream));
    SplitEachOneLine(Bullets(downstream));
    SplitEachOneLine(rows);
    var p1 := [Section(heading), up];
    var p2 := p1 + Bullets(upstream);
    var p3 := p2 + ["\n" + down];
    var p4 := p3 + Bullets(downstream);
    var p5 := p4 + ["\n" + raci + "\n", header, separator];
    var p6 := p5 + rows;
    var l1 := ["", "## " + heading, "", up];
    HeadingLines(heading, up);
    SplitEachAppend(p1, Bullets(upstream));
    assert SplitEach(p2) == l1 + Bullets(upstream);
    SplitCaption(down);
    SplitEachAppend(p2, ["\n" + down]);
    assert SplitEach(p3) == l1 + Bullets(upstream) + ["", down];
    SplitEachAppend(p3, Bullets(downstream));
    assert SplitEach(p4) == l1 + Bullets(upstream) + ["", down] + Bullets(downstream);
    TableHeadLines(raci, header, separator);
    SplitEachAppend(p4, ["\n" + raci + "\n", header, separator]);
    assert SplitEach(p5) == l1 + Bullets(upstream) + ["", down] + Bullets(downstream)
                           + ["", raci, "", header, separator];
    SplitEachAppend(p5, rows);
    SplitJoinedText(p6);
  }

  /** The parts that open the RACI table: its caption, header and separator. */
  lemma TableHeadLines(raci: string, header: string, separator: string)
    requires OneLine(raci) && OneLine(header) && OneLine(separator)
    ensures SplitEach(["\n" + raci + "\n", header, separator]) == ["", raci, "", header, separator]
  {
    var parts := ["\n" + raci + "\n", header, separator];
    assert parts[1..] == [header, separator];
    SplitEachHead("\n" + raci + "\n", parts[1..]);
    SplitEachPair(header, separator);
    SplitOneLine(header);
    SplitOneLine(separator);
    assert "\n" + raci + "\n" == "\n" + (raci + "\n");
    SplitLeading(raci + "\n");
    SplitSpaced(raci);
  }

  /** With one-line cells: the heading, the upstream label and bullets, the
      downstream label and bullets, the RACI label, then the table, which has
      exactly |rows| + 2 lines: header, separator and one row per tuple in
      input order. */
  lemma HandoffLines(upstream: seq<string>, downstream: seq<string>, rows: seq<Raci>)
    requires AllOneLine(upstream) && AllOneLine(downstream)
    requires forall k :: 0 <= k < |rows| ==> RaciOneLine(rows[k])
    ensures Split(Handoff(upstream, downstream, rows)) ==
      ["", "## " + HandoffHeading, "", UpstreamLabel] + Bullets(upstream)
      + ["", DownstreamLabel] + Bullets(downstream)
      + ["", RaciLabel, ""] + Table(rows) + [""]
    ensures |Table(rows)| == |rows| + 2
    ensures forall k :: 0 <= k < |rows| ==> Table(rows)[k + 2] == RaciRow(rows[k])
  {
    RaciRowsOneLine(rows);
    HandoffShape(HandoffHeading, UpstreamLabel, DownstreamLabel, RaciLabel,
                 TableHeader, TableSeparator, upstream, downstream, RaciRows(rows));
    TableRegroup(["", "## " + HandoffHeading, "", UpstreamLabel] + Bullets(upstream)
                 + ["", DownstreamLabel] + Bullets(downstream),
                 RaciLabel, TableHeader, TableSeparator, RaciRows(rows));
    TableRows(rows);
  }

  // Proof-cost helper: regroups the hand-off lines so the table is one block.
  lemma TableRegroup(before: seq<string>, raci: string, header: string, separator: string, rows: seq<string>)
    ensures before + ["", raci, "", header, separator] + rows + [""] ==
      before + ["", raci, ""] + ([header, separator] + rows) + [""]
  {
  }

  /** The table has the header, the separator and one row per tuple. */
  lemma TableRows(rows: seq<Raci>)
    ensures |Table(rows)| == |rows| + 2
    ensures forall k :: 0 <= k < |rows| ==> Table(rows)[k + 2] == RaciRow(rows[k])
  {
  }

  // ---------------------------------------------------------------------
  // changelog

  const ChangelogHeading := "Changelog"

  /** The one changelog entry: "- {date} v0.2 — {note}". */
  function ChangelogEntry(today: string, note: string): string
  {
    "- " + today + " v" + Version + " — " + note
  }

  /** changelog(initial_note) on the day `today`, the ISO date the source
      reads from the clock: "\n## Changelog\n\n- {date} v0.2 — {note}\n". */
  function Changelog(today: string, note: string): string
  {
    Section(ChangelogHeading) + "\n" + ChangelogEntry(today, note) + "\n"
  }

  /** The changelog is its heading and the single entry line. */
  lemma ChangelogLines(today: string, note: string)
    requires OneLine(today) && OneLine(note)
    ensures Split(Changelog(today, note)) ==
      ["", "## " + ChangelogHeading, "", ChangelogEntry(today, note), ""]
  {
    var entry := ChangelogEntry(today, note);
    assert Changelog(today, note) == Section(ChangelogHeading) + "\n" + (entry + "\n");
    SplitAround(Section(ChangelogHeading), entry + "\n");
    SectionLines(ChangelogHeading);
    SplitSpaced(entry);
  }
}
