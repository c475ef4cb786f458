/** render_agent: one agent's Markdown document, assembled from the agent's
    record and the date of the run. The date is a parameter: the source reads
    it once from the clock, so for a fixed date the document is a function of
    the record alone. */
module Agents {
  import opened Text
  import opened Renderers

  /** The record build_specs fills in for one agent. `responsibilities` holds
      ready-made resp_block texts; `tools` is the tools mapping, given as its
      entries in insertion order; `templates` are (title, body) pairs and
      `raciRows` the RACI tuples. */
  datatype AgentSpec = AgentSpec(
    agentId: string,
    title: string,
    roleDesc: string,
    scopeIn: seq<string>,
    scopeOut: seq<string>,
    inputs: seq<string>,
    outputs: seq<string>,
    missingQuestions: seq<string>,
    responsibilities: seq<string>,
    tools: seq<ToolCategory>,
    gates: seq<string>,
    templates: seq<Template>,
    kpis: seq<string>,
    upstream: seq<string>,
    downstream: seq<string>,
    raciRows: seq<Raci>,
    initialNote: string)

  const Language := "zh-CN"
  const RoleHeading := "## 角色描述"
  const Rule := "---"
  const ScopeHeading := "适用范围 / 不适用范围"
  const ScopeInLabel := "**适用范围**："
  const ScopeOutLabel := "**不适用范围**："
  const ResponsibilitiesHeading := "核心职责与标准化流程"

  /** The keyword arguments render_agent passes to fm, in that order. */
  function Header(spec: AgentSpec, today: string): seq<FmEntry>
  {
    [FmEntry("id", Scalar(spec.agentId)),
     FmEntry("name", Scalar(spec.title)),
     FmEntry("version", Scalar(Version)),
     FmEntry("last_updated", Scalar(today)),
     FmEntry("language", Scalar(Language))]
  }

  /** The role fragment: its heading, then the description with surrounding
      whitespace removed. */
  function Role(roleDesc: string): string
  {
    RoleHeading + "\n" + Strip(roleDesc, Whitespace) + "\n"
  }

  /** The scope fragment: both labelled bullet lists. */
  function Scope(scopeIn: seq<string>, scopeOut: seq<string>): string
  {
    ScopeInLabel + "\n" + JoinLines(Bullets(scopeIn)) + "\n\n" +
    ScopeOutLabel + "\n" + JoinLines(Bullets(scopeOut)) + "\n"
  }

  /** The level-1 title line under the front-matter. */
  function TitleLine(title: string): string
  {
    "# " + title + "\n"
  }

  /** The fourteen fragments render_agent lists before the changelog: the
      front-matter and the title line, then the twelve chapters. */
  function BodyParts(spec: AgentSpec, today: string): (parts: seq<string>)
    ensures |parts| == 14
    ensures parts[0] == FrontMatter(Header(spec, today)) && parts[1] == TitleLine(spec.title)
  {
    [FrontMatter(Header(spec, today)), TitleLine(spec.title)] + Chapters(spec)
  }

  /** The twelve fragments after the title line, in render_agent's order. */
  function Chapters(spec: AgentSpec): (parts: seq<string>)
    ensures |parts| == 12
  {
    [Role(spec.roleDesc),
     Rule + "\n",
     Section(ScopeHeading),
     Scope(spec.scopeIn, spec.scopeOut),
     Contract(spec.inputs, spec.outputs, spec.missingQuestions),
     Section(ResponsibilitiesHeading),
     JoinLines(spec.responsibilities) + "\n",
     Tools(spec.tools),
     QualityGates(spec.gates),
     Templates(spec.templates),
     Kpi(spec.kpis),
     Handoff(spec.upstream, spec.downstream, spec.raciRows)]
  }

  /** All fifteen fragments, in render_agent's order. */
  function Parts(spec: AgentSpec, today: string): seq<string>
  {
    BodyParts(spec, today) + [Changelog(today, spec.initialNote)]
  }

  /** s.rstrip() + "\n": trailing whitespace replaced by one line break. */
  function Normalise(text: string): string
  {
    RStrip(text, Whitespace) + "\n"
  }

  /** Joined fragments up to and including the dash of the changelog entry:
      the part of the text that normalisation never touches. */
  function Kept(body: seq<string>, today: string): string
  {
    JoinLines(body) + ChangelogHead(today)
  }

  /** The changelog text up to and including the dash of its entry. */
  function ChangelogHead(today: string): string
  {
    "\n" + Section(ChangelogHeading) + "\n" + Dashed(today)
  }

  /** The changelog entry up to and including its dash: "- {date} v0.2 —". */
  function Dashed(today: string): string
  {
    "- " + today + " v" + Version + " —"
  }

  lemma KeptEndsInDash(body: seq<string>, today: string)
    ensures var k := Kept(body, today); k != [] && k[|k| - 1] == '—' && '—' !in Whitespace
  {
  }

  /** Joined fragments that end with the changelog are the kept text, then
      " " + note + "\n". */
  lemma JoinedAtDash(body: seq<string>, today: string, note: string)
    requires body != []
    ensures JoinLines(body + [Changelog(today, note)]) == Kept(body, today) + (" " + note + "\n")
  {
    JoinLast(body, Changelog(today, note));
    ChangelogAtDash(today, note);
    DashRegroup(JoinLines(body), Section(ChangelogHeading), Dashed(today), " " + note + "\n");
  }

  /** The changelog is its heading, then the entry up to its dash, then
      " " + note + "\n". */
  lemma ChangelogAtDash(today: string, note: string)
    ensures Changelog(today, note) == Section(ChangelogHeading) + "\n" + Dashed(today) + (" " + note + "\n")
  {
    EntryAtDash(today, note);
  }

  // The entry split at its dash; ChangelogAtDash builds on it.
  lemma EntryAtDash(today: string, note: string)
    ensures ChangelogEntry(today, note) == Dashed(today) + (" " + note)
  {
    assert " — " == " —" + " ";
  }

  // Proof-cost helper: regroups the concatenation so callers avoid associativity search.
  lemma DashRegroup(j: string, heading: string, dashed: string, tail: string)
    ensures j + "\n" + (heading + "\n" + dashed + tail) == j + ("\n" + heading + "\n" + dashed) + tail
  {
  }

  /** Normalising fragments that end with the changelog trims nothing but
      the end of the note. */
  lemma NormaliseKeeps(body: seq<string>, today: string, note: string)
    requires body != []
    ensures Normalise(JoinLines(body + [Changelog(today, note)])) ==
      Kept(body, today) + RStrip(" " + note, Whitespace) + "\n"
  {
    JoinedAtDash(body, today, note);
    KeptEndsInDash(body, today);
    RStripKeepsPrefix(Kept(body, today), " " + note + "\n", Whitespace);
    RStripLineBreak(" " + note, Whitespace);
  }

  /** Fragments that end with the changelog, joined by line breaks and
      normalised. The text ends in a line break after a visible character. */
  function Document(body: seq<string>, today: string, note: string): (doc: string)
    requires body != []
    ensures |doc| >= 2 && doc[|doc| - 1] == '\n' && doc[|doc| - 2] !in Whitespace
  {
    NormaliseKeeps(body, today, note);
    KeptEndsInDash(body, today);
    Normalise(JoinLines(body + [Changelog(today, note)]))
  }

  /** render_agent(spec) on the day `today`: the fragments joined by line
      breaks, trailing whitespace replaced by exactly one line break. The
      document ends in a line break after a visible character. */
  function RenderAgent(spec: AgentSpec, today: string): (doc: string)
    ensures |doc| >= 2 && doc[|doc| - 1] == '\n' && doc[|doc| - 2] !in Whitespace
  {
    Document(BodyParts(spec, today), today, spec.initialNote)
  }

  /** Every fragment before the changelog, the changelog heading and the
      entry up to its dash come through unchanged; of the note only its
      trailing whitespace is dropped. */
  lemma RenderAgentKeeps(spec: AgentSpec, today: string)
    ensures RenderAgent(spec, today) ==
      Kept(BodyParts(spec, today), today) + RStrip(" " + spec.initialNote, Whitespace) + "\n"
  {
    NormaliseKeeps(BodyParts(spec, today), today, spec.initialNote);
  }

  /** rstrip() + "\n" is idempotent. */
  lemma NormaliseIdempotent(text: string)
    ensures Normalise(Normalise(text)) == Normalise(text)
  {
    var r := RStrip(text, Whitespace);
    RStripLineBreak(r, Whitespace);
    if r != [] {
      RStripKept(r, Whitespace);
    }
  }

  /** A text that ends in a line break after a visible character is left
      as it is by normalisation. */
  lemma NormaliseKeepsFinished(doc: string)
    requires |doc| >= 2 && doc[|doc| - 1] == '\n' && doc[|doc| - 2] !in Whitespace
    ensures Normalise(doc) == doc
  {
    var x := doc[..|doc| - 1];
    assert doc == x + "\n";
    RStripLineBreak(x, Whitespace);
    RStripKept(x, Whitespace);
  }

  /** Normalised fragments are a fixed point of the normalisation. */
  lemma DocumentNormalised(body: seq<string>, today: string, note: string)
    requires body != []
    ensures Normalise(Document(body, today, note)) == Document(body, today, note)
  {
    NormaliseKeepsFinished(Document(body, today, note));
  }

  /** A rendered document is a fixed point of the normalisation. */
  lemma RenderAgentNormalised(spec: AgentSpec, today: string)
    ensures Normalise(RenderAgent(spec, today)) == RenderAgent(spec, today)
  {
    DocumentNormalised(BodyParts(spec, today), today, spec.initialNote);
  }

  lemma NormaliseVisibleNote(body: seq<string>, today: string, note: string)
    requires body != []
    requires note != [] && note[|note| - 1] !in Whitespace
    ensures Document(body, today, note) == JoinLines(body + [Changelog(today, note)])
  {
    NormaliseKeeps(body, today, note);
    JoinedAtDash(body, today, note);
    assert (" " + note)[|" " + note| - 1] == note[|note| - 1];
    RStripKept(" " + note, Whitespace);
  }

  /** When the note ends in a visible character, normalisation changes
      nothing: the document is exactly the joined fragments. */
  lemma VisibleNoteUnchanged(spec: AgentSpec, today: string)
    requires spec.initialNote != [] && spec.initialNote[|spec.initialNote| - 1] !in Whitespace
    ensures RenderAgent(spec, today) == JoinLines(Parts(spec, today))
  {
    NormaliseVisibleNote(BodyParts(spec, today), today, spec.initialNote);
  }

  /** "\n".join(ps) starts with the first part. */
  lemma JoinHead(ps: seq<string>)
    requires |ps| >= 1
    ensures StartsWith(JoinLines(ps), ps[0])
  {
    if |ps| == 1 {
      assert JoinLines(ps) == ps[0];
      assert ps[0][..|ps[0]|] == ps[0];
    } else {
      var t := "\n" + JoinLines(ps[1..]);
      assert JoinLines(ps) == ps[0] + t;
      assert (ps[0] + t)[..|ps[0]|] == ps[0];
    }
  }

  /** "\n".join(ps) starts with the first two parts. */
  lemma JoinStart(body: seq<string>)
    requires |body| >= 2
    ensures StartsWith(JoinLines(body), body[0] + ("\n" + body[1]))
  {
    var j := JoinLines(body[1..]);
    JoinHead(body[1..]);
    StartsWithBoth("\n", body[1], j);
    StartsWithBoth(body[0], "\n" + body[1], "\n" + j);
    assert JoinLines(body) == body[0] + ("\n" + j);
  }

  /** Normalised fragments that end with the changelog start with the
      first two fragments. */
  lemma KeptStart(body: seq<string>, today: string, note: string)
    requires |body| >= 2
    ensures StartsWith(Document(body, today, note), body[0] + ("\n" + body[1]))
  {
    var start := body[0] + ("\n" + body[1]);
    JoinStart(body);
    NormaliseKeeps(body, today, note);
    StartsWithMore(JoinLines(body), ChangelogHead(today), start);
    StartsWithMore(Kept(body, today), RStrip(" " + note, Whitespace), start);
    StartsWithMore(Kept(body, today) + RStrip(" " + note, Whitespace), "\n", start);
  }

  /** The document opens with the front-matter, followed by the level-1
      title line. */
  lemma DocumentStart(spec: AgentSpec, today: string)
    ensures StartsWith(RenderAgent(spec, today),
                       FrontMatter(Header(spec, today)) + ("\n" + TitleLine(spec.title)))
  {
    DocumentFirstTwo(BodyParts(spec, today), today, spec.initialNote,
                     FrontMatter(Header(spec, today)), TitleLine(spec.title));
  }

  lemma DocumentFirstTwo(body: seq<string>, today: string, note: string, first: string, second: string)
    requires |body| >= 2 && body[0] == first && body[1] == second
    ensures StartsWith(Document(body, today, note), first + ("\n" + second))
  {
    KeptStart(body, today, note);
  }

  lemma OpensWith(s: string, head: string, more: string, p: string)
    requires StartsWith(s, head + more) && StartsWith(head, p)
    ensures StartsWith(s, p)
  {
    StartsWithMore(head, more, p);
    StartsWithTrans(s, head + more, p);
  }

  /** The document's first line is the front-matter's opening "---". */
  lemma DocumentOpensFrontMatter(spec: AgentSpec, today: string)
    ensures StartsWith(RenderAgent(spec, today), "---\n")
  {
    var fm := FrontMatter(Header(spec, today));
    var title := TitleLine(spec.title);
    DocumentStart(spec, today);
    FrontMatterDelimited(Header(spec, today));
    OpensWith(RenderAgent(spec, today), fm, "\n" + title, "---\n");
  }

  /** rstrip keeps a one-line text one line. */
  lemma CutOneLine(note: string)
    requires OneLine(note)
    ensures OneLine(RStrip(" " + note, Whitespace))
  {
    var cut := RStrip(" " + note, Whitespace);
    assert forall k :: 0 <= k < |cut| ==> cut[k] == (" " + note)[k];
  }

  /** The changelog after normalisation: a line break, then its heading
      and one entry line. */
  lemma ChangelogTailLines(today: string, cut: string)
    requires OneLine(today) && OneLine(cut)
    ensures var t := ChangelogHead(today) + cut + "\n";
      t[0] == '\n' && Split(t[1..]) == ["", "## " + ChangelogHeading, "", Dashed(today) + cut, ""]
  {
    var entry := Dashed(today) + cut;
    var t := ChangelogHead(today) + cut + "\n";
    var rest := Section(ChangelogHeading) + "\n" + (entry + "\n");
    assert t == "\n" + rest;
    assert t[1..] == rest;
    SplitAround(Section(ChangelogHeading), entry + "\n");
    SectionLines(ChangelogHeading);
    SplitSpaced(entry);
  }

  /** The lines of normalised fragments that end with the changelog. */
  lemma NormaliseLines(body: seq<string>, today: string, note: string)
    requires body != []
    requires OneLine(today) && OneLine(note)
    ensures Split(Document(body, today, note)) ==
      SplitEach(body)
      + ["", "## " + ChangelogHeading, "", Dashed(today) + RStrip(" " + note, Whitespace), ""]
  {
    var cut := RStrip(" " + note, Whitespace);
    var j := JoinLines(body);
    var t := ChangelogHead(today) + cut + "\n";
    NormaliseKeeps(body, today, note);
    CutOneLine(note);
    ChangelogTailLines(today, cut);
    TailRegroup(j, ChangelogHead(today), cut);
    SplitAround(j, t[1..]);
    SplitJoin(body);
  }

  // Proof-cost helper: moves the changelog's leading line break out of its text.
  lemma TailRegroup(j: string, head: string, cut: string)
    requires head != [] && head[0] == '\n'
    ensures var t := head + cut + "\n"; j + head + cut + "\n" == j + "\n" + t[1..]
  {
    var t := head + cut + "\n";
    assert t == "\n" + t[1..];
  }

  /** The lines of the document: those of the fourteen fragments in their
      fixed order, then the changelog heading and the single entry line
      "- {date} v0.2 — {note}" with the note's trailing whitespace removed. */
  lemma DocumentLines(spec: AgentSpec, today: string)
    requires OneLine(today) && OneLine(spec.initialNote)
    ensures Split(RenderAgent(spec, today)) ==
      SplitEach(BodyParts(spec, today))
      + ["", "## " + ChangelogHeading, "",
         Dashed(today) + RStrip(" " + spec.initialNote, Whitespace), ""]
  {
    NormaliseLines(BodyParts(spec, today), today, spec.initialNote);
  }

  /** Every field that the document shows on a line of its own, or inside
      a line, is free of line breaks. Under this the document's lines are
      known one by one (`Outline`). */
  predicate OneLineFields(spec: AgentSpec, today: string)
  {
    OneLine(spec.agentId) && OneLine(spec.title) && OneLine(today) && OneLine(spec.initialNote) &&
    AllOneLine(spec.scopeIn) && AllOneLine(spec.scopeOut) &&
    AllOneLine(spec.inputs) && AllOneLine(spec.outputs) && AllOneLine(spec.missingQuestions) &&
    (forall i :: 0 <= i < |spec.tools| ==> CategoryOneLine(spec.tools[i])) &&
    AllOneLine(spec.gates) &&
    (forall i :: 0 <= i < |spec.templates| ==> OneLine(spec.templates[i].title)) &&
    AllOneLine(spec.kpis) && AllOneLine(spec.upstream) && AllOneLine(spec.downstream) &&
    (forall k :: 0 <= k < |spec.raciRows| ==> RaciOneLine(spec.raciRows[k]))
  }

  /** The lines of the front-matter and of the title. */
  function OpeningLines(spec: AgentSpec, today: string): seq<string>
  {
    ["---", "id: " + spec.agentId, "name: " + spec.title, "version: " + Version,
     "last_updated: " + today, "language: " + Language, "---"]
    + ["# " + spec.title, ""]
  }

  /** The bullet lines of a list, or one empty line when it is empty. */
  function BulletsOrBlank(xs: seq<string>): seq<string>
  {
    if xs == [] then [""] else Bullets(xs)
  }

  /** The lines of the role, the rule, the scope heading and the scope,
      around the description's lines and the two lists' lines. */
  function RoleScopeLines(desc: seq<string>, inLines: seq<string>, outLines: seq<string>): seq<string>
  {
    ([RoleHeading] + desc + [""] + ["---", ""])
    + (["", "## " + ScopeHeading, ""]
       + ([ScopeInLabel] + inLines + [""] + ([ScopeOutLabel] + outLines) + [""]))
  }

  /** The lines of the contract, the responsibilities heading, the
      responsibility blocks and the tools, around the bullets of the three
      contract lists, the blocks' lines and the categories' lines. */
  function ContractToolsLines(inputs: seq<string>, outputs: seq<string>, questions: seq<string>,
                              blocks: seq<string>, categories: seq<string>): seq<string>
  {
    (["", "## " + ContractHeading, "", InputsLabel] + inputs
     + ["", OutputsLabel] + outputs
     + ["", QuestionsLabel] + questions
     + [""]
     + ["", "## " + ResponsibilitiesHeading, ""])
    + (blocks + [""] + (["", "## " + ToolsHeading, ""] + categories + [""]))
  }

  /** The lines of the quality gates, the templates, the KPIs and the
      hand-off, around the lines each of them lists. */
  function GatesHandoffLines(gates: seq<string>, templates: seq<string>, kpis: seq<string>,
                             upstream: seq<string>, downstream: seq<string>, table: seq<string>): seq<string>
  {
    (["", "## " + GatesHeading, "", GatesLinkLine, ""] + ([RoleGatesLabel] + gates) + [""]
     + (["", "## " + TemplatesHeading, "", TemplatesLinkLine, ""] + templates + [""]))
    + (["", "## " + KpiHeading, "", KpiLinkLine, ""] + kpis + [""]
       + (["", "## " + HandoffHeading, "", UpstreamLabel] + upstream
          + ["", DownstreamLabel] + downstream
          + ["", RaciLabel, ""] + table + [""]))
  }

  /** The lines of the changelog once the document is normalised. */
  function ClosingLines(today: string, note: string): seq<string>
  {
    ["", "## " + ChangelogHeading, "", Dashed(today) + RStrip(" " + note, Whitespace), ""]
  }

  /** The lines of the twelve chapters of an agent's record. */
  function ChapterLines(spec: AgentSpec): seq<string>
  {
    (RoleScopeLines(Split(Strip(spec.roleDesc, Whitespace)),
                    BulletsOrBlank(spec.scopeIn), BulletsOrBlank(spec.scopeOut))
     + ContractToolsLines(Bullets(spec.inputs), Bullets(spec.outputs), Bullets(spec.missingQuestions),
                          if spec.responsibilities == [] then [""] else SplitEach(spec.responsibilities),
                          CategoriesParts(spec.tools)))
    + GatesHandoffLines(Bullets(spec.gates), TemplatesLinesAll(spec.templates), Bullets(spec.kpis),
                        Bullets(spec.upstream), Bullets(spec.downstream), Table(spec.raciRows))
  }

  /** The rendered document line by line, fragment after fragment in
      render_agent's order. */
  function Outline(spec: AgentSpec, today: string): seq<string>
  {
    OpeningLines(spec, today) + ChapterLines(spec) + ClosingLines(today, spec.initialNote)
  }

  /** The title line is "# title" and an empty line. */
  lemma TitleLineLines(title: string)
    requires OneLine(title)
    ensures Split(TitleLine(title)) == ["# " + title, ""]
  {
    assert OneLine("# " + title);
    SplitSpaced("# " + title);
  }

  /** The rule under the role is "---" and an empty line. */
  lemma RuleLines()
    ensures Split(Rule + "\n") == ["---", ""]
  {
    SplitSpaced(Rule);
  }

  /** The scope heading is a section of its own. */
  lemma ScopeSectionLines()
    ensures Split(Section(ScopeHeading)) == ["", "## " + ScopeHeading, ""]
  {
    SectionLines(ScopeHeading);
  }

  /** The responsibilities heading is a section of its own. */
  lemma ResponsibilitiesSectionLines()
    ensures Split(Section(ResponsibilitiesHeading)) == ["", "## " + ResponsibilitiesHeading, ""]
  {
    SectionLines(ResponsibilitiesHeading);
  }

  /** The responsibility blocks joined by line breaks, then a line break:
      the lines of each block, and an empty line. */
  lemma ResponsibilitiesLines(blocks: seq<string>)
    ensures Split(JoinLines(blocks) + "\n") ==
      (if blocks == [] then [""] else SplitEach(blocks)) + [""]
  {
    SplitTrailing(JoinLines(blocks));
    if blocks != [] {
      SplitJoin(blocks);
    }
  }

  lemma OpeningSplit(spec: AgentSpec, today: string)
    requires OneLineFields(spec, today)
    ensures SplitEach([FrontMatter(Header(spec, today)), TitleLine(spec.title)]) == OpeningLines(spec, today)
  {
    SplitEachPair(FrontMatter(Header(spec, today)), TitleLine(spec.title));
    HeaderLines(spec, today);
    TitleLineLines(spec.title);
  }

  lemma RoleScopeSplit(spec: AgentSpec)
    requires AllOneLine(spec.scopeIn) && AllOneLine(spec.scopeOut)
    ensures SplitEach([Role(spec.roleDesc), Rule + "\n", Section(ScopeHeading),
                       Scope(spec.scopeIn, spec.scopeOut)]) ==
      RoleScopeLines(Split(Strip(spec.roleDesc, Whitespace)),
                     BulletsOrBlank(spec.scopeIn), BulletsOrBlank(spec.scopeOut))
  {
    SplitEachFour(Role(spec.roleDesc), Rule + "\n", Section(ScopeHeading), Scope(spec.scopeIn, spec.scopeOut));
    RoleSplit(spec.roleDesc);
    RuleLines();
    ScopeSectionLines();
    ScopeLines(spec.scopeIn, spec.scopeOut);
  }

  lemma ContractToolsSplit(spec: AgentSpec)
    requires AllOneLine(spec.inputs) && AllOneLine(spec.outputs) && AllOneLine(spec.missingQuestions)
    requires forall i :: 0 <= i < |spec.tools| ==> CategoryOneLine(spec.tools[i])
    ensures SplitEach([Contract(spec.inputs, spec.outputs, spec.missingQuestions),
                       Section(ResponsibilitiesHeading), JoinLines(spec.responsibilities) + "\n",
                       Tools(spec.tools)]) ==
      ContractToolsLines(Bullets(spec.inputs), Bullets(spec.outputs), Bullets(spec.missingQuestions),
                         if spec.responsibilities == [] then [""] else SplitEach(spec.responsibilities),
                         CategoriesParts(spec.tools))
  {
    SplitEachFour(Contract(spec.inputs, spec.outputs, spec.missingQuestions),
                  Section(ResponsibilitiesHeading), JoinLines(spec.responsibilities) + "\n",
                  Tools(spec.tools));
    ContractLines(spec.inputs, spec.outputs, spec.missingQuestions);
    ResponsibilitiesSectionLines();
    ResponsibilitiesLines(spec.responsibilities);
    ToolsLines(spec.tools);
  }

  lemma GatesHandoffSplit(spec: AgentSpec)
    requires AllOneLine(spec.gates) && AllOneLine(spec.kpis)
    requires forall i :: 0 <= i < |spec.templates| ==> OneLine(spec.templates[i].title)
    requires AllOneLine(spec.upstream) && AllOneLine(spec.downstream)
    requires forall k :: 0 <= k < |spec.raciRows| ==> RaciOneLine(spec.raciRows[k])
    ensures SplitEach([QualityGates(spec.gates), Templates(spec.templates), Kpi(spec.kpis),
                       Handoff(spec.upstream, spec.downstream, spec.raciRows)]) ==
      GatesHandoffLines(Bullets(spec.gates), TemplatesLinesAll(spec.templates), Bullets(spec.kpis),
                        Bullets(spec.upstream), Bullets(spec.downstream), Table(spec.raciRows))
  {
    SplitEachFour(QualityGates(spec.gates), Templates(spec.templates), Kpi(spec.kpis),
                  Handoff(spec.upstream, spec.downstream, spec.raciRows));
    QualityGatesLines(spec.gates);
    TemplatesLines(spec.templates);
    KpiLines(spec.kpis);
    HandoffLines(spec.upstream, spec.downstream, spec.raciRows);
  }

  lemma ChaptersSplit(spec: AgentSpec, today: string)
    requires OneLineFields(spec, today)
    ensures SplitEach(Chapters(spec)) == ChapterLines(spec)
  {
    SplitEachTwelve(Role(spec.roleDesc), Rule + "\n", Section(ScopeHeading),
                    Scope(spec.scopeIn, spec.scopeOut),
                    Contract(spec.inputs, spec.outputs, spec.missingQuestions),
                    Section(ResponsibilitiesHeading), JoinLines(spec.responsibilities) + "\n",
                    Tools(spec.tools), QualityGates(spec.gates), Templates(spec.templates),
                    Kpi(spec.kpis), Handoff(spec.upstream, spec.downstream, spec.raciRows));
    RoleScopeSplit(spec);
    ContractToolsSplit(spec);
    GatesHandoffSplit(spec);
  }

  /** With one-line fields, the document's lines are those of its fragments
      in render_agent's order: the front-matter, the title, the role, the
      rule, the scope, the contract, the responsibilities, the tools, the
      quality gates, the templates, the KPIs, the hand-off, and the
      changelog with its single entry line. */
  lemma DocumentOutline(spec: AgentSpec, today: string)
    requires OneLineFields(spec, today)
    ensures Split(RenderAgent(spec, today)) == Outline(spec, today)
  {
    DocumentLines(spec, today);
    SplitEachAppend([FrontMatter(Header(spec, today)), TitleLine(spec.title)], Chapters(spec));
    OpeningSplit(spec, today);
    ChaptersSplit(spec, today);
  }

  /** `idx` holds, in strictly increasing order, positions in `lines` at
      which the lines `hs` occur, one position per line of `hs`. */
  predicate LinesAt(lines: seq<string>, hs: seq<string>, idx: seq<int>)
  {
    |idx| == |hs| &&
    (forall j :: 0 <= j < |idx| ==> 0 <= idx[j] < |lines| && lines[idx[j]] == hs[j]) &&
    (forall j :: 0 < j < |idx| ==> idx[j - 1] < idx[j])
  }

  /** The lines `hs` occur in `lines`, in this order. */
  ghost predicate InOrder(lines: seq<string>, hs: seq<string>)
  {
    exists idx :: LinesAt(lines, hs, idx)
  }

  /** Lines in order in `a` followed by lines in order in `b` are in order
      in `a + b`. */
  lemma InOrderAppend(a: seq<string>, h1: seq<string>, b: seq<string>, h2: seq<string>)
    requires InOrder(a, h1) && InOrder(b, h2)
    ensures InOrder(a + b, h1 + h2)
  {
    var i1 :| LinesAt(a, h1, i1);
    var i2 :| LinesAt(b, h2, i2);
    var shifted := seq(|i2|, j requires 0 <= j < |i2| => i2[j] + |a|);
    var idx := i1 + shifted;
    forall j | 0 <= j < |idx|
      ensures 0 <= idx[j] < |a + b| && (a + b)[idx[j]] == (h1 + h2)[j]
    {
      if j >= |i1| {
        assert idx[j] == i2[j - |i1|] + |a|;
      }
    }
    forall j | 0 < j < |idx|
      ensures idx[j - 1] < idx[j]
    {
      if j == |i1| {
        assert idx[j - 1] == i1[j - 1] < |a|;
      }
    }
    assert LinesAt(a + b, h1 + h2, idx);
  }

  /** A single line occurs where it stands. */
  lemma InOrderAt(lines: seq<string>, k: int, h: string)
    requires 0 <= k < |lines| && lines[k] == h
    ensures InOrder(lines, [h])
  {
    assert LinesAt(lines, [h], [k]);
  }

  /** Lines in order stay in order when more lines follow. */
  lemma InOrderBefore(a: seq<string>, hs: seq<string>, b: seq<string>)
    requires InOrder(a, hs)
    ensures InOrder(a + b, hs)
  {
    assert LinesAt(b, [], []);
    InOrderAppend(a, hs, b, []);
    assert hs + [] == hs;
  }

  /** Lines in order stay in order when more lines precede them. */
  lemma InOrderAfter(a: seq<string>, b: seq<string>, hs: seq<string>)
    requires InOrder(b, hs)
    ensures InOrder(a + b, hs)
  {
    assert LinesAt(a, [], []);
    InOrderAppend(a, [], b, hs);
    assert [] + hs == hs;
  }

  /** No lines are always in order. */
  lemma InOrderNone(lines: seq<string>)
    ensures InOrder(lines, [])
  {
    assert LinesAt(lines, [], []);
  }

  /** Four blocks of lines, taken two by two, keep the lines in order in
      each block. */
  lemma InOrderFour(l0: seq<string>, l1: seq<string>, l2: seq<string>, l3: seq<string>,
                    h0: seq<string>, h1: seq<string>, h2: seq<string>, h3: seq<string>)
    requires InOrder(l0, h0) && InOrder(l1, h1) && InOrder(l2, h2) && InOrder(l3, h3)
    ensures InOrder((l0 + l1) + (l2 + l3), (h0 + h1) + (h2 + h3))
  {
    InOrderAppend(l0, h0, l1, h1);
    InOrderAppend(l2, h2, l3, h3);
    InOrderAppend(l0 + l1, h0 + h1, l2 + l3, h2 + h3);
  }

  /** The level-2 headings of the chapters, top to bottom: the role, the
      scope, the contract, the responsibilities, the tools, the quality
      gates, the templates, the KPIs and the hand-off. */
  function ChapterHeadings(): (hs: seq<string>)
    ensures |hs| == 9
  {
    [RoleHeading, "## " + ScopeHeading, "## " + ContractHeading, "## " + ResponsibilitiesHeading,
     "## " + ToolsHeading, "## " + GatesHeading, "## " + TemplatesHeading, "## " + KpiHeading,
     "## " + HandoffHeading]
  }

  /** The level-2 headings of a rendered document, top to bottom: those of
      the chapters, then the changelog's. */
  function DocumentHeadings(): (hs: seq<string>)
    ensures |hs| == 10
  {
    ChapterHeadings() + ["## " + ChangelogHeading]
  }

  lemma RoleScopeHeadings(desc: seq<string>, inLines: seq<string>, outLines: seq<string>)
    ensures InOrder(RoleScopeLines(desc, inLines, outLines),
                    ([RoleHeading] + []) + (["## " + ScopeHeading] + []))
  {
    var role := [RoleHeading] + desc + [""];
    var section := ["", "## " + ScopeHeading, ""];
    var scope := [ScopeInLabel] + inLines + [""] + ([ScopeOutLabel] + outLines) + [""];
    InOrderAt(role, 0, RoleHeading);
    InOrderNone(["---", ""]);
    InOrderAt(section, 1, "## " + ScopeHeading);
    InOrderNone(scope);
    InOrderFour(role, ["---", ""], section, scope, [RoleHeading], [], ["## " + ScopeHeading], []);
  }

  lemma ContractToolsHeadings(inputs: seq<string>, outputs: seq<string>, questions: seq<string>,
                              blocks: seq<string>, categories: seq<string>)
    ensures InOrder(ContractToolsLines(inputs, outputs, questions, blocks, categories),
                    (["## " + ContractHeading] + ["## " + ResponsibilitiesHeading]) + ([] + ["## " + ToolsHeading]))
  {
    var contract :=
      ["", "## " + ContractHeading, "", InputsLabel] + inputs
      + ["", OutputsLabel] + outputs
      + ["", QuestionsLabel] + questions
      + [""];
    var section := ["", "## " + ResponsibilitiesHeading, ""];
    var tools := ["", "## " + ToolsHeading, ""] + categories + [""];
    InOrderAt(contract, 1, "## " + ContractHeading);
    InOrderAt(section, 1, "## " + ResponsibilitiesHeading);
    InOrderNone(blocks + [""]);
    InOrderAt(tools, 1, "## " + ToolsHeading);
    InOrderFour(contract, section, blocks + [""], tools,
                ["## " + ContractHeading], ["## " + ResponsibilitiesHeading], [], ["## " + ToolsHeading]);
  }

  lemma GatesHandoffHeadings(gates: seq<string>, templates: seq<string>, kpis: seq<string>,
                             upstream: seq<string>, downstream: seq<string>, table: seq<string>)
    ensures InOrder(GatesHandoffLines(gates, templates, kpis, upstream, downstream, table),
                    (["## " + GatesHeading] + ["## " + TemplatesHeading]) + (["## " + KpiHeading] + ["## " + HandoffHeading]))
  {
    var g := ["", "## " + GatesHeading, "", GatesLinkLine, ""] + ([RoleGatesLabel] + gates) + [""];
    var t := ["", "## " + TemplatesHeading, "", TemplatesLinkLine, ""] + templates + [""];
    var k := ["", "## " + KpiHeading, "", KpiLinkLine, ""] + kpis + [""];
    var h :=
      ["", "## " + HandoffHeading, "", UpstreamLabel] + upstream
      + ["", DownstreamLabel] + downstream
      + ["", RaciLabel, ""] + table + [""];
    InOrderAt(g, 1, "## " + GatesHeading);
    InOrderAt(t, 1, "## " + TemplatesHeading);
    InOrderAt(k, 1, "## " + KpiHeading);
    InOrderAt(h, 1, "## " + HandoffHeading);
    InOrderFour(g, t, k, h,
                ["## " + GatesHeading], ["## " + TemplatesHeading], ["## " + KpiHeading], ["## " + HandoffHeading]);
  }

  /** The first nine headings stand in the chapters, in order. */
  lemma ChaptersInOrder(desc: seq<string>, inLines: seq<string>, outLines: seq<string>,
                        inputs: seq<string>, outputs: seq<string>, questions: seq<string>,
                        blocks: seq<string>, categories: seq<string>,
                        gates: seq<string>, templates: seq<string>, kpis: seq<string>,
                        upstream: seq<string>, downstream: seq<string>, table: seq<string>)
    ensures InOrder((RoleScopeLines(desc, inLines, outLines)
                     + ContractToolsLines(inputs, outputs, questions, blocks, categories))
                    + GatesHandoffLines(gates, templates, kpis, upstream, downstream, table),
                    ChapterHeadings())
  {
    var ha := ([RoleHeading] + []) + (["## " + ScopeHeading] + []);
    var hb := (["## " + ContractHeading] + ["## " + ResponsibilitiesHeading]) + ([] + ["## " + ToolsHeading]);
    var hc := (["## " + GatesHeading] + ["## " + TemplatesHeading]) + (["## " + KpiHeading] + ["## " + HandoffHeading]);
    RoleScopeHeadings(desc, inLines, outLines);
    ContractToolsHeadings(inputs, outputs, questions, blocks, categories);
    GatesHandoffHeadings(gates, templates, kpis, upstream, downstream, table);
    InOrderAppend(RoleScopeLines(desc, inLines, outLines), ha,
                  ContractToolsLines(inputs, outputs, questions, blocks, categories), hb);
    InOrderAppend(RoleScopeLines(desc, inLines, outLines)
                  + ContractToolsLines(inputs, outputs, questions, blocks, categories), ha + hb,
                  GatesHandoffLines(gates, templates, kpis, upstream, downstream, table), hc);
    assert (ha + hb) + hc == ChapterHeadings();
  }

  /** Headings in order in the middle of a text, then one more heading on
      the second line of the closing lines, are in order in the whole text. */
  lemma InOrderClosing(opening: seq<string>, middle: seq<string>, closing: seq<string>,
                       hs: seq<string>, h: string)
    requires InOrder(middle, hs)
    requires |closing| > 1 && closing[1] == h
    ensures InOrder(opening + middle + closing, hs + [h])
  {
    InOrderAfter(opening, middle, hs);
    InOrderAt(closing, 1, h);
    InOrderAppend(opening + middle, hs, closing, [h]);
  }

  /** The chapters of a record hold their nine headings in order. */
  lemma ChapterLinesHeadings(spec: AgentSpec)
    ensures InOrder(ChapterLines(spec), ChapterHeadings())
  {
    ChaptersInOrder(Split(Strip(spec.roleDesc, Whitespace)),
                    BulletsOrBlank(spec.scopeIn), BulletsOrBlank(spec.scopeOut),
                    Bullets(spec.inputs), Bullets(spec.outputs), Bullets(spec.missingQuestions),
                    if spec.responsibilities == [] then [""] else SplitEach(spec.responsibilities),
                    CategoriesParts(spec.tools),
                    Bullets(spec.gates), TemplatesLinesAll(spec.templates), Bullets(spec.kpis),
                    Bullets(spec.upstream), Bullets(spec.downstream), Table(spec.raciRows));
  }

  /** The changelog heading is the second of the closing lines. */
  lemma ClosingHeading(today: string, note: string)
    ensures |ClosingLines(today, note)| > 1 && ClosingLines(today, note)[1] == "## " + ChangelogHeading
  {
  }

  /** The outline holds the ten headings in order. */
  lemma OutlineHeadings(spec: AgentSpec, today: string)
    ensures InOrder(Outline(spec, today), DocumentHeadings())
  {
    ChapterLinesHeadings(spec);
    ClosingHeading(today, spec.initialNote);
    InOrderClosing(OpeningLines(spec, today), ChapterLines(spec), ClosingLines(today, spec.initialNote),
                   ChapterHeadings(), "## " + ChangelogHeading);
  }

  /** With one-line fields, the ten level-2 headings stand on lines of the
      document at strictly increasing positions, in the order of
      `DocumentHeadings`. */
  lemma HeadingsInOrder(spec: AgentSpec, today: string)
    requires OneLineFields(spec, today)
    ensures exists idx :: LinesAt(Split(RenderAgent(spec, today)), DocumentHeadings(), idx)
  {
    DocumentOutline(spec, today);
    OutlineHeadings(spec, today);
  }

  /** A label line above "\n".join of bullets: the bullets, or one empty
      line when there are none. */
  lemma LabelledList(caption: string, xs: seq<string>)
    requires OneLine(caption) && AllOneLine(xs)
    ensures Split(caption + "\n" + JoinLines(Bullets(xs))) ==
      [caption] + (if xs == [] then [""] else Bullets(xs))
  {
    SplitAround(caption, JoinLines(Bullets(xs)));
    SplitOneLine(caption);
    BulletsOneLine(xs);
    SplitJoinLines(Bullets(xs));
  }

  /** Two blocks separated by a blank line and followed by a line break. */
  lemma BlocksLines(a: string, b: string, la: seq<string>, lb: seq<string>)
    requires Split(a) == la && Split(b) == lb
    ensures Split(a + "\n" + ("\n" + (b + "\n"))) == la + [""] + lb + [""]
  {
    SplitAround(a, "\n" + (b + "\n"));
    SplitLeading(b + "\n");
    SplitTrailing(b);
  }

  /** Two labelled lists separated by a blank line, with the labels as
      parameters. */
  lemma ScopeShape(first: string, second: string, xs: seq<string>, ys: seq<string>)
    requires OneLine(first) && OneLine(second) && AllOneLine(xs) && AllOneLine(ys)
    ensures Split(first + "\n" + JoinLines(Bullets(xs)) + "\n\n" +
                  second + "\n" + JoinLines(Bullets(ys)) + "\n") ==
      [first] + (if xs == [] then [""] else Bullets(xs)) + [""]
      + ([second] + (if ys == [] then [""] else Bullets(ys))) + [""]
  {
    var a := first + "\n" + JoinLines(Bullets(xs));
    var b := second + "\n" + JoinLines(Bullets(ys));
    ScopeRegroup(a, b, second, JoinLines(Bullets(ys)));
    LabelledList(first, xs);
    LabelledList(second, ys);
    BlocksLines(a, b, Split(a), Split(b));
  }

  // Proof-cost helper: regroups the scope text around its blank line.
  lemma ScopeRegroup(a: string, b: string, second: string, j: string)
    requires b == second + "\n" + j
    ensures a + "\n\n" + second + "\n" + j + "\n" == a + "\n" + ("\n" + (b + "\n"))
  {
    assert "\n\n" == "\n" + "\n";
  }

  /** The scope fragment: the in-scope label, one bullet per item (or one
      empty line when there are none), a blank line, then the same for the
      out-of-scope list. */
  lemma ScopeLines(scopeIn: seq<string>, scopeOut: seq<string>)
    requires AllOneLine(scopeIn) && AllOneLine(scopeOut)
    ensures Split(Scope(scopeIn, scopeOut)) ==
      [ScopeInLabel] + (if scopeIn == [] then [""] else Bullets(scopeIn)) + [""]
      + ([ScopeOutLabel] + (if scopeOut == [] then [""] else Bullets(scopeOut))) + [""]
  {
    ScopeShape(ScopeInLabel, ScopeOutLabel, scopeIn, scopeOut);
  }

  /** A heading line above a text, with the heading as a parameter. */
  lemma TextUnder(heading: string, d: string)
    requires OneLine(heading)
    ensures Split(heading + "\n" + d + "\n") == [heading] + Split(d) + [""]
  {
    assert heading + "\n" + d + "\n" == heading + "\n" + (d + "\n");
    SplitAround(heading, d + "\n");
    SplitTrailing(d);
    SplitOneLine(heading);
  }

  /** The role fragment: the heading line, the lines of the description
      without its leading and trailing whitespace, and a closing empty line. */
  lemma RoleLines(roleDesc: string)
    ensures var d := Strip(roleDesc, Whitespace);
      Split(Role(roleDesc)) == [RoleHeading] + Split(d) + [""] &&
      (exists i :: Trimmed(roleDesc, i, d, Whitespace)) &&
      (d == [] || (d[0] !in Whitespace && d[|d| - 1] !in Whitespace))
  {
    RoleSplit(roleDesc);
    StripTrims(roleDesc, Whitespace);
  }

  lemma RoleSplit(roleDesc: string)
    ensures Split(Role(roleDesc)) == [RoleHeading] + Split(Strip(roleDesc, Whitespace)) + [""]
  {
    RoleHeadingOneLine();
    TextUnder(RoleHeading, Strip(roleDesc, Whitespace));
  }

  lemma RoleHeadingOneLine()
    ensures OneLine(RoleHeading)
  {
  }

  lemma EntriesLinesCons(e: FmEntry, rest: seq<FmEntry>)
    ensures EntriesLines([e] + rest) == EntryLines(e) + EntriesLines(rest)
  {
    assert ([e] + rest)[1..] == rest;
  }

  /** The line of a scalar keyword argument. */
  lemma ScalarLine(key: string, v: string)
    ensures EntriesLines([FmEntry(key, Scalar(v))]) == [key + ": " + v]
  {
    EntriesLinesCons(FmEntry(key, Scalar(v)), []);
  }

  /** The lines of the five scalar keyword arguments, one each. */
  lemma HeaderEntriesLines(spec: AgentSpec, today: string)
    ensures EntriesLines(Header(spec, today)) ==
      ["id" + ": " + spec.agentId, "name" + ": " + spec.title, "version" + ": " + Version,
       "last_updated" + ": " + today, "language" + ": " + Language]
  {
    var h := Header(spec, today);
    assert h == [h[0]] + ([h[1]] + ([h[2]] + ([h[3]] + [h[4]])));
    EntriesLinesCons(h[0], [h[1]] + ([h[2]] + ([h[3]] + [h[4]])));
    EntriesLinesCons(h[1], [h[2]] + ([h[3]] + [h[4]]));
    EntriesLinesCons(h[2], [h[3]] + [h[4]]);
    EntriesLinesCons(h[3], [h[4]]);
    ScalarLine("language", Language);
  }

  lemma HeaderOneLine(spec: AgentSpec, today: string)
    requires OneLine(spec.agentId) && OneLine(spec.title) && OneLine(today)
    ensures AllOneLine(EntriesLines(Header(spec, today)))
  {
    HeaderEntriesLines(spec, today);
    KeyLineOneLine("id", spec.agentId);
    KeyLineOneLine("name", spec.title);
    KeyLineOneLine("version", Version);
    KeyLineOneLine("last_updated", today);
    KeyLineOneLine("language", Language);
  }

  lemma KeyLineOneLine(key: string, v: string)
    requires OneLine(key) && OneLine(v)
    ensures OneLine(key + ": " + v)
  {
  }

  /** With one-line identifier, title and date, the front-matter lines are
      "---", the five keyword lines in argument order, and "---". */
  lemma HeaderLines(spec: AgentSpec, today: string)
    requires OneLine(spec.agentId) && OneLine(spec.title) && OneLine(today)
    ensures Split(FrontMatter(Header(spec, today))) ==
      ["---", "id: " + spec.agentId, "name: " + spec.title, "version: " + Version,
       "last_updated: " + today, "language: " + Language, "---"]
  {
    var h := Header(spec, today);
    HeaderOneLine(spec, today);
    FrontMatterSplit(h);
    HeaderEntriesLines(spec, today);
    assert "id" + ": " == "id: ";
    assert "name" + ": " == "name: ";
    assert "version" + ": " == "version: ";
    assert "last_updated" + ": " == "last_updated: ";
    assert "language" + ": " == "language: ";
  }

  /** main writes each document to agents/{agent_id}.md. */
  function OutputFileName(spec: AgentSpec): string
  {
    spec.agentId + ".md"
  }

  /** Two agents are written to the same file exactly when their
      identifiers agree, so no document overwrites another's. */
  lemma FileNameInjective(a: AgentSpec, b: AgentSpec)
    ensures OutputFileName(a) == OutputFileName(b) <==> a.agentId == b.agentId
  {
    if OutputFileName(a) == OutputFileName(b) {
      var n := OutputFileName(a);
      assert a.agentId == n[..|n| - 3];
      assert b.agentId == n[..|n| - 3];
    }
  }
}
