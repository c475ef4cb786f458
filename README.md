# Agent document renderer — a Dafny model

`scripts/refactor_agents.py` regenerates one Markdown document per agent
role. Each document is assembled from string fragments. There is a YAML-like
front-matter (`fm`), section and sub-section headings (`section`, `sub`), and
a responsibility block (`resp_block`). Then come the input/output contract
(`contract`), the quality gates (`quality_gates`), the tools (`tools_block`),
the copyable templates (`templates_block`) and the KPIs (`kpi_block`). The
hand-off and RACI table (`handoff_block`) and the one-entry changelog
(`changelog`) close it. `render_agent` joins the fragments of one `AgentSpec`
record with line breaks. It then replaces trailing whitespace with a single
line break.

The project has three modules:

- `Text` (`text.dfy`) models the Python string operations the renderer
  relies on:
  - `"\n".join` is `JoinLines`.
  - `s.split("\n")` is `Split`. The proofs use it to state the line
    structure of every fragment.
  - `rstrip`, `lstrip` and `strip` are `RStrip`, `LStrip` and `Strip`.
  - `str(i)` for the step numbers is `Decimal`.
- `Renderers` (`renderers.dfy`) models every fragment renderer:
  - Each is a specification function.
  - Where the source builds its list of lines in a loop (`fm`,
    `resp_block`, `tools_block`, `templates_block`, `handoff_block`), a
    method with the same loop is also proved equal to that function.
  - Lemmas give the exact line structure of each fragment.
- `Agents` (`agents.dfy`) holds:
  - the `AgentSpec` record;
  - `render_agent`, with the run date as a parameter;
  - the output file name.

The run date (`TODAY`) is a parameter named `today`. So for a fixed date the
rendered document is a function of the record alone.

## Model

| member | source | states |
|---|---|---|
| Renderers.RenderFrontMatter | scripts/refactor_agents.py:12-22 | The loop over the keyword arguments yields the "---" line, then per argument either `k: v` or `k:` followed by one `  - item` line per list item in order, then "---", joined by line breaks (`FrontMatter`) |
| Renderers.AppendEntry | scripts/refactor_agents.py:15-20 | One argument appends exactly its lines (`EntryLines`): the scalar line, or the key line and its items |
| Renderers.AppendItems | scripts/refactor_agents.py:16-18 | The list branch appends `k:` and then one `  - item` line per item, in item order, after the lines already present |
| Renderers.EntriesLinesAppend | scripts/refactor_agents.py:14 | The lines of the arguments are those of each argument, concatenated in argument order |
| Renderers.FrontMatterDelimited | scripts/refactor_agents.py:13-22 | The front-matter always opens with "---\n" and ends with "\n---" (no trailing line break), even with no arguments |
| Renderers.FrontMatterLines | scripts/refactor_agents.py:12-22 | With one-line keys and values, the lines of the front-matter are exactly "---", the argument lines in order, "---" |
| Renderers.SectionLines | scripts/refactor_agents.py:25-26 | `section(t)` is an empty line, `## t`, and an empty line |
| Renderers.SubLines | scripts/refactor_agents.py:29-30 | `sub(t)` is an empty line, `### t`, and an empty line |
| Renderers.RenderResponsibility | scripts/refactor_agents.py:33-49 | The three loops of resp_block produce the fixed head, the numbered steps, the metrics label and bullets, the DoD label and bullets, joined and followed by one line break (`Responsibility`) |
| Renderers.StepNumber | scripts/refactor_agents.py:38-39 | Step k (from 0) starts with the decimal digits of k + 1, whose value is k + 1, followed by ". " and the step itself: numbering starts at 1 and follows input order |
| Renderers.ResponsibilityLines | scripts/refactor_agents.py:33-49 | With one-line fields, the block's lines are the sub-heading, the duration line, the process label, the numbered steps, the metrics label with one bullet per metric, the DoD label with one bullet per item, and a final empty line |
| Renderers.ContractLines | scripts/refactor_agents.py:52-59 | The contract's lines are the heading, then the inputs, outputs and questions labels in that order, each followed by one bullet per item in input order; an empty list keeps its label |
| Renderers.QualityGatesLines | scripts/refactor_agents.py:62-69 | The gates' lines are the heading, the link line to the shared base document, an empty line, the role label and one bullet per gate in order |
| Renderers.KpiLines | scripts/refactor_agents.py:89-92 | The KPI lines are the heading, the link line to the metrics glossary, an empty line and one bullet per item in order |
| Renderers.RenderTools | scripts/refactor_agents.py:72-78 | The loop over the tools mapping yields the heading, then per category `**k**：`, its bullets and an empty part, joined and followed by one line break (`Tools`) |
| Renderers.CategoriesPartsAppend | scripts/refactor_agents.py:74-77 | The parts of the categories are those of each category, concatenated in insertion order |
| Renderers.ToolsLines | scripts/refactor_agents.py:72-78 | With one-line labels and tools, the lines are the heading, then each category's label, bullets and an empty line in insertion order, then a final empty line |
| Renderers.RenderTemplates | scripts/refactor_agents.py:81-86 | The loop over the templates yields the heading, the link line, then per template a `### title` part and a fenced body, joined and followed by one line break (`Templates`) |
| Renderers.FencedBodyKeepsContent | scripts/refactor_agents.py:85 | The fenced text is the body without its leading and trailing line breaks: it sits in the body with only line breaks around it, and neither starts nor ends with one |
| Renderers.FenceLines | scripts/refactor_agents.py:85 | A fenced body is the fence line, the lines of the body, the fence line, an empty line |
| Renderers.TemplateSplit | scripts/refactor_agents.py:84-85 | With a one-line title, a template gives `### title`, an empty line, the fence, the lines of the stripped body, the fence and an empty line |
| Renderers.TemplatesLines | scripts/refactor_agents.py:81-86 | The lines are the heading, the base-document link line, an empty line, the lines of each template in order, a final empty line |
| Renderers.NoTemplatesNoFence | scripts/refactor_agents.py:81-86 | With no templates the block is only the heading and the link line, and no line is a fence |
| Renderers.RenderHandoff | scripts/refactor_agents.py:95-114 | The loop over the RACI tuples yields the heading, upstream label and bullets, downstream label and bullets, RACI label, table header, separator and one row per tuple, joined and followed by one line break (`Handoff`) |
| Renderers.HandoffLines | scripts/refactor_agents.py:95-114 | With one-line cells, the lines are the heading, the upstream and downstream labels with their bullets, the RACI label, then a table of exactly two more lines than there are tuples: the header, the separator and row k + 2 rendering tuple k |
| Renderers.ChangelogLines | scripts/refactor_agents.py:117-118 | The changelog is an empty line, `## Changelog`, an empty line, the single entry line `- {date} v0.2 — {note}`, an empty line |
| Agents.HeaderLines | scripts/refactor_agents.py:144 | The front-matter of an agent has the lines "---", `id`, `name`, `version: 0.2`, `last_updated` with the run date, `language: zh-CN`, "---", in that order |
| Agents.RoleLines | scripts/refactor_agents.py:146 | The role fragment is the role heading, the lines of the stripped description, an empty line; the description loses only surrounding whitespace and neither starts nor ends with whitespace |
| Agents.ScopeLines | scripts/refactor_agents.py:149-150 | The scope fragment is the in-scope label with one bullet per item, an empty line, the out-of-scope label with one bullet per item, an empty line; an empty list leaves an empty line under its label |
| Agents.BodyParts | scripts/refactor_agents.py:143-158 | render_agent lists exactly fourteen fragments before the changelog, the front-matter first and the title line second |
| Agents.RenderAgent | scripts/refactor_agents.py:142-161 | The document always ends with one line break after a non-whitespace character |
| Agents.RenderAgentKeeps | scripts/refactor_agents.py:159-161 | Normalisation keeps every fragment, the changelog heading and the entry up to its dash unchanged; only trailing whitespace of the note is dropped |
| Agents.NormaliseIdempotent | scripts/refactor_agents.py:161 | `rstrip()` + "\n" applied twice is the same as once |
| Agents.RenderAgentNormalised | scripts/refactor_agents.py:161 | A rendered document is a fixed point of the normalisation |
| Agents.VisibleNoteUnchanged | scripts/refactor_agents.py:159-161 | When the note ends in a visible character, the document is exactly the fifteen fragments joined by line breaks |
| Agents.DocumentStart | scripts/refactor_agents.py:143-145 | The document starts with the front-matter, a line break and the `# title` line |
| Agents.DocumentOpensFrontMatter | scripts/refactor_agents.py:143-144 | The document's first line is the front-matter's "---" |
| Agents.DocumentLines | scripts/refactor_agents.py:142-161 | The document's lines are those of the fourteen fragments in their fixed order, then an empty line, `## Changelog`, an empty line, the entry line with the note's trailing whitespace removed, and a final empty line |
| Agents.TitleLineLines | scripts/refactor_agents.py:145 | The title fragment is the line `# title` and an empty line |
| Agents.RoleSplit | scripts/refactor_agents.py:146 | The role fragment is the role heading, the lines of the stripped description, and an empty line |
| Agents.RuleLines | scripts/refactor_agents.py:147 | The rule fragment is the line "---" and an empty line |
| Agents.ScopeSectionLines | scripts/refactor_agents.py:148 | The scope section is an empty line, `## 适用范围 / 不适用范围`, an empty line |
| Agents.ResponsibilitiesSectionLines | scripts/refactor_agents.py:152 | The responsibilities section is an empty line, `## 核心职责与标准化流程`, an empty line |
| Agents.ResponsibilitiesLines | scripts/refactor_agents.py:153 | The joined responsibility blocks give the lines of each block in order and a final empty line; with no blocks, two empty lines |
| Agents.OpeningSplit | scripts/refactor_agents.py:144-145 | The first two fragments give the seven front-matter lines, then `# title` and an empty line |
| Agents.RoleScopeSplit | scripts/refactor_agents.py:146-150 | The role, rule, scope-section and scope fragments give their lines one after the other |
| Agents.ContractToolsSplit | scripts/refactor_agents.py:151-154 | The contract, responsibilities-section, responsibilities and tools fragments give their lines one after the other |
| Agents.GatesHandoffSplit | scripts/refactor_agents.py:155-158 | The quality-gates, templates, KPI and hand-off fragments give their lines one after the other |
| Agents.ChaptersSplit | scripts/refactor_agents.py:146-158 | The twelve fragments after the title give the lines of each fragment, in the list's order |
| Agents.DocumentOutline | scripts/refactor_agents.py:142-161 | With one-line fields, the document's lines are, in order, the front-matter's seven lines, `# title`, the role, "---", the scope, the contract, the responsibilities, the tools, the quality gates, the templates, the KPIs, the hand-off (with its table), and the changelog's single entry line with the note's trailing whitespace removed |
| Agents.ChaptersInOrder | scripts/refactor_agents.py:146-158 | Whatever the lists hold, the nine chapter headings stand in the chapters' lines in order |
| Agents.OutlineHeadings | scripts/refactor_agents.py:143-159 | The document's lines, fragment by fragment, hold the ten level-2 headings in order, the changelog's last |
| Agents.HeadingsInOrder | scripts/refactor_agents.py:143-159 | With one-line fields, the ten level-2 headings (role, scope, contract, responsibilities, tools, quality gates, templates, KPIs, hand-off, changelog) stand on lines of the document at strictly increasing positions |
| Agents.FileNameInjective | scripts/refactor_agents.py:827-828 | The output file is `{agent_id}.md`; two records get the same file exactly when their ids are equal |
| Text.SplitJoin | scripts/refactor_agents.py:22 | The lines of `"\n".join(parts)` are the lines of each part, in order |
| Text.SplitThenJoin | scripts/refactor_agents.py:22 | Joining the lines of a text gives the text back |
| Text.JoinThenSplit | scripts/refactor_agents.py:22 | Splitting the join of one-line parts gives the parts back |
| Text.DecimalRoundTrip | scripts/refactor_agents.py:39 | The decimal digits of a step number read back as that number |
| Text.StripTrims | scripts/refactor_agents.py:85 | `strip` removes exactly a leading and a trailing run of the given characters; what is left neither starts nor ends with one of them |
| Text.RStripKeepsPrefix | scripts/refactor_agents.py:161 | `rstrip` never cuts into a prefix that ends in a kept character |

## Left out

- The file system and the console: `main` creating the agents directory,
  writing each document and printing a summary. Only the file-name rule is
  modelled (`OutputFileName`).
- The clock: `TODAY` becomes the parameter `today`. Since the model is a
  function, rendering is deterministic for a fixed date by construction, and
  there is no separate lemma for it.
- `build_specs` and its literal agent data. The model quantifies over every
  record instead.
- Python's `str()` of values other than strings and lists of strings. The
  front-matter values are modelled as a string or a list of strings (`FmValue`),
  which is all the source passes to `fm`.
- Python's keyword-argument dictionary and the `tools` dictionary become
  sequences of key/value pairs in insertion order. Duplicate keys, which a
  Python dictionary cannot hold, are not excluded.
- Unicode: a string is a sequence of characters. Whitespace for `strip()` and
  `rstrip()` is a fixed set of the characters Python's `str.isspace` accepts.
- `responsibilities` holds the already rendered `resp_block` texts, as in the
  source. The record does not carry the arguments of `resp_block`.
- The line-structure lemmas (`*Lines`, `DocumentOutline`, `HeadingsInOrder`)
  require one-line fields (`OneLineFields` for a whole record). Multi-line
  items would add lines of their own; the renderers themselves accept any
  text.
