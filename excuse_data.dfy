/** The literal data of the excuse generator, from worker.js: the template
    lists of getTemplates, the placeholder table of interpolateTemplate, the
    outburst lists of generateOutburst and the fallback excuse.

    A template is written as its segments, literal text and `{NAME}` tokens,
    so `[Lit("Q"), Hole("QUARTER"), Lit(".")]` stands for the string
    "Q{QUARTER}.". Long literal runs are written as a concatenation of
    shorter string literals, and in a few templates (Corporate5, Technical1,
    Defensive4, Defensive5, DefensiveHigh2) a run of literal text is split
    into adjacent `Lit` segments; either way the rendered text is the same.
    Each rant is written as short runs of its text, joined by Concat; the
    runs are `Plain`, so a rant holds no brace and no `$`. The placeholder
    table is written as its property names and its word lists side by
    side, paired up in order by Zip. */
module ExcuseData {
  import opened Segments
  import opened Interpolation
  import opened Outburst
  import opened Selection

  /** worker.js:115 */
  const Corporate1: Template :=
    [Lit("Actually, " + "I've been "),
     Hole("ACTION"),
     Lit(" to "),
     Hole("OPTIMIZE"),
     Lit(" our "),
     Hole("METRIC"),
     Lit(" by "),
     Hole("PERCENTAGE"),
     Lit("%. As per " + "my last "),
     Hole("COMMUNICATION"),
     Lit(", this " + "requires " + "a "),
     Hole("TIMEFRAME"),
     Lit(" " + "strategic "),
     Hole("INITIATIVE"),
     Lit(" before " + "we can "),
     Hole("DELIVER"),
     Lit(".")]

  /** worker.js:116 */
  const Corporate2: Template :=
    [Lit("I'm " + "currently "),
     Hole("BLOCKED"),
     Lit(" by "),
     Hole("DEPENDENCY"),
     Lit(" which is " + "impacting " + "my " + "ability " + "to "),
     Hole("ACHIEVE"),
     Lit(" the "),
     Hole("GOAL"),
     Lit(". We need " + "to "),
     Hole("CIRCLE_BACK"),
     Lit(" after I "),
     Hole("SYNC"),
     Lit(" with "),
     Hole("STAKEHOLDER"),
     Lit(".")]

  /** worker.js:117 */
  const Corporate3: Template :=
    [Lit("Great " + "question! " + "I've been " + "leveraging "),
     Hole("BUZZWORD"),
     Lit(" to drive "),
     Hole("OUTCOME"),
     Lit(", but " + "we're " + "experiencing " + "some "),
     Hole("BLOCKER"),
     Lit(" in the "),
     Hole("SYSTEM"),
     Lit(". Let me "),
     Hole("ACTION"),
     Lit(" and I'll "),
     Hole("FOLLOW_UP"),
     Lit(" by "),
     Hole("VAGUE_TIME"),
     Lit(".")]

  /** worker.js:118 */
  const Corporate4: Template :=
    [Lit("So I " + "actually "),
     Hole("STARTED"),
     Lit(" this "),
     Hole("TIMEFRAME_PAST"),
     Lit(", but " + "then "),
     Hole("EXCUSE_EVENT"),
     Lit(" happened " + "and we " + "had to " + "pivot our "),
     Hole("STRATEGY"),
     Lit(". " + "Currently "),
     Hole("IN_PROGRESS"),
     Lit(" and " + "targeting "),
     Hole("VAGUE_FUTURE"),
     Lit(" for "),
     Hole("COMPLETION"),
     Lit(".")]

  /** worker.js:119 */
  const Corporate5: Template :=
    [Lit("I hear " + "you, but " + "have you " + "considered " + "that this "),
     Lit("requires "),
     Hole("UNNECESSARY_THING"),
     Lit("? I've " + "been " + "collaborating " + "with "),
     Hole("IMAGINARY_TEAM"),
     Lit(" to " + "ensure " + "we're "),
     Hole("CORPORATE_SPEAK"),
     Lit(" before " + "we "),
     Hole("ACTION"),
     Lit(".")]

  /** worker.js:115-119: the templates pushed for the corporate tone. */
  const CorporateBase: seq<Template> := [Corporate1, Corporate2, Corporate3, Corporate4, Corporate5]

  /** worker.js:124 */
  const CorporateHigh1: Template :=
    [Lit("Honestly? " + "I've been " + "so busy "),
     Hole("HUMBLE_BRAG"),
     Lit(" that I " + "haven't " + "had " + "bandwidth " + "to "),
     Hole("BASIC_TASK"),
     Lit(". This " + "really " + "needs a "),
     Hole("OVERLY_COMPLEX"),
     Lit(" approach " + "anyway.")]

  /** worker.js:125 */
  const CorporateHigh2: Template :=
    [Lit("Per my "),
     Hole("NUMBER"),
     Lit(" emails, " + "I clearly " + "stated we " + "need "),
     Hole("UNREASONABLE_REQUIREMENT"),
     Lit(" before I " + "can even "),
     Hole("START"),
     Lit(". This is " + "exactly " + "why I " + "advocated " + "for "),
     Hole("BUZZWORD"),
     Lit(" in Q"),
     Hole("QUARTER"),
     Lit(".")]

  /** worker.js:124-125: the templates pushed for the corporate tone, high snark only. */
  const CorporateExtra: seq<Template> := [CorporateHigh1, CorporateHigh2]

  /** worker.js:133 */
  const Technical1: Template :=
    [Lit("Yeah so I " + "was "),
     Hole("ACTION"),
     Lit(" but then " + "I " + "realized " + "we need " + "to " + "refactor " + "the "),
     Lit("entire "),
     Hole("TECH_THING"),
     Lit(" to " + "implement "),
     Hole("FRAMEWORK"),
     Lit(". The " + "technical " + "debt here " + "is "),
     Hole("EXAGGERATION"),
     Lit(".")]

  /** worker.js:134 */
  const Technical2: Template :=
    [Lit("The "),
     Hole("COMPONENT"),
     Lit(" is " + "experiencing "),
     Hole("PERCENT"),
     Lit("% "),
     Hole("TECH_PROBLEM"),
     Lit(" which is " + "blocking " + "my "),
     Hole("SOLUTION"),
     Lit(". I've " + "been " + "debugging " + "the "),
     Hole("SYSTEM"),
     Lit(" but it's " + "a "),
     Hole("COMPLEXITY"),
     Lit(" issue.")]

  /** worker.js:135 */
  const Technical3: Template :=
    [Lit("I mean, I " + "could "),
     Hole("SIMPLE_TASK"),
     Lit(", but " + "without " + "proper "),
     Hole("TECH_BUZZWORD"),
     Lit(" " + "implementation, " + "we're " + "basically " + "building " + "on "),
     Hole("TECH_METAPHOR"),
     Lit(". Need to " + "architect " + "this " + "correctly.")]

  /** worker.js:136 */
  const Technical4: Template :=
    [Lit("Currently " + "blocked " + "on "),
     Hole("DEPENDENCY"),
     Lit(" because " + "the "),
     Hole("API"),
     Lit(" doesn't " + "support "),
     Hole("FEATURE"),
     Lit(" in our "),
     Hole("ENVIRONMENT"),
     Lit(". I've " + "opened a " + "ticket " + "but they " + "said "),
     Hole("VAGUE_TIME"),
     Lit(".")]

  /** worker.js:137 */
  const Technical5: Template :=
    [Lit("Look, I " + "started " + "migrating " + "to "),
     Hole("NEW_TECH"),
     Lit(" because "),
     Hole("OLD_TECH"),
     Lit(" is " + "deprecated " + "(according " + "to "),
     Hole("DUBIOUS_SOURCE"),
     Lit("). It's "),
     Hole("PERCENT"),
     Lit("% faster " + "but " + "requires " + "rewriting "),
     Hole("EVERYTHING"),
     Lit(".")]

  /** worker.js:133-137: the templates pushed for the technical tone. */
  const TechnicalBase: seq<Template> := [Technical1, Technical2, Technical3, Technical4, Technical5]

  /** worker.js:142 */
  const TechnicalHigh1: Template :=
    [Lit("Bro I've " + "been down " + "a RABBIT " + "HOLE " + "optimizing " + "the "),
     Hole("TECH_THING"),
     Lit(". Saved " + "like "),
     Hole("BIG_NUMBER"),
     Lit(" "),
     Hole("UNIT"),
     Lit(" but then " + "realized " + "we need " + "to "),
     Hole("REBUILD_EVERYTHING"),
     Lit(".")]

  /** worker.js:143 */
  const TechnicalHigh2: Template :=
    [Lit("Not gonna " + "lie, I " + "spent all "),
     Hole("TIMEFRAME"),
     Lit(" " + "implementing "),
     Hole("TRENDY_TECH"),
     Lit(" because "),
     Hole("WEAK_REASON"),
     Lit(". It's " + "gonna be " + "SICK when " + "it's done " + "tho.")]

  /** worker.js:142-143: the templates pushed for the technical tone, high snark only. */
  const TechnicalExtra: seq<Template> := [TechnicalHigh1, TechnicalHigh2]

  /** worker.js:151 */
  const Defensive1: Template :=
    [Lit("I " + "actually "),
     Hole("DID_SOMETHING"),
     Lit(" "),
     Hole("TIMEFRAME_PAST"),
     Lit(" but " + "nobody " + "told me " + "about "),
     Hole("THING_NOBODY_MENTIONED"),
     Lit(". How was " + "I " + "supposed " + "to know " + "we needed "),
     Hole("OBVIOUS_THING"),
     Lit("?")]

  /** worker.js:152 */
  const Defensive2: Template :=
    [Lit("This is " + "literally " + "the first " + "I'm " + "hearing " + "about "),
     Hole("PRIORITY"),
     Lit(". I've " + "been "),
     Hole("ACTION"),
     Lit(" like you " + "asked, " + "but now " + "you're " + "saying "),
     Hole("CONTRADICTION"),
     Lit("? I can't " + "read " + "minds.")]

  /** worker.js:153 */
  const Defensive3: Template :=
    [Lit("Okay but "),
     Hole("PERSON"),
     Lit(" said "),
     Hole("PARAPHRASE"),
     Lit(" so I "),
     Hole("INTERPRETED_WRONG"),
     Lit(". If " + "there was " + "a clear "),
     Hole("DOCUMENTATION"),
     Lit(" I " + "wouldn't " + "have "),
     Hole("MISTAKE"),
     Lit(".")]

  /** worker.js:154 */
  const Defensive4: Template :=
    [Lit("I mean I " + "WOULD " + "have "),
     Hole("DONE_IT"),
     Lit(", but I " + "was never " + "given " + "access to "),
     Hole("SYSTEM"),
     Lit(". I " + "requested " + "it "),
     Hole("VAGUE_TIME"),
     Lit(" and " + "still " + "nothing. " + "Not my " + "fault if " + "the " + "process "),
     Lit("is broken.")]

  /** worker.js:155 */
  const Defensive5: Template :=
    [Lit("Nobody " + "TOLD me " + "this was "),
     Hole("PRIORITY_LEVEL"),
     Lit(". I've " + "been " + "juggling " + "like "),
     Hole("NUMBER"),
     Lit(" " + "different "),
     Hole("THINGS"),
     Lit(" and " + "apparently " + "I'm " + "supposed " + "to just " + "KNOW what "),
     Lit("matters " + "most?")]

  /** worker.js:151-155: the templates pushed for the defensive tone. */
  const DefensiveBase: seq<Template> := [Defensive1, Defensive2, Defensive3, Defensive4, Defensive5]

  /** worker.js:160 */
  const DefensiveHigh1: Template :=
    [Lit("Oh so NOW " + "it " + "matters? " + "Because " + "when I " + "brought " + "up "),
     Hole("RELATED_THING"),
     Lit(" in "),
     Hole("MEETING"),
     Lit(" everyone " + "said it " + "was fine " + "to "),
     Hole("DELAY"),
     Lit(". " + "Interesting.")]

  /** worker.js:161 */
  const DefensiveHigh2: Template :=
    [Lit("I'm sorry " + "I don't " + "have 48 " + "hour days " + "like "),
     Lit("apparently " + "everyone " + "else on " + "this " + "team. " + "I've been "),
     Lit("DROWNING " + "in "),
     Hole("VAGUE_RESPONSIBILITIES"),
     Lit(" while " + "y'all are " + "out here " + "expecting " + "miracles.")]

  /** worker.js:160-161: the templates pushed for the defensive tone, high snark only. */
  const DefensiveExtra: seq<Template> := [DefensiveHigh1, DefensiveHigh2]

  /** worker.js:109-167: the templates of getTemplates, by tone. */
  const Templates: TemplateTable := TemplateTable(
    ToneTemplates(CorporateBase, CorporateExtra),
    ToneTemplates(TechnicalBase, TechnicalExtra),
    ToneTemplates(DefensiveBase, DefensiveExtra))

  /** The property names on worker.js:171-180. */
  const ReplacementKeys0: seq<Plain> := ["ACTION", "OPTIMIZE", "METRIC", "PERCENTAGE", "COMMUNICATION", "TIMEFRAME", "INITIATIVE", "DELIVER", "BLOCKED", "DEPENDENCY"]

  /** The property names on worker.js:181-190. */
  const ReplacementKeys1: seq<Plain> := ["ACHIEVE", "GOAL", "CIRCLE_BACK", "SYNC", "STAKEHOLDER", "BUZZWORD", "OUTCOME", "BLOCKER", "SYSTEM", "FOLLOW_UP"]

  /** The property names on worker.js:191-200. */
  const ReplacementKeys2: seq<Plain> := ["VAGUE_TIME", "STARTED", "TIMEFRAME_PAST", "EXCUSE_EVENT", "STRATEGY", "IN_PROGRESS", "VAGUE_FUTURE", "COMPLETION", "UNNECESSARY_THING", "IMAGINARY_TEAM"]

  /** The property names on worker.js:201-210. */
  const ReplacementKeys3: seq<Plain> := ["CORPORATE_SPEAK", "HUMBLE_BRAG", "BASIC_TASK", "OVERLY_COMPLEX", "NUMBER", "UNREASONABLE_REQUIREMENT", "START", "QUARTER", "TECH_THING", "FRAMEWORK"]

  /** The property names on worker.js:211-220. */
  const ReplacementKeys4: seq<Plain> := ["EXAGGERATION", "TECH_PROBLEM", "COMPONENT", "SOLUTION", "COMPLEXITY", "SIMPLE_TASK", "TECH_BUZZWORD", "TECH_METAPHOR", "API", "FEATURE"]

  /** The property names on worker.js:221-230. */
  const ReplacementKeys5: seq<Plain> := ["ENVIRONMENT", "NEW_TECH", "OLD_TECH", "DUBIOUS_SOURCE", "PERCENT", "BIG_NUMBER", "UNIT", "REBUILD_EVERYTHING", "TRENDY_TECH", "WEAK_REASON"]

  /** The property names on worker.js:231-240. */
  const ReplacementKeys6: seq<Plain> := ["DID_SOMETHING", "THING_NOBODY_MENTIONED", "OBVIOUS_THING", "PRIORITY", "CONTRADICTION", "PERSON", "PARAPHRASE", "INTERPRETED_WRONG", "DOCUMENTATION", "MISTAKE"]

  /** The property names on worker.js:241-247. */
  const ReplacementKeys7: seq<Plain> := ["DONE_IT", "PRIORITY_LEVEL", "THINGS", "RELATED_THING", "MEETING", "DELAY", "VAGUE_RESPONSIBILITIES"]

  /** worker.js:171 */
  const ActionWords: Words := ["synergizing", "optimizing", "leveraging", "architecting", "strategizing", "socializing", "pressure-testing", "right-sizing", "future-proofing", "operationalizing"]

  /** worker.js:172 */
  const OptimizeWords: Words := ["maximize", "enhance", "streamline", "revolutionize", "transform", "unlock", "amplify", "accelerate", "supercharge", "catalyze"]

  /** worker.js:173 */
  const MetricWords: Words := ["KPIs", "ROI", "stakeholder " + "value", "north " + "star " + "metrics", "engagement " + "vectors", "conversion " + "funnels", "velocity " + "metrics", "impact " + "quotient", "synergy " + "coefficient"]

  /** worker.js:174 */
  const PercentageWords: Words := ["237", "420", "1000", "156", "847", "69", "314", "666", "999"]

  /** worker.js:175 */
  const CommunicationWords: Words := ["standup", "sync", "email", "Slack", "whiteboarding " + "session", "parking " + "lot " + "discussion", "alignment " + "call", "checkpoint " + "meeting"]

  /** worker.js:176 */
  const TimeframeWords: Words := ["multi-quarter", "phased", "iterative", "agile", "waterfall", "hybrid", "sprint-based", "milestone-driven"]

  /** worker.js:177 */
  const InitiativeWords: Words := ["deep-dive", "tiger team", "task force", "working " + "group", "center of " + "excellence", "innovation " + "lab", "ideation " + "sprint", "discovery " + "phase"]

  /** worker.js:178 */
  const DeliverWords: Words := ["ship", "deploy", "go-live", "launch", "activate", "operationalize", "productionize", "sunset " + "the beta"]

  /** worker.js:179 */
  const BlockedWords: Words := ["bottlenecked", "gated", "dependencies-locked", "resource-constrained", "bandwidth-limited", "siloed", "context-switching"]

  /** worker.js:180 */
  const DependencyWords: Words := ["the API " + "gateway " + "migration", "cross-functional " + "alignment", "legal " + "review", "budget " + "approval", "vendor " + "negotiations", "the " + "platform " + "team", "infrastructure " + "provisioning"]

  /** worker.js:181 */
  const AchieveWords: Words := ["unlock", "actualize", "manifest", "crystallize", "materialize", "realize", "deliver on"]

  /** worker.js:182 */
  const GoalWords: Words := ["milestone", "OKR", "deliverable", "success " + "criteria", "acceptance " + "criteria", "exit " + "criteria", "definition " + "of done"]

  /** worker.js:183 */
  const CircleBackWords: Words := ["reconnect", "touch base", "sync up", "align", "regroup", "huddle", "do a " + "temperature " + "check"]

  /** worker.js:184 */
  const SyncWords: Words := ["align", "calibrate", "coordinate", "integrate", "harmonize", "synchronize", "get on " + "the same " + "page with"]

  /** worker.js:185 */
  const StakeholderWords: Words := ["the " + "steering " + "committee", "leadership", "the " + "product " + "owner", "my " + "skip-level", "the exec " + "team", "cross-functional " + "partners"]

  /** worker.js:186 */
  const BuzzwordWords: Words := ["AI/ML " + "pipelines", "blockchain " + "integration", "cloud-native " + "architecture", "microservices", "edge " + "computing", "data mesh " + "topology", "zero-trust " + "security"]

  /** worker.js:187 */
  const OutcomeWords: Words := ["actionable " + "insights", "measurable " + "impact", "transformative " + "results", "competitive " + "advantage", "market " + "differentiation", "operational " + "excellence"]

  /** worker.js:188 */
  const BlockerWords: Words := ["capacity " + "constraints", "scope " + "creep", "technical " + "debt", "legacy " + "integrations", "compliance " + "requirements", "change " + "management " + "friction"]

  /** worker.js:189 */
  const SystemWords: Words := ["CI/CD " + "pipeline", "observability " + "stack", "data lake", "service " + "mesh", "orchestration " + "layer", "analytics " + "platform"]

  /** worker.js:190 */
  const FollowUpWords: Words := ["circle " + "back", "close the " + "loop", "provide " + "an update", "share an " + "ETA", "deliver a " + "status " + "report", "ping the " + "thread"]

  /** worker.js:191 */
  const VagueTimeWords: Words := ["EOD", "EOW", "early " + "next week", "the next " + "sprint", "Q3-ish", "when " + "bandwidth " + "allows", "post-launch", "after the " + "all-hands"]

  /** worker.js:192 */
  const StartedWords: Words := ["kicked off", "initiated", "began " + "scoping", "started " + "discovery " + "on", "commenced " + "planning " + "for", "opened " + "the epic " + "for"]

  /** worker.js:193 */
  const TimeframePastWords: Words := ["last " + "sprint", "two weeks " + "ago", "before " + "the " + "holiday", "in Q1", "during " + "the " + "offsite", "back in " + "January"]

  /** worker.js:194 */
  const ExcuseEventWords: Words := ["the re-org", "that P0 " + "incident", "the fire " + "drill", "the " + "security " + "audit", "the " + "compliance " + "review", "the " + "all-hands " + "prep"]

  /** worker.js:195 */
  const StrategyWords: Words := ["go-to-market " + "approach", "execution " + "plan", "rollout " + "strategy", "implementation " + "roadmap", "adoption " + "framework"]

  /** worker.js:196 */
  const InProgressWords: Words := ["actively " + "iterating", "in the " + "backlog", "queued " + "for next " + "sprint", "80% " + "complete", "in code " + "review", "blocked " + "on QA"]

  /** worker.js:197 */
  const VagueFutureWords: Words := ["next month", "Q4", "the near " + "future", "when we " + "hit our " + "targets", "post-MVP", "after we " + "stabilize"]

  /** worker.js:198 */
  const CompletionWords: Words := ["launch", "delivery", "rollout", "implementation", "go-live", "production " + "release"]

  /** worker.js:199 */
  const UnnecessaryThingWords: Words := ["a full " + "architectural " + "review", "executive " + "buy-in", "a proof " + "of concept", "a risk " + "assessment", "user " + "research", "A/B " + "testing"]

  /** worker.js:200 */
  const ImaginaryTeamWords: Words := ["the " + "platform " + "squad", "our " + "offshore " + "partners", "the " + "DevOps " + "guild", "the " + "architecture " + "review " + "board", "the PMO"]

  /** worker.js:201 */
  const CorporateSpeakWords: Words := ["de-risking " + "the " + "approach", "validating " + "the " + "hypothesis", "stress-testing " + "the " + "assumptions", "pressure-testing " + "the model", "socializing " + "the " + "concept"]

  /** worker.js:202 */
  const HumbleBragWords: Words := ["mentoring " + "junior " + "devs", "leading " + "the DEI " + "initiative", "presenting " + "at the " + "conference", "interviewing " + "candidates", "documenting " + "best " + "practices"]

  /** worker.js:203 */
  const BasicTaskWords: Words := ["update " + "that " + "ticket", "respond " + "to emails", "attend " + "standups", "make " + "actual " + "progress", "do the " + "thing I " + "was hired " + "for"]

  /** worker.js:204 */
  const OverlyComplexWords: Words := ["design " + "thinking " + "workshop", "three-phase " + "rollout", "cross-matrix " + "analysis", "stakeholder " + "mapping " + "exercise", "impact-effort " + "assessment"]

  /** worker.js:205 */
  const NumberWords: Words := ["17", "23", "42", "7", "99", "13", "31", "64"]

  /** worker.js:206 */
  const UnreasonableRequirementWords: Words := ["sign-off " + "from the " + "CFO", "a " + "dedicated " + "scrum " + "master", "enterprise-grade " + "tooling", "24/7 " + "support " + "coverage", "SOC 2 " + "compliance"]

  /** worker.js:207 */
  const StartWords: Words := ["think " + "about " + "starting", "begin " + "planning", "scope the " + "work", "estimate " + "the effort", "draft the " + "proposal"]

  /** worker.js:208 */
  const QuarterWords: Words := ["1", "2", "3", "4"]

  /** worker.js:209 */
  const TechThingWords: Words := ["service " + "mesh", "build " + "pipeline", "state " + "management", "caching " + "layer", "load " + "balancer", "container " + "orchestration", "API " + "gateway"]

  /** worker.js:210 */
  const FrameworkWords: Words := ["React 19", "Kubernetes", "GraphQL " + "federation", "event-driven " + "architecture", "CQRS " + "pattern", "serverless " + "functions"]

  /** worker.js:211 */
  const ExaggerationWords: Words := ["astronomical", "insurmountable", "existential", "catastrophic", "absolutely " + "massive", "bordering " + "on " + "theoretical"]

  /** worker.js:212 */
  const TechProblemWords: Words := ["latency", "memory " + "leaks", "race " + "conditions", "N+1 " + "queries", "cache " + "invalidation", "deadlocks"]

  /** worker.js:213 */
  const ComponentWords: Words := ["monorepo", "worker " + "pool", "message " + "queue", "database " + "cluster", "CDN", "authentication " + "service"]

  /** worker.js:214 */
  const SolutionWords: Words := ["distributed " + "tracing " + "implementation", "horizontal " + "scaling", "database " + "migration", "cache " + "warming", "load " + "testing"]

  /** worker.js:215 */
  const ComplexityWords: Words := ["distributed " + "systems", "concurrency", "consistency", "CAP " + "theorem", "eventual " + "consistency"]

  /** worker.js:216 */
  const SimpleTaskWords: Words := ["ship this " + "feature", "fix that " + "bug", "deploy to " + "prod", "update " + "the docs", "merge the " + "PR"]

  /** worker.js:217 */
  const TechBuzzwordWords: Words := ["observability", "GitOps", "infrastructure " + "as code", "chaos " + "engineering", "feature " + "flagging", "canary " + "deployment"]

  /** worker.js:218 */
  const TechMetaphorWords: Words := ["quicksand", "a house " + "of cards", "duct tape " + "and " + "prayers", "a ticking " + "time bomb", "spaghetti " + "code"]

  /** worker.js:219 */
  const ApiWords: Words := ["REST " + "endpoint", "GraphQL " + "schema", "webhook", "gRPC " + "service", "WebSocket " + "connection"]

  /** worker.js:220 */
  const FeatureWords: Words := ["batching", "pagination", "rate " + "limiting", "versioning", "backwards " + "compatibility"]

  /** worker.js:221 */
  const EnvironmentWords: Words := ["staging " + "cluster", "production " + "namespace", "dev " + "environment", "canary " + "deployment", "edge " + "runtime"]

  /** worker.js:222 */
  const NewTechWords: Words := ["Deno", "Bun", "Astro", "SolidJS", "Qwik", "htmx", "Tauri"]

  /** worker.js:223 */
  const OldTechWords: Words := ["jQuery", "Angular 1", "Backbone", "that " + "legacy " + "PHP app", "the " + "monolith"]

  /** worker.js:224 */
  const DubiousSourceWords: Words := ["this " + "Medium " + "article", "a tweet", "Hacker " + "News", "my " + "bootcamp " + "instructor", "Stack " + "Overflow"]

  /** worker.js:225 */
  const PercentWords: Words := ["10", "50", "100", "500", "1000"]

  /** worker.js:226 */
  const BigNumberWords: Words := ["10GB", "1000 " + "requests/sec", "50ms", "10,000 " + "lines", "500MB"]

  /** worker.js:227 */
  const UnitWords: Words := ["of latency", "in bundle " + "size", "of memory", "of queries", "of " + "technical " + "debt"]

  /** worker.js:228 */
  const RebuildEverythingWords: Words := ["rewrite " + "the " + "entire " + "codebase", "migrate " + "the " + "database", "rebuild " + "from " + "scratch", "start " + "over with " + "TypeScript"]

  /** worker.js:229 */
  const TrendyTechWords: Words := ["WebAssembly", "Rust", "edge " + "functions", "Islands " + "architecture", "resumability", "streaming " + "SSR"]

  /** worker.js:230 */
  const WeakReasonWords: Words := ["it was " + "trending " + "on Twitter", "I saw it " + "in a " + "conference " + "talk", "everyone " + "is " + "switching " + "to it", "it's the " + "future"]

  /** worker.js:231 */
  const DidSomethingWords: Words := ["completed " + "the " + "task", "sent the " + "update", "made the " + "changes", "shipped " + "the " + "feature", "fixed the " + "issue"]

  /** worker.js:232 */
  const ThingNobodyMentionedWords: Words := ["the " + "breaking " + "API change", "the new " + "requirements", "the " + "compliance " + "rules", "the " + "budget " + "constraints", "the " + "deadline " + "change"]

  /** worker.js:233 */
  const ObviousThingWords: Words := ["testing", "documentation", "error " + "handling", "monitoring", "backwards " + "compatibility"]

  /** worker.js:234 */
  const PriorityWords: Words := ["being top " + "priority", "this " + "being " + "urgent", "the " + "deadline", "these " + "requirements", "this scope"]

  /** worker.js:235 */
  const ContradictionWords: Words := ["it needs " + "to be " + "different", "that's " + "not what " + "we wanted", "we need " + "more " + "features", "we're " + "going " + "another " + "direction"]

  /** worker.js:236 */
  const PersonWords: Words := ["Sarah " + "from " + "Product", "the PM", "leadership", "someone " + "in Slack", "the tech " + "lead"]

  /** worker.js:237 */
  const ParaphraseWords: Words := ["it could " + "wait " + "until " + "next " + "sprint", "\"no rush " + "on this\"", "to " + "deprioritize " + "it", "it was a " + "nice-to-have", "to focus " + "on other " + "things"]

  /** worker.js:238 */
  const InterpretedWrongWords: Words := ["assumed " + "it was " + "low " + "priority", "thought " + "that was " + "optional", "understood " + "it " + "differently", "missed " + "that " + "requirement"]

  /** worker.js:239 */
  const DocumentationWords: Words := ["spec " + "document", "requirements " + "doc", "design " + "proposal", "RFC", "project " + "charter", "JIRA " + "ticket"]

  /** worker.js:240 */
  const MistakeWords: Words := ["taken " + "this " + "approach", "missed " + "that " + "detail", "assumed " + "incorrectly", "gone this " + "direction"]

  /** worker.js:241 */
  const DoneItWords: Words := ["finished " + "on time", "completed " + "it " + "properly", "delivered " + "as " + "expected", "met the " + "deadline"]

  /** worker.js:242 */
  const PriorityLevelWords: Words := ["urgent", "critical", "high-priority", "blocking", "a P0"]

  /** worker.js:243 */
  const ThingsWords: Words := ["initiatives", "projects", "fires", "priorities", "workstreams", "deliverables"]

  /** worker.js:244 */
  const RelatedThingWords: Words := ["timeline " + "concerns", "resource " + "constraints", "technical " + "challenges", "scope " + "issues"]

  /** worker.js:245 */
  const MeetingWords: Words := ["standup", "planning", "retro", "the " + "all-hands", "sprint " + "planning"]

  /** worker.js:246 */
  const DelayWords: Words := ["push it " + "to next " + "sprint", "table it " + "for now", "backlog it", "revisit " + "later"]

  /** worker.js:247 */
  const VagueResponsibilitiesWords: Words := ["strategic " + "initiatives", "cross-functional " + "collaboration", "stakeholder " + "management", "technical " + "leadership"]

  /** worker.js:171-247: the property names of the placeholder object, in
      the order Object.entries visits them. */
  const ReplacementKeys: seq<Plain> :=
    ReplacementKeys0 + ReplacementKeys1 + ReplacementKeys2 + ReplacementKeys3 + ReplacementKeys4 + ReplacementKeys5 + ReplacementKeys6 + ReplacementKeys7

  /** worker.js:171-247: the word lists, in the same order. */
  const ReplacementWords: seq<Words> := [
    ActionWords, OptimizeWords, MetricWords, PercentageWords, CommunicationWords, TimeframeWords, InitiativeWords, DeliverWords, BlockedWords, DependencyWords,
    AchieveWords, GoalWords, CircleBackWords, SyncWords, StakeholderWords, BuzzwordWords, OutcomeWords, BlockerWords, SystemWords, FollowUpWords,
    VagueTimeWords, StartedWords, TimeframePastWords, ExcuseEventWords, StrategyWords, InProgressWords, VagueFutureWords, CompletionWords, UnnecessaryThingWords, ImaginaryTeamWords,
    CorporateSpeakWords, HumbleBragWords, BasicTaskWords, OverlyComplexWords, NumberWords, UnreasonableRequirementWords, StartWords, QuarterWords, TechThingWords, FrameworkWords,
    ExaggerationWords, TechProblemWords, ComponentWords, SolutionWords, ComplexityWords, SimpleTaskWords, TechBuzzwordWords, TechMetaphorWords, ApiWords, FeatureWords,
    EnvironmentWords, NewTechWords, OldTechWords, DubiousSourceWords, PercentWords, BigNumberWords, UnitWords, RebuildEverythingWords, TrendyTechWords, WeakReasonWords,
    DidSomethingWords, ThingNobodyMentionedWords, ObviousThingWords, PriorityWords, ContradictionWords, PersonWords, ParaphraseWords, InterpretedWrongWords, DocumentationWords, MistakeWords,
    DoneItWords, PriorityLevelWords, ThingsWords, RelatedThingWords, MeetingWords, DelayWords, VagueResponsibilitiesWords
  ]

  /** Pairs names and word lists up, position by position. */
  function Zip(keys: seq<Plain>, words: seq<Words>): (table: seq<Entry>)
    requires |keys| == |words|
    ensures Keys(table) == keys
    ensures forall i :: 0 <= i < |table| ==> table[i].words == words[i]
  {
    seq(|keys|, i requires 0 <= i < |keys| => Entry(keys[i], words[i]))
  }

  /** worker.js:170-248: the `replacements` object of interpolateTemplate. */
  const Replacements: seq<Entry> := Zip(ReplacementKeys, ReplacementWords)

  /** worker.js:89 */
  const LowOutburst1A: seq<Plain> := ["You know what? I'm ", "going to be honest ", "with you. I've been ", "working on "]
  const LowOutburst1B: seq<Plain> := ["strategic ", "initiatives that ", "align with my ", "personal brand "]
  const LowOutburst1C: seq<Plain> := ["development. Your ", "project is in the ", "backlog. The ", "emotional backlog. "]
  const LowOutburst1D: seq<Plain> := ["Of my soul."]
  const LowOutburst1: Plain := Concat(LowOutburst1A + LowOutburst1B + LowOutburst1C + LowOutburst1D)

  /** worker.js:90 */
  const LowOutburst2A: seq<Plain> := ["I CAN'T KEEP BEING ", "THE ONLY ONE WHO ", "CARES ABOUT ", "HOLISTIC "]
  const LowOutburst2B: seq<Plain> := ["INTEGRATION ", "FRAMEWORKS! ", "Everyone wants the ", "MVP but nobody "]
  const LowOutburst2C: seq<Plain> := ["wants to nurture ", "the roadmap! I'M ", "TIRED!"]
  const LowOutburst2: Plain := Concat(LowOutburst2A + LowOutburst2B + LowOutburst2C)

  /** worker.js:91 */
  const LowOutburst3A: seq<Plain> := ["Look, I'm just ", "going to say it: ", "I've been attending ", "so many "]
  const LowOutburst3B: seq<Plain> := ["cross-functional ", "alignment meetings ", "about this that I ", "literally forgot "]
  const LowOutburst3C: seq<Plain> := ["what 'this' even ", "is. My bandwidth is ", "GONE."]
  const LowOutburst3: Plain := Concat(LowOutburst3A + LowOutburst3B + LowOutburst3C)

  /** worker.js:88-92 */
  const LowOutbursts: Rants := [LowOutburst1, LowOutburst2, LowOutburst3]

  /** worker.js:94 */
  const MediumOutburst1A: seq<Plain> := ["OH SO NOW IT'S A ", "PRIORITY?! Where ", "was this energy ", "when I was pitching "]
  const MediumOutburst1B: seq<Plain> := ["my ", "blockchain-enabled ", "agile ", "transformation "]
  const MediumOutburst1C: seq<Plain> := ["initiative?! I've ", "been SILOED!"]
  const MediumOutburst1: Plain := Concat(MediumOutburst1A + MediumOutburst1B + MediumOutburst1C)

  /** worker.js:95 */
  const MediumOutburst2A: seq<Plain> := ["You want status? ", "STATUS?! I'll give ", "you status: I'm ", "experiencing "]
  const MediumOutburst2B: seq<Plain> := ["emotional technical ", "debt because ", "leadership won't ", "let me sunset this "]
  const MediumOutburst2C: seq<Plain> := ["legacy mindset I'm ", "operating under!"]
  const MediumOutburst2: Plain := Concat(MediumOutburst2A + MediumOutburst2B + MediumOutburst2C)

  /** worker.js:96 */
  const MediumOutburst3A: seq<Plain> := ["I've literally been ", "grinding 24/7 on ", "optimizing my ", "personal KPIs and "]
  const MediumOutburst3B: seq<Plain> := ["suddenly everyone ", "wants deliverables! ", "DO YOU KNOW HOW ", "MANY COFFEE CHATS "]
  const MediumOutburst3C: seq<Plain> := ["I'VE HAD TO ATTEND?!"]
  const MediumOutburst3: Plain := Concat(MediumOutburst3A + MediumOutburst3B + MediumOutburst3C)

  /** worker.js:93-97 */
  const MediumOutbursts: Rants := [MediumOutburst1, MediumOutburst2, MediumOutburst3]

  /** worker.js:99 */
  const HighOutburst1A: seq<Plain> := ["ARE YOU KIDDING ME ", "RIGHT NOW?! I've ", "been INNOVATING in "]
  const HighOutburst1B: seq<Plain> := ["the IDEATION SPACE ", "and you want... ", "what... ACTUAL ", "WORK?! My genius "]
  const HighOutburst1C: seq<Plain> := ["can't be measured ", "by your PEDESTRIAN ", "METRICS!"]
  const HighOutburst1: Plain := Concat(HighOutburst1A + HighOutburst1B + HighOutburst1C)

  /** worker.js:100 */
  const HighOutburst2A: seq<Plain> := ["I AM A FULL-STACK ", "THOUGHT LEADER AND ", "I WILL NOT BE ", "CONTAINERIZED INTO "]
  const HighOutburst2B: seq<Plain> := ["YOUR LEGACY ", "PRODUCTIVITY ", "PARADIGM! *throws ", "digital clipboard*"]
  const HighOutburst2: Plain := Concat(HighOutburst2A + HighOutburst2B)

  /** worker.js:101 */
  const HighOutburst3A: seq<Plain> := ["OH WONDERFUL, ", "ANOTHER STAKEHOLDER ", "WHO DOESN'T ", "UNDERSTAND THAT I'M "]
  const HighOutburst3B: seq<Plain> := ["OPERATING IN A ", "DIFFERENT TEMPORAL ", "DIMENSION WHERE ", "DEADLINES ARE JUST "]
  const HighOutburst3C: seq<Plain> := ["SOCIAL CONSTRUCTS! ", "I'M HAVING A REAL ", "MOMENT HERE!"]
  const HighOutburst3: Plain := Concat(HighOutburst3A + HighOutburst3B + HighOutburst3C)

  /** worker.js:98-102 */
  const HighOutbursts: Rants := [HighOutburst1, HighOutburst2, HighOutburst3]

  /** worker.js:87-103: the `outbursts` object of generateOutburst. */
  const Outbursts: OutburstTable := OutburstTable(LowOutbursts, MediumOutbursts, HighOutbursts)

  /** worker.js:51: the excuse sent with status 500 when anything throws. */
  const FallbackExcuse: string :=
    "Listen, I'd give " + "you an excuse but " + "my AI-powered " + "excuse synthesis " +
      "pipeline is " + "currently " + "experiencing a " + "critical paradigm " + "shift."

}
