/** The procedural idea engine of `src/lib/ideaEngine.ts`: the `Idea` record, the
    curated pools and word tables, and the construction of one idea.

    Generation reads its tables from a `Catalog`. `SourceCatalog` holds the
    source's constants, and `SourceCatalogSound` proves that they have every
    property the proofs below rely on; the proofs themselves hold for any sound
    catalog, which keeps the long table texts out of them.

    Everything the source draws from `Math.random`, `uuidv4` and `Date.now`
    arrives in a `Draw`: the two coin tosses as booleans, each uniform pick as a
    number in [0, 1) that is scaled and floored exactly as the source does, and
    the fresh identifiers and the timestamp as plain values. */
module IdeaEngine {
  import opened Wrappers
  import Text

  datatype Step = Step(id: string, title: string, description: string, completed: bool)

  datatype ProductSpec = ProductSpec(
    appName: string, problem: string, targetUsers: string,
    features: seq<string>, monetization: string)

  /** An idea. `kind` is the source's `type` field; `kind` and `difficulty` hold
      the strings the source stores, whose declared ranges are `IsIdeaType` and
      `IsDifficulty`. */
  datatype Idea = Idea(
    id: string,
    title: string,
    kind: string,
    description: string,
    tags: seq<string>,
    difficulty: string,
    techStack: seq<string>,
    steps: seq<Step>,
    productSpec: Option<ProductSpec>,
    createdAt: int,
    liked: bool,
    checked: bool)

  predicate IsIdeaType(s: string)
  {
    s == "App" || s == "Website" || s == "Game"
  }

  predicate IsDifficulty(s: string)
  {
    s == "Easy" || s == "Medium" || s == "Hard" || s == "Expert"
  }

  /** The keys of `NICHES`, the niches a user can pick. */
  const NicheKeys: seq<string> := ["SaaS", "AI Tools", "Crypto", "Gaming", "Content", "Education"]

  /** A hand-written entry of a curated pool. */
  datatype Template = Template(title: string, description: string, tags: seq<string>)

  /** The curated pools of `CURATED_IDEAS`, one per niche. */
  const SaasPool: seq<Template> := [
    Template("Niche CRM for Plumbers", "A specialized CRM built for plumbing businesses to manage jobs, invoices, and customer follow-ups via SMS.", ["B2B", "Vertical SaaS", "Mobile"]),
    Template("Feedback Collector API", "A simple API that developers can integrate to collect and analyze user feedback with sentiment analysis.", ["DevTool", "API", "Analytics"]),
    Template("Remote Team Standup Bot", "A Slack/Discord bot that automates daily standups for remote teams across different timezones.", ["Productivity", "Automation", "Remote Work"]),
    Template("Freelance Tax Calculator", "An automated tool that scans bank statements to estimate quarterly taxes for freelancers in real-time.", ["Fintech", "Automation", "Tax"]),
    Template("Inventory Prediction AI", "For e-commerce brands to predict when they will run out of stock based on seasonal trends.", ["E-commerce", "AI", "Logistics"])
  ]

  const AiToolsPool: seq<Template> := [
    Template("Resize & Upscale AI", "A tool that intelligently upscales low-res images and extends backgrounds for social media posts.", ["Image Proc", "AI", "Creative"]),
    Template("Legal Doc Summarizer", "Upload complex legal PDF contracts and get a simple English summary of risks and obligations.", ["Legal", "NLP", "Productivity"]),
    Template("Voice-to-Code Assistant", "Dictate logic choices and having an AI convert spoken intent into boilerplate code structures.", ["DevTool", "Audio", "Coding"]),
    Template("Personal Stylist AI", "Upload your wardrobe and get daily outfit suggestions based on local weather and occasion.", ["Lifestyle", "Vision", "Fashion"])
  ]

  const CryptoPool: seq<Template> := [
    Template("No-Code DAO Launcher", "A platform allowing communities to spin up a DAO with governance tokens + voting voting in clicks.", ["Web3", "DAO", "No-Code"]),
    Template("Subscription NFT Platform", "Creators sell access passes as NFTs that automatically expire if a monthly fee isn't paid.", ["NFT", "Creator Economy", "Payments"]),
    Template("Cross-Chain Asset Tracker", "A unified dashboard to view all your DeFi assets across Ethereum, Solana, and Polygon.", ["DeFi", "Wallet", "Analytics"])
  ]

  const GamingPool: seq<Template> := [
    Template("Voxel City Builder", "A relaxing browser-based city builder using voxel art, saveable to the cloud.", ["Sim", "Voxel", "Casual"]),
    Template("Typing RPG Adventure", "Defeat enemies by typing words correctly and quickly. Great for learning touch typing.", ["Edu-Game", "RPG", "Typing"]),
    Template("Async Chess with Powers", "Classic chess but with ability cards (freeze piece, swap position) played asynchronously.", ["Strategy", "Multiplayer", "Turn-Based"])
  ]

  const ContentPool: seq<Template> := [
    Template("Micro-Podcast Maker", "Record 1-minute audio thoughts that are automatically transcribed and visualized as waves for TikTok.", ["Social", "Audio", "Creator"]),
    Template("Newsletter Cross-Promoter", "A network for newsletter writers to automatically swap shoutouts with similar audiences.", ["Marketing", "Growth", "Email"])
  ]

  const EducationPool: seq<Template> := [
    Template("Flashcard Battler", "Study for exams by battling monsters. Correct answers deal damage.", ["Gamification", "Study", "Mobile"]),
    Template("Code Syntax Racer", "Race against others to fix syntax errors in code snippets the fastest.", ["Dev", "Education", "Competitive"])
  ]

  const CuratedIdeas: map<string, seq<Template>> := map[
    "SaaS" := SaasPool,
    "AI Tools" := AiToolsPool,
    "Crypto" := CryptoPool,
    "Gaming" := GamingPool,
    "Content" := ContentPool,
    "Education" := EducationPool
  ]

  datatype WordLists = WordLists(nouns: seq<string>, adjs: seq<string>)

  /** The word lists of `STRICT_TEMPLATES`, one per niche. */
  const SaasWords: WordLists := WordLists(
    ["CRM", "Dashboard", "API", "Platform", "Monitor", "Scheduler", "Gateway", "Aggregator"],
    ["Vertical", "Automated", "Headless", "Collaborative", "Real-time", "Integrated", "Cloud-Native"])

  const AiToolsWords: WordLists := WordLists(
    ["Generator", "Summarizer", "Detector", "Assistant", "Optimizer", "Translator", "Agent"],
    ["Generative", "Smart", "Predictive", "Neural", "Vision-based", "Voice-activated"])

  const CryptoWords: WordLists := WordLists(
    ["Wallet", "Exchange", "Marketplace", "Bridge", "Protocol", "DAO", "Tracker"],
    ["Decentralized", "Tokenized", "Trustless", "On-chain", "Cross-chain", "Private"])

  const GamingWords: WordLists := WordLists(
    ["RPG", "Platformer", "Simulator", "Arena", "Puzzler", "Visual Novel", "Roguelike"],
    ["Co-op", "Open-World", "Voxel", "Low-poly", "Physics-based", "Competitive"])

  const ContentWords: WordLists := WordLists(
    ["Editor", "Aggregator", "Network", "Feed", "Studio", "Canvas", "Publisher"],
    ["Viral", "Curated", "Social", "Interactive", "Live", "Short-form"])

  const EducationWords: WordLists := WordLists(
    ["Tutor", "Quiz", "Flashcards", "Course", "Lab", "Simulator", "Library"],
    ["Interactive", "Adaptive", "Gamified", "Visual", "Bite-sized", "Peer-to-Peer"])

  const StrictTemplates: map<string, WordLists> := map[
    "SaaS" := SaasWords,
    "AI Tools" := AiToolsWords,
    "Crypto" := CryptoWords,
    "Gaming" := GamingWords,
    "Content" := ContentWords,
    "Education" := EducationWords
  ]

  const GenericNouns: seq<string> := ["App", "Platform", "Tool", "System", "Interface"]
  const GenericAdjs: seq<string> := ["Modern", "Simple", "Fast", "Secure", "Global"]

  datatype StepTemplate = StepTemplate(title: string, description: string)

  const WebSteps: seq<StepTemplate> := [
    StepTemplate("Project Setup", "Initialize Next.js project with Tailwind CSS and core dependencies."),
    StepTemplate("Design System", "Setup global theme, colors (Radix/Tailwind), and typography."),
    StepTemplate("Core Features", "Implement the primary business logic and data structures."),
    StepTemplate("UI Implementation", "Build responsive views and interactive components."),
    StepTemplate("Auth & Database", "Connect to database (Postgres/Firebase) and handle user sessions."),
    StepTemplate("Launch", "Deploy to Vercel, setup domain, and configure SEO metadata.")
  ]

  const GameSteps: seq<StepTemplate> := [
    StepTemplate("Engine Setup", "Initialize project in Unity/Godot or WebGL framework (Three.js/Phaser)."),
    StepTemplate("Core Loop", "Prototype the main mechanic (movement, interaction, win state)."),
    StepTemplate("Assets & Art", "Create or import placeholder models/sprites and sounds."),
    StepTemplate("Game Logic", "Implement scoring, levels, and enemy behaviors."),
    StepTemplate("UI & Menus", "Add start screen, HUD, and pause menus."),
    StepTemplate("Polish", "Add particle effects, screen shake, and optimize performance.")
  ]

  /** The tech stacks `createIdeaObject` assigns. */
  const GameStack: seq<string> := ["Unity/Godot", "C#", "Blender"]
  const WebStack: seq<string> := ["React", "Next.js", "Tailwind"]

  /** The constant tables generation reads. */
  datatype Catalog = Catalog(
    curated: map<string, seq<Template>>,  // `CURATED_IDEAS`
    strict: map<string, WordLists>,       // `STRICT_TEMPLATES`
    generic: WordLists,                   // `GENERIC_NOUNS` and `GENERIC_ADJS`
    webSteps: seq<StepTemplate>,          // `WEB_STEPS`
    gameSteps: seq<StepTemplate>)         // `GAME_STEPS`

  const SourceCatalog: Catalog :=
    Catalog(CuratedIdeas, StrictTemplates, WordLists(GenericNouns, GenericAdjs), WebSteps, GameSteps)

  /** Every list generation picks from is non-empty, and each step template
      has one step per fresh step identifier. */
  predicate Complete(c: Catalog)
  {
    (forall k :: k in c.curated ==> |c.curated[k]| > 0)
    && (forall k :: k in c.strict ==> |c.strict[k].adjs| > 0 && |c.strict[k].nouns| > 0)
    && |c.generic.adjs| > 0 && |c.generic.nouns| > 0
    && |c.webSteps| == 6 && |c.gameSteps| == 6
  }

  /** Neither "Gaming" nor "RPG" is among `tags`. */
  predicate GameFree(tags: seq<string>)
  {
    "Gaming" !in tags && "RPG" !in tags
  }

  /** Every entry of a pool has a title and a description. */
  predicate FilledPool(pool: seq<Template>)
  {
    forall i :: 0 <= i < |pool| ==> pool[i].title != "" && pool[i].description != ""
  }

  predicate GameFreePool(pool: seq<Template>)
  {
    forall i :: 0 <= i < |pool| ==> GameFree(pool[i].tags)
  }

  /** A complete catalog whose curated entries are filled in, and which tags
      nothing as a game outside the gaming niche: no curated entry, no
      adjective (adjectives become tags) and no niche name is "Gaming" or
      "RPG" there. */
  predicate Sound(c: Catalog)
  {
    Complete(c)
    && (forall k :: k in c.curated ==> FilledPool(c.curated[k]))
    && (forall k :: k in c.curated && k != "Gaming" ==> GameFreePool(c.curated[k]))
    && (forall k :: k in c.strict && k != "Gaming" ==> GameFree(c.strict[k].adjs) && k != "RPG")
  }

  /** The curated pools one by one: each is filled in, and each outside the
      gaming niche is free of game tags. */
  lemma FilledPools()
    ensures FilledPool(SaasPool) && FilledPool(AiToolsPool) && FilledPool(CryptoPool)
    ensures FilledPool(GamingPool) && FilledPool(ContentPool) && FilledPool(EducationPool)
  {
  }

  lemma GameFreeSaasPool() ensures GameFreePool(SaasPool) { }
  lemma GameFreeAiToolsPool() ensures GameFreePool(AiToolsPool) { }
  lemma GameFreeCryptoPool() ensures GameFreePool(CryptoPool) { }
  lemma GameFreeContentPool() ensures GameFreePool(ContentPool) { }
  lemma GameFreeEducationPool() ensures GameFreePool(EducationPool) { }

  /** The curated pools: every one is non-empty and filled in, and none outside
      the gaming niche tags an entry as a game. */
  lemma CuratedPoolFacts()
    ensures forall k :: k in CuratedIdeas ==> |CuratedIdeas[k]| > 0 && FilledPool(CuratedIdeas[k])
    ensures forall k :: k in CuratedIdeas && k != "Gaming" ==> GameFreePool(CuratedIdeas[k])
  {
    FilledPools();
    GameFreeSaasPool(); GameFreeAiToolsPool(); GameFreeCryptoPool();
    GameFreeContentPool(); GameFreeEducationPool();
    forall k | k in CuratedIdeas
      ensures |CuratedIdeas[k]| > 0 && FilledPool(CuratedIdeas[k])
      ensures k != "Gaming" ==> GameFreePool(CuratedIdeas[k])
    {
      if k == "SaaS" { assert CuratedIdeas[k] == SaasPool; }
      else if k == "AI Tools" { assert CuratedIdeas[k] == AiToolsPool; }
      else if k == "Crypto" { assert CuratedIdeas[k] == CryptoPool; }
      else if k == "Gaming" { assert CuratedIdeas[k] == GamingPool; }
      else if k == "Content" { assert CuratedIdeas[k] == ContentPool; }
      else { assert CuratedIdeas[k] == EducationPool; }
    }
  }

  lemma GameFreeAdjectives()
    ensures GameFree(SaasWords.adjs) && GameFree(AiToolsWords.adjs) && GameFree(CryptoWords.adjs)
    ensures GameFree(ContentWords.adjs) && GameFree(EducationWords.adjs)
  {
  }

  /** The word lists: every one is non-empty, no adjective outside the gaming
      niche is a game tag, and no niche is named "RPG". */
  lemma WordListFacts()
    ensures forall k :: k in StrictTemplates ==>
      |StrictTemplates[k].adjs| > 0 && |StrictTemplates[k].nouns| > 0 && k != "RPG"
    ensures forall k :: k in StrictTemplates && k != "Gaming" ==> GameFree(StrictTemplates[k].adjs)
  {
    GameFreeAdjectives();
    forall k | k in StrictTemplates
      ensures |StrictTemplates[k].adjs| > 0 && |StrictTemplates[k].nouns| > 0 && k != "RPG"
      ensures k != "Gaming" ==> GameFree(StrictTemplates[k].adjs)
    {
      if k == "SaaS" { assert StrictTemplates[k] == SaasWords; }
      else if k == "AI Tools" { assert StrictTemplates[k] == AiToolsWords; }
      else if k == "Crypto" { assert StrictTemplates[k] == CryptoWords; }
      else if k == "Gaming" { assert StrictTemplates[k] == GamingWords; }
      else if k == "Content" { assert StrictTemplates[k] == ContentWords; }
      else { assert StrictTemplates[k] == EducationWords; }
    }
  }

  /** The source's tables are sound. */
  lemma SourceCatalogSound()
    ensures Sound(SourceCatalog)
  {
    CuratedPoolFacts();
    WordListFacts();
  }

  /** Every niche a user can pick has a curated pool and word lists. */
  lemma TablesCoverNiches()
    ensures forall k :: k in NicheKeys ==> k in SourceCatalog.curated && k in SourceCatalog.strict
  {
  }

  /** A value of `Math.random()`. */
  type Unit = r: real | 0.0 <= r < 1.0

  /** One fresh identifier per template step; both templates have six steps. */
  type StepIds = s: seq<string> | |s| == 6 witness ["", "", "", "", "", ""]

  /** What one call of `generateIdea` takes from its environment. */
  datatype Draw = Draw(
    curated: bool,      // `Math.random() < 0.40`
    pick: Unit,         // picks the curated entry
    adj: Unit,          // picks the adjective
    noun: Unit,         // picks the noun
    hard: bool,         // `Math.random() > 0.7`
    id: string,         // `uuidv4()` for the idea
    stepIds: StepIds,   // `uuidv4()` for each step
    now: int)           // `Date.now()`

  /** `Math.floor(u * n)`: a valid index into a list of `n` entries. */
  function Pick(u: Unit, n: nat): (i: nat)
    requires n > 0
    ensures i < n
  {
    var x := u * n as real;
    assert x < n as real;
    x.Floor
  }

  /** An optional string argument is truthy: present and not the empty
      string (the niche of `generateIdea`, the key of
      `generateIdeasWithFallback`). */
  predicate Given(niche: Option<string>)
  {
    niche.Some? && niche.value != ""
  }

  /** The curated branch of `generateIdea` is taken. */
  predicate TakesCurated(c: Catalog, niche: Option<string>, forceProcedural: bool, d: Draw)
  {
    !forceProcedural && Given(niche) && niche.value in c.curated && d.curated
  }

  /** The niche has word lists of its own. */
  predicate HasWords(c: Catalog, niche: Option<string>)
  {
    Given(niche) && niche.value in c.strict
  }

  /** The niche's word lists, or the generic ones when it has none. */
  function Words(c: Catalog, niche: Option<string>): (w: WordLists)
    requires Complete(c)
    ensures |w.adjs| > 0 && |w.nouns| > 0
  {
    if HasWords(c, niche) then c.strict[niche.value] else c.generic
  }

  function ProceduralTags(c: Catalog, niche: Option<string>, adj: string): seq<string>
  {
    if HasWords(c, niche) then [niche.value, adj, "Productivity"] else ["General", "Web", "Startup"]
  }

  function ProceduralDescription(niche: Option<string>, adj: string, noun: string): string
  {
    "A " + Text.ToLower(adj) + " " + Text.ToLower(noun)
    + " designed to solve specific problems in the "
    + (if Given(niche) then niche.value else "market") + " space."
  }

  /** The shape of a procedurally built idea: an adjective and a noun from the
      niche's lists (or the generic ones) make the title, the tags and the
      description. */
  ghost predicate ProceduralShape(c: Catalog, r: Idea, niche: Option<string>)
    requires Complete(c)
  {
    var w := Words(c, niche);
    exists i, j :: 0 <= i < |w.adjs| && 0 <= j < |w.nouns|
      && r.title == w.adjs[i] + " " + w.nouns[j]
      && r.tags == ProceduralTags(c, niche, w.adjs[i])
      && r.description == ProceduralDescription(niche, w.adjs[i], w.nouns[j])
  }

  /** The test `createIdeaObject` classifies with. */
  predicate IsGame(niche: Option<string>, tags: seq<string>)
  {
    niche == Some("Gaming") || "Gaming" in tags || "RPG" in tags
  }

  /** `generateIdea`: either a copy of one curated entry, or an adjective-noun
      combination. */
  function GenerateIdea(c: Catalog, niche: Option<string>, forceProcedural: bool, d: Draw): (r: Idea)
    requires Complete(c)
    ensures TakesCurated(c, niche, forceProcedural, d) ==>
      Template(r.title, r.description, r.tags) in c.curated[niche.value]
    ensures !TakesCurated(c, niche, forceProcedural, d) ==> ProceduralShape(c, r, niche)
    ensures r.kind == "Game" <==> IsGame(niche, r.tags)
    ensures r.id == d.id && r.createdAt == d.now
  {
    if TakesCurated(c, niche, forceProcedural, d) then
      var pool := c.curated[niche.value];
      var t := pool[Pick(d.pick, |pool|)];
      CreateIdeaObject(c, t.title, t.description, t.tags, niche, d)
    else
      var w := Words(c, niche);
      var i, j := Pick(d.adj, |w.adjs|), Pick(d.noun, |w.nouns|);
      var adj, noun := w.adjs[i], w.nouns[j];
      var r := CreateIdeaObject(c, adj + " " + noun, ProceduralDescription(niche, adj, noun),
                                ProceduralTags(c, niche, adj), niche, d);
      assert r.title == w.adjs[i] + " " + w.nouns[j];
      r
  }

  /** `createIdeaObject`: classification as Game or App, the matching stack and
      step template, the difficulty, fresh identity and cleared flags. */
  function CreateIdeaObject(c: Catalog, title: string, description: string, tags: seq<string>,
                            niche: Option<string>, d: Draw): (r: Idea)
    requires Complete(c)
    ensures r.title == title && r.description == description && r.tags == tags
    ensures r.kind == (if IsGame(niche, tags) then "Game" else "App")
    ensures r.techStack == (if r.kind == "Game" then GameStack else WebStack)
    ensures |r.steps| == 6
    ensures forall k :: 0 <= k < 6 ==>
      var s := (if r.kind == "Game" then c.gameSteps else c.webSteps)[k];
      r.steps[k] == Step(d.stepIds[k], s.title, s.description, false)
    ensures r.difficulty == (if d.hard then "Hard" else "Medium")
    ensures r.id == d.id && r.createdAt == d.now && r.productSpec == None
    ensures !r.liked && !r.checked
  {
    var isGame := IsGame(niche, tags);
    var baseSteps := if isGame then c.gameSteps else c.webSteps;
    Idea(
      d.id,
      title,
      if isGame then "Game" else "App",
      description,
      tags,
      if d.hard then "Hard" else "Medium",
      if isGame then GameStack else WebStack,
      seq(6, k requires 0 <= k < 6 => Step(d.stepIds[k], baseSteps[k].title, baseSteps[k].description, false)),
      None,
      d.now,
      false,
      false)
  }

  /** A curated entry outside the gaming niche does not make a game. */
  lemma CuratedNotGame(c: Catalog, niche: Option<string>, t: Template)
    requires Sound(c)
    requires niche != Some("Gaming") && Given(niche) && niche.value in c.curated
    requires t in c.curated[niche.value]
    ensures !IsGame(niche, t.tags)
  {
    var pool := c.curated[niche.value];
    var i :| 0 <= i < |pool| && pool[i] == t;
    assert GameFree(pool[i].tags);
  }

  /** An adjective-noun idea outside the gaming niche does not make a game. */
  lemma ProceduralNotGame(c: Catalog, niche: Option<string>, adj: string)
    requires Sound(c)
    requires niche != Some("Gaming") && adj in Words(c, niche).adjs
    ensures !IsGame(niche, ProceduralTags(c, niche, adj))
  {
  }

  /** A generated idea is a Game exactly when it was generated for the gaming
      niche: every gaming idea is a game, and no other niche's tables tag an
      idea as one. */
  lemma GameIffGamingNiche(c: Catalog, niche: Option<string>, forceProcedural: bool, d: Draw)
    requires Sound(c)
    ensures GenerateIdea(c, niche, forceProcedural, d).kind == "Game" <==> niche == Some("Gaming")
  {
    var r := GenerateIdea(c, niche, forceProcedural, d);
    if niche != Some("Gaming") {
      if TakesCurated(c, niche, forceProcedural, d) {
        CuratedNotGame(c, niche, Template(r.title, r.description, r.tags));
      } else {
        var w := Words(c, niche);
        var i, j :| 0 <= i < |w.adjs| && 0 <= j < |w.nouns|
          && r.title == w.adjs[i] + " " + w.nouns[j]
          && r.tags == ProceduralTags(c, niche, w.adjs[i])
          && r.description == ProceduralDescription(niche, w.adjs[i], w.nouns[j]);
        ProceduralNotGame(c, niche, w.adjs[i]);
      }
    }
  }

  /** Every generated idea is well formed: a non-empty title and description,
      a type and a difficulty from their declared ranges (never Easy, Expert or
      Website), and six open steps. */
  lemma GeneratedWellFormed(c: Catalog, niche: Option<string>, forceProcedural: bool, d: Draw)
    requires Sound(c)
    ensures var r := GenerateIdea(c, niche, forceProcedural, d);
      r.title != "" && r.description != ""
      && IsIdeaType(r.kind) && r.kind != "Website"
      && IsDifficulty(r.difficulty) && (r.difficulty == "Medium" || r.difficulty == "Hard")
      && |r.steps| == 6 && (forall k :: 0 <= k < |r.steps| ==> !r.steps[k].completed)
      && !r.liked && !r.checked
  {
    var r := GenerateIdea(c, niche, forceProcedural, d);
    if TakesCurated(c, niche, forceProcedural, d) {
      var pool := c.curated[niche.value];
      var i :| 0 <= i < |pool| && pool[i] == Template(r.title, r.description, r.tags);
      assert FilledPool(pool);
    }
  }
}
