/** The static prompt repository (data.ts): the record constructor, the 36
    records of `promptsData` in source order, and the category list.

    The records are stored column by column, each argument of the
    `createPrompt` calls as a function of the record's position (0 to 35,
    in source order); `AllPrompts` applies the constructor position by
    position, which is what the literal array of `createPrompt` calls
    evaluates to. Each prompt body is represented by its opening sentence
    ("Act as ..."); the rest of its prose is not modelled. */
module Data {
  import opened Types
  import opened Text

  /** `createPrompt`: copies the identifying fields, stores `desc` as the
      description and the trimmed `content` as the code. */
  function CreatePrompt(
    id: string, category: Category, title: string, desc: string,
    content: string, tags: seq<string>): (p: Prompt)
    ensures p.id == id && p.category == category && p.title == title
    ensures p.description == desc && p.tags == tags
    ensures IsTrimmed(p.code) && Trim(p.code) == p.code
    ensures |p.code| <= |content|
    ensures content != [] && !IsWhitespace(content[0]) ==> p.code != [] && p.code[0] == content[0]
  {
    var code := Trim(content);
    TrimFixesTrimmed(code);
    assert content != [] && !IsWhitespace(content[0]) ==> code != [] && code[0] == content[0] by {
      if content != [] && !IsWhitespace(content[0]) {
        TrimNonEmpty(content);
      }
    }
    Prompt(id, category, title, desc, code, tags)
  }

  const PromptCount: nat := 36

  /** The `id` argument of the record at position `i`. */
  function Id(i: nat): (id: string)
    ensures i < PromptCount ==> |id| == 5 && id[2] == '-'
  {
    if i == 0 then "wd-01" else  // data.ts:22
    if i == 1 then "wd-02" else  // data.ts:39
    if i == 2 then "wd-03" else  // data.ts:64
    if i == 3 then "wp-01" else  // data.ts:82
    if i == 4 then "wp-02" else  // data.ts:101
    if i == 5 then "wp-03" else  // data.ts:119
    if i == 6 then "sh-01" else  // data.ts:137
    if i == 7 then "sh-02" else  // data.ts:155
    if i == 8 then "sh-03" else  // data.ts:172
    if i == 9 then "py-01" else  // data.ts:190
    if i == 10 then "py-02" else  // data.ts:207
    if i == 11 then "py-03" else  // data.ts:224
    if i == 12 then "js-01" else  // data.ts:242
    if i == 13 then "js-02" else  // data.ts:260
    if i == 14 then "js-03" else  // data.ts:278
    if i == 15 then "ml-01" else  // data.ts:295
    if i == 16 then "ml-02" else  // data.ts:312
    if i == 17 then "ml-03" else  // data.ts:328
    if i == 18 then "gd-01" else  // data.ts:346
    if i == 19 then "gd-02" else  // data.ts:363
    if i == 20 then "gd-03" else  // data.ts:380
    if i == 21 then "ds-01" else  // data.ts:399
    if i == 22 then "ds-02" else  // data.ts:416
    if i == 23 then "ds-03" else  // data.ts:435
    if i == 24 then "ma-01" else  // data.ts:453
    if i == 25 then "ma-02" else  // data.ts:469
    if i == 26 then "ma-03" else  // data.ts:485
    if i == 27 then "cs-01" else  // data.ts:503
    if i == 28 then "cs-02" else  // data.ts:522
    if i == 29 then "cs-03" else  // data.ts:538
    if i == 30 then "do-01" else  // data.ts:559
    if i == 31 then "do-02" else  // data.ts:578
    if i == 32 then "do-03" else  // data.ts:597
    if i == 33 then "ai-01" else  // data.ts:616
    if i == 34 then "ai-02" else  // data.ts:633
    if i == 35 then "ai-03" else  // data.ts:652
    ""
  }

  /** The `category` argument of the record at position `i`. */
  function CategoryOf(i: nat): (c: Category)
    ensures i < PromptCount ==> Ordinal(c) == i / 3
  {
    if i == 0 then WebDesign else
    if i == 1 then WebDesign else
    if i == 2 then WebDesign else
    if i == 3 then WebProgramming else
    if i == 4 then WebProgramming else
    if i == 5 then WebProgramming else
    if i == 6 then Shaders else
    if i == 7 then Shaders else
    if i == 8 then Shaders else
    if i == 9 then Python else
    if i == 10 then Python else
    if i == 11 then Python else
    if i == 12 then JavaScript else
    if i == 13 then JavaScript else
    if i == 14 then JavaScript else
    if i == 15 then MachineLearning else
    if i == 16 then MachineLearning else
    if i == 17 then MachineLearning else
    if i == 18 then GameDev else
    if i == 19 then GameDev else
    if i == 20 then GameDev else
    if i == 21 then DataScience else
    if i == 22 then DataScience else
    if i == 23 then DataScience else
    if i == 24 then MobileApps else
    if i == 25 then MobileApps else
    if i == 26 then MobileApps else
    if i == 27 then Cybersecurity else
    if i == 28 then Cybersecurity else
    if i == 29 then Cybersecurity else
    if i == 30 then DevOps else
    if i == 31 then DevOps else
    if i == 32 then DevOps else
    if i == 33 then AITools else
    if i == 34 then AITools else
    if i == 35 then AITools else
    WebDesign
  }

  /** The `title` argument of the record at position `i`. */
  function Title(i: nat): string {
    if i == 0 then "Modern Glassmorphism Landing Page" else
    if i == 1 then "Accessible Color Palette Generator (JSON)" else
    if i == 2 then "Bento Grid CSS Layout" else
    if i == 3 then "Robust Data Fetching Hook" else
    if i == 4 then "Next.js API Route Handler (Zod Validation)" else
    if i == 5 then "Redux Toolkit Slices Setup" else
    if i == 6 then "GLSL Cyberpunk Grid Effect" else
    if i == 7 then "Liquid Distortion Filter" else
    if i == 8 then "Raymarching Basic Sphere" else
    if i == 9 then "FastAPI Microservice Boilerplate" else
    if i == 10 then "Async Web Scraper (aiohttp)" else
    if i == 11 then "PyTest Fixture Setup" else
    if i == 12 then "Advanced Array Manipulation Helpers" else
    if i == 13 then "Custom Event Bus Implementation" else
    if i == 14 then "Promise.allSettled Polyfill" else
    if i == 15 then "PyTorch Training Loop Skeleton" else
    if i == 16 then "Explain Transformer Attention" else
    if i == 17 then "HuggingFace Inference Pipeline" else
    if i == 18 then "Unity FPS Controller (New Input System)" else
    if i == 19 then "Godot 4.x State Machine Pattern" else
    if i == 20 then "Unreal Blueprint Logic Description" else
    if i == 21 then "Automated EDA (Exploratory Data Analysis)" else
    if i == 22 then "SQL Complex Query Builder" else
    if i == 23 then "Scikit-Learn Pipeline" else
    if i == 24 then "React Native Performance Optimization" else
    if i == 25 then "SwiftUI MVVM Boilerplate" else
    if i == 26 then "Flutter Clean Architecture Widget" else
    if i == 27 then "Web App Penetration Testing Checklist" else
    if i == 28 then "Secure Password Hashing (Python)" else
    if i == 29 then "Nmap Scan Command Generator" else
    if i == 30 then "Docker Multi-Stage Build (Node.js)" else
    if i == 31 then "GitHub Actions CI/CD Pipeline" else
    if i == 32 then "Kubernetes Deployment Manifest" else
    if i == 33 then "System Instruction for Persona Adoption" else
    if i == 34 then "JSON Output Enforcer" else
    if i == 35 then "Chain-of-Thought Math Solver" else
    ""
  }

  /** The `desc` argument of the record at position `i`. */
  function Description(i: nat): string {
    if i == 0 then "Generates a high-conversion landing page structure with Tailwind CSS glassmorphism effects." else
    if i == 1 then "Creates a semantic, accessible color system for web apps in JSON format." else
    if i == 2 then "Generates a responsive Bento-style grid layout similar to Apple promotional pages." else
    if i == 3 then "A production-grade React hook for data fetching with caching, retry logic, and error handling." else
    if i == 4 then "Secure API route pattern with input validation and typed responses." else
    if i == 5 then "Boilerplate for setting up a modern Redux store with async thunks." else
    if i == 6 then "Generates a retro-futuristic moving grid floor shader for WebGL contexts." else
    if i == 7 then "A post-processing effect that adds fluid-like distortion to an image." else
    if i == 8 then "A simple raymarching implementation to render a 3D sphere without geometry." else
    if i == 9 then "Sets up a production-ready FastAPI service with dependency injection and Pydantic models." else
    if i == 10 then "Efficiently scrapes multiple URLs concurrently using Python's asyncio." else
    if i == 11 then "Advanced testing setup for database integration tests." else
    if i == 12 then "A suite of utility functions for complex object array transformations." else
    if i == 13 then "A lightweight pub/sub system for decoupled component communication." else
    if i == 14 then "Implementation of Promise.allSettled for older environments." else
    if i == 15 then "A reusable, robust boilerplate for training neural networks in PyTorch." else
    if i == 16 then "A conceptual breakdown of the Self-Attention mechanism for educational purposes." else
    if i == 17 then "Script to run sentiment analysis using a pre-trained model." else
    if i == 18 then "Modern C# script for a first-person character controller in Unity." else
    if i == 19 then "A flexible State Machine implementation for managing character states in Godot." else
    if i == 20 then "Text-based description of a Blueprint logic for a door opening mechanic." else
    if i == 21 then "Pandas script to generate a comprehensive summary of a dataset." else
    if i == 22 then "Constructs a high-performance SQL query for cohort analysis." else
    if i == 23 then "End-to-end Machine Learning pipeline with preprocessing and model training." else
    if i == 24 then "Checklist and code patterns to improve React Native list scrolling." else
    if i == 25 then "Clean architecture setup for an iOS screen using SwiftUI and Combine." else
    if i == 26 then "Structure for a scalable Flutter widget separating UI and logic." else
    if i == 27 then "A methodical checklist for auditing a web application's security." else
    if i == 28 then "Implementation of industry-standard password handling." else
    if i == 29 then "Explanation of specific Nmap commands for network reconnaissance." else
    if i == 30 then "Optimized Dockerfile for reducing image size of Node.js applications." else
    if i == 31 then "YAML configuration for automated testing and deployment." else
    if i == 32 then "Standard K8s deployment YAML with health checks." else
    if i == 33 then "A meta-prompt to force an LLM to stay strictly in character." else
    if i == 34 then "A prompt technique to ensure LLMs return parsable JSON only." else
    if i == 35 then "Prompt forcing the LLM to show its work step-by-step for complex logic." else
    ""
  }

  /** The role named in the opening sentence of the record's prompt body. */
  function Role(i: nat): string {
    if i == 0 then "a Senior UI/UX Designer and Frontend Developer." else
    if i == 1 then "an Accessibility Specialist." else
    if i == 2 then "a CSS Expert." else
    if i == 3 then "a Senior React Developer." else
    if i == 4 then "a Full Stack Engineer." else
    if i == 5 then "a React State Management Expert." else
    if i == 6 then "a Graphics Engineer." else
    if i == 7 then "a Technical Artist." else
    if i == 8 then "a Shader Programmer." else
    if i == 9 then "a Python Backend Lead." else
    if i == 10 then "a Data Engineer." else
    if i == 11 then "a QA Engineer." else
    if i == 12 then "a JavaScript Expert." else
    if i == 13 then "a Software Architect." else
    if i == 14 then "a JS Core Developer." else
    if i == 15 then "an AI Researcher." else
    if i == 16 then "a Computer Science Professor." else
    if i == 17 then "an ML Engineer." else
    if i == 18 then "a Unity Game Developer." else
    if i == 19 then "a Godot Engine Expert." else
    if i == 20 then "an Unreal Engine Developer." else
    if i == 21 then "a Senior Data Analyst." else
    if i == 22 then "a Database Administrator." else
    if i == 23 then "a Data Scientist." else
    if i == 24 then "a Mobile Architect." else
    if i == 25 then "an iOS Lead Developer." else
    if i == 26 then "a Flutter Developer." else
    if i == 27 then "a White Hat Hacker / Pentester." else
    if i == 28 then "a Security Engineer." else
    if i == 29 then "a NetSec Analyst." else
    if i == 30 then "a DevOps Engineer." else
    if i == 31 then "a CI/CD Expert." else
    if i == 32 then "a Cloud Engineer." else
    if i == 33 then "a Prompt Engineer." else
    if i == 34 then "a Data Architect." else
    if i == 35 then "a Math Tutor." else
    ""
  }

  /** The `content` argument of the record at position `i`: every prompt
      body opens with "Act as <role>"; only that sentence is kept. */
  function Content(i: nat): (content: string)
    ensures content != [] && !IsWhitespace(content[0])
  {
    "Act as " + Role(i)
  }

  /** The `tags` argument of the record at position `i`. */
  function Tags(i: nat): (tags: seq<string>)
    ensures i < PromptCount ==> |tags| == 3
  {
    if i == 0 then ["Tailwind", "UI/UX", "React"] else
    if i == 1 then ["JSON", "A11y", "Colors"] else
    if i == 2 then ["CSS Grid", "Layout", "Bento"] else
    if i == 3 then ["React", "TypeScript", "Hooks"] else
    if i == 4 then ["Next.js", "Zod", "API"] else
    if i == 5 then ["Redux", "State", "React"] else
    if i == 6 then ["GLSL", "WebGL", "Visuals"] else
    if i == 7 then ["GLSL", "Post-Processing", "Effects"] else
    if i == 8 then ["GLSL", "Raymarching", "3D"] else
    if i == 9 then ["Python", "FastAPI", "Backend"] else
    if i == 10 then ["Python", "Scraping", "Async"] else
    if i == 11 then ["Python", "Testing", "PyTest"] else
    if i == 12 then ["ES6", "Utils", "Algorithms"] else
    if i == 13 then ["Design Patterns", "Architecture", "VanillaJS"] else
    if i == 14 then ["Polyfills", "Async", "Core JS"] else
    if i == 15 then ["PyTorch", "AI", "Training"] else
    if i == 16 then ["NLP", "Education", "Theory"] else
    if i == 17 then ["HuggingFace", "NLP", "Inference"] else
    if i == 18 then ["Unity", "C#", "Gameplay"] else
    if i == 19 then ["Godot", "GDScript", "Patterns"] else
    if i == 20 then ["Unreal", "Blueprints", "Logic"] else
    if i == 21 then ["Pandas", "Analysis", "Python"] else
    if i == 22 then ["SQL", "Analytics", "Database"] else
    if i == 23 then ["Sklearn", "ML", "Python"] else
    if i == 24 then ["React Native", "Performance", "Mobile"] else
    if i == 25 then ["Swift", "iOS", "MVVM"] else
    if i == 26 then ["Flutter", "Dart", "Architecture"] else
    if i == 27 then ["Security", "Audit", "Pentesting"] else
    if i == 28 then ["Python", "Crypto", "Security"] else
    if i == 29 then ["Networking", "Nmap", "Security"] else
    if i == 30 then ["Docker", "Container", "Optimization"] else
    if i == 31 then ["GitHub Actions", "CI/CD", "Automation"] else
    if i == 32 then ["Kubernetes", "K8s", "Infrastructure"] else
    if i == 33 then ["Prompt Engineering", "Persona", "LLM"] else
    if i == 34 then ["JSON", "Data Extraction", "Automation"] else
    if i == 35 then ["CoT", "Reasoning", "Math"] else
    []
  }

  /** `ALL_PROMPTS`: `createPrompt` applied to each record's arguments, in
      source order. */
  function AllPrompts(): (ps: seq<Prompt>)
    ensures |ps| == PromptCount
  {
    seq(PromptCount, i requires 0 <= i < PromptCount =>
      CreatePrompt(Id(i), CategoryOf(i), Title(i), Description(i), Content(i), Tags(i)))
  }

  /** `CATEGORIES_LIST`: the enum's string values in declaration order. */
  function CategoriesList(): (names: seq<string>)
    ensures |names| == CategoryCount
    ensures forall c :: names[Ordinal(c)] == DisplayName(c)
  {
    seq(CategoryCount, i requires 0 <= i < CategoryCount => DisplayName(AllCategories()[i]))
  }

  /** The record at position `i` is built from the `i`-th arguments. */
  lemma AllPromptsAt(i: nat)
    requires i < PromptCount
    ensures AllPrompts()[i].id == Id(i)
    ensures AllPrompts()[i].category == CategoryOf(i)
    ensures AllPrompts()[i].title == Title(i) && AllPrompts()[i].description == Description(i)
  {
  }

  /** The `id` literals of the 36 records are pairwise different. */
  lemma IdColumnDistinct()
    ensures forall i, j :: 0 <= i < j < PromptCount ==> Id(i) != Id(j)
  {
    assert forall i, j :: 0 <= i < j < PromptCount ==> Id(i) != Id(j);
  }

  /** No two records share an identifier. */
  lemma IdsDistinct()
    ensures forall i, j :: 0 <= i < j < |AllPrompts()| ==> AllPrompts()[i].id != AllPrompts()[j].id
  {
    IdColumnDistinct();
    forall i | 0 <= i < PromptCount {
      AllPromptsAt(i);
    }
  }

  /** The records come in blocks of three, one block per category, the
      blocks in the enum's declaration order. */
  lemma CategoryBlocks()
    ensures forall i :: 0 <= i < |AllPrompts()| ==> AllPrompts()[i].category == AllCategories()[i / 3]
  {
    assert forall i :: 0 <= i < PromptCount ==> Ordinal(CategoryOf(i)) == i / 3;
    forall i | 0 <= i < PromptCount {
      AllPromptsAt(i);
    }
  }

  /** Each category has exactly three records: those at positions
      3 * Ordinal(c), 3 * Ordinal(c) + 1 and 3 * Ordinal(c) + 2. */
  lemma ThreePerCategory(c: Category)
    ensures forall i :: 0 <= i < |AllPrompts()| ==>
      (AllPrompts()[i].category == c <==> 3 * Ordinal(c) <= i < 3 * Ordinal(c) + 3)
  {
    CategoryBlocks();
    DeclarationOrderIsBijective();
    forall i | 0 <= i < |AllPrompts()|
      ensures AllPrompts()[i].category == c <==> 3 * Ordinal(c) <= i < 3 * Ordinal(c) + 3
    {
      assert Ordinal(AllPrompts()[i].category) == i / 3;
    }
  }

  /** Every record's code is non-empty and already trimmed. */
  lemma CodesTrimmedNonEmpty()
    ensures forall i :: 0 <= i < |AllPrompts()| ==>
      AllPrompts()[i].code != [] && IsTrimmed(AllPrompts()[i].code)
      && Trim(AllPrompts()[i].code) == AllPrompts()[i].code
  {
    forall i | 0 <= i < PromptCount
      ensures AllPrompts()[i].code != []
    {
      assert Content(i)[0] == 'A';
    }
  }

  /** The category list names every category exactly once. */
  lemma CategoriesListDistinct()
    ensures forall i, j :: 0 <= i < j < |CategoriesList()| ==> CategoriesList()[i] != CategoriesList()[j]
  {
    forall i, j | 0 <= i < j < CategoryCount
      ensures CategoriesList()[i] != CategoriesList()[j]
    {
      DeclarationOrderIsBijective();
      DisplayNameInjective(AllCategories()[i], AllCategories()[j]);
    }
  }
}
