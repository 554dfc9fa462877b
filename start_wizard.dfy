/** The guided start wizard (app/start/page.tsx): the answers a user gives in five steps and
    the deterministic mapping from those answers to a complete site configuration. */
module StartWizard {
  import opened Wrappers
  import opened Text

  // ---------------------------------------------------------------------------------------
  // Data model
  // ---------------------------------------------------------------------------------------

  datatype SiteType = Launch | Portfolio | Saas | Info
  datatype LayoutPreset = Minimal | Product | Portfolio | Dark
  datatype Tone = Friendly | Professional | Bold | Playful
  datatype Vibe = Minimal | Bold | Dark

  /** The wizard's answers. `layoutPreset` is `None` when no preset was chosen (the source
      treats a falsy preset as "not chosen"). */
  datatype WizardState = WizardState(
    siteType: SiteType,
    layoutPreset: Option<LayoutPreset>,
    brandName: string,
    tagline: string,
    description: string,
    goal: string,
    audience: string,
    tone: Tone,
    vibe: Vibe)

  /** Colour and font record of a site, with the six keys the site editor edits; every field
      is stored verbatim. */
  datatype Theme = Theme(
    primaryColor: string,
    secondaryColor: string,
    accentColor: string,
    background: string,
    textColor: string,
    fontFamily: string)

  datatype Feature = Feature(title: string, description: string, icon: string)
  /** One figure of the stats section; `caption` is the source's `label` (a Dafny keyword). */
  datatype Stat = Stat(caption: string, value: string)
  datatype Hero = Hero(title: string, subtitle: string, primaryCtaLabel: string, secondaryCtaLabel: string)
  datatype Story = Story(heading: string, paragraphs: seq<string>)
  datatype Sections = Sections(hero: Hero, features: seq<Feature>, story: Story, stats: seq<Stat>)
  datatype Site = Site(id: string, name: string, layoutPreset: LayoutPreset, theme: Theme, sections: Sections)

  /** Every textual leaf of the generated content is non-empty and every section list has
      at least one element (the theme comes from outside and is not covered). */
  predicate ContentComplete(site: Site) {
    var s := site.sections;
    site.name != ""
    && s.hero.title != "" && s.hero.subtitle != ""
    && s.hero.primaryCtaLabel != "" && s.hero.secondaryCtaLabel != ""
    && |s.features| > 0
    && (forall f <- s.features :: f.title != "" && f.description != "" && f.icon != "")
    && s.story.heading != ""
    && |s.story.paragraphs| > 0
    && (forall p <- s.story.paragraphs :: p != "")
    && |s.stats| > 0
    && (forall st <- s.stats :: st.caption != "" && st.value != "")
  }

  /** JavaScript's `a || b` on strings: the empty string is falsy. The result is one of the
      two, and it is empty only when both are, so a non-empty fallback always yields text. */
  function OrElse(s: string, fallback: string): (r: string)
    ensures s != "" ==> r == s
    ensures s == "" ==> r == fallback
    ensures r == "" <==> s == "" && fallback == ""
  {
    if s != "" then s else fallback
  }

  /** `array.slice(0, n)`. */
  function Take<T>(s: seq<T>, n: nat): (r: seq<T>)
    ensures |r| == if |s| <= n then |s| else n
    ensures r == s[..|r|]
  {
    if |s| <= n then s else s[..n]
  }

  // ---------------------------------------------------------------------------------------
  // Lookup tables and the step counter
  // ---------------------------------------------------------------------------------------

  /** `siteTypePresets`: the layout preset used for each site type when none was chosen.
      Launch pages get the product layout, portfolios the portfolio layout, the other two the
      minimal one; the dark layout is never picked by site type. */
  function SiteTypePreset(t: SiteType): (r: LayoutPreset)
    ensures r == LayoutPreset.Product <==> t == SiteType.Launch
    ensures r == LayoutPreset.Portfolio <==> t == SiteType.Portfolio
    ensures r == LayoutPreset.Minimal <==> t == SiteType.Saas || t == SiteType.Info
    ensures r != LayoutPreset.Dark
  {
    match t
    case Launch => LayoutPreset.Product
    case Portfolio => LayoutPreset.Portfolio
    case Saas => LayoutPreset.Minimal
    case Info => LayoutPreset.Minimal
  }

  const StepLabels: seq<string> := [
    "What are you building?",
    "Brand & positioning",
    "Goal & audience",
    "Design & tone",
    "Review & generate"
  ]

  const Hints: seq<string> := [
    "Not sure? Choose 'Product launch page' if you're announcing something new.",
    "Use a short, memorable tagline - the hero subtitle should explain the value in one sentence.",
    "Think about the single most important outcome: leads, bookings, or showcasing your work.",
    "Pick a tone and vibe that match your audience. Dark + bold works well for product launches.",
    "Review your inputs, then generate. You can fine-tune everything in the editor afterward."
  ]

  /** The hint shown beside a wizard step: `hints[step] || hints[0]`. An index outside the
      table reads `undefined`, which is falsy, so the first hint is shown. */
  function AssistantHint(step: int): (r: string)
    ensures 0 <= step < |Hints| ==> r == Hints[step]
    ensures !(0 <= step < |Hints|) ==> r == Hints[0]
    ensures r != ""
  {
    var h := if 0 <= step < |Hints| then Hints[step] else "";
    if h != "" then h else Hints[0]
  }

  /** `Math.min(s + 1, steps.length - 1)`: one step forward, never past the last step. */
  function NextStep(s: int): (r: int)
    ensures r <= |StepLabels| - 1
    ensures r == s + 1 || r == |StepLabels| - 1
    ensures r <= s + 1
  {
    if s + 1 < |StepLabels| - 1 then s + 1 else |StepLabels| - 1
  }

  /** `Math.max(s - 1, 0)`: one step back, never before the first step. */
  function PrevStep(s: int): (r: int)
    ensures r >= 0
    ensures r == s - 1 || r == 0
    ensures r >= s - 1
  {
    if s - 1 > 0 then s - 1 else 0
  }

  datatype Move = Next | Prev

  /** The step reached after pressing the navigation buttons in the given order. */
  function Run(s: int, moves: seq<Move>): int
    decreases |moves|
  {
    if moves == [] then s
    else Run(if moves[0] == Next then NextStep(s) else PrevStep(s), moves[1..])
  }

  /** Whatever buttons are pressed, a step inside the wizard stays inside it. */
  lemma {:induction false} RunStaysInRange(s: int, moves: seq<Move>)
    requires 0 <= s < |StepLabels|
    ensures 0 <= Run(s, moves) < |StepLabels|
    decreases |moves|
  {
    if moves != [] {
      RunStaysInRange(if moves[0] == Next then NextStep(s) else PrevStep(s), moves[1..]);
    }
  }

  /** The step state of the wizard page. */
  class StepCounter {
    var step: int

    ghost predicate Valid()
      reads this
    {
      0 <= step < |StepLabels|
    }

    constructor ()
      ensures Valid() && step == 0
    {
      step := 0;
    }

    method Next()
      requires Valid()
      modifies this
      ensures Valid()
      ensures step == NextStep(old(step))
      ensures old(step) < |StepLabels| - 1 ==> step == old(step) + 1
      ensures old(step) == |StepLabels| - 1 ==> step == old(step)
    {
      step := NextStep(step);
    }

    method Prev()
      requires Valid()
      modifies this
      ensures Valid()
      ensures step == PrevStep(old(step))
      ensures old(step) > 0 ==> step == old(step) - 1
      ensures old(step) == 0 ==> step == 0
    {
      step := PrevStep(step);
    }

    /** The hint the page shows: always the current step's own hint, never the fallback. */
    method CurrentHint() returns (h: string)
      requires Valid()
      ensures h == Hints[step]
    {
      h := AssistantHint(step);
    }
  }

  // ---------------------------------------------------------------------------------------
  // The form
  // ---------------------------------------------------------------------------------------

  /** One of the site-type buttons of the first step: the type it picks and the layout
      preset it sets together with it. */
  datatype SiteTypeOption = SiteTypeOption(key: SiteType, title: string, preset: LayoutPreset)

  const SiteTypeOptions: seq<SiteTypeOption> := [
    SiteTypeOption(SiteType.Launch, "Product launch page", LayoutPreset.Product),
    SiteTypeOption(SiteType.Saas, "SaaS marketing page", LayoutPreset.Minimal),
    SiteTypeOption(SiteType.Portfolio, "Personal portfolio", LayoutPreset.Portfolio),
    SiteTypeOption(SiteType.Info, "Simple info site", LayoutPreset.Minimal)
  ]

  /** The goals offered by the goal step's select box. */
  const GoalOptions: seq<string> := ["Collect leads", "Get bookings", "Show portfolio", "Explain a product"]

  /** The answers the page starts with. */
  const InitialWizardState := WizardState(
    SiteType.Launch, Some(LayoutPreset.Product), "StudioShape Site", "", "", "Collect leads",
    "Early customers", Tone.Professional, Vibe.Dark)

  /** One edit made on the form; each stands for one of the page's `setState` updaters. */
  datatype Answer =
    | ChooseSiteType(option: SiteTypeOption)
    | SetBrandName(brandText: string)
    | SetTagline(taglineText: string)
    | SetDescription(descriptionText: string)
    | SetGoal(goalText: string)
    | SetAudience(audienceText: string)
    | SetTone(newTone: Tone)
    | SetVibe(newVibe: Vibe)

  /** An edit the page's controls can produce: a site-type button from the table, or a goal
      from the select box; the text inputs accept anything. */
  predicate Offered(a: Answer) {
    (a.ChooseSiteType? ==> a.option in SiteTypeOptions)
    && (a.SetGoal? ==> a.goalText in GoalOptions)
  }

  /** The site-type button sets the type and its preset at once; every other control sets
      exactly its own field. */
  function ApplyAnswer(state: WizardState, a: Answer): (r: WizardState)
    ensures a.ChooseSiteType? ==> r.siteType == a.option.key && r.layoutPreset == Some(a.option.preset)
    ensures !a.ChooseSiteType? ==> r.siteType == state.siteType && r.layoutPreset == state.layoutPreset
    ensures r.goal == if a.SetGoal? then a.goalText else state.goal
    ensures r.brandName == if a.SetBrandName? then a.brandText else state.brandName
    ensures r.tagline == if a.SetTagline? then a.taglineText else state.tagline
    ensures r.description == if a.SetDescription? then a.descriptionText else state.description
    ensures r.audience == if a.SetAudience? then a.audienceText else state.audience
    ensures r.tone == if a.SetTone? then a.newTone else state.tone
    ensures r.vibe == if a.SetVibe? then a.newVibe else state.vibe
  {
    match a
    case ChooseSiteType(o) => state.(siteType := o.key, layoutPreset := Some(o.preset))
    case SetBrandName(v) => state.(brandName := v)
    case SetTagline(v) => state.(tagline := v)
    case SetDescription(v) => state.(description := v)
    case SetGoal(v) => state.(goal := v)
    case SetAudience(v) => state.(audience := v)
    case SetTone(v) => state.(tone := v)
    case SetVibe(v) => state.(vibe := v)
  }

  /** The answers after a series of edits, applied in order. */
  function ApplyAnswers(state: WizardState, answers: seq<Answer>): WizardState
    decreases |answers|
  {
    if answers == [] then state
    else ApplyAnswers(ApplyAnswer(state, answers[0]), answers[1..])
  }

  /** The preset chosen on the page is the one `siteTypePresets` gives the chosen type, and
      the goal is one the select box offers. */
  predicate PageInvariant(state: WizardState) {
    state.layoutPreset == Some(SiteTypePreset(state.siteType)) && state.goal in GoalOptions
  }

  /** Some site-type button picks `t`. */
  predicate HasButton(t: SiteType) {
    exists o <- SiteTypeOptions :: o.key == t
  }

  /** Each site-type button sets the same preset as `siteTypePresets`, and every site type has
      a button. */
  lemma SiteTypeButtonsMatchPresets()
    ensures forall o <- SiteTypeOptions :: o.preset == SiteTypePreset(o.key)
    ensures forall t: SiteType :: HasButton(t)
  {
    forall t: SiteType
      ensures HasButton(t)
    {
      match t
      case Launch => assert SiteTypeOptions[0].key == t;
      case Saas => assert SiteTypeOptions[1].key == t;
      case Portfolio => assert SiteTypeOptions[2].key == t;
      case Info => assert SiteTypeOptions[3].key == t;
    }
  }

  /** Every state the page's controls can reach from the initial answers keeps the preset in
      step with the site type and the goal among the offered ones. */
  lemma {:induction false} PageStatesKeepInvariant(state: WizardState, answers: seq<Answer>)
    requires PageInvariant(state)
    requires forall a <- answers :: Offered(a)
    ensures PageInvariant(ApplyAnswers(state, answers))
    decreases |answers|
  {
    if answers != [] {
      var next := ApplyAnswer(state, answers[0]);
      assert answers[0] in answers;
      if answers[0].ChooseSiteType? {
        SiteTypeButtonsMatchPresets();
      }
      assert PageInvariant(next);
      assert forall a <- answers[1..] :: a in answers;
      PageStatesKeepInvariant(next, answers[1..]);
    }
  }

  /** The initial answers satisfy the page invariant. */
  lemma InitialStateKeepsInvariant()
    ensures PageInvariant(InitialWizardState)
  {
    assert InitialWizardState.goal == GoalOptions[0];
  }

  // ---------------------------------------------------------------------------------------
  // Theme
  // ---------------------------------------------------------------------------------------

  /** The palette for the chosen vibe, laid over the default theme `base` (which the source
      obtains from `defaultStudioShapeTheme()`). */
  function DeriveTheme(state: WizardState, base: Theme): (r: Theme)
    ensures state.vibe == Vibe.Dark ==>
      r.background == "#050914" && r.primaryColor == "#8b5cf6"
      && r.accentColor == "#22d3ee" && r.textColor == "#e2e8f0"
    ensures state.vibe == Vibe.Bold ==>
      r.primaryColor == "#f97316" && r.accentColor == "#22d3ee"
      && r.background == "#0b1224" && r.textColor == "#e2e8f0"
    ensures state.vibe == Vibe.Minimal ==> r == base
    ensures r.secondaryColor == base.secondaryColor && r.fontFamily == base.fontFamily
  {
    match state.vibe
    case Dark =>
      base.(background := "#050914", primaryColor := "#8b5cf6", accentColor := "#22d3ee", textColor := "#e2e8f0")
    case Bold =>
      base.(primaryColor := "#f97316", accentColor := "#22d3ee", background := "#0b1224", textColor := "#e2e8f0")
    case Minimal =>
      base
  }

  // ---------------------------------------------------------------------------------------
  // Features
  // ---------------------------------------------------------------------------------------

  const LeadFeature := Feature("Lead capture ready", "CTA-first layout to collect responses quickly.", "chart")
  const PortfolioFeature := Feature("Show your work", "Highlight wins and projects with a clear story.", "layout")
  const BookingFeature := Feature("Book more calls", "CTA and stats tuned for trust and quick scheduling.", "check")

  predicate IsGoalFeature(f: Feature) {
    f == LeadFeature || f == PortfolioFeature || f == BookingFeature
  }

  const ContentFirstPrefix := "Focus on messaging for "
  const ContentFirstSuffix := "; StudioShape handles structure."

  /** The three features every generated site starts with. */
  function BaselineFeatures(audience: string): seq<Feature> {
    [
      Feature("Launch-ready layout", "Clean, responsive blocks tuned for fast publishing.", "rocket"),
      Feature("On-brand design", "Theme guardrails keep typography and colors consistent.", "shield"),
      Feature("Content-first", ContentFirstPrefix + audience + ContentFirstSuffix, "sparkles")
    ]
  }

  /** The feature pushed for the goal: first match of "lead", "portfolio", "booking" in the
      lower-cased goal, and none when no keyword matches. */
  function GoalFeature(goal: string): (r: Option<Feature>)
    ensures r == Some(LeadFeature) <==> Mentions(goal, "lead")
    ensures r == Some(PortfolioFeature) <==> !Mentions(goal, "lead") && Mentions(goal, "portfolio")
    ensures r == Some(BookingFeature) <==>
      !Mentions(goal, "lead") && !Mentions(goal, "portfolio") && Mentions(goal, "booking")
    ensures r == None <==>
      !Mentions(goal, "lead") && !Mentions(goal, "portfolio") && !Mentions(goal, "booking")
  {
    var g := ToLower(goal);
    if Includes(g, "lead") then Some(LeadFeature)
    else if Includes(g, "portfolio") then Some(PortfolioFeature)
    else if Includes(g, "booking") then Some(BookingFeature)
    else None
  }

  /** The feature list: the baseline, plus the goal feature when there is one, cut to four. */
  function BuildFeatures(state: WizardState): (r: seq<Feature>)
    ensures 3 <= |r| <= 4
    ensures r[..3] == BaselineFeatures(OrElse(state.audience, "your audience"))
    ensures |r| == 4 <==>
      Mentions(state.goal, "lead") || Mentions(state.goal, "portfolio") || Mentions(state.goal, "booking")
    ensures forall i :: 0 <= i < |r| && IsGoalFeature(r[i]) ==> i == 3
    ensures |r| == 4 ==> GoalFeature(state.goal) == Some(r[3])
  {
    var base := BaselineFeatures(OrElse(state.audience, "your audience"));
    var pushed := match GoalFeature(state.goal)
      case Some(f) => base + [f]
      case None => base;
    Take(pushed, 4)
  }

  /** The third feature speaks to the audience, or to "your audience" when none was given. */
  lemma FeaturesNameAudience(state: WizardState)
    ensures Includes(BuildFeatures(state)[2].description, OrElse(state.audience, "your audience"))
  {
    var r := BuildFeatures(state);
    var a := OrElse(state.audience, "your audience");
    assert r[2] == r[..3][2] == BaselineFeatures(a)[2];
    IncludesInfix(ContentFirstPrefix, a, ContentFirstSuffix);
  }

  /** Goal matching is by priority: a goal that mentions "lead" gets the lead feature whatever
      else it mentions; "portfolio" wins over "booking". */
  lemma FeaturePriority(state: WizardState)
    ensures Mentions(state.goal, "lead") ==> BuildFeatures(state)[3] == LeadFeature
    ensures !Mentions(state.goal, "lead") && Mentions(state.goal, "portfolio") ==>
      BuildFeatures(state)[3] == PortfolioFeature
    ensures (!Mentions(state.goal, "lead") && !Mentions(state.goal, "portfolio")
             && Mentions(state.goal, "booking")) ==>
      BuildFeatures(state)[3] == BookingFeature
  {
  }

  // ---------------------------------------------------------------------------------------
  // Calls to action
  // ---------------------------------------------------------------------------------------

  function PrimaryCta(state: WizardState): (r: string)
    ensures r == "Get started" <==> Mentions(state.goal, "lead") || Mentions(state.goal, "booking")
    ensures r == "View work" <==>
      !Mentions(state.goal, "lead") && !Mentions(state.goal, "booking") && state.siteType == SiteType.Portfolio
    ensures r == "Learn more" <==>
      !Mentions(state.goal, "lead") && !Mentions(state.goal, "booking") && state.siteType != SiteType.Portfolio
  {
    if Includes(ToLower(state.goal), "lead") || Includes(ToLower(state.goal), "booking") then "Get started"
    else if state.siteType == SiteType.Portfolio then "View work"
    else "Learn more"
  }

  function SecondaryCta(state: WizardState): (r: string)
    ensures r == "Contact" <==> state.siteType == SiteType.Portfolio || Mentions(state.goal, "lead")
    ensures r == "See preview" <==> state.siteType != SiteType.Portfolio && !Mentions(state.goal, "lead")
  {
    if state.siteType == SiteType.Portfolio then "Contact"
    else if Includes(ToLower(state.goal), "lead") then "Contact"
    else "See preview"
  }

  /** The labels and the feature list read the same goal: "Get started" always comes with a
      goal feature, and a non-portfolio "Contact" always with the lead feature. */
  lemma CtasAgreeWithFeatures(state: WizardState)
    ensures PrimaryCta(state) == "Get started" ==> |BuildFeatures(state)| == 4
    ensures SecondaryCta(state) == "Contact" && state.siteType != SiteType.Portfolio ==>
      BuildFeatures(state)[3] == LeadFeature
  {
  }

  // ---------------------------------------------------------------------------------------
  // The configuration
  // ---------------------------------------------------------------------------------------

  /** The fixed stats: three items, each with a caption and a value. */
  function BuildStats(): (r: seq<Stat>)
    ensures |r| == 3
    ensures forall st <- r :: st.caption != "" && st.value != ""
  {
    [Stat("Sections ready", "24+"), Stat("Time to publish", "< 2 min"), Stat("Performance", "96+ score")]
  }

  /** "Why <brand>" when there is a tagline, "<brand> story" otherwise, with "this brand" and
      "Your" standing in for an empty brand name. */
  function StoryHeading(state: WizardState): (r: string)
    ensures state.tagline != "" && state.brandName != "" ==> r == "Why " + state.brandName
    ensures state.tagline != "" && state.brandName == "" ==> r == "Why this brand"
    ensures state.tagline == "" && state.brandName != "" ==> r == state.brandName + " story"
    ensures state.tagline == "" && state.brandName == "" ==> r == "Your story"
    ensures r != ""
  {
    if state.tagline != "" then "Why " + OrElse(state.brandName, "this brand")
    else OrElse(state.brandName, "Your") + " story"
  }

  const GoalPrefix := "Goal: "
  const AudiencePrefix := ". Audience: "
  const OutcomeSuffix := ". StudioShape manages code, layout, and scalability so you can focus on outcomes."

  /** The description (or a literal when it is empty), then a sentence naming the goal and the
      audience. */
  function StoryParagraphs(state: WizardState): (r: seq<string>)
    ensures |r| == 2 && r[0] != "" && r[1] != ""
    ensures state.description != "" ==> r[0] == state.description
    ensures state.description == "" ==>
      r[0] == "Tell your audience exactly what matters - StudioShape keeps the structure and theme consistent."
  {
    [
      OrElse(state.description,
        "Tell your audience exactly what matters - StudioShape keeps the structure and theme consistent."),
      GoalPrefix + OrElse(state.goal, "Share your message") + AudiencePrefix
        + OrElse(state.audience, "your visitors") + OutcomeSuffix
    ]
  }

  /** `buildConfigFromState(siteId, state)`, with the default theme passed in. */
  function BuildConfigFromState(siteId: string, state: WizardState, defaultTheme: Theme): (r: Site)
    ensures r.id == siteId
    ensures r.layoutPreset == match state.layoutPreset
      case Some(p) => p
      case None => SiteTypePreset(state.siteType)
    ensures r.theme == DeriveTheme(state, defaultTheme)
    ensures state.brandName != "" ==> r.name == state.brandName && r.sections.hero.title == state.brandName
    ensures state.brandName == "" ==>
      r.name == "StudioShape Site" && r.sections.hero.title == "Shape your next website in minutes."
    ensures state.tagline != "" ==> r.sections.hero.subtitle == state.tagline
    ensures state.tagline == "" && state.description != "" ==> r.sections.hero.subtitle == state.description
    ensures state.tagline == "" && state.description == "" ==>
      r.sections.hero.subtitle == "Launch a clean, responsive page without touching code."
    ensures r.sections.hero.primaryCtaLabel == PrimaryCta(state)
    ensures r.sections.hero.secondaryCtaLabel == SecondaryCta(state)
    ensures r.sections.features == BuildFeatures(state)
    ensures r.sections.story == Story(StoryHeading(state), StoryParagraphs(state))
    ensures r.sections.stats == BuildStats()
    ensures |r.sections.story.paragraphs| == 2 && |r.sections.stats| == 3
    ensures ContentComplete(r)
  {
    Site(
      siteId,
      OrElse(state.brandName, "StudioShape Site"),
      match state.layoutPreset
        case Some(p) => p
        case None => SiteTypePreset(state.siteType),
      DeriveTheme(state, defaultTheme),
      Sections(
        Hero(
          OrElse(state.brandName, "Shape your next website in minutes."),
          OrElse(state.tagline, OrElse(state.description, "Launch a clean, responsive page without touching code.")),
          PrimaryCta(state),
          SecondaryCta(state)),
        BuildFeatures(state),
        Story(StoryHeading(state), StoryParagraphs(state)),
        BuildStats()))
  }

  /** On the page's own path the `siteTypePresets` fallback of the configuration never fires:
      the preset is always already set, and it is the site type's own preset. */
  lemma PageConfigUsesSiteTypePreset(siteId: string, answers: seq<Answer>, defaultTheme: Theme)
    requires forall a <- answers :: Offered(a)
    ensures ApplyAnswers(InitialWizardState, answers).layoutPreset.Some?
    ensures BuildConfigFromState(siteId, ApplyAnswers(InitialWizardState, answers), defaultTheme).layoutPreset
         == SiteTypePreset(ApplyAnswers(InitialWizardState, answers).siteType)
  {
    InitialStateKeepsInvariant();
    PageStatesKeepInvariant(InitialWizardState, answers);
  }

  /** The second story paragraph quotes the goal and the audience (or their fallbacks). */
  lemma StoryQuotesGoalAndAudience(state: WizardState)
    ensures Includes(StoryParagraphs(state)[1], OrElse(state.goal, "Share your message"))
    ensures Includes(StoryParagraphs(state)[1], OrElse(state.audience, "your visitors"))
  {
    var g := OrElse(state.goal, "Share your message");
    var a := OrElse(state.audience, "your visitors");
    var p := StoryParagraphs(state)[1];
    assert p == GoalPrefix + g + (AudiencePrefix + a + OutcomeSuffix);
    IncludesInfix(GoalPrefix, g, AudiencePrefix + a + OutcomeSuffix);
    assert p == (GoalPrefix + g + AudiencePrefix) + a + OutcomeSuffix;
    IncludesInfix(GoalPrefix + g + AudiencePrefix, a, OutcomeSuffix);
  }

  /** Only the lower-cased goal steers the mapping: lower-casing the goal first changes
      neither the features nor the calls to action. */
  lemma GoalMatchIgnoresCase(state: WizardState)
    ensures BuildFeatures(state.(goal := ToLower(state.goal))) == BuildFeatures(state)
    ensures PrimaryCta(state.(goal := ToLower(state.goal))) == PrimaryCta(state)
    ensures SecondaryCta(state.(goal := ToLower(state.goal))) == SecondaryCta(state)
  {
    ToLowerIdempotent(state.goal);
  }

  /** The tone answer is collected but does not influence the generated configuration. */
  lemma ToneIsIgnored(siteId: string, state: WizardState, defaultTheme: Theme, t: Tone)
    ensures BuildConfigFromState(siteId, state.(tone := t), defaultTheme)
         == BuildConfigFromState(siteId, state, defaultTheme)
  {
  }

  /** Neither call-to-action label reads the tone or the vibe; of the two, only the vibe
      reaches the configuration, through the theme. */
  lemma CtasIgnoreToneAndVibe(state: WizardState, t: Tone, v: Vibe)
    ensures PrimaryCta(state.(tone := t, vibe := v)) == PrimaryCta(state)
    ensures SecondaryCta(state.(tone := t, vibe := v)) == SecondaryCta(state)
  {
  }
}
