/** The four goals the wizard's select box offers, worked through the keyword rules: which of
    "lead", "booking" and "portfolio" each one mentions once lower-cased, and the labels and
    goal feature that follow. */
module GoalChoices {
  import opened Wrappers
  import opened Text
  import opened StartWizard

  // ---------------------------------------------------------------------------------------
  // Lower-casing the offered goals
  // ---------------------------------------------------------------------------------------
  // The literal goes in through a parameter: stating `ToLower("Collect leads") == ...` directly
  // exhausts the solver's resource limit.

  lemma LowerCollectLeads(goal: string)
    requires goal == "Collect leads"
    ensures ToLower(goal) == "collect leads"
  {
  }

  lemma LowerGetBookings(goal: string)
    requires goal == "Get bookings"
    ensures ToLower(goal) == "get bookings"
  {
  }

  lemma LowerShowPortfolio(goal: string)
    requires goal == "Show portfolio"
    ensures ToLower(goal) == "show portfolio"
  {
  }

  lemma LowerExplainProduct(goal: string)
    requires goal == "Explain a product"
    ensures ToLower(goal) == "explain a product"
  {
  }

  // ---------------------------------------------------------------------------------------
  // Keywords in the lower-cased goals: a keyword is absent when no position of the goal
  // carries its first two characters
  // ---------------------------------------------------------------------------------------
  // One lemma per goal and keyword: a single lemma over all of them, with the literal in a
  // quantified precondition, exhausts the solver's resource limit.

  lemma CollectLeadsLacksBooking(s: string)
    requires s == "collect leads"
    ensures !Includes(s, "booking")
  {
    IncludesIffOccurs(s, "booking");
    forall i | OccursAt(s, "booking", i) ensures false { OccurrenceHead(s, "booking", i); }
  }

  lemma CollectLeadsLacksPortfolio(s: string)
    requires s == "collect leads"
    ensures !Includes(s, "portfolio")
  {
    IncludesIffOccurs(s, "portfolio");
    forall i | OccursAt(s, "portfolio", i) ensures false { OccurrenceHead(s, "portfolio", i); }
  }

  lemma GetBookingsLacksLead(s: string)
    requires s == "get bookings"
    ensures !Includes(s, "lead")
  {
    IncludesIffOccurs(s, "lead");
    forall i | OccursAt(s, "lead", i) ensures false { OccurrenceHead(s, "lead", i); }
  }

  lemma GetBookingsLacksPortfolio(s: string)
    requires s == "get bookings"
    ensures !Includes(s, "portfolio")
  {
    IncludesIffOccurs(s, "portfolio");
    forall i | OccursAt(s, "portfolio", i) ensures false { OccurrenceHead(s, "portfolio", i); }
  }

  lemma ShowPortfolioLacksLead(s: string)
    requires s == "show portfolio"
    ensures !Includes(s, "lead")
  {
    IncludesIffOccurs(s, "lead");
    forall i | OccursAt(s, "lead", i) ensures false { OccurrenceHead(s, "lead", i); }
  }

  lemma ShowPortfolioLacksBooking(s: string)
    requires s == "show portfolio"
    ensures !Includes(s, "booking")
  {
    IncludesIffOccurs(s, "booking");
    forall i | OccursAt(s, "booking", i) ensures false { OccurrenceHead(s, "booking", i); }
  }

  lemma ExplainProductLacksLead(s: string)
    requires s == "explain a product"
    ensures !Includes(s, "lead")
  {
    IncludesIffOccurs(s, "lead");
    forall i | OccursAt(s, "lead", i) ensures false { OccurrenceHead(s, "lead", i); }
  }

  lemma ExplainProductLacksBooking(s: string)
    requires s == "explain a product"
    ensures !Includes(s, "booking")
  {
    IncludesIffOccurs(s, "booking");
    forall i | OccursAt(s, "booking", i) ensures false { OccurrenceHead(s, "booking", i); }
  }

  lemma ExplainProductLacksPortfolio(s: string)
    requires s == "explain a product"
    ensures !Includes(s, "portfolio")
  {
    IncludesIffOccurs(s, "portfolio");
    forall i | OccursAt(s, "portfolio", i) ensures false { OccurrenceHead(s, "portfolio", i); }
  }

  // ---------------------------------------------------------------------------------------
  // What each offered goal mentions
  // ---------------------------------------------------------------------------------------

  /** "Collect leads" mentions "lead" and nothing else the rules look for. */
  lemma CollectLeadsKeywords(goal: string)
    requires goal == "Collect leads"
    ensures Mentions(goal, "lead") && !Mentions(goal, "booking") && !Mentions(goal, "portfolio")
  {
    LowerCollectLeads(goal);
    var s := ToLower(goal);
    assert s == "collect " + "lead" + "s";
    IncludesInfix("collect ", "lead", "s");
    CollectLeadsLacksBooking(s);
    CollectLeadsLacksPortfolio(s);
  }

  /** "Get bookings" mentions "booking" and nothing else the rules look for. */
  lemma GetBookingsKeywords(goal: string)
    requires goal == "Get bookings"
    ensures !Mentions(goal, "lead") && Mentions(goal, "booking") && !Mentions(goal, "portfolio")
  {
    LowerGetBookings(goal);
    var s := ToLower(goal);
    assert s == "get " + "booking" + "s";
    IncludesInfix("get ", "booking", "s");
    GetBookingsLacksLead(s);
    GetBookingsLacksPortfolio(s);
  }

  /** "Show portfolio" mentions "portfolio" and nothing else the rules look for. */
  lemma ShowPortfolioKeywords(goal: string)
    requires goal == "Show portfolio"
    ensures !Mentions(goal, "lead") && !Mentions(goal, "booking") && Mentions(goal, "portfolio")
  {
    LowerShowPortfolio(goal);
    var s := ToLower(goal);
    assert s == "show " + "portfolio" + "";
    IncludesInfix("show ", "portfolio", "");
    ShowPortfolioLacksLead(s);
    ShowPortfolioLacksBooking(s);
  }

  /** "Explain a product" mentions none of the keywords. */
  lemma ExplainProductKeywords(goal: string)
    requires goal == "Explain a product"
    ensures !Mentions(goal, "lead") && !Mentions(goal, "booking") && !Mentions(goal, "portfolio")
  {
    LowerExplainProduct(goal);
    var s := ToLower(goal);
    ExplainProductLacksLead(s);
    ExplainProductLacksBooking(s);
    ExplainProductLacksPortfolio(s);
  }

  // ---------------------------------------------------------------------------------------
  // The labels and the goal feature each offered goal produces
  // ---------------------------------------------------------------------------------------

  /** "Collect leads" gives "Get started" and "Contact" and the lead feature on every site
      type. */
  lemma CollectLeadsOutcome(state: WizardState)
    requires state.goal == "Collect leads"
    ensures PrimaryCta(state) == "Get started" && SecondaryCta(state) == "Contact"
    ensures |BuildFeatures(state)| == 4 && BuildFeatures(state)[3] == LeadFeature
  {
    CollectLeadsKeywords(state.goal);
  }

  /** "Get bookings" gives "Get started" and the booking feature; the second label is
      "Contact" on a portfolio site and "See preview" elsewhere. */
  lemma GetBookingsOutcome(state: WizardState)
    requires state.goal == "Get bookings"
    ensures PrimaryCta(state) == "Get started"
    ensures state.siteType == SiteType.Portfolio ==> SecondaryCta(state) == "Contact"
    ensures state.siteType != SiteType.Portfolio ==> SecondaryCta(state) == "See preview"
    ensures |BuildFeatures(state)| == 4 && BuildFeatures(state)[3] == BookingFeature
  {
    GetBookingsKeywords(state.goal);
  }

  /** "Show portfolio" gives the portfolio feature; on a portfolio site the labels are
      "View work" and "Contact", elsewhere "Learn more" and "See preview". */
  lemma ShowPortfolioOutcome(state: WizardState)
    requires state.goal == "Show portfolio"
    ensures state.siteType == SiteType.Portfolio ==>
      PrimaryCta(state) == "View work" && SecondaryCta(state) == "Contact"
    ensures state.siteType != SiteType.Portfolio ==>
      PrimaryCta(state) == "Learn more" && SecondaryCta(state) == "See preview"
    ensures |BuildFeatures(state)| == 4 && BuildFeatures(state)[3] == PortfolioFeature
  {
    ShowPortfolioKeywords(state.goal);
  }

  /** "Explain a product" adds no goal feature; on a launch page (and on every other
      non-portfolio site) the labels are "Learn more" and "See preview". */
  lemma ExplainProductOutcome(state: WizardState)
    requires state.goal == "Explain a product"
    ensures state.siteType == SiteType.Portfolio ==>
      PrimaryCta(state) == "View work" && SecondaryCta(state) == "Contact"
    ensures state.siteType != SiteType.Portfolio ==>
      PrimaryCta(state) == "Learn more" && SecondaryCta(state) == "See preview"
    ensures BuildFeatures(state) == BaselineFeatures(OrElse(state.audience, "your audience"))
  {
    ExplainProductKeywords(state.goal);
  }

  /** The configuration the page produces when no answer is changed: a product layout, "Get
      started" and "Contact", and the lead feature fourth. */
  lemma InitialAnswersConfig(siteId: string, defaultTheme: Theme)
    ensures BuildConfigFromState(siteId, InitialWizardState, defaultTheme).layoutPreset == LayoutPreset.Product
    ensures BuildConfigFromState(siteId, InitialWizardState, defaultTheme).sections.hero.primaryCtaLabel == "Get started"
    ensures BuildConfigFromState(siteId, InitialWizardState, defaultTheme).sections.hero.secondaryCtaLabel == "Contact"
    ensures BuildConfigFromState(siteId, InitialWizardState, defaultTheme).sections.features[3] == LeadFeature
  {
    CollectLeadsOutcome(InitialWizardState);
  }
}
