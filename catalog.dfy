/**
 * The static catalogue: the option lists shown by the form, the frameworks
 * grouped by category, and the one-line pro tip kept for every framework.
 *
 * Ids are written `FrameworkId(n)`, which spells exactly the literal
 * "Framework n" of the table; the lemmas below establish the consistency
 * the application relies on: every category has frameworks, ids are
 * unique across the whole table, the tip table has exactly one entry per
 * framework id, and News holds only "Framework 70".
 */
module Catalog {
  import opened Types
  import Text

  datatype FrameworkDefinition = FrameworkDefinition(id: string, name: string, description: string)

  /** The enumeration values in declaration order, as `Object.values` lists them. */
  const AUDIENCE_OPTIONS: seq<Audience> := [GalleryOwners, FestivalDirectors, CreativeFounders, ArtLovers]
  const CATEGORY_OPTIONS: seq<Category> :=
    [HarshTruths, PersonalJourney, Leadership, ProblemSolving, Growth, ClientRelations,
     Innovation, Productivity, MoneyValue, RedFlags, News]
  const GOAL_OPTIONS: seq<PostGoal> := [Engagement, Newsletter, Consultation, Event, Authority]
  const TONE_OPTIONS: seq<PostTone> := [Rant, Empathic, Analytical, Storyteller]

  /** Each option list holds every value of its enumeration exactly once. */
  lemma OptionListsComplete()
    ensures forall a: Audience :: a in AUDIENCE_OPTIONS
    ensures forall c: Category :: c in CATEGORY_OPTIONS
    ensures forall g: PostGoal :: g in GOAL_OPTIONS
    ensures forall t: PostTone :: t in TONE_OPTIONS
    ensures forall i, j :: 0 <= i < j < |AUDIENCE_OPTIONS| ==> AUDIENCE_OPTIONS[i] != AUDIENCE_OPTIONS[j]
    ensures forall i, j :: 0 <= i < j < |CATEGORY_OPTIONS| ==> CATEGORY_OPTIONS[i] != CATEGORY_OPTIONS[j]
    ensures forall i, j :: 0 <= i < j < |GOAL_OPTIONS| ==> GOAL_OPTIONS[i] != GOAL_OPTIONS[j]
    ensures forall i, j :: 0 <= i < j < |TONE_OPTIONS| ==> TONE_OPTIONS[i] != TONE_OPTIONS[j]
  {
    forall a: Audience
      ensures a in AUDIENCE_OPTIONS
    {
      match a
      case GalleryOwners => case FestivalDirectors => case CreativeFounders => case ArtLovers =>
    }
    forall c: Category
      ensures c in CATEGORY_OPTIONS
    {
      match c
      case HarshTruths => case PersonalJourney => case Leadership => case ProblemSolving =>
      case Growth => case ClientRelations => case Innovation => case Productivity =>
      case MoneyValue => case RedFlags => case News =>
    }
    forall g: PostGoal
      ensures g in GOAL_OPTIONS
    {
      match g
      case Engagement => case Newsletter => case Consultation => case Event => case Authority =>
    }
    forall t: PostTone
      ensures t in TONE_OPTIONS
    {
      match t
      case Rant => case Empathic => case Analytical => case Storyteller =>
    }
  }

  /** The id "Framework n" of the framework numbered `n`. */
  function FrameworkId(n: nat): (id: string)
    ensures |id| > 10 && id[..10] == "Framework "
    ensures id[10..] == Text.NatToString(n)
  {
    "Framework " + Text.NatToString(n)
  }

  /** The FRAMEWORKS record: the frameworks offered for each category, in display order. */
  function Frameworks(c: Category): seq<FrameworkDefinition> {
    match c
    case HarshTruths => HARSH_TRUTHS_FRAMEWORKS
    case PersonalJourney => PERSONAL_JOURNEY_FRAMEWORKS
    case Leadership => LEADERSHIP_FRAMEWORKS
    case ProblemSolving => PROBLEM_SOLVING_FRAMEWORKS
    case Growth => GROWTH_FRAMEWORKS
    case ClientRelations => CLIENT_RELATIONS_FRAMEWORKS
    case Innovation => INNOVATION_FRAMEWORKS
    case Productivity => PRODUCTIVITY_FRAMEWORKS
    case MoneyValue => MONEY_VALUE_FRAMEWORKS
    case RedFlags => RED_FLAGS_FRAMEWORKS
    case News => NEWS_FRAMEWORKS
  }

  const HARSH_TRUTHS_FRAMEWORKS: seq<FrameworkDefinition> := [
    FrameworkDefinition(FrameworkId(1), "5 Harsh Truths", "List 5 hard-to-swallow realities."),
    FrameworkDefinition(FrameworkId(2), "Perception vs Reality", "What people think vs reality."),
    FrameworkDefinition(FrameworkId(3), "Brutal Life Lessons", "Lessons from industry mistakes."),
    FrameworkDefinition(FrameworkId(4), "Counterintuitive Rookie Mistakes", "Mistake -> Why wrong -> Better way."),
    FrameworkDefinition(FrameworkId(5), "Stereotypes That Are True", "Stereotype -> Reality -> Relevance."),
    FrameworkDefinition(FrameworkId(6), "List of Free Resources", "Value-packed list of tools."),
    FrameworkDefinition(FrameworkId(7), "What I Wish I Knew", "List of retrospectives."),
    FrameworkDefinition(FrameworkId(8), "Career Traps", "Trap -> Cost -> Escape.")
  ]

  const PERSONAL_JOURNEY_FRAMEWORKS: seq<FrameworkDefinition> := [
    FrameworkDefinition(FrameworkId(9), "The Day That Changed Everything", "Before -> Moment -> After."),
    FrameworkDefinition(FrameworkId(10), "3 Unconventional Choices", "Choice -> Why -> Result."),
    FrameworkDefinition(FrameworkId(11), "Decade of Lessons", "Used to think X -> Now know Y."),
    FrameworkDefinition(FrameworkId(12), "Biggest Failure", "Failure -> Cost -> Lesson."),
    FrameworkDefinition(FrameworkId(13), "Role Transition", "Polished vs untold story."),
    FrameworkDefinition(FrameworkId(14), "Myths I Believed", "Myth -> Reality -> Evidence."),
    FrameworkDefinition(FrameworkId(15), "The Expensive Mistake", "Price paid -> Learning."),
    FrameworkDefinition(FrameworkId(16), "Walking Away", "Offer -> Why no -> Aftermath.")
  ]

  const LEADERSHIP_FRAMEWORKS: seq<FrameworkDefinition> := [
    FrameworkDefinition(FrameworkId(17), "Hardest Decision", "Situation -> Cost -> Payoff."),
    FrameworkDefinition(FrameworkId(18), "What Great Leaders Never Say", "X -> What they say instead."),
    FrameworkDefinition(FrameworkId(19), "Hiring/Leadership Mistake", "Mistake -> Lesson -> Change."),
    FrameworkDefinition(FrameworkId(20), "Simple Habits", "Habit -> Why -> Result."),
    FrameworkDefinition(FrameworkId(21), "Building Trust", "Don't do X -> Do Y."),
    FrameworkDefinition(FrameworkId(22), "Silent Killers of Morale", "Killer -> Why -> Fix.")
  ]

  const PROBLEM_SOLVING_FRAMEWORKS: seq<FrameworkDefinition> := [
    FrameworkDefinition(FrameworkId(23), "How We Solved It", "Problem -> Failure -> Solution."),
    FrameworkDefinition(FrameworkId(24), "The Problem Nobody Talks About", "Visible vs Real problem."),
    FrameworkDefinition(FrameworkId(25), "Warning Signs", "Sign -> Why it's a warning."),
    FrameworkDefinition(FrameworkId(26), "Real Reason Projects Fail", "Surface -> Root -> Pattern."),
    FrameworkDefinition(FrameworkId(27), "Quick Fixes", "Fix -> Why it works."),
    FrameworkDefinition(FrameworkId(28), "The Framework Change", "Old way -> New way -> Proof."),
    FrameworkDefinition(FrameworkId(29), "Problems Leaders Pretend Don't Exist", "Problem -> Pretense -> Reality."),
    FrameworkDefinition(FrameworkId(30), "Solution Right In Front of Us", "Complex attempts -> Simple solution.")
  ]

  const GROWTH_FRAMEWORKS: seq<FrameworkDefinition> := [
    FrameworkDefinition(FrameworkId(31), "Skills That Matter More", "Non-obvious skills."),
    FrameworkDefinition(FrameworkId(32), "Truth About Certifications", "Promise vs Reality."),
    FrameworkDefinition(FrameworkId(33), "What Matters in Interviews", "Generic vs Real questions."),
    FrameworkDefinition(FrameworkId(34), "Career Paths Nobody Tells You", "Path -> Why -> Timeline."),
    FrameworkDefinition(FrameworkId(35), "Skills That Got Me Promoted", "Assumed vs Actual skill."),
    FrameworkDefinition(FrameworkId(36), "Junior to Senior", "Turning point -> Mindset shift."),
    FrameworkDefinition(FrameworkId(37), "Valuable Side-Skills", "Skill -> Value creation."),
    FrameworkDefinition(FrameworkId(38), "Why Experts Fail", "Pattern -> Counter-measure.")
  ]

  const CLIENT_RELATIONS_FRAMEWORKS: seq<FrameworkDefinition> := [
    FrameworkDefinition(FrameworkId(40), "What Clients Actually Want", "Don't want X -> Do want Y."),
    FrameworkDefinition(FrameworkId(41), "Red Flags", "Phrase -> Meaning -> Action."),
    FrameworkDefinition(FrameworkId(42), "Winning Without Cold Calling", "Strategy -> ROI."),
    FrameworkDefinition(FrameworkId(43), "Perfect Onboarding", "Day 1 -> Week 1 -> Month 1."),
    FrameworkDefinition(FrameworkId(44), "Why Clients Leave", "Broken promises pattern."),
    FrameworkDefinition(FrameworkId(45), "Feedback That Changed Everything", "Feedback -> Action."),
    FrameworkDefinition(FrameworkId(46), "The Meeting That Changed Everything", "Question -> Answer -> Shift."),
    FrameworkDefinition(FrameworkId(47), "How to Say No", "Bad way vs Good way."),
    FrameworkDefinition(FrameworkId(48), "Lost Deal Patterns", "Reason given vs Real reason.")
  ]

  const INNOVATION_FRAMEWORKS: seq<FrameworkDefinition> := [
    FrameworkDefinition(FrameworkId(49), "Innovation Nobody Saw Coming", "Focus A vs Focus B."),
    FrameworkDefinition(FrameworkId(50), "Disruption Reality", "Assumption vs Reality."),
    FrameworkDefinition(FrameworkId(51), "Unexpected Future", "Prediction A vs Reality B."),
    FrameworkDefinition(FrameworkId(52), "Small Changes, Big Results", "Small tweak -> Impact."),
    FrameworkDefinition(FrameworkId(53), "Surprise Experiment", "Hypothesis -> Result."),
    FrameworkDefinition(FrameworkId(54), "Tomorrow's Leaders", "Today vs Tomorrow."),
    FrameworkDefinition(FrameworkId(55), "Quiet Revolution", "Headlines vs Reality.")
  ]

  const PRODUCTIVITY_FRAMEWORKS: seq<FrameworkDefinition> := [
    FrameworkDefinition(FrameworkId(56), "Morning Routine", "Standard vs Effective."),
    FrameworkDefinition(FrameworkId(57), "Systems That Scale", "Scaling rules."),
    FrameworkDefinition(FrameworkId(58), "Productivity Hack", "Problem -> Hack -> Result."),
    FrameworkDefinition(FrameworkId(59), "Why Workflows Fail", "Surface vs Real reason."),
    FrameworkDefinition(FrameworkId(60), "Metrics That Matter", "Vanity vs Real metrics."),
    FrameworkDefinition(FrameworkId(61), "Automate 80%", "Old -> New -> Result."),
    FrameworkDefinition(FrameworkId(62), "Tools Worth Paying For", "Paid vs Skip.")
  ]

  const MONEY_VALUE_FRAMEWORKS: seq<FrameworkDefinition> := [
    FrameworkDefinition(FrameworkId(63), "Real Cost of Success", "Visible vs Hidden cost."),
    FrameworkDefinition(FrameworkId(64), "Real Profit Margins", "Paper vs Real numbers."),
    FrameworkDefinition(FrameworkId(65), "Hidden Costs", "Visible vs Hidden."),
    FrameworkDefinition(FrameworkId(66), "How We 2x'd Revenue", "Assumption vs Reality."),
    FrameworkDefinition(FrameworkId(67), "Pricing Secrets", "Secret -> Psychology."),
    FrameworkDefinition(FrameworkId(68), "Money Mindset Shift", "Old -> New -> Result.")
  ]

  const RED_FLAGS_FRAMEWORKS: seq<FrameworkDefinition> := [
    FrameworkDefinition(FrameworkId(69), "Red/Green Flags Joining Org", "List of flags.")
  ]

  const NEWS_FRAMEWORKS: seq<FrameworkDefinition> := [
    FrameworkDefinition(FrameworkId(70), "TOP-3 News", "3 news items from the past 24 hours.")
  ]

  /**
   * The FRAMEWORK_PRO_TIPS record: one object literal in the application,
   * written here as the union of one block per category, in the same order.
   */
  const FRAMEWORK_PRO_TIPS: map<string, string> :=
    HARSH_TRUTHS_TIPS + PERSONAL_JOURNEY_TIPS + LEADERSHIP_TIPS + PROBLEM_SOLVING_TIPS
    + GROWTH_TIPS + CLIENT_RELATIONS_TIPS + INNOVATION_TIPS + PRODUCTIVITY_TIPS
    + MONEY_VALUE_TIPS + RED_FLAGS_TIPS + NEWS_TIPS

  const HARSH_TRUTHS_TIPS: map<string, string> := map[
    FrameworkId(1) := "Sequence your truths from the familiar to the uncomfortable so gallery and festival leaders stay engaged.",
    FrameworkId(2) := "Pair each perception with a behind-the-scenes data point\U{2014}budgets, crating hours, sponsor calls\U{2014}to prove authority.",
    FrameworkId(3) := "Anchor every lesson to a specific exhibition mishap so vulnerability feels earned.",
    FrameworkId(4) := "Quantify the financial or reputational cost of each rookie mistake before offering the better way.",
    FrameworkId(5) := "Select stereotypes insiders whisper about and explain why embracing the nuance creates leverage.",
    FrameworkId(6) := "Group resources by workflow (funding, logistics, audience) so readers can act on them immediately.",
    FrameworkId(7) := "Tie each hindsight insight to what it would have saved you in time, budget, or trust.",
    FrameworkId(8) := "Name the trap, show the hidden bill, and close with the safeguard you now rely on."
  ]

  const PERSONAL_JOURNEY_TIPS: map<string, string> := map[
    FrameworkId(9) := "Paint the sensory details of the turning day so readers feel the before-versus-after contrast.",
    FrameworkId(10) := "Highlight why each choice defied board expectations before revealing the upside.",
    FrameworkId(11) := "Alternate 'I used to think' versus 'Now I know' to show a decade of mindset progression.",
    FrameworkId(12) := "Share a measurable recovery metric to prove the lesson translated into change.",
    FrameworkId(13) := "Let the polished press-release story run first, then expose the gritty logistics that carried it.",
    FrameworkId(14) := "Fact-check each myth with stats or anecdotes only an insider could know.",
    FrameworkId(15) := "State the literal price tag, then unpack the blind spot that caused it.",
    FrameworkId(16) := "Explain the opportunity cost of saying yes so the eventual no feels strategic."
  ]

  const LEADERSHIP_TIPS: map<string, string> := map[
    FrameworkId(17) := "Quantify the stakes of the decision before revealing the unconventional action.",
    FrameworkId(18) := "Use direct quotes to contrast hollow phrases with what leaders actually say.",
    FrameworkId(19) := "Show the ripple effect of the hiring mistake across cycles to underscore the lesson.",
    FrameworkId(20) := "Attach each habit to a calendar ritual so others can adopt it tomorrow.",
    FrameworkId(21) := "Frame the trust breaker as a pattern you retired and the trust builder as a repeatable play.",
    FrameworkId(22) := "Label each morale killer plainly and offer a fix that fits in a one-week sprint."
  ]

  const PROBLEM_SOLVING_TIPS: map<string, string> := map[
    FrameworkId(23) := "Start with the business metric at risk so the solution feels inevitable.",
    FrameworkId(24) := "Expose the hidden root cause with evidence before prescribing the fix.",
    FrameworkId(25) := "Turn each warning sign into a binary checklist for quick diagnosis.",
    FrameworkId(26) := "Compare the stated reason to the root blocker using data from post-mortems.",
    FrameworkId(27) := "Tie every quick fix to a measurable win within 30 days.",
    FrameworkId(28) := "Show receipts of how the new framework changed throughput or cost.",
    FrameworkId(29) := "Call out the polite lie leadership tells and counter with the operational reality.",
    FrameworkId(30) := "Map the failed complex attempts before showcasing the simple win."
  ]

  const GROWTH_TIPS: map<string, string> := map[
    FrameworkId(31) := "Spotlight non-obvious skills with proof of how they influence patron spend or partner trust.",
    FrameworkId(32) := "Juxtapose the certification promise with what hiring managers actually reward.",
    FrameworkId(33) := "List the interview questions that expose systems thinking instead of rehearsed answers.",
    FrameworkId(34) := "Describe the hidden pathways and political capital required for each career track.",
    FrameworkId(35) := "Contrast the skill you assumed mattered with the one the board actually rewarded.",
    FrameworkId(36) := "Name the event that forced the mindset shift so juniors can spot the same cue.",
    FrameworkId(37) := "Translate every side-skill into a business outcome such as retention, ticket sales, or sponsorship.",
    FrameworkId(38) := "Identify the complacency pattern and the counter-habit that keeps experts sharp."
  ]

  const CLIENT_RELATIONS_TIPS: map<string, string> := map[
    FrameworkId(40) := "Use client quotes to show what they secretly value before promising your solution.",
    FrameworkId(41) := "Translate each red flag into an immediate boundary-setting script.",
    FrameworkId(42) := "Break down the warm pipeline mechanics and give one metric to track momentum.",
    FrameworkId(43) := "Lay out onboarding touchpoints as calendar entries teams can clone.",
    FrameworkId(44) := "Trace every departure to the small promises that slipped.",
    FrameworkId(45) := "Share the exact wording of the feedback and the operational fix it triggered.",
    FrameworkId(46) := "Recreate the pivotal meeting beat by beat so readers can copy the questioning.",
    FrameworkId(47) := "Role-play the bad no versus the respectful no with swipeable language.",
    FrameworkId(48) := "Reveal the polite reason prospects gave and the forensic truth uncovered later."
  ]

  const INNOVATION_TIPS: map<string, string> := map[
    FrameworkId(49) := "Contrast the mainstream obsession with the quiet innovation you backed and the ROI.",
    FrameworkId(50) := "List the early tells that proved the disruption hype was off.",
    FrameworkId(51) := "Frame the expected future versus the one you prepared for, then show the hedge you took.",
    FrameworkId(52) := "Tie each small tweak to a metric lift so change feels doable.",
    FrameworkId(53) := "Share the failed hypothesis before the surprise outcome to maintain tension.",
    FrameworkId(54) := "Compare the leadership toolkit people rely on today to the skills curators will need tomorrow.",
    FrameworkId(55) := "Expose the quiet operators outperforming headline grabbers."
  ]

  const PRODUCTIVITY_TIPS: map<string, string> := map[
    FrameworkId(56) := "Describe the sensory difference between the default routine and the optimized one.",
    FrameworkId(57) := "Translate scaling rules into if-or-then statements tied to headcount or budget.",
    FrameworkId(58) := "Name the exact friction your hack removed and the minutes saved each week.",
    FrameworkId(59) := "Trace workflow failure back to the misaligned signal you now watch.",
    FrameworkId(60) := "Define vanity versus real metrics with numbers from a recent report.",
    FrameworkId(61) := "Document the hours reclaimed after automation and where you reinvested them.",
    FrameworkId(62) := "Rank tools by business-critical capability so leaders know what to fund."
  ]

  const MONEY_VALUE_TIPS: map<string, string> := map[
    FrameworkId(63) := "Lay out the glamorous success cost first, then the hidden maintenance bill.",
    FrameworkId(64) := "Reveal where profit evaporated such as fees, overtime, or discounts before naming the fix.",
    FrameworkId(65) := "Pair each hidden cost with the trigger that helps you spot it early.",
    FrameworkId(66) := "Contrast the volume myth with the margin lever you actually pulled.",
    FrameworkId(67) := "Share the psychological insight that justified the price and the lift it produced.",
    FrameworkId(68) := "Describe the mindset script that moved you from scarcity to asset thinking."
  ]

  const RED_FLAGS_TIPS: map<string, string> := map[
    FrameworkId(69) := "Cluster flags into onboarding, governance, and finance so readers scan by risk zone."
  ]

  const NEWS_TIPS: map<string, string> := map[
    FrameworkId(70) := "Curate news that impacts the bottom line or cultural relevance, not just gossip."
  ]

  // ---------------------------------------------------------------------------
  // Consistency of the tables
  // ---------------------------------------------------------------------------

  /** The number of the first framework listed under `c`. */
  function FirstNumber(c: Category): nat {
    match c
    case HarshTruths => 1
    case PersonalJourney => 9
    case Leadership => 17
    case ProblemSolving => 23
    case Growth => 31
    case ClientRelations => 40
    case Innovation => 49
    case Productivity => 56
    case MoneyValue => 63
    case RedFlags => 69
    case News => 70
  }

  /** The number of frameworks listed under `c`. */
  function CategorySize(c: Category): nat {
    match c
    case HarshTruths => 8
    case PersonalJourney => 8
    case Leadership => 6
    case ProblemSolving => 8
    case Growth => 8
    case ClientRelations => 9
    case Innovation => 7
    case Productivity => 7
    case MoneyValue => 6
    case RedFlags => 1
    case News => 1
  }

  /** Every category offers at least one framework, numbered consecutively from `FirstNumber(c)`. */
  lemma FrameworksNumbered(c: Category)
    ensures |Frameworks(c)| == CategorySize(c) >= 1
    ensures forall i :: 0 <= i < |Frameworks(c)| ==> Frameworks(c)[i].id == FrameworkId(FirstNumber(c) + i)
  {
    forall i | 0 <= i < |Frameworks(c)|
      ensures Frameworks(c)[i].id == FrameworkId(FirstNumber(c) + i)
    {
      FrameworkIdAt(c, i);
    }
  }

  /** The id of one entry of the table, by its number. */
  lemma FrameworkIdAt(c: Category, i: nat)
    requires i < |Frameworks(c)|
    ensures i < CategorySize(c) && Frameworks(c)[i].id == FrameworkId(FirstNumber(c) + i)
  {
    match c
    case HarshTruths => FrameworksNumberedInHarshTruths();
    case PersonalJourney => FrameworksNumberedInPersonalJourney();
    case Leadership => FrameworksNumberedInLeadership();
    case ProblemSolving => FrameworksNumberedInProblemSolving();
    case Growth => FrameworksNumberedInGrowth();
    case ClientRelations => FrameworksNumberedInClientRelations();
    case Innovation => FrameworksNumberedInInnovation();
    case Productivity => FrameworksNumberedInProductivity();
    case MoneyValue => FrameworksNumberedInMoneyValue();
    case RedFlags => FrameworksNumberedInRedFlags();
    case News => FrameworksNumberedInNews();
  }

  lemma FrameworksNumberedInHarshTruths()
    ensures |Frameworks(HarshTruths)| == CategorySize(HarshTruths)
    ensures forall i :: 0 <= i < |Frameworks(HarshTruths)| ==> Frameworks(HarshTruths)[i].id == FrameworkId(FirstNumber(HarshTruths) + i)
  {
  }

  lemma FrameworksNumberedInPersonalJourney()
    ensures |Frameworks(PersonalJourney)| == CategorySize(PersonalJourney)
    ensures forall i :: 0 <= i < |Frameworks(PersonalJourney)| ==> Frameworks(PersonalJourney)[i].id == FrameworkId(FirstNumber(PersonalJourney) + i)
  {
  }

  lemma FrameworksNumberedInLeadership()
    ensures |Frameworks(Leadership)| == CategorySize(Leadership)
    ensures forall i :: 0 <= i < |Frameworks(Leadership)| ==> Frameworks(Leadership)[i].id == FrameworkId(FirstNumber(Leadership) + i)
  {
  }

  lemma FrameworksNumberedInProblemSolving()
    ensures |Frameworks(ProblemSolving)| == CategorySize(ProblemSolving)
    ensures forall i :: 0 <= i < |Frameworks(ProblemSolving)| ==> Frameworks(ProblemSolving)[i].id == FrameworkId(FirstNumber(ProblemSolving) + i)
  {
  }

  lemma FrameworksNumberedInGrowth()
    ensures |Frameworks(Growth)| == CategorySize(Growth)
    ensures forall i :: 0 <= i < |Frameworks(Growth)| ==> Frameworks(Growth)[i].id == FrameworkId(FirstNumber(Growth) + i)
  {
  }

  lemma FrameworksNumberedInClientRelations()
    ensures |Frameworks(ClientRelations)| == CategorySize(ClientRelations)
    ensures forall i :: 0 <= i < |Frameworks(ClientRelations)| ==> Frameworks(ClientRelations)[i].id == FrameworkId(FirstNumber(ClientRelations) + i)
  {
  }

  lemma FrameworksNumberedInInnovation()
    ensures |Frameworks(Innovation)| == CategorySize(Innovation)
    ensures forall i :: 0 <= i < |Frameworks(Innovation)| ==> Frameworks(Innovation)[i].id == FrameworkId(FirstNumber(Innovation) + i)
  {
  }

  lemma FrameworksNumberedInProductivity()
    ensures |Frameworks(Productivity)| == CategorySize(Productivity)
    ensures forall i :: 0 <= i < |Frameworks(Productivity)| ==> Frameworks(Productivity)[i].id == FrameworkId(FirstNumber(Productivity) + i)
  {
  }

  lemma FrameworksNumberedInMoneyValue()
    ensures |Frameworks(MoneyValue)| == CategorySize(MoneyValue)
    ensures forall i :: 0 <= i < |Frameworks(MoneyValue)| ==> Frameworks(MoneyValue)[i].id == FrameworkId(FirstNumber(MoneyValue) + i)
  {
  }

  lemma FrameworksNumberedInRedFlags()
    ensures |Frameworks(RedFlags)| == CategorySize(RedFlags)
    ensures forall i :: 0 <= i < |Frameworks(RedFlags)| ==> Frameworks(RedFlags)[i].id == FrameworkId(FirstNumber(RedFlags) + i)
  {
  }

  lemma FrameworksNumberedInNews()
    ensures |Frameworks(News)| == CategorySize(News)
    ensures forall i :: 0 <= i < |Frameworks(News)| ==> Frameworks(News)[i].id == FrameworkId(FirstNumber(News) + i)
  {
  }

  /** Distinct numbers give distinct ids. */
  lemma FrameworkIdInjective(m: nat, n: nat)
    ensures FrameworkId(m) == FrameworkId(n) ==> m == n
  {
    if FrameworkId(m) == FrameworkId(n) {
      assert Text.NatToString(m) == FrameworkId(m)[10..];
      Text.NatToStringInjective(m, n);
    }
  }

  /** Framework ids are unique across the whole table. */
  lemma FrameworkIdsUnique(c1: Category, i1: nat, c2: Category, i2: nat)
    requires i1 < |Frameworks(c1)| && i2 < |Frameworks(c2)|
    ensures Frameworks(c1)[i1].id == Frameworks(c2)[i2].id ==> c1 == c2 && i1 == i2
  {
    FrameworkIdAt(c1, i1);
    FrameworkIdAt(c2, i2);
    NumberedIdsUnique(c1, i1, c2, i2);
  }

  /** Two positions of the numbering with the same id are the same position. */
  lemma NumberedIdsUnique(c1: Category, i1: nat, c2: Category, i2: nat)
    requires i1 < CategorySize(c1) && i2 < CategorySize(c2)
    ensures FrameworkId(FirstNumber(c1) + i1) == FrameworkId(FirstNumber(c2) + i2) ==> c1 == c2 && i1 == i2
  {
    FrameworkIdInjective(FirstNumber(c1) + i1, FirstNumber(c2) + i2);
    if FirstNumber(c1) + i1 == FirstNumber(c2) + i2 {
      NumberRangesDisjoint(c1, i1, c2, i2);
    }
  }

  /** The number ranges of different categories do not overlap. */
  lemma NumberRangesDisjoint(c1: Category, i1: nat, c2: Category, i2: nat)
    requires i1 < CategorySize(c1) && i2 < CategorySize(c2)
    requires FirstNumber(c1) + i1 == FirstNumber(c2) + i2
    ensures c1 == c2 && i1 == i2
  {
  }

  /**
   * Each block of tips has one non-empty tip per framework of its category, and no other key.
   * There is one lemma per category rather than one over all categories: each proof then
   * sees the literals of a single block, which keeps it small enough for the solver.
   */
  lemma TipsMatchFrameworksInHarshTruths()
    ensures forall i :: 0 <= i < |HARSH_TRUTHS_FRAMEWORKS| ==> HARSH_TRUTHS_FRAMEWORKS[i].id in HARSH_TRUTHS_TIPS && HARSH_TRUTHS_TIPS[HARSH_TRUTHS_FRAMEWORKS[i].id] != ""
    ensures forall k :: k in HARSH_TRUTHS_TIPS ==> exists i :: 0 <= i < |HARSH_TRUTHS_FRAMEWORKS| && HARSH_TRUTHS_FRAMEWORKS[i].id == k
    ensures NonEmptyValues(HARSH_TRUTHS_TIPS)
  {
    assert HARSH_TRUTHS_FRAMEWORKS[0].id == FrameworkId(1);
    assert HARSH_TRUTHS_FRAMEWORKS[1].id == FrameworkId(2);
    assert HARSH_TRUTHS_FRAMEWORKS[2].id == FrameworkId(3);
    assert HARSH_TRUTHS_FRAMEWORKS[3].id == FrameworkId(4);
    assert HARSH_TRUTHS_FRAMEWORKS[4].id == FrameworkId(5);
    assert HARSH_TRUTHS_FRAMEWORKS[5].id == FrameworkId(6);
    assert HARSH_TRUTHS_FRAMEWORKS[6].id == FrameworkId(7);
    assert HARSH_TRUTHS_FRAMEWORKS[7].id == FrameworkId(8);
    BlockValuesNonEmpty(HARSH_TRUTHS_FRAMEWORKS, HARSH_TRUTHS_TIPS);
  }

  lemma TipsMatchFrameworksInPersonalJourney()
    ensures forall i :: 0 <= i < |PERSONAL_JOURNEY_FRAMEWORKS| ==> PERSONAL_JOURNEY_FRAMEWORKS[i].id in PERSONAL_JOURNEY_TIPS && PERSONAL_JOURNEY_TIPS[PERSONAL_JOURNEY_FRAMEWORKS[i].id] != ""
    ensures forall k :: k in PERSONAL_JOURNEY_TIPS ==> exists i :: 0 <= i < |PERSONAL_JOURNEY_FRAMEWORKS| && PERSONAL_JOURNEY_FRAMEWORKS[i].id == k
    ensures NonEmptyValues(PERSONAL_JOURNEY_TIPS)
  {
    assert PERSONAL_JOURNEY_FRAMEWORKS[0].id == FrameworkId(9);
    assert PERSONAL_JOURNEY_FRAMEWORKS[1].id == FrameworkId(10);
    assert PERSONAL_JOURNEY_FRAMEWORKS[2].id == FrameworkId(11);
    assert PERSONAL_JOURNEY_FRAMEWORKS[3].id == FrameworkId(12);
    assert PERSONAL_JOURNEY_FRAMEWORKS[4].id == FrameworkId(13);
    assert PERSONAL_JOURNEY_FRAMEWORKS[5].id == FrameworkId(14);
    assert PERSONAL_JOURNEY_FRAMEWORKS[6].id == FrameworkId(15);
    assert PERSONAL_JOURNEY_FRAMEWORKS[7].id == FrameworkId(16);
    BlockValuesNonEmpty(PERSONAL_JOURNEY_FRAMEWORKS, PERSONAL_JOURNEY_TIPS);
  }

  lemma TipsMatchFrameworksInLeadership()
    ensures forall i :: 0 <= i < |LEADERSHIP_FRAMEWORKS| ==> LEADERSHIP_FRAMEWORKS[i].id in LEADERSHIP_TIPS && LEADERSHIP_TIPS[LEADERSHIP_FRAMEWORKS[i].id] != ""
    ensures forall k :: k in LEADERSHIP_TIPS ==> exists i :: 0 <= i < |LEADERSHIP_FRAMEWORKS| && LEADERSHIP_FRAMEWORKS[i].id == k
    ensures NonEmptyValues(LEADERSHIP_TIPS)
  {
    assert LEADERSHIP_FRAMEWORKS[0].id == FrameworkId(17);
    assert LEADERSHIP_FRAMEWORKS[1].id == FrameworkId(18);
    assert LEADERSHIP_FRAMEWORKS[2].id == FrameworkId(19);
    assert LEADERSHIP_FRAMEWORKS[3].id == FrameworkId(20);
    assert LEADERSHIP_FRAMEWORKS[4].id == FrameworkId(21);
    assert LEADERSHIP_FRAMEWORKS[5].id == FrameworkId(22);
    BlockValuesNonEmpty(LEADERSHIP_FRAMEWORKS, LEADERSHIP_TIPS);
  }

  lemma TipsMatchFrameworksInProblemSolving()
    ensures forall i :: 0 <= i < |PROBLEM_SOLVING_FRAMEWORKS| ==> PROBLEM_SOLVING_FRAMEWORKS[i].id in PROBLEM_SOLVING_TIPS && PROBLEM_SOLVING_TIPS[PROBLEM_SOLVING_FRAMEWORKS[i].id] != ""
    ensures forall k :: k in PROBLEM_SOLVING_TIPS ==> exists i :: 0 <= i < |PROBLEM_SOLVING_FRAMEWORKS| && PROBLEM_SOLVING_FRAMEWORKS[i].id == k
    ensures NonEmptyValues(PROBLEM_SOLVING_TIPS)
  {
    assert PROBLEM_SOLVING_FRAMEWORKS[0].id == FrameworkId(23);
    assert PROBLEM_SOLVING_FRAMEWORKS[1].id == FrameworkId(24);
    assert PROBLEM_SOLVING_FRAMEWORKS[2].id == FrameworkId(25);
    assert PROBLEM_SOLVING_FRAMEWORKS[3].id == FrameworkId(26);
    assert PROBLEM_SOLVING_FRAMEWORKS[4].id == FrameworkId(27);
    assert PROBLEM_SOLVING_FRAMEWORKS[5].id == FrameworkId(28);
    assert PROBLEM_SOLVING_FRAMEWORKS[6].id == FrameworkId(29);
    assert PROBLEM_SOLVING_FRAMEWORKS[7].id == FrameworkId(30);
    BlockValuesNonEmpty(PROBLEM_SOLVING_FRAMEWORKS, PROBLEM_SOLVING_TIPS);
  }

  lemma TipsMatchFrameworksInGrowth()
    ensures forall i :: 0 <= i < |GROWTH_FRAMEWORKS| ==> GROWTH_FRAMEWORKS[i].id in GROWTH_TIPS && GROWTH_TIPS[GROWTH_FRAMEWORKS[i].id] != ""
    ensures forall k :: k in GROWTH_TIPS ==> exists i :: 0 <= i < |GROWTH_FRAMEWORKS| && GROWTH_FRAMEWORKS[i].id == k
    ensures NonEmptyValues(GROWTH_TIPS)
  {
    assert GROWTH_FRAMEWORKS[0].id == FrameworkId(31);
    assert GROWTH_FRAMEWORKS[1].id == FrameworkId(32);
    assert GROWTH_FRAMEWORKS[2].id == FrameworkId(33);
    assert GROWTH_FRAMEWORKS[3].id == FrameworkId(34);
    assert GROWTH_FRAMEWORKS[4].id == FrameworkId(35);
    assert GROWTH_FRAMEWORKS[5].id == FrameworkId(36);
    assert GROWTH_FRAMEWORKS[6].id == FrameworkId(37);
    assert GROWTH_FRAMEWORKS[7].id == FrameworkId(38);
    BlockValuesNonEmpty(GROWTH_FRAMEWORKS, GROWTH_TIPS);
  }

  lemma TipsMatchFrameworksInClientRelations()
    ensures forall i :: 0 <= i < |CLIENT_RELATIONS_FRAMEWORKS| ==> CLIENT_RELATIONS_FRAMEWORKS[i].id in CLIENT_RELATIONS_TIPS && CLIENT_RELATIONS_TIPS[CLIENT_RELATIONS_FRAMEWORKS[i].id] != ""
    ensures forall k :: k in CLIENT_RELATIONS_TIPS ==> exists i :: 0 <= i < |CLIENT_RELATIONS_FRAMEWORKS| && CLIENT_RELATIONS_FRAMEWORKS[i].id == k
    ensures NonEmptyValues(CLIENT_RELATIONS_TIPS)
  {
    assert CLIENT_RELATIONS_FRAMEWORKS[0].id == FrameworkId(40);
    assert CLIENT_RELATIONS_FRAMEWORKS[1].id == FrameworkId(41);
    assert CLIENT_RELATIONS_FRAMEWORKS[2].id == FrameworkId(42);
    assert CLIENT_RELATIONS_FRAMEWORKS[3].id == FrameworkId(43);
    assert CLIENT_RELATIONS_FRAMEWORKS[4].id == FrameworkId(44);
    assert CLIENT_RELATIONS_FRAMEWORKS[5].id == FrameworkId(45);
    assert CLIENT_RELATIONS_FRAMEWORKS[6].id == FrameworkId(46);
    assert CLIENT_RELATIONS_FRAMEWORKS[7].id == FrameworkId(47);
    assert CLIENT_RELATIONS_FRAMEWORKS[8].id == FrameworkId(48);
    BlockValuesNonEmpty(CLIENT_RELATIONS_FRAMEWORKS, CLIENT_RELATIONS_TIPS);
  }

  lemma TipsMatchFrameworksInInnovation()
    ensures forall i :: 0 <= i < |INNOVATION_FRAMEWORKS| ==> INNOVATION_FRAMEWORKS[i].id in INNOVATION_TIPS && INNOVATION_TIPS[INNOVATION_FRAMEWORKS[i].id] != ""
    ensures forall k :: k in INNOVATION_TIPS ==> exists i :: 0 <= i < |INNOVATION_FRAMEWORKS| && INNOVATION_FRAMEWORKS[i].id == k
    ensures NonEmptyValues(INNOVATION_TIPS)
  {
    assert INNOVATION_FRAMEWORKS[0].id == FrameworkId(49);
    assert INNOVATION_FRAMEWORKS[1].id == FrameworkId(50);
    assert INNOVATION_FRAMEWORKS[2].id == FrameworkId(51);
    assert INNOVATION_FRAMEWORKS[3].id == FrameworkId(52);
    assert INNOVATION_FRAMEWORKS[4].id == FrameworkId(53);
    assert INNOVATION_FRAMEWORKS[5].id == FrameworkId(54);
    assert INNOVATION_FRAMEWORKS[6].id == FrameworkId(55);
    BlockValuesNonEmpty(INNOVATION_FRAMEWORKS, INNOVATION_TIPS);
  }

  lemma TipsMatchFrameworksInProductivity()
    ensures forall i :: 0 <= i < |PRODUCTIVITY_FRAMEWORKS| ==> PRODUCTIVITY_FRAMEWORKS[i].id in PRODUCTIVITY_TIPS && PRODUCTIVITY_TIPS[PRODUCTIVITY_FRAMEWORKS[i].id] != ""
    ensures forall k :: k in PRODUCTIVITY_TIPS ==> exists i :: 0 <= i < |PRODUCTIVITY_FRAMEWORKS| && PRODUCTIVITY_FRAMEWORKS[i].id == k
    ensures NonEmptyValues(PRODUCTIVITY_TIPS)
  {
    assert PRODUCTIVITY_FRAMEWORKS[0].id == FrameworkId(56);
    assert PRODUCTIVITY_FRAMEWORKS[1].id == FrameworkId(57);
    assert PRODUCTIVITY_FRAMEWORKS[2].id == FrameworkId(58);
    assert PRODUCTIVITY_FRAMEWORKS[3].id == FrameworkId(59);
    assert PRODUCTIVITY_FRAMEWORKS[4].id == FrameworkId(60);
    assert PRODUCTIVITY_FRAMEWORKS[5].id == FrameworkId(61);
    assert PRODUCTIVITY_FRAMEWORKS[6].id == FrameworkId(62);
    BlockValuesNonEmpty(PRODUCTIVITY_FRAMEWORKS, PRODUCTIVITY_TIPS);
  }

  lemma TipsMatchFrameworksInMoneyValue()
    ensures forall i :: 0 <= i < |MONEY_VALUE_FRAMEWORKS| ==> MONEY_VALUE_FRAMEWORKS[i].id in MONEY_VALUE_TIPS && MONEY_VALUE_TIPS[MONEY_VALUE_FRAMEWORKS[i].id] != ""
    ensures forall k :: k in MONEY_VALUE_TIPS ==> exists i :: 0 <= i < |MONEY_VALUE_FRAMEWORKS| && MONEY_VALUE_FRAMEWORKS[i].id == k
    ensures NonEmptyValues(MONEY_VALUE_TIPS)
  {
    assert MONEY_VALUE_FRAMEWORKS[0].id == FrameworkId(63);
    assert MONEY_VALUE_FRAMEWORKS[1].id == FrameworkId(64);
    assert MONEY_VALUE_FRAMEWORKS[2].id == FrameworkId(65);
    assert MONEY_VALUE_FRAMEWORKS[3].id == FrameworkId(66);
    assert MONEY_VALUE_FRAMEWORKS[4].id == FrameworkId(67);
    assert MONEY_VALUE_FRAMEWORKS[5].id == FrameworkId(68);
    BlockValuesNonEmpty(MONEY_VALUE_FRAMEWORKS, MONEY_VALUE_TIPS);
  }

  lemma TipsMatchFrameworksInRedFlags()
    ensures forall i :: 0 <= i < |RED_FLAGS_FRAMEWORKS| ==> RED_FLAGS_FRAMEWORKS[i].id in RED_FLAGS_TIPS && RED_FLAGS_TIPS[RED_FLAGS_FRAMEWORKS[i].id] != ""
    ensures forall k :: k in RED_FLAGS_TIPS ==> exists i :: 0 <= i < |RED_FLAGS_FRAMEWORKS| && RED_FLAGS_FRAMEWORKS[i].id == k
    ensures NonEmptyValues(RED_FLAGS_TIPS)
  {
    assert RED_FLAGS_FRAMEWORKS[0].id == FrameworkId(69);
    BlockValuesNonEmpty(RED_FLAGS_FRAMEWORKS, RED_FLAGS_TIPS);
  }

  lemma TipsMatchFrameworksInNews()
    ensures forall i :: 0 <= i < |NEWS_FRAMEWORKS| ==> NEWS_FRAMEWORKS[i].id in NEWS_TIPS && NEWS_TIPS[NEWS_FRAMEWORKS[i].id] != ""
    ensures forall k :: k in NEWS_TIPS ==> exists i :: 0 <= i < |NEWS_FRAMEWORKS| && NEWS_FRAMEWORKS[i].id == k
    ensures NonEmptyValues(NEWS_TIPS)
  {
    assert NEWS_FRAMEWORKS[0].id == FrameworkId(70);
    BlockValuesNonEmpty(NEWS_FRAMEWORKS, NEWS_TIPS);
  }

  /** The id the news-digest framework is recognised by. */
  const NEWS_FRAMEWORK_ID: string := "Framework 70"

  /** News offers exactly one framework, whose id is "Framework 70". */
  lemma NewsOffersOnlyFramework70()
    ensures Frameworks(News) == [FrameworkDefinition(NEWS_FRAMEWORK_ID, "TOP-3 News", "3 news items from the past 24 hours.")]
  {
    assert Text.NatToString(7) == "7";
    assert Text.NatToString(70) == "70";
    assert FrameworkId(70) == NEWS_FRAMEWORK_ID;
  }

  /** "Framework 70" is the id of the News entry and of no other framework. */
  lemma Framework70OnlyInNews(c: Category, i: nat)
    requires i < |Frameworks(c)|
    ensures Frameworks(c)[i].id == NEWS_FRAMEWORK_ID <==> c == News && i == 0
  {
    NewsOffersOnlyFramework70();
    FrameworkIdsUnique(c, i, News, 0);
  }

  /** Every value of `m` is a non-empty string. */
  ghost predicate NonEmptyValues(m: map<string, string>) {
    forall k :: k in m ==> m[k] != ""
  }

  /** A block whose keys are all framework ids with non-empty tips has only non-empty tips. */
  lemma BlockValuesNonEmpty(fs: seq<FrameworkDefinition>, tips: map<string, string>)
    requires forall i :: 0 <= i < |fs| ==> fs[i].id in tips && tips[fs[i].id] != ""
    requires forall k :: k in tips ==> exists i :: 0 <= i < |fs| && fs[i].id == k
    ensures NonEmptyValues(tips)
  {
  }

  /** A union of maps without empty values has no empty value. */
  lemma UnionNonEmpty(
      m0: map<string, string>, m1: map<string, string>, m2: map<string, string>, m3: map<string, string>,
      m4: map<string, string>, m5: map<string, string>, m6: map<string, string>, m7: map<string, string>,
      m8: map<string, string>, m9: map<string, string>, m10: map<string, string>)
    requires NonEmptyValues(m0) && NonEmptyValues(m1) && NonEmptyValues(m2) && NonEmptyValues(m3)
    requires NonEmptyValues(m4) && NonEmptyValues(m5) && NonEmptyValues(m6) && NonEmptyValues(m7)
    requires NonEmptyValues(m8) && NonEmptyValues(m9) && NonEmptyValues(m10)
    ensures NonEmptyValues(m0 + m1 + m2 + m3 + m4 + m5 + m6 + m7 + m8 + m9 + m10)
  {
  }

  /** A key of a union is a key of one of its parts. */
  lemma UnionKeys(
      m0: map<string, string>, m1: map<string, string>, m2: map<string, string>, m3: map<string, string>,
      m4: map<string, string>, m5: map<string, string>, m6: map<string, string>, m7: map<string, string>,
      m8: map<string, string>, m9: map<string, string>, m10: map<string, string>, k: string)
    requires k in m0 + m1 + m2 + m3 + m4 + m5 + m6 + m7 + m8 + m9 + m10
    ensures k in m0 || k in m1 || k in m2 || k in m3 || k in m4 || k in m5
      || k in m6 || k in m7 || k in m8 || k in m9 || k in m10
  {
  }

  /** No pro tip is the empty string. */
  lemma ProTipsNonEmpty()
    ensures NonEmptyValues(FRAMEWORK_PRO_TIPS)
  {
    TipsNonEmptyInHarshTruths();
    TipsNonEmptyInPersonalJourney();
    TipsNonEmptyInLeadership();
    TipsNonEmptyInProblemSolving();
    TipsNonEmptyInGrowth();
    TipsNonEmptyInClientRelations();
    TipsNonEmptyInInnovation();
    TipsNonEmptyInProductivity();
    TipsNonEmptyInMoneyValue();
    TipsNonEmptyInRedFlags();
    TipsNonEmptyInNews();
    UnionNonEmpty(HARSH_TRUTHS_TIPS, PERSONAL_JOURNEY_TIPS, LEADERSHIP_TIPS, PROBLEM_SOLVING_TIPS,
      GROWTH_TIPS, CLIENT_RELATIONS_TIPS, INNOVATION_TIPS, PRODUCTIVITY_TIPS,
      MONEY_VALUE_TIPS, RED_FLAGS_TIPS, NEWS_TIPS);
  }

  lemma TipsNonEmptyInHarshTruths()
    ensures NonEmptyValues(HARSH_TRUTHS_TIPS)
  {
    TipsMatchFrameworksInHarshTruths();
  }

  lemma TipsNonEmptyInPersonalJourney()
    ensures NonEmptyValues(PERSONAL_JOURNEY_TIPS)
  {
    TipsMatchFrameworksInPersonalJourney();
  }

  lemma TipsNonEmptyInLeadership()
    ensures NonEmptyValues(LEADERSHIP_TIPS)
  {
    TipsMatchFrameworksInLeadership();
  }

  lemma TipsNonEmptyInProblemSolving()
    ensures NonEmptyValues(PROBLEM_SOLVING_TIPS)
  {
    TipsMatchFrameworksInProblemSolving();
  }

  lemma TipsNonEmptyInGrowth()
    ensures NonEmptyValues(GROWTH_TIPS)
  {
    TipsMatchFrameworksInGrowth();
  }

  lemma TipsNonEmptyInClientRelations()
    ensures NonEmptyValues(CLIENT_RELATIONS_TIPS)
  {
    TipsMatchFrameworksInClientRelations();
  }

  lemma TipsNonEmptyInInnovation()
    ensures NonEmptyValues(INNOVATION_TIPS)
  {
    TipsMatchFrameworksInInnovation();
  }

  lemma TipsNonEmptyInProductivity()
    ensures NonEmptyValues(PRODUCTIVITY_TIPS)
  {
    TipsMatchFrameworksInProductivity();
  }

  lemma TipsNonEmptyInMoneyValue()
    ensures NonEmptyValues(MONEY_VALUE_TIPS)
  {
    TipsMatchFrameworksInMoneyValue();
  }

  lemma TipsNonEmptyInRedFlags()
    ensures NonEmptyValues(RED_FLAGS_TIPS)
  {
    TipsMatchFrameworksInRedFlags();
  }

  lemma TipsNonEmptyInNews()
    ensures NonEmptyValues(NEWS_TIPS)
  {
    TipsMatchFrameworksInNews();
  }

  /** Every framework of the table has a non-empty pro tip. */
  lemma EveryFrameworkHasTip(c: Category, i: nat)
    requires i < |Frameworks(c)|
    ensures Frameworks(c)[i].id in FRAMEWORK_PRO_TIPS
    ensures FRAMEWORK_PRO_TIPS[Frameworks(c)[i].id] != ""
  {
    ProTipsNonEmpty();
    match c
    case HarshTruths => FrameworkHasTipInHarshTruths(i);
    case PersonalJourney => FrameworkHasTipInPersonalJourney(i);
    case Leadership => FrameworkHasTipInLeadership(i);
    case ProblemSolving => FrameworkHasTipInProblemSolving(i);
    case Growth => FrameworkHasTipInGrowth(i);
    case ClientRelations => FrameworkHasTipInClientRelations(i);
    case Innovation => FrameworkHasTipInInnovation(i);
    case Productivity => FrameworkHasTipInProductivity(i);
    case MoneyValue => FrameworkHasTipInMoneyValue(i);
    case RedFlags => FrameworkHasTipInRedFlags(i);
    case News => FrameworkHasTipInNews(i);
  }

  /** `k` is the id of some framework of the table. */
  ghost predicate IsFrameworkId(k: string) {
    exists c: Category, i :: 0 <= i < |Frameworks(c)| && Frameworks(c)[i].id == k
  }

  /** Every key of the tip table is the id of some framework of the table. */
  lemma EveryTipIsForAFramework(k: string)
    requires k in FRAMEWORK_PRO_TIPS
    ensures IsFrameworkId(k)
  {
    UnionKeys(HARSH_TRUTHS_TIPS, PERSONAL_JOURNEY_TIPS, LEADERSHIP_TIPS, PROBLEM_SOLVING_TIPS,
      GROWTH_TIPS, CLIENT_RELATIONS_TIPS, INNOVATION_TIPS, PRODUCTIVITY_TIPS,
      MONEY_VALUE_TIPS, RED_FLAGS_TIPS, NEWS_TIPS, k);
    if k in HARSH_TRUTHS_TIPS {
      TipIsForAFrameworkInHarshTruths(k);
    } else if k in PERSONAL_JOURNEY_TIPS {
      TipIsForAFrameworkInPersonalJourney(k);
    } else if k in LEADERSHIP_TIPS {
      TipIsForAFrameworkInLeadership(k);
    } else if k in PROBLEM_SOLVING_TIPS {
      TipIsForAFrameworkInProblemSolving(k);
    } else if k in GROWTH_TIPS {
      TipIsForAFrameworkInGrowth(k);
    } else if k in CLIENT_RELATIONS_TIPS {
      TipIsForAFrameworkInClientRelations(k);
    } else if k in INNOVATION_TIPS {
      TipIsForAFrameworkInInnovation(k);
    } else if k in PRODUCTIVITY_TIPS {
      TipIsForAFrameworkInProductivity(k);
    } else if k in MONEY_VALUE_TIPS {
      TipIsForAFrameworkInMoneyValue(k);
    } else if k in RED_FLAGS_TIPS {
      TipIsForAFrameworkInRedFlags(k);
    } else {
      TipIsForAFrameworkInNews(k);
    }
  }

  lemma FrameworkHasTipInHarshTruths(i: nat)
    requires i < |HARSH_TRUTHS_FRAMEWORKS|
    ensures HARSH_TRUTHS_FRAMEWORKS[i].id in FRAMEWORK_PRO_TIPS
  {
    TipsMatchFrameworksInHarshTruths();
  }

  lemma TipIsForAFrameworkInHarshTruths(k: string)
    requires k in HARSH_TRUTHS_TIPS
    ensures IsFrameworkId(k)
  {
    TipsMatchFrameworksInHarshTruths();
    var i :| 0 <= i < |HARSH_TRUTHS_FRAMEWORKS| && HARSH_TRUTHS_FRAMEWORKS[i].id == k;
    assert Frameworks(HarshTruths)[i].id == k;
  }

  lemma FrameworkHasTipInPersonalJourney(i: nat)
    requires i < |PERSONAL_JOURNEY_FRAMEWORKS|
    ensures PERSONAL_JOURNEY_FRAMEWORKS[i].id in FRAMEWORK_PRO_TIPS
  {
    TipsMatchFrameworksInPersonalJourney();
  }

  lemma TipIsForAFrameworkInPersonalJourney(k: string)
    requires k in PERSONAL_JOURNEY_TIPS
    ensures IsFrameworkId(k)
  {
    TipsMatchFrameworksInPersonalJourney();
    var i :| 0 <= i < |PERSONAL_JOURNEY_FRAMEWORKS| && PERSONAL_JOURNEY_FRAMEWORKS[i].id == k;
    assert Frameworks(PersonalJourney)[i].id == k;
  }

  lemma FrameworkHasTipInLeadership(i: nat)
    requires i < |LEADERSHIP_FRAMEWORKS|
    ensures LEADERSHIP_FRAMEWORKS[i].id in FRAMEWORK_PRO_TIPS
  {
    TipsMatchFrameworksInLeadership();
  }

  lemma TipIsForAFrameworkInLeadership(k: string)
    requires k in LEADERSHIP_TIPS
    ensures IsFrameworkId(k)
  {
    TipsMatchFrameworksInLeadership();
    var i :| 0 <= i < |LEADERSHIP_FRAMEWORKS| && LEADERSHIP_FRAMEWORKS[i].id == k;
    assert Frameworks(Leadership)[i].id == k;
  }

  lemma FrameworkHasTipInProblemSolving(i: nat)
    requires i < |PROBLEM_SOLVING_FRAMEWORKS|
    ensures PROBLEM_SOLVING_FRAMEWORKS[i].id in FRAMEWORK_PRO_TIPS
  {
    TipsMatchFrameworksInProblemSolving();
  }

  lemma TipIsForAFrameworkInProblemSolving(k: string)
    requires k in PROBLEM_SOLVING_TIPS
    ensures IsFrameworkId(k)
  {
    TipsMatchFrameworksInProblemSolving();
    var i :| 0 <= i < |PROBLEM_SOLVING_FRAMEWORKS| && PROBLEM_SOLVING_FRAMEWORKS[i].id == k;
    assert Frameworks(ProblemSolving)[i].id == k;
  }

  lemma FrameworkHasTipInGrowth(i: nat)
    requires i < |GROWTH_FRAMEWORKS|
    ensures GROWTH_FRAMEWORKS[i].id in FRAMEWORK_PRO_TIPS
  {
    TipsMatchFrameworksInGrowth();
  }

  lemma TipIsForAFrameworkInGrowth(k: string)
    requires k in GROWTH_TIPS
    ensures IsFrameworkId(k)
  {
    TipsMatchFrameworksInGrowth();
    var i :| 0 <= i < |GROWTH_FRAMEWORKS| && GROWTH_FRAMEWORKS[i].id == k;
    assert Frameworks(Growth)[i].id == k;
  }

  lemma FrameworkHasTipInClientRelations(i: nat)
    requires i < |CLIENT_RELATIONS_FRAMEWORKS|
    ensures CLIENT_RELATIONS_FRAMEWORKS[i].id in FRAMEWORK_PRO_TIPS
  {
    TipsMatchFrameworksInClientRelations();
  }

  lemma TipIsForAFrameworkInClientRelations(k: string)
    requires k in CLIENT_RELATIONS_TIPS
    ensures IsFrameworkId(k)
  {
    TipsMatchFrameworksInClientRelations();
    var i :| 0 <= i < |CLIENT_RELATIONS_FRAMEWORKS| && CLIENT_RELATIONS_FRAMEWORKS[i].id == k;
    assert Frameworks(ClientRelations)[i].id == k;
  }

  lemma FrameworkHasTipInInnovation(i: nat)
    requires i < |INNOVATION_FRAMEWORKS|
    ensures INNOVATION_FRAMEWORKS[i].id in FRAMEWORK_PRO_TIPS
  {
    TipsMatchFrameworksInInnovation();
  }

  lemma TipIsForAFrameworkInInnovation(k: string)
    requires k in INNOVATION_TIPS
    ensures IsFrameworkId(k)
  {
    TipsMatchFrameworksInInnovation();
    var i :| 0 <= i < |INNOVATION_FRAMEWORKS| && INNOVATION_FRAMEWORKS[i].id == k;
    assert Frameworks(Innovation)[i].id == k;
  }

  lemma FrameworkHasTipInProductivity(i: nat)
    requires i < |PRODUCTIVITY_FRAMEWORKS|
    ensures PRODUCTIVITY_FRAMEWORKS[i].id in FRAMEWORK_PRO_TIPS
  {
    TipsMatchFrameworksInProductivity();
  }

  lemma TipIsForAFrameworkInProductivity(k: string)
    requires k in PRODUCTIVITY_TIPS
    ensures IsFrameworkId(k)
  {
    TipsMatchFrameworksInProductivity();
    var i :| 0 <= i < |PRODUCTIVITY_FRAMEWORKS| && PRODUCTIVITY_FRAMEWORKS[i].id == k;
    assert Frameworks(Productivity)[i].id == k;
  }

  lemma FrameworkHasTipInMoneyValue(i: nat)
    requires i < |MONEY_VALUE_FRAMEWORKS|
    ensures MONEY_VALUE_FRAMEWORKS[i].id in FRAMEWORK_PRO_TIPS
  {
    TipsMatchFrameworksInMoneyValue();
  }

  lemma TipIsForAFrameworkInMoneyValue(k: string)
    requires k in MONEY_VALUE_TIPS
    ensures IsFrameworkId(k)
  {
    TipsMatchFrameworksInMoneyValue();
    var i :| 0 <= i < |MONEY_VALUE_FRAMEWORKS| && MONEY_VALUE_FRAMEWORKS[i].id == k;
    assert Frameworks(MoneyValue)[i].id == k;
  }

  lemma FrameworkHasTipInRedFlags(i: nat)
    requires i < |RED_FLAGS_FRAMEWORKS|
    ensures RED_FLAGS_FRAMEWORKS[i].id in FRAMEWORK_PRO_TIPS
  {
    TipsMatchFrameworksInRedFlags();
  }

  lemma TipIsForAFrameworkInRedFlags(k: string)
    requires k in RED_FLAGS_TIPS
    ensures IsFrameworkId(k)
  {
    TipsMatchFrameworksInRedFlags();
    var i :| 0 <= i < |RED_FLAGS_FRAMEWORKS| && RED_FLAGS_FRAMEWORKS[i].id == k;
    assert Frameworks(RedFlags)[i].id == k;
  }

  lemma FrameworkHasTipInNews(i: nat)
    requires i < |NEWS_FRAMEWORKS|
    ensures NEWS_FRAMEWORKS[i].id in FRAMEWORK_PRO_TIPS
  {
    TipsMatchFrameworksInNews();
  }

  lemma TipIsForAFrameworkInNews(k: string)
    requires k in NEWS_TIPS
    ensures IsFrameworkId(k)
  {
    TipsMatchFrameworksInNews();
    var i :| 0 <= i < |NEWS_FRAMEWORKS| && NEWS_FRAMEWORKS[i].id == k;
    assert Frameworks(News)[i].id == k;
  }
}
