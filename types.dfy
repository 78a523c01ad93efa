/**
 * The enumerations and records shared by the form, the service and the result
 * view. Each enumeration is a datatype whose `Value` is the string the
 * application shows, sends in the prompt and uses as a table key.
 */
module Types {
  import opened Wrappers

  datatype Audience = GalleryOwners | FestivalDirectors | CreativeFounders | ArtLovers
  {
    function Value(): string {
      match this
      case GalleryOwners => "Gallery Owners"
      case FestivalDirectors => "Festival Directors"
      case CreativeFounders => "Creative Founders/Strategists"
      case ArtLovers => "Art Lovers"
    }
  }

  datatype Category =
    | HarshTruths | PersonalJourney | Leadership | ProblemSolving | Growth | ClientRelations
    | Innovation | Productivity | MoneyValue | RedFlags | News
  {
    function Value(): string {
      match this
      case HarshTruths => "Harsh Truths"
      case PersonalJourney => "Personal Journey"
      case Leadership => "Leadership & Management"
      case ProblemSolving => "Problem Solving"
      case Growth => "Growth & Development"
      case ClientRelations => "Client Relations"
      case Innovation => "Innovation & Change"
      case Productivity => "Productivity & Systems"
      case MoneyValue => "Money & Value"
      case RedFlags => "Red Flags / Green Flags"
      case News => "News"
    }
  }

  datatype PostGoal = Engagement | Newsletter | Consultation | Event | Authority
  {
    function Value(): string {
      match this
      case Engagement => "Engagement / Discussion"
      case Newsletter => "Newsletter Subscription"
      case Consultation => "Book a Consultation"
      case Event => "Event Invitation"
      case Authority => "Build Authority (No Ask)"
    }
  }

  datatype PostTone = Rant | Empathic | Analytical | Storyteller
  {
    function Value(): string {
      match this
      case Rant => "\U{1F525} Rant / Critical"
      case Empathic => "\U{1F91D} Empathic / Supportive"
      case Analytical => "\U{1F9E0} Analytical / Data-Driven"
      case Storyteller => "\U{1F4D6} Storyteller / Vulnerable"
    }
  }

  /** One submission of the form; `frameworkId` is optional in the record's type. */
  datatype PostRequest = PostRequest(
    audience: Audience,
    category: Category,
    topic: string,
    frameworkId: Option<string>,
    includeNews: bool,
    goal: PostGoal,
    tone: PostTone)

  datatype SourceLink = SourceLink(title: string, url: string)

  /** The parsed reply: the long post plus the optional per-platform variants. */
  datatype GeneratedPost = GeneratedPost(
    title: string,
    content: string,
    shortContent: Option<string>,
    telegramContent: Option<string>,
    instagramContent: Option<string>,
    youtubeContent: Option<string>,
    alternativeHooks: Option<seq<string>>,
    frameworkUsed: string,
    rationale: string,
    sourceLinks: Option<seq<SourceLink>>)

  /** JavaScript truthiness of an optional string: present and not "". */
  predicate IsSet(s: Option<string>) {
    s.Some? && s.value != ""
  }
}
