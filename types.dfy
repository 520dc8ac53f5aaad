/** The record schema of the gallery: the closed category enumeration and the
    prompt record (types.ts). */
module Types {

  /** `CategoryType`, in declaration order. */
  datatype Category =
    | WebDesign
    | WebProgramming
    | Shaders
    | Python
    | JavaScript
    | MachineLearning
    | GameDev
    | DataScience
    | MobileApps
    | Cybersecurity
    | DevOps
    | AITools

  /** The string value each enum member stands for at run time. */
  function DisplayName(c: Category): (name: string)
    ensures name != [] && name != "All"
  {
    match c
    case WebDesign => "Web Design"
    case WebProgramming => "Web Programming"
    case Shaders => "Shaders"
    case Python => "Python Programming"
    case JavaScript => "JavaScript"
    case MachineLearning => "Machine Learning"
    case GameDev => "Game Development"
    case DataScience => "Data Science"
    case MobileApps => "Mobile Apps"
    case Cybersecurity => "Cybersecurity"
    case DevOps => "DevOps"
    case AITools => "AI Tools"
  }

  const CategoryCount: nat := 12

  /** The members in declaration order. */
  function AllCategories(): seq<Category> {
    [WebDesign, WebProgramming, Shaders, Python, JavaScript, MachineLearning,
     GameDev, DataScience, MobileApps, Cybersecurity, DevOps, AITools]
  }

  /** The position of a member in the declaration. */
  function Ordinal(c: Category): (i: nat)
    ensures i < CategoryCount && AllCategories()[i] == c
  {
    match c
    case WebDesign => 0
    case WebProgramming => 1
    case Shaders => 2
    case Python => 3
    case JavaScript => 4
    case MachineLearning => 5
    case GameDev => 6
    case DataScience => 7
    case MobileApps => 8
    case Cybersecurity => 9
    case DevOps => 10
    case AITools => 11
  }

  /** Every member is declared exactly once, so the declaration order is a
      bijection between positions and members. */
  lemma DeclarationOrderIsBijective()
    ensures |AllCategories()| == CategoryCount
    ensures forall i :: 0 <= i < CategoryCount ==> Ordinal(AllCategories()[i]) == i
    ensures forall c :: AllCategories()[Ordinal(c)] == c
  {
  }

  /** Distinct members have distinct string values, so comparing the strings
      (as the filter and the sidebar do) is comparing the members. */
  lemma DisplayNameInjective(c1: Category, c2: Category)
    ensures DisplayName(c1) == DisplayName(c2) <==> c1 == c2
  {
  }

  /** `Prompt`. */
  datatype Prompt = Prompt(
    id: string,
    category: Category,
    title: string,
    description: string,
    code: string,
    tags: seq<string>)
}
