/** What the search shows over the repository's own records. */
module Catalog {
  import opened Types
  import opened Text
  import opened Data
  import opened Search

  /** A category with the empty query shows exactly that category's block
      of three records of the repository. */
  lemma CategoryWithEmptyQueryIsItsBlock(c: Category)
    ensures Filter(AllPrompts(), Only(c), "") == AllPrompts()[3 * Ordinal(c)..3 * Ordinal(c) + 3]
  {
    ThreePerCategory(c);
    CategoryBlockWithEmptyQuery(AllPrompts(), c, 3 * Ordinal(c), 3 * Ordinal(c) + 3);
  }

  /** Searching the whole repository for "docker", in any letter case,
      shows the record `do-01`, whose title starts with "Docker". */
  lemma DockerFindsDo01(query: string)
    requires Lower(query) == "docker"
    ensures var r := Filter(AllPrompts(), All, query);
      exists k :: 0 <= k < |r| && r[k].id == "do-01"
  {
    Do01Arguments();
    LowerDocker();
    AllPromptsAt(30);
    TitlePrefixShown(AllPrompts(), 30, All, "Docker", query);
  }

  /** The arguments of the record at position 30. */
  lemma Do01Arguments()
    ensures Id(30) == "do-01"
    ensures "Docker" <= Title(30)
  {
    assert Title(30) == "Docker Multi-Stage Build (Node.js)";
  }

  lemma LowerDocker()
    ensures Lower("Docker") == "docker"
  {
  }
}
