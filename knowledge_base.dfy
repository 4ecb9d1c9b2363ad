/**
 * The knowledge-base search: the items whose title or content contains the
 * query, both lowered to ASCII lower case.
 */
module KnowledgeBase {
  import opened Common

  datatype KnowledgeItem = KnowledgeItem(id: string, title: string, content: string, category: string)

  const InitialItems := [
    KnowledgeItem("1", "Getting Started",
      "Welcome to the knowledge base. Here you can find helpful information...", "General")
  ]

  /** The search predicate for a query already in lower case. */
  function MatchesLowered(lowered: string): KnowledgeItem -> bool {
    (item: KnowledgeItem) => Contains(ToLower(item.title), lowered) || Contains(ToLower(item.content), lowered)
  }

  /** Whether an item is found by a query, ignoring letter case. */
  predicate Matches(item: KnowledgeItem, query: string) {
    Contains(ToLower(item.title), ToLower(query)) || Contains(ToLower(item.content), ToLower(query))
  }

  /** `filteredItems`: every item whose title or content contains the query
      ignoring case, and only those, in the original order and each as often
      as in the input. */
  function FilteredItems(items: seq<KnowledgeItem>, query: string): (r: seq<KnowledgeItem>)
    ensures IsSubsequence(r, items)
    ensures forall i :: 0 <= i < |r| ==> Matches(r[i], query)
    ensures forall i :: 0 <= i < |items| && Matches(items[i], query) ==> items[i] in r
    ensures forall x :: multiset(r)[x] == if Matches(x, query) then multiset(items)[x] else 0
  {
    FilterCount(items, MatchesLowered(ToLower(query)));
    Filter(items, MatchesLowered(ToLower(query)))
  }

  /** An empty query finds every item. */
  lemma EmptyQueryFindsAll(items: seq<KnowledgeItem>)
    ensures FilteredItems(items, "") == items
  {
    forall i | 0 <= i < |items|
      ensures MatchesLowered(ToLower(""))(items[i])
    {
      ContainsEmpty(ToLower(items[i].title));
    }
    FilterKeepsAll(items, MatchesLowered(ToLower("")));
  }

  /** Changing only the case of letters in the query changes nothing. */
  lemma CaseOfQueryIrrelevant(items: seq<KnowledgeItem>, q1: string, q2: string)
    requires SameUpToCase(q1, q2)
    ensures FilteredItems(items, q1) == FilteredItems(items, q2)
  {
    SameUpToCaseLowersEqual(q1, q2);
  }

  /** A match is an occurrence of the lowered query at some position of the
      lowered title or content. */
  lemma MatchIsOccurrence(item: KnowledgeItem, query: string)
    ensures Matches(item, query) <==>
      (exists i :: OccursAt(ToLower(item.title), ToLower(query), i))
      || (exists i :: OccursAt(ToLower(item.content), ToLower(query), i))
  {
    ContainsIffOccurs(ToLower(item.title), ToLower(query));
    ContainsIffOccurs(ToLower(item.content), ToLower(query));
  }

  /** The initial item is found by "GETTING", the start of its title in
      another case. */
  lemma InitialItemFoundInAnyCase()
    ensures FilteredItems(InitialItems, "GETTING") == InitialItems
  {
    var title := "Getting Started";
    assert InitialItems[0].title == title;
    var lowered := ToLower(title);
    assert OccursAt(lowered, ToLower("GETTING"), 0) by {
      assert ToLower("GETTING") == "getting";
      assert title[0] == 'G' && title[1] == 'e' && title[2] == 't' && title[3] == 't';
      assert title[4] == 'i' && title[5] == 'n' && title[6] == 'g';
      assert lowered[..7] == "getting";
    }
    MatchIsOccurrence(InitialItems[0], "GETTING");
    FilterKeepsAll(InitialItems, MatchesLowered(ToLower("GETTING")));
  }
}
