/**
 * The leaderboard document: a map from category name to the results
 * recorded for it, oldest first. A finished quiz appends one entry to
 * its category.
 */
module Leaderboard {

  import opened Wrappers

  /** One recorded result: `{name, score, totalQuestions}`. */
  datatype Entry = Entry(name: string, score: nat, totalQuestions: nat)

  /** The parsed `score_data` document. */
  type Document = map<string, seq<Entry>>

  /** The results recorded for `category`, empty when it has none yet. */
  function Recorded(doc: Document, category: string): seq<Entry>
  {
    if category in doc then doc[category] else []
  }

  /** The category of a quiz route names a leaderboard list only when it is
      neither `undefined` nor the empty string (JavaScript truthiness). */
  predicate NamesList(category: Option<string>)
  {
    category.Some? && category.value != ""
  }

  /** The merge: give a missing category an empty list, then push `entry`
      onto that category's list. Nothing else in the document changes. */
  function Merge(doc: Document, category: string, entry: Entry): (r: Document)
    ensures r.Keys == doc.Keys + {category}
    ensures |r[category]| == |Recorded(doc, category)| + 1
    ensures r[category][..|r[category]| - 1] == Recorded(doc, category)
    ensures r[category][|r[category]| - 1] == entry
    ensures forall c | c in doc && c != category :: r[c] == doc[c]
  {
    var list := if category in doc then doc[category] else [];
    var pushed := list + [entry];
    assert pushed[..|pushed| - 1] == list;
    doc[category := pushed]
  }

  /** Entries are never rewritten: every list of the old document is a
      prefix of the same category's list afterwards. */
  lemma MergeAppendOnly(doc: Document, category: string, entry: Entry)
    ensures forall c | c in doc ::
              c in Merge(doc, category, entry) && doc[c] <= Merge(doc, category, entry)[c]
  {
  }

  /** Two sessions for the same category are kept in the order they finished,
      neither collapsed nor swapped. */
  lemma MergeTwiceKeepsOrder(doc: Document, category: string, e1: Entry, e2: Entry)
    ensures Merge(Merge(doc, category, e1), category, e2)[category]
      == Recorded(doc, category) + [e1, e2]
  {
  }

  /** Sessions of different categories do not interfere: the order in which
      they are merged does not matter. */
  lemma MergeCommutesAcrossCategories(doc: Document, c1: string, e1: Entry, c2: string, e2: Entry)
    requires c1 != c2
    ensures Merge(Merge(doc, c1, e1), c2, e2) == Merge(Merge(doc, c2, e2), c1, e1)
  {
  }

  /** A category merged into for the first time, then again: it ends up
      holding exactly the two entries, in order, and nothing else changes. */
  lemma MergeFreshCategoryTwice(doc: Document, category: string, e1: Entry, e2: Entry)
    requires category !in doc
    ensures Merge(Merge(doc, category, e1), category, e2) == doc[category := [e1, e2]]
  {
    MergeTwiceKeepsOrder(doc, category, e1, e2);
    var twice := Merge(Merge(doc, category, e1), category, e2);
    var expected := doc[category := [e1, e2]];
    assert twice.Keys == expected.Keys;
    assert forall c | c in twice :: twice[c] == expected[c];
  }
}
