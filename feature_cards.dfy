/**
 * The feature cards the dashboards list: each has an id, a title and a
 * one-line summary, and the search box matches a card on its title or its
 * summary.
 */
module FeatureCards {
  import opened JsStrings
  import opened ListView

  /** A feature card: its id, title and one-line summary. */
  datatype Feature = Feature(id: string, title: string, short: string)

  /** The fields the search looks at: the title and the summary. */
  function TitleShort(f: Feature): seq<string> {
    [f.title, f.short]
  }

  /**
   * The filtered feature list: all cards for a blank query, otherwise, in
   * catalogue order, the cards whose title or summary contains the query.
   */
  function FeaturesFiltered(features: seq<Feature>, query: string): (r: seq<Feature>)
    ensures Query(query) == "" ==> r == features
    ensures forall f :: f in r <==>
      f in features && (Query(query) == "" || Includes(ToLower(f.title), Query(query)) || Includes(ToLower(f.short), Query(query)))
  {
    var r := Search(features, query, TitleShort);
    assert forall f :: FieldsMatch(TitleShort(f), Query(query)) <==>
      Includes(ToLower(f.title), Query(query)) || Includes(ToLower(f.short), Query(query)) by {
      forall f ensures FieldsMatch(TitleShort(f), Query(query)) <==>
        Includes(ToLower(f.title), Query(query)) || Includes(ToLower(f.short), Query(query)) {
        assert TitleShort(f)[0] == f.title && TitleShort(f)[1] == f.short;
      }
    }
    r
  }

  /** The ids of a catalogue are pairwise distinct. */
  predicate DistinctIds(features: seq<Feature>) {
    forall i, j | 0 <= i < j < |features| :: features[i].id != features[j].id
  }

  /** A catalogue of nine cards fills two pages of six, the second holding three. */
  lemma NineCardsTwoPages(features: seq<Feature>)
    requires |features| == 9
    ensures TotalPages(|features|, 6) == 2
    ensures |Page(features, 1, 6)| == 6 && |Page(features, 2, 6)| == 3
  {
    assert |JsSlice(features, 0, 6)| == 6;
    assert |JsSlice(features, 6, 12)| == 3;
  }

  /** With a blank query every card of the catalogue is listed. */
  lemma BlankQueryListsAll(features: seq<Feature>)
    ensures FeaturesFiltered(features, "") == features
  {
    assert AllSpace("");
  }
}
