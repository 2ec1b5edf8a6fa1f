/** The best-scores panel (src/components/HighScorePanel.tsx:14-18): a copy
    of the scores filtered to one language, sorted highest first and cut to
    five. Values are immutable here, so the caller's list is untouched. */
module HighScorePanel {
  import opened Common
  import opened Storage

  const MAX_SHOWN: nat := 5

  /** `filtered` */
  function Shown(scores: seq<Score>, lang: Language): seq<Score>
  {
    Take(SortDesc(OfLanguage(scores, lang)), MAX_SHOWN)
  }

  /** With k scores of the language, exactly min(k, 5) are shown, all of
      that language, highest first, and none left out beats one shown. */
  lemma ShownAreTopFive(scores: seq<Score>, lang: Language)
    ensures var r, m := Shown(scores, lang), OfLanguage(scores, lang);
      && |r| == (if |m| < MAX_SHOWN then |m| else MAX_SHOWN)
      && (forall x :: x in r ==> x in scores && x.language == lang)
      && SortedDesc(r)
      && multiset(r) <= multiset(m)
      && forall x, y :: x in multiset(m) - multiset(r) && y in r ==> x.wpm <= y.wpm
  {
    var m := OfLanguage(scores, lang);
    var t := SortDesc(m);
    assert |t| == |m| by {
      assert |multiset(t)| == |multiset(m)|;
    }
    TakeKeepsBest(t, MAX_SHOWN);
    forall x | x in Shown(scores, lang) ensures x in scores && x.language == lang {
      assert x in multiset(Shown(scores, lang));
    }
  }
}
