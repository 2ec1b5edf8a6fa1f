/**
  Persistence of high scores and history (src/lib/storage.ts).

  localStorage is a map from key to what `JSON.parse` makes of the stored
  text: a key may be absent, hold an array of score records (`Some`), or
  hold text that does not parse (`None`). The list computations are
  functions; the three savers are methods that overwrite or remove one key.
*/
module Storage {
  import opened Common

  /** A score record. History entries carry an `id`; the page saves the
      same record, `id` included, as a high score. */
  datatype Score = Score(wpm: int, accuracy: int, language: Language, duration: int, date: string, id: Option<string>)

  const HIGH_SCORE_KEY: string := "typingApp_highScores"
  const HISTORY_KEY: string := "typingApp_history"
  const MAX_HISTORY: nat := 20
  const MAX_HIGH_SCORES: nat := 10

  type Items = map<string, Option<seq<Score>>>

  /** `JSON.parse(localStorage.getItem(key) || "[]")`, with a parse failure
      caught and read as `[]`. */
  function ReadList(items: Items, key: string): (r: seq<Score>)
    ensures key !in items || items[key].None? ==> r == []
    ensures key in items && items[key].Some? ==> r == items[key].value
  {
    if key in items && items[key].Some? then items[key].value else []
  }

  /** `getHighScores()` */
  function GetHighScores(items: Items): seq<Score>
  {
    ReadList(items, HIGH_SCORE_KEY)
  }

  /** `getHistory()` */
  function GetHistory(items: Items): seq<Score>
  {
    ReadList(items, HISTORY_KEY)
  }

  /** `s.slice(0, n)` */
  function Take(s: seq<Score>, n: nat): seq<Score>
  {
    if |s| <= n then s else s[..n]
  }

  /** `s.filter((x) => x.language === lang)` */
  function OfLanguage(s: seq<Score>, lang: Language): (r: seq<Score>)
    ensures forall x :: x in r <==> x in s && x.language == lang
    ensures forall x {:trigger multiset(r)[x]} :: multiset(r)[x] == if x.language == lang then multiset(s)[x] else 0
    ensures |r| <= |s|
  {
    if s == [] then []
    else
      assert s == [s[0]] + s[1..];
      (if s[0].language == lang then [s[0]] else []) + OfLanguage(s[1..], lang)
  }

  /** The filter keeps the stored order: filtering a concatenation is
      concatenating the filtered parts. */
  lemma {:induction false} OfLanguageAppend(a: seq<Score>, b: seq<Score>, lang: Language)
    ensures OfLanguage(a + b, lang) == OfLanguage(a, lang) + OfLanguage(b, lang)
  {
    if a == [] {
      assert a + b == b;
    } else {
      var head := if a[0].language == lang then [a[0]] else [];
      assert (a + b)[0] == a[0] && (a + b)[1..] == a[1..] + b;
      OfLanguageAppend(a[1..], b, lang);
      calc {
        OfLanguage(a + b, lang);
        head + OfLanguage(a[1..] + b, lang);
        head + (OfLanguage(a[1..], lang) + OfLanguage(b, lang));
        (head + OfLanguage(a[1..], lang)) + OfLanguage(b, lang);
        OfLanguage(a, lang) + OfLanguage(b, lang);
      }
    }
  }

  /** `s.reduce((best, x) => x.wpm > best ? x.wpm : best, 0)`: the largest
      wpm, or 0 when there is none larger. */
  function TopWpm(s: seq<Score>): (r: int)
    ensures r >= 0
    ensures forall x :: x in s ==> x.wpm <= r
    ensures r == 0 || exists x :: x in s && x.wpm == r
  {
    if s == [] then 0
    else
      var best := TopWpm(s[..|s| - 1]);
      var x := s[|s| - 1];
      assert forall y :: y in s ==> y in s[..|s| - 1] || y == x;
      if x.wpm > best then x.wpm else best
  }

  /** `isNew` in `saveHighScore`: the entry beats the best stored score of
      its language. */
  predicate IsNewHighScore(scores: seq<Score>, entry: Score)
  {
    entry.wpm > TopWpm(OfLanguage(scores, entry.language))
  }

  /** A score is new iff it is positive and strictly above every stored
      score of the same language; a 0-wpm entry is never new. */
  lemma NewHighScoreIff(scores: seq<Score>, entry: Score)
    ensures IsNewHighScore(scores, entry) <==>
      entry.wpm > 0 && forall x :: x in scores && x.language == entry.language ==> entry.wpm > x.wpm
  {
    var top := TopWpm(OfLanguage(scores, entry.language));
    if top != 0 {
      var x :| x in OfLanguage(scores, entry.language) && x.wpm == top;
      assert x in scores && x.language == entry.language;
    }
  }

  ghost predicate SortedDesc(s: seq<Score>)
  {
    forall i, j :: 0 <= i < j < |s| ==> s[i].wpm >= s[j].wpm
  }

  /** Insert `x` before the first element whose wpm is not above its own. */
  function InsertDesc(x: Score, t: seq<Score>): seq<Score>
  {
    if t == [] || x.wpm >= t[0].wpm then [x] + t
    else [t[0]] + InsertDesc(x, t[1..])
  }

  /** Insertion adds `x` and loses nothing. */
  lemma {:induction false} InsertDescPermutes(x: Score, t: seq<Score>)
    ensures multiset(InsertDesc(x, t)) == multiset(t) + multiset{x}
  {
    if t != [] && x.wpm < t[0].wpm {
      InsertDescPermutes(x, t[1..]);
      assert t == [t[0]] + t[1..];
    }
  }

  /** No record of `s` has a wpm above `w`. */
  ghost predicate AllAtMost(s: seq<Score>, w: int)
  {
    forall y :: y in s ==> y.wpm <= w
  }

  lemma SortedCons(a: Score, rest: seq<Score>)
    requires SortedDesc(rest) && AllAtMost(rest, a.wpm)
    ensures SortedDesc([a] + rest)
  {
    var r := [a] + rest;
    forall i, j | 0 <= i < j < |r| ensures r[i].wpm >= r[j].wpm {
      assert r[j] == rest[j - 1];
      if i > 0 {
        assert r[i] == rest[i - 1];
      }
    }
  }

  lemma SortedTail(t: seq<Score>)
    requires SortedDesc(t) && t != []
    ensures SortedDesc(t[1..]) && AllAtMost(t[1..], t[0].wpm)
  {
    forall y | y in t[1..] ensures y.wpm <= t[0].wpm {
      var j :| 0 <= j < |t[1..]| && t[1..][j] == y;
      assert t[j + 1] == y;
    }
  }

  lemma InsertDescElements(x: Score, t: seq<Score>, w: int)
    requires AllAtMost(t, w) && x.wpm <= w
    ensures AllAtMost(InsertDesc(x, t), w)
  {
    InsertDescPermutes(x, t);
    forall y | y in InsertDesc(x, t) ensures y.wpm <= w {
      assert y in multiset(InsertDesc(x, t));
    }
  }

  lemma {:induction false} InsertDescSorted(x: Score, t: seq<Score>)
    requires SortedDesc(t)
    ensures SortedDesc(InsertDesc(x, t))
  {
    if t == [] || x.wpm >= t[0].wpm {
      if t != [] {
        SortedTail(t);
      }
      assert AllAtMost(t, x.wpm);
      SortedCons(x, t);
    } else {
      SortedTail(t);
      InsertDescSorted(x, t[1..]);
      InsertDescElements(x, t[1..], t[0].wpm);
      SortedCons(t[0], InsertDesc(x, t[1..]));
    }
  }

  /** `.sort((a, b) => b.wpm - a.wpm)`: a stable sort by wpm, highest first. */
  function SortDesc(s: seq<Score>): (r: seq<Score>)
    ensures multiset(r) == multiset(s)
    ensures SortedDesc(r)
  {
    if s == [] then []
    else
      assert s == [s[0]] + s[1..];
      InsertDescSorted(s[0], SortDesc(s[1..]));
      InsertDescPermutes(s[0], SortDesc(s[1..]));
      InsertDesc(s[0], SortDesc(s[1..]))
  }

  /** The records with wpm `v`, in order. */
  ghost function WithWpm(s: seq<Score>, v: int): seq<Score>
  {
    if s == [] then [] else (if s[0].wpm == v then [s[0]] else []) + WithWpm(s[1..], v)
  }

  /** The filter of a list with one more record in front. */
  lemma WithWpmCons(a: Score, s: seq<Score>, v: int)
    ensures WithWpm([a] + s, v) == (if a.wpm == v then [a] else []) + WithWpm(s, v)
  {
    assert ([a] + s)[1..] == s;
  }

  lemma {:induction false} InsertDescStable(x: Score, t: seq<Score>, v: int)
    ensures WithWpm(InsertDesc(x, t), v) == (if x.wpm == v then [x] else []) + WithWpm(t, v)
  {
    if t != [] && x.wpm < t[0].wpm {
      var rest := InsertDesc(x, t[1..]);
      assert InsertDesc(x, t) == [t[0]] + rest;
      InsertDescStable(x, t[1..], v);
      WithWpmCons(t[0], rest, v);
      WithWpmCons(t[0], t[1..], v);
      assert [t[0]] + t[1..] == t;
      if x.wpm == v {
        assert t[0].wpm != v;
      }
    } else {
      assert InsertDesc(x, t) == [x] + t;
      WithWpmCons(x, t, v);
    }
  }

  /** The sort is stable: records of equal wpm keep their relative order.
      With `SortedDesc` and the multiset equality this pins the result down. */
  lemma {:induction false} SortDescIsStable(s: seq<Score>, v: int)
    ensures WithWpm(SortDesc(s), v) == WithWpm(s, v)
  {
    if s != [] {
      SortDescIsStable(s[1..], v);
      InsertDescStable(s[0], SortDesc(s[1..]), v);
    }
  }

  /** In a descending list, every record after position k is at most every
      record before it. */
  lemma SuffixBelowPrefix(t: seq<Score>, k: nat)
    requires SortedDesc(t) && k <= |t|
    ensures forall x, y :: x in t[k..] && y in t[..k] ==> x.wpm <= y.wpm
  {
    forall x, y | x in t[k..] && y in t[..k] ensures x.wpm <= y.wpm {
      var j :| 0 <= j < |t[k..]| && t[k..][j] == x;
      var i :| 0 <= i < k && t[..k][i] == y;
      assert t[i] == y && t[k + j] == x;
    }
  }

  /** Cutting a descending list after k records keeps the best: no record
      dropped has a higher wpm than one kept. */
  lemma TakeKeepsBest(t: seq<Score>, k: nat)
    requires SortedDesc(t)
    ensures SortedDesc(Take(t, k))
    ensures multiset(Take(t, k)) <= multiset(t)
    ensures forall x, y :: x in multiset(t) - multiset(Take(t, k)) && y in Take(t, k) ==> x.wpm <= y.wpm
  {
    if k < |t| {
      var kept, dropped := t[..k], t[k..];
      assert t == kept + dropped;
      assert multiset(t) - multiset(kept) == multiset(dropped);
      SuffixBelowPrefix(t, k);
    }
  }

  /** The list `saveHighScore` stores: all scores plus the entry, sorted,
      cut to ten. */
  function UpdatedHighScores(scores: seq<Score>, entry: Score): seq<Score>
  {
    Take(SortDesc(scores + [entry]), MAX_HIGH_SCORES)
  }

  /** The stored list is sorted highest first, holds min(10, n + 1) records
      taken from the old list and the entry, and no record dropped beats one
      kept. The ten are across both languages, not five per language. */
  lemma UpdatedHighScoresKeepsTopTen(scores: seq<Score>, entry: Score)
    ensures var r := UpdatedHighScores(scores, entry);
      && SortedDesc(r)
      && |r| == (if |scores| + 1 < 10 then |scores| + 1 else 10)
      && multiset(r) <= multiset(scores + [entry])
      && forall x, y :: x in multiset(scores + [entry]) - multiset(r) && y in r ==> x.wpm <= y.wpm
  {
    var t := SortDesc(scores + [entry]);
    assert |t| == |scores| + 1 by {
      assert |multiset(t)| == |multiset(scores + [entry])|;
    }
    TakeKeepsBest(t, MAX_HIGH_SCORES);
  }

  /** `getBestScore`'s `reduce` without a seed, which keeps the record it
      holds unless a later one has a strictly greater wpm: the position of
      the first record of greatest wpm. */
  function FirstMaxIndex(s: seq<Score>): (k: nat)
    requires s != []
    ensures k < |s|
    ensures forall x :: x in s ==> x.wpm <= s[k].wpm
    ensures forall j :: 0 <= j < k ==> s[j].wpm < s[k].wpm
  {
    if |s| == 1 then 0
    else
      var init := s[..|s| - 1];
      var best := FirstMaxIndex(init);
      assert forall y :: y in s ==> y in init || y == s[|s| - 1];
      if s[|s| - 1].wpm > s[best].wpm then |s| - 1 else best
  }

  /** `s[k]` is `x` and every record before it has a smaller wpm. */
  predicate IsFirstBest(s: seq<Score>, k: int, x: Score)
  {
    0 <= k < |s| && s[k] == x && forall j :: 0 <= j < k ==> s[j].wpm < x.wpm
  }

  /** `getBestScore(language)`: null iff no stored score has the language;
      otherwise a stored score of that language with the greatest wpm (the
      earliest stored among ties, by `FirstMaxIndex`). */
  function GetBestScore(items: Items, lang: Language): (r: Option<Score>)
    ensures r.None? <==> forall x :: x in GetHighScores(items) ==> x.language != lang
    ensures r.Some? ==> r.value in GetHighScores(items) && r.value.language == lang
    ensures r.Some? ==> forall x :: x in GetHighScores(items) && x.language == lang ==> x.wpm <= r.value.wpm
    ensures r.Some? ==> exists k :: IsFirstBest(OfLanguage(GetHighScores(items), lang), k, r.value)
  {
    var s := OfLanguage(GetHighScores(items), lang);
    if s == [] then None
    else
      var k := FirstMaxIndex(s);
      var best := s[k];
      assert IsFirstBest(s, k, best);
      Some(best)
  }

  /** The list `saveHistory` stores: the entry first, cut to twenty. */
  function UpdatedHistory(history: seq<Score>, entry: Score): (r: seq<Score>)
    ensures |r| == if |history| + 1 < MAX_HISTORY then |history| + 1 else MAX_HISTORY
    ensures r[0] == entry
    ensures r[1..] == Take(history, MAX_HISTORY - 1)
  {
    Take([entry] + history, MAX_HISTORY)
  }

  function Reverse(s: seq<Score>): (r: seq<Score>)
    ensures |r| == |s|
    ensures forall i :: 0 <= i < |s| ==> r[i] == s[|s| - 1 - i]
  {
    if s == [] then [] else Reverse(s[1..]) + [s[0]]
  }

  /** Saving each entry in turn, as the page does at the end of each session. */
  function SaveAll(history: seq<Score>, entries: seq<Score>): seq<Score>
    decreases |entries|
  {
    if entries == [] then history else SaveAll(UpdatedHistory(history, entries[0]), entries[1..])
  }

  lemma TakeTake(a: seq<Score>, b: seq<Score>, n: nat)
    ensures Take(a + Take(b, n), n) == Take(a + b, n)
  {
    if |b| > n {
      assert (a + b)[..n] == (a + b[..n])[..n];
    }
  }

  /** Reversing a non-empty list puts its first element last. */
  lemma ReverseFirstLast(entries: seq<Score>, rest: seq<Score>)
    requires entries != []
    ensures Reverse(entries[1..]) + ([entries[0]] + rest) == Reverse(entries) + rest
  {
    assert Reverse(entries) == Reverse(entries[1..]) + [entries[0]];
  }

  /** After any number of saves the history holds the newest twenty
      entries, newest first, followed by what it held before. */
  lemma {:induction false} HistoryAfterSaves(history: seq<Score>, entries: seq<Score>)
    requires |history| <= MAX_HISTORY
    ensures SaveAll(history, entries) == Take(Reverse(entries) + history, MAX_HISTORY)
    decreases |entries|
  {
    if entries != [] {
      var e := entries[0];
      HistoryAfterSaves(UpdatedHistory(history, e), entries[1..]);
      TakeTake(Reverse(entries[1..]), [e] + history, MAX_HISTORY);
      ReverseFirstLast(entries, history);
    } else {
      assert Reverse(entries) + history == history;
    }
  }

  /** After 25 saves into an empty history, it is exactly the 20 newest
      entries, newest first. */
  lemma TwentyFiveSaves(entries: seq<Score>)
    requires |entries| == 25
    ensures SaveAll([], entries) == Reverse(entries)[..20]
    ensures SaveAll([], entries)[0] == entries[24] && SaveAll([], entries)[19] == entries[5]
  {
    HistoryAfterSaves([], entries);
    assert Reverse(entries) + [] == Reverse(entries);
  }

  /** localStorage itself. */
  class LocalStorage {
    var items: Items

    constructor (items: Items)
      ensures this.items == items
    {
      this.items := items;
    }

    /** `localStorage.setItem(key, JSON.stringify(value))` */
    method SetItem(key: string, value: seq<Score>)
      modifies this
      ensures items == old(items)[key := Some(value)]
    {
      items := items[key := Some(value)];
    }

    /** `localStorage.removeItem(key)` */
    method RemoveItem(key: string)
      modifies this
      ensures items == old(items) - {key}
    {
      items := items - {key};
    }
  }

  /** `saveHighScore(entry)`: store the updated list and report whether the
      entry is a new best for its language. The history key is untouched. */
  method SaveHighScore(ls: LocalStorage, entry: Score) returns (isNew: bool)
    modifies ls
    ensures isNew == IsNewHighScore(GetHighScores(old(ls.items)), entry)
    ensures ls.items == old(ls.items)[HIGH_SCORE_KEY := Some(UpdatedHighScores(GetHighScores(old(ls.items)), entry))]
    ensures GetHighScores(ls.items) == UpdatedHighScores(GetHighScores(old(ls.items)), entry)
    ensures GetHistory(ls.items) == GetHistory(old(ls.items))
  {
    var scores := GetHighScores(ls.items);
    var langScores := OfLanguage(scores, entry.language);
    var topScore := TopWpm(langScores);
    isNew := entry.wpm > topScore;
    var updated := Take(SortDesc(scores + [entry]), MAX_HIGH_SCORES);
    ls.SetItem(HIGH_SCORE_KEY, updated);
  }

  /** `saveHistory(entry)`: prepend and keep twenty. The score key is untouched. */
  method SaveHistory(ls: LocalStorage, entry: Score)
    modifies ls
    ensures ls.items == old(ls.items)[HISTORY_KEY := Some(UpdatedHistory(GetHistory(old(ls.items)), entry))]
    ensures GetHistory(ls.items) == UpdatedHistory(GetHistory(old(ls.items)), entry)
    ensures GetHighScores(ls.items) == GetHighScores(old(ls.items))
  {
    var history := GetHistory(ls.items);
    var updated := Take([entry] + history, MAX_HISTORY);
    ls.SetItem(HISTORY_KEY, updated);
  }

  /** `clearHistory()`: the next `getHistory()` is empty; scores are untouched. */
  method ClearHistory(ls: LocalStorage)
    modifies ls
    ensures ls.items == old(ls.items) - {HISTORY_KEY}
    ensures GetHistory(ls.items) == []
    ensures GetHighScores(ls.items) == GetHighScores(old(ls.items))
  {
    ls.RemoveItem(HISTORY_KEY);
  }

  lemma SortOne(a: Score)
    ensures SortDesc([a]) == [a]
  {
    assert [a][1..] == [];
  }

  lemma SortTwo(a: Score, b: Score)
    requires a.wpm >= b.wpm
    ensures SortDesc([a, b]) == [a, b]
  {
    assert [a, b][1..] == [b];
    SortOne(b);
  }

  /** Two English saves, 40 wpm then 35: the first is a new best, the second
      is not, and the stored list is highest first. */
  lemma TwoEnglishSaves(a: Score, b: Score)
    requires a.language == English && b.language == English && a.wpm == 40 && b.wpm == 35
    ensures IsNewHighScore([], a)
    ensures !IsNewHighScore(UpdatedHighScores([], a), b)
    ensures UpdatedHighScores(UpdatedHighScores([], a), b) == [a, b]
  {
    var one := UpdatedHighScores([], a);
    assert one == [a] by {
      assert [] + [a] == [a];
      SortOne(a);
    }
    NewHighScoreIff([], a);
    NewHighScoreIff(one, b);
    assert a in one;
    assert UpdatedHighScores(one, b) == [a, b] by {
      assert one + [b] == [a, b];
      SortTwo(a, b);
    }
  }
}
