/**
 * The derived data of the analytics page: the per-language project counts, the pie
 * chart entries with their colours, and the request and project series of the charts.
 */
module Analytics {
  import opened Seqs
  import opened AppContext

  /** How many projects are written in `lang`. */
  function CountLanguage(ps: seq<Project>, lang: string): (n: nat)
    ensures n <= |ps|
  {
    if ps == [] then 0
    else CountLanguage(ps[..|ps| - 1], lang) + (if ps[|ps| - 1].language == lang then 1 else 0)
  }

  /** A language no project uses is counted zero times. */
  lemma {:induction false} CountAbsentLanguage(ps: seq<Project>, lang: string)
    requires lang !in Languages(ps)
    ensures CountLanguage(ps, lang) == 0
  {
    if ps != [] {
      assert Languages(ps[..|ps| - 1]) == Languages(ps)[..|ps| - 1];
      CountAbsentLanguage(ps[..|ps| - 1], lang);
    }
  }

  /**
   * `languageStats`: the reduce that adds one to `acc[project.language]` per project.
   * Its keys are the languages in use and each value is that language's count.
   */
  method LanguageStats(ps: seq<Project>) returns (stats: map<string, int>)
    ensures forall lang :: lang in stats <==> lang in Languages(ps)
    ensures forall lang :: lang in stats ==> stats[lang] == CountLanguage(ps, lang) && stats[lang] >= 1
  {
    stats := map[];
    var i := 0;
    while i < |ps|
      invariant 0 <= i <= |ps|
      invariant forall lang :: lang in stats <==> lang in Languages(ps[..i])
      invariant forall lang :: lang in stats ==> stats[lang] == CountLanguage(ps[..i], lang) && stats[lang] >= 1
    {
      var lang := ps[i].language;
      if lang !in stats {
        CountAbsentLanguage(ps[..i], lang);
      }
      stats := stats[lang := (if lang in stats then stats[lang] else 0) + 1];
      assert ps[..i + 1][..i] == ps[..i];
      assert forall l :: CountLanguage(ps[..i + 1], l) == CountLanguage(ps[..i], l) + (if l == lang then 1 else 0);
      assert Languages(ps[..i + 1]) == Languages(ps[..i]) + [lang];
      i := i + 1;
    }
    assert ps[..i] == ps;
  }

  /** The counts of `keys`, added up. */
  function SumCounts(keys: seq<string>, ps: seq<Project>): int
  {
    if keys == [] then 0
    else SumCounts(keys[..|keys| - 1], ps) + CountLanguage(ps, keys[|keys| - 1])
  }

  /** How many times `x` occurs in `keys`. */
  function Occurrences(keys: seq<string>, x: string): nat
  {
    if keys == [] then 0
    else Occurrences(keys[..|keys| - 1], x) + (if keys[|keys| - 1] == x then 1 else 0)
  }

  /** One more project adds one to the sum once for every time its language is among the keys. */
  lemma {:induction false} SumCountsAppend(keys: seq<string>, ps: seq<Project>, p: Project)
    ensures SumCounts(keys, ps + [p]) == SumCounts(keys, ps) + Occurrences(keys, p.language)
  {
    if keys != [] {
      SumCountsAppend(keys[..|keys| - 1], ps, p);
      assert (ps + [p])[..|ps|] == ps;
    }
  }

  /** In a list without repetitions, an element occurs once. */
  lemma {:induction false} OccursOnce(keys: seq<string>, x: string)
    requires forall i, j :: 0 <= i < j < |keys| ==> keys[i] != keys[j]
    ensures Occurrences(keys, x) == if x in keys then 1 else 0
  {
    if keys != [] {
      var n := |keys| - 1;
      assert forall i :: 0 <= i < n ==> keys[..n][i] == keys[i];
      OccursOnce(keys[..n], x);
      assert x in keys <==> x in keys[..n] || x == keys[n] by {
        assert keys == keys[..n] + [keys[n]];
      }
    }
  }

  /** The per-language counts add up to the number of projects. */
  lemma {:induction false} CountsSumToTotal(ps: seq<Project>)
    ensures SumCounts(Distinct(Languages(ps)), ps) == |ps|
  {
    if ps != [] {
      var prev := ps[..|ps| - 1];
      assert ps == prev + [ps[|ps| - 1]];
      CountsSumToTotal(prev);
      SumCountsStep(prev, ps[|ps| - 1]);
    }
  }

  /** One more project raises the sum over the distinct languages by exactly one. */
  lemma SumCountsStep(prev: seq<Project>, p: Project)
    ensures SumCounts(Distinct(Languages(prev + [p])), prev + [p]) == SumCounts(Distinct(Languages(prev)), prev) + 1
  {
    var ps := prev + [p];
    var d := Distinct(Languages(prev));
    assert Languages(ps)[..|prev|] == Languages(prev);
    assert Distinct(Languages(ps)) == if p.language in d then d else d + [p.language];
    SumCountsAppend(d, prev, p);
    OccursOnce(d, p.language);
    if p.language !in d {
      NewLanguageCountsOne(prev, p, d);
    }
  }

  /** A project whose language is new adds a key counted once. */
  lemma NewLanguageCountsOne(prev: seq<Project>, p: Project, d: seq<string>)
    requires FirstAppearances(d, Languages(prev)) && p.language !in d
    ensures SumCounts(d + [p.language], prev + [p]) == SumCounts(d, prev + [p]) + 1
  {
    var ps := prev + [p];
    assert (d + [p.language])[..|d|] == d;
    assert p.language !in Languages(prev) by {
      forall i | 0 <= i < |Languages(prev)| ensures Languages(prev)[i] in d { }
    }
    CountAbsentLanguage(prev, p.language);
    assert ps[..|ps| - 1] == prev;
    assert CountLanguage(ps, p.language) == 1;
  }

  /** One entry of the language pie chart. */
  datatype Slice = Slice(name: string, value: int, color: string)

  const Palette: seq<string> := ["#f7df1e", "#3776ab", "#3178c6", "#ed8b00", "#6b7280"]

  /** `languageData`: the entries of `languageStats` in key order, the i-th coloured `Palette[i % 5]`. */
  function LanguageData(keys: seq<string>, stats: map<string, int>): (r: seq<Slice>)
    requires forall i :: 0 <= i < |keys| ==> keys[i] in stats
    ensures |r| == |keys|
    ensures forall i :: 0 <= i < |keys| ==> r[i].name == keys[i] && r[i].value == stats[keys[i]]
  {
    seq(|keys|, i requires 0 <= i < |keys| => Slice(keys[i], stats[keys[i]], Palette[i % 5]))
  }

  /** Two entries share a colour exactly when their positions are equal modulo five. */
  lemma ColoursCycle(keys: seq<string>, stats: map<string, int>, i: nat, j: nat)
    requires forall k :: 0 <= k < |keys| ==> keys[k] in stats
    requires i < |keys| && j < |keys|
    ensures LanguageData(keys, stats)[i].color == LanguageData(keys, stats)[j].color <==> i % 5 == j % 5
  {
  }

  /** The values of the entries, added up. */
  function SumValues(slices: seq<Slice>): int
  {
    if slices == [] then 0
    else SumValues(slices[..|slices| - 1]) + slices[|slices| - 1].value
  }

  /** When the map holds the counts, the chart's values add up like the counts. */
  lemma {:induction false} SumValuesOfData(keys: seq<string>, stats: map<string, int>, ps: seq<Project>)
    requires forall i :: 0 <= i < |keys| ==> keys[i] in stats && stats[keys[i]] == CountLanguage(ps, keys[i])
    ensures SumValues(LanguageData(keys, stats)) == SumCounts(keys, ps)
  {
    if keys != [] {
      var n := |keys| - 1;
      assert LanguageData(keys, stats)[..n] == LanguageData(keys[..n], stats);
      SumValuesOfData(keys[..n], stats, ps);
    }
  }

  /**
   * The pie chart of the analytics page: one entry per language in order of first use,
   * valued by its count, coloured in a cycle of five, the values adding up to the number of projects.
   */
  method LanguageChart(ps: seq<Project>) returns (data: seq<Slice>)
    ensures |data| == |Distinct(Languages(ps))|
    ensures forall i :: 0 <= i < |data| ==>
      && data[i].name == Distinct(Languages(ps))[i]
      && data[i].value == CountLanguage(ps, data[i].name) >= 1
      && data[i].color == Palette[i % 5]
    ensures SumValues(data) == |ps|
  {
    var stats := LanguageStats(ps);
    var keys := Distinct(Languages(ps));
    data := LanguageData(keys, stats);
    SumValuesOfData(keys, stats, ps);
    CountsSumToTotal(ps);
  }

  /** The `requests` series of `usageData`: 30, 25, ..., 5 calls below the current count, floored at zero, then the count. */
  function RequestSeries(apiCalls: int): (r: seq<int>)
    ensures |r| == 7 && r[6] == apiCalls
    ensures forall i :: 0 <= i < 6 ==> r[i] == Max(0, apiCalls - 5 * (6 - i))
  {
    [ Max(0, apiCalls - 30), Max(0, apiCalls - 25), Max(0, apiCalls - 20), Max(0, apiCalls - 15),
      Max(0, apiCalls - 10), Max(0, apiCalls - 5), apiCalls ]
  }

  /** For a non-negative count the request series is non-negative, rising and ends at the count. */
  lemma RequestSeriesShape(apiCalls: int)
    requires apiCalls >= 0
    ensures var r := RequestSeries(apiCalls);
      |r| == 7 && r[6] == apiCalls
      && (forall i :: 0 <= i < 7 ==> 0 <= r[i])
      && (forall i, j :: 0 <= i <= j < 7 ==> r[i] <= r[j])
  {
  }

  /** `projectData`: three months clamped at zero below the count, the count, then two and four more. */
  function ProjectSeries(projects: int): (r: seq<int>)
    ensures |r| == 6 && r[3] == projects && r[4] == projects + 2 && r[5] == projects + 4
    ensures forall i :: 0 <= i < 3 ==> r[i] == Max(0, projects - (3 - i))
  {
    [ Max(0, projects - 3), Max(0, projects - 2), Max(0, projects - 1),
      projects, projects + 2, projects + 4 ]
  }

  /** For a non-negative count the project series is non-negative, rising and passes through the count. */
  lemma ProjectSeriesShape(projects: int)
    requires projects >= 0
    ensures var r := ProjectSeries(projects);
      |r| == 6 && r[3] == projects && r[5] == projects + 4
      && (forall i :: 0 <= i < 6 ==> 0 <= r[i])
      && (forall i, j :: 0 <= i <= j < 6 ==> r[i] <= r[j])
  {
  }
}
