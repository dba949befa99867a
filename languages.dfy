/**
 * What `getLanguageStats` computes from the language maps it retrieves: a
 * dictionary from language name to accumulated bytes, kept in the order the
 * names were first seen (the key order of a JavaScript object), then sorted by
 * bytes, largest first, by a stable sort.
 */
module Languages {
  import opened Wrappers
  import opened Records
  import opened Sorting

  /** One entry of a repository's language map: a language and its byte count. */
  type Entry = (string, nat)

  /** The position of `name` in the dictionary, if it is there. */
  function Find(t: seq<LanguageStat>, name: string): (r: Option<nat>)
    ensures r.Some? ==> r.value < |t| && t[r.value].name == name
    ensures r.None? ==> forall i :: 0 <= i < |t| ==> t[i].name != name
  {
    if t == [] then None
    else if t[|t| - 1].name == name then Some(|t| - 1)
    else Find(t[..|t| - 1], name)
  }

  /** `languageBytes[lang] = (languageBytes[lang] || 0) + bytes`: add to an
      existing entry in place, or append a new one at the end. */
  function AddBytes(t: seq<LanguageStat>, e: Entry): seq<LanguageStat> {
    match Find(t, e.0)
    case Some(i) => t[i := LanguageStat(e.0, t[i].bytes + e.1)]
    case None => t + [LanguageStat(e.0, e.1)]
  }

  /** The dictionary after adding the entries `es` in order to an empty one. */
  function Accumulate(es: seq<Entry>): seq<LanguageStat> {
    if es == [] then [] else AddBytes(Accumulate(es[..|es| - 1]), es[|es| - 1])
  }

  /** The bytes the entries `es` give to the language `name`. */
  function BytesFor(es: seq<Entry>, name: string): nat {
    if es == [] then 0
    else BytesFor(es[..|es| - 1], name) + (if es[|es| - 1].0 == name then es[|es| - 1].1 else 0)
  }

  /** No language appears twice. */
  predicate DistinctNames(t: seq<LanguageStat>) {
    forall i, j :: 0 <= i < j < |t| ==> t[i].name != t[j].name
  }

  /** Adding one entry to a dictionary without repeated names: an existing
      language gains the entry's bytes in place, a new one is appended with
      them, nothing else changes and the names stay distinct. */
  lemma AddBytesEffect(t: seq<LanguageStat>, e: Entry)
    requires DistinctNames(t)
    ensures var t' := AddBytes(t, e);
      && DistinctNames(t')
      && |t| <= |t'| <= |t| + 1
      && (forall i :: 0 <= i < |t| ==>
            t'[i].name == t[i].name && t'[i].bytes == t[i].bytes + (if t[i].name == e.0 then e.1 else 0))
      && (|t'| == |t| + 1 ==> t'[|t|] == LanguageStat(e.0, e.1) && Find(t, e.0).None?)
      && (forall name :: Find(t', name).Some? <==> Find(t, name).Some? || name == e.0)
  {
    var t' := AddBytes(t, e);
    match Find(t, e.0)
    case Some(i) =>
      assert t' == t[i := LanguageStat(e.0, t[i].bytes + e.1)];
      forall name ensures Find(t', name).Some? <==> Find(t, name).Some? || name == e.0 {
        if Find(t, name).Some? {
          assert t'[Find(t, name).value].name == name;
        }
        if Find(t', name).Some? {
          assert t[Find(t', name).value].name == name;
        }
      }
    case None =>
      assert t' == t + [LanguageStat(e.0, e.1)];
      forall name ensures Find(t', name).Some? <==> Find(t, name).Some? || name == e.0 {
        if Find(t, name).Some? {
          assert t'[Find(t, name).value].name == name;
        }
        if name == e.0 {
          assert t'[|t|].name == name;
        }
        if Find(t', name).Some? && Find(t', name).value < |t| {
          assert t[Find(t', name).value].name == name;
        }
      }
  }

  /** The dictionary `t` is the one the entries `es` should give: each
      language named by some entry appears exactly once, no other language
      appears, and each carries the sum of the bytes its entries give it. */
  ghost predicate AccumulatedFrom(t: seq<LanguageStat>, es: seq<Entry>) {
    && DistinctNames(t)
    && (forall i :: 0 <= i < |t| ==> t[i].bytes == BytesFor(es, t[i].name))
    && (forall name :: Find(t, name).Some? <==> exists k :: 0 <= k < |es| && es[k].0 == name)
  }

  /** Adding the entries one by one builds the dictionary they should give. */
  lemma {:induction false} AccumulateCorrect(es: seq<Entry>)
    ensures AccumulatedFrom(Accumulate(es), es)
  {
    if es != [] {
      AccumulateCorrect(es[..|es| - 1]);
      AccumulateStep(es);
    }
  }

  /** One entry more keeps the dictionary the one its entries should give. */
  lemma AccumulateStep(es: seq<Entry>)
    requires es != [] && AccumulatedFrom(Accumulate(es[..|es| - 1]), es[..|es| - 1])
    ensures AccumulatedFrom(Accumulate(es), es)
  {
    var init, e := es[..|es| - 1], es[|es| - 1];
    var t := Accumulate(init);
    AddBytesEffect(t, e);
    var t' := AddBytes(t, e);
    if |t'| == |t| + 1 {
      NotFoundNotNamed(t, init, e.0);
    }
    StepBytes(t, t', init, es);
    StepNames(t, t', init, es);
  }

  /** A language missing from the dictionary is named by no entry. */
  lemma NotFoundNotNamed(t: seq<LanguageStat>, es: seq<Entry>, name: string)
    requires forall n :: Find(t, n).Some? <==> exists k :: 0 <= k < |es| && es[k].0 == n
    requires Find(t, name).None?
    ensures forall k :: 0 <= k < |es| ==> es[k].0 != name
  {
  }

  /** The bytes part of `AccumulateStep`, with `t` built from `init`, all
      entries but the last, and `t'` from all of them. */
  lemma StepBytes(t: seq<LanguageStat>, t': seq<LanguageStat>, init: seq<Entry>, es: seq<Entry>)
    requires es != [] && init == es[..|es| - 1]
    requires forall i :: 0 <= i < |t| ==> t[i].bytes == BytesFor(init, t[i].name)
    requires |t| <= |t'| <= |t| + 1
    requires forall i :: 0 <= i < |t| ==>
               && t'[i].name == t[i].name
               && t'[i].bytes == t[i].bytes + (if t[i].name == es[|es| - 1].0 then es[|es| - 1].1 else 0)
    requires |t'| == |t| + 1 ==>
               && t'[|t|] == LanguageStat(es[|es| - 1].0, es[|es| - 1].1)
               && forall k :: 0 <= k < |init| ==> init[k].0 != es[|es| - 1].0
    ensures forall i :: 0 <= i < |t'| ==> t'[i].bytes == BytesFor(es, t'[i].name)
  {
    forall i | 0 <= i < |t'|
      ensures t'[i].bytes == BytesFor(es, t'[i].name)
    {
      if i == |t| {
        BytesForAbsent(init, es[|es| - 1].0);
      }
    }
  }

  /** The names part of `AccumulateStep`. */
  lemma StepNames(t: seq<LanguageStat>, t': seq<LanguageStat>, init: seq<Entry>, es: seq<Entry>)
    requires es != [] && init == es[..|es| - 1]
    requires forall n :: Find(t, n).Some? <==> exists k :: 0 <= k < |init| && init[k].0 == n
    requires forall n :: Find(t', n).Some? <==> Find(t, n).Some? || n == es[|es| - 1].0
    ensures forall n :: Find(t', n).Some? <==> exists k :: 0 <= k < |es| && es[k].0 == n
  {
    forall n
      ensures Find(t', n).Some? <==> exists k :: 0 <= k < |es| && es[k].0 == n
    {
      if exists k :: 0 <= k < |es| && es[k].0 == n {
        var k :| 0 <= k < |es| && es[k].0 == n;
        if k < |init| {
          assert init[k].0 == n;
        }
      }
      if Find(t, n).Some? {
        var k :| 0 <= k < |init| && init[k].0 == n;
        assert es[k] == init[k];
      }
    }
  }

  /** A language no entry names gets no bytes. */
  lemma {:induction false} BytesForAbsent(es: seq<Entry>, name: string)
    requires forall k :: 0 <= k < |es| ==> es[k].0 != name
    ensures BytesFor(es, name) == 0
  {
    if es != [] {
      BytesForAbsent(es[..|es| - 1], name);
    }
  }

  /** The sort key of a language: its bytes. */
  function Bytes(x: LanguageStat): nat {
    x.bytes
  }

  /** The statistics of a list of language maps: accumulated, then sorted. */
  function LanguageStats(es: seq<Entry>): seq<LanguageStat> {
    SortDesc(Accumulate(es), Bytes)
  }

  /** The languages of a list of statistics. */
  function Names(t: seq<LanguageStat>): set<string> {
    set y | y in t :: y.name
  }

  /** The languages the entries name. */
  function EntryNames(es: seq<Entry>): set<string> {
    set e | e in es :: e.0
  }

  lemma {:induction false} InsertDistinct(x: LanguageStat, t: seq<LanguageStat>)
    requires DistinctNames(t) && x.name !in Names(t)
    ensures DistinctNames(Insert(x, t, Bytes))
  {
    if t != [] && x.bytes < t[0].bytes {
      assert Names(t[1..]) <= Names(t);
      InsertDistinct(x, t[1..]);
      var r := Insert(x, t, Bytes);
      forall k | 1 <= k < |r| ensures r[k].name != t[0].name {
        assert r[k] in Insert(x, t[1..], Bytes);
        if r[k] != x {
          var m :| 0 <= m < |t[1..]| && t[1..][m] == r[k];
          assert t[m + 1] == r[k];
        }
      }
    }
  }

  /** Sorting a list with distinct names keeps them distinct. */
  lemma {:induction false} SortDistinct(s: seq<LanguageStat>)
    requires DistinctNames(s)
    ensures DistinctNames(SortDesc(s, Bytes))
  {
    if s != [] {
      SortDistinct(s[1..]);
      forall y | y in SortDesc(s[1..], Bytes) ensures y.name != s[0].name {
        var m :| 0 <= m < |s[1..]| && s[1..][m] == y;
        assert s[m + 1] == y;
      }
      InsertDistinct(s[0], SortDesc(s[1..], Bytes));
    }
  }

  /** The finished list: sorted by bytes, a permutation of the dictionary, one
      entry for each language that some map names and for no other, each with
      the total bytes over all the maps. */
  lemma LanguageStatsCorrect(es: seq<Entry>)
    ensures SortedDesc(LanguageStats(es), Bytes)
    ensures multiset(LanguageStats(es)) == multiset(Accumulate(es))
    ensures DistinctNames(LanguageStats(es))
    ensures Names(LanguageStats(es)) == EntryNames(es)
    ensures forall i :: 0 <= i < |LanguageStats(es)| ==>
              LanguageStats(es)[i].bytes == BytesFor(es, LanguageStats(es)[i].name)
  {
    var t := Accumulate(es);
    var r := LanguageStats(es);
    AccumulateCorrect(es);
    SortPermutes(t, Bytes);
    SortDistinct(t);
    forall i | 0 <= i < |r|
      ensures r[i].bytes == BytesFor(es, r[i].name)
    {
      assert r[i] in t;
      var m :| 0 <= m < |t| && t[m] == r[i];
    }
    forall name
      ensures name in Names(r) <==> name in EntryNames(es)
    {
      if name in EntryNames(es) {
        var e :| e in es && e.0 == name;
        var k :| 0 <= k < |es| && es[k] == e;
        var i := Find(t, name).value;
        assert t[i] in r;
      }
      if name in Names(r) {
        var y :| y in r && y.name == name;
        assert y in t;
        var m :| 0 <= m < |t| && t[m] == y;
        assert Find(t, name).Some?;
        var k :| 0 <= k < |es| && es[k].0 == name;
        assert es[k] in es;
      }
    }
  }
}
