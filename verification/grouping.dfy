/** The forecast-summarising rule of `WeatherCLI.format_forecast`: keep the first 40
    entries, bucket them by date in first-seen order, keep the first 5 buckets and
    choose one representative entry per bucket. The payload of an entry (temperature,
    humidity, description) is a type parameter: the rule never looks inside it. */
module Grouping {
  import opened Basics
  import opened Text

  /** `data['list'][:40]`: at most eight 3-hourly entries for each of five days. */
  const MaxEntries: nat := 40
  /** `list(daily_forecasts.items())[:5]`: at most five day blocks are rendered. */
  const MaxDays: nat := 5
  /** The time-of-day marker searched for in `dt_txt` when choosing a representative. */
  const Midday := "12:00:00"

  /** One forecast entry: its `dt_txt` timestamp and everything else, carried unchanged. */
  datatype Entry<P> = Entry(dtTxt: string, payload: P)

  /** One value of the `daily_forecasts` dictionary together with its key. */
  datatype Bucket<P> = Bucket(date: string, items: seq<Entry<P>>)

  /** One rendered day: its date key and the entry chosen to represent it. */
  datatype Day<P> = Day(date: string, rep: Entry<P>)

  function KeyOf<P>(e: Entry<P>): string
  {
    DateKey(e.dtTxt)
  }

  /** The entries that take part in grouping: the first `MaxEntries`, or all of them. */
  function Truncate<P>(entries: seq<Entry<P>>): (kept: seq<Entry<P>>)
    ensures |kept| == Min(MaxEntries, |entries|)
    ensures kept <= entries
  {
    if |entries| <= MaxEntries then entries else entries[..MaxEntries]
  }

  /** A non-empty sequence is its prefix followed by its last element. */
  lemma SplitLast<T>(s: seq<T>)
    requires |s| > 0
    ensures s == s[..|s| - 1] + [s[|s| - 1]]
  {
  }

  // ---------------------------------------------------------------------------
  // Reference definitions: the date keys in first-seen order, and the entries of
  // one date in their original order.
  // ---------------------------------------------------------------------------

  /** The date keys of `es`, each once, in the order in which they are first seen. */
  function DistinctKeys<P>(es: seq<Entry<P>>): (ks: seq<string>)
    ensures forall k :: k in ks <==> exists j :: 0 <= j < |es| && KeyOf(es[j]) == k
    ensures forall i, j :: 0 <= i < j < |ks| ==> ks[i] != ks[j]
  {
    if |es| == 0 then []
    else
      var p := es[..|es| - 1];
      var ks := DistinctKeys(p);
      var k := KeyOf(es[|es| - 1]);
      assert forall j :: 0 <= j < |p| ==> es[j] == p[j];
      if k in ks then ks else ks + [k]
  }

  /** The entries of `es` whose date key is `k`, in their original order. */
  function EntriesOn<P>(es: seq<Entry<P>>, k: string): (r: seq<Entry<P>>)
    ensures forall i :: 0 <= i < |r| ==> r[i] in es && KeyOf(r[i]) == k
    ensures forall j :: 0 <= j < |es| && KeyOf(es[j]) == k ==> es[j] in r
  {
    if |es| == 0 then []
    else
      var e := es[|es| - 1];
      assert es == es[..|es| - 1] + [e];
      var r := EntriesOn(es[..|es| - 1], k);
      if KeyOf(e) == k then r + [e] else r
  }

  /** A date has entries exactly when it is one of the distinct keys. */
  lemma EntriesOnNonEmpty<P>(es: seq<Entry<P>>, k: string)
    ensures |EntriesOn(es, k)| > 0 <==> k in DistinctKeys(es)
  {
    var r := EntriesOn(es, k);
    if |r| > 0 {
      var j :| 0 <= j < |es| && es[j] == r[0];
      assert KeyOf(es[j]) == k;
    }
    if k in DistinctKeys(es) {
      var j :| 0 <= j < |es| && KeyOf(es[j]) == k;
      assert es[j] in r;
    }
  }

  /** Index of the first entry with date key `k`, or `|es|` when there is none. */
  function FirstIndex<P>(es: seq<Entry<P>>, k: string): (r: nat)
    ensures r <= |es|
    ensures r < |es| ==> KeyOf(es[r]) == k
    ensures forall j :: 0 <= j < r ==> KeyOf(es[j]) != k
  {
    if |es| == 0 then 0
    else if KeyOf(es[0]) == k then 0
    else 1 + FirstIndex(es[1..], k)
  }

  /** Appending an entry does not move the first occurrence of a key already present. */
  lemma FirstIndexExtend<P>(p: seq<Entry<P>>, e: Entry<P>, k: string)
    requires FirstIndex(p, k) < |p|
    ensures FirstIndex(p + [e], k) == FirstIndex(p, k)
  {
    var es := p + [e];
    var a, b := FirstIndex(p, k), FirstIndex(es, k);
    assert es[a] == p[a];
    assert forall j :: 0 <= j < a ==> es[j] == p[j];
  }

  /** Appending an entry adds its key at the end, unless the key was already seen. */
  lemma DistinctKeysSnoc<P>(p: seq<Entry<P>>, e: Entry<P>)
    ensures DistinctKeys(p + [e]) ==
      if KeyOf(e) in DistinctKeys(p) then DistinctKeys(p) else DistinctKeys(p) + [KeyOf(e)]
  {
    assert (p + [e])[..|p|] == p;
  }

  /** Appending an entry extends the entries of its own date and no other. */
  lemma EntriesOnSnoc<P>(p: seq<Entry<P>>, e: Entry<P>, k: string)
    ensures EntriesOn(p + [e], k) == EntriesOn(p, k) + (if KeyOf(e) == k then [e] else [])
  {
    assert (p + [e])[..|p|] == p;
  }

  /** A key that is absent from `p` first occurs in `p + [e]` at position `|p|`. */
  lemma FirstIndexOfNewKey<P>(p: seq<Entry<P>>, e: Entry<P>)
    requires KeyOf(e) !in DistinctKeys(p)
    ensures FirstIndex(p + [e], KeyOf(e)) == |p|
  {
    var es := p + [e];
    var k := KeyOf(e);
    forall m | 0 <= m < |p|
      ensures KeyOf(es[m]) != k
    {
      assert es[m] == p[m];
    }
    assert es[|p|] == e;
  }

  /** The distinct keys are listed in order of their first occurrence in `es`. */
  lemma {:induction false} KeysInEncounterOrder<P>(es: seq<Entry<P>>)
    ensures var ks := DistinctKeys(es);
      forall i, j :: 0 <= i < j < |ks| ==> FirstIndex(es, ks[i]) < FirstIndex(es, ks[j])
  {
    if |es| > 0 {
      var p := es[..|es| - 1];
      var e := es[|es| - 1];
      SplitLast(es);
      KeysInEncounterOrder(p);
      var kp := DistinctKeys(p);
      forall m | 0 <= m < |kp|
        ensures FirstIndex(es, kp[m]) == FirstIndex(p, kp[m]) < |p|
      {
        assert kp[m] in kp;
        var j :| 0 <= j < |p| && KeyOf(p[j]) == kp[m];
        FirstIndexExtend(p, e, kp[m]);
      }
      DistinctKeysSnoc(p, e);
      var ks := DistinctKeys(es);
      forall i, j | 0 <= i < j < |ks|
        ensures FirstIndex(es, ks[i]) < FirstIndex(es, ks[j])
      {
        assert ks[i] == kp[i];
        if j < |kp| {
          assert ks[j] == kp[j];
        } else {
          assert KeyOf(e) !in kp && ks == kp + [KeyOf(e)] && ks[j] == KeyOf(e);
          FirstIndexOfNewKey(p, e);
        }
      }
    }
  }

  // ---------------------------------------------------------------------------
  // The grouping loop of lines 161-166, one entry at a time.
  // ---------------------------------------------------------------------------

  /** Bucket keys are pairwise distinct, as the keys of a dictionary are. */
  ghost predicate DistinctDates<P>(bs: seq<Bucket<P>>)
  {
    forall i, j :: 0 <= i < j < |bs| ==> bs[i].date != bs[j].date
  }

  /** One iteration of the loop: append `e` to the first bucket of its date, creating
      that bucket at the end when the date has not been seen yet. */
  function Add<P>(bs: seq<Bucket<P>>, e: Entry<P>): seq<Bucket<P>>
  {
    if |bs| == 0 then [Bucket(KeyOf(e), [e])]
    else if bs[0].date == KeyOf(e) then [bs[0].(items := bs[0].items + [e])] + bs[1..]
    else [bs[0]] + Add(bs[1..], e)
  }

  /** A date not yet seen gets a new bucket holding just the entry, at the end. */
  lemma {:induction false} AddNewDate<P>(bs: seq<Bucket<P>>, e: Entry<P>)
    requires forall i :: 0 <= i < |bs| ==> bs[i].date != KeyOf(e)
    ensures |Add(bs, e)| == |bs| + 1 && Add(bs, e)[|bs|] == Bucket(KeyOf(e), [e])
  {
    if |bs| > 0 {
      AddNewDate(bs[1..], e);
    }
  }

  /** A date already seen gets no new bucket. */
  lemma {:induction false} AddKnownDate<P>(bs: seq<Bucket<P>>, e: Entry<P>, i: nat)
    requires i < |bs| && bs[i].date == KeyOf(e)
    ensures |Add(bs, e)| == |bs|
  {
    if bs[0].date != KeyOf(e) {
      AddKnownDate(bs[1..], e, i - 1);
    }
  }

  /** On buckets with distinct dates, one loop step appends the entry to the bucket of
      its date and leaves every other bucket as it was. */
  lemma {:induction false} AddUpdatesOwnDate<P>(bs: seq<Bucket<P>>, e: Entry<P>)
    requires DistinctDates(bs)
    ensures |Add(bs, e)| >= |bs|
    ensures forall i :: 0 <= i < |bs| ==>
              Add(bs, e)[i].date == bs[i].date &&
              Add(bs, e)[i].items == bs[i].items + (if bs[i].date == KeyOf(e) then [e] else [])
  {
    var r := Add(bs, e);
    if |bs| == 0 {
    } else if bs[0].date == KeyOf(e) {
      assert r == [bs[0].(items := bs[0].items + [e])] + bs[1..];
      forall i | 1 <= i < |bs|
        ensures r[i] == bs[i] && bs[i].date != KeyOf(e)
      {
        assert bs[0].date != bs[i].date;
      }
    } else {
      var rest := bs[1..];
      assert forall i :: 0 <= i < |rest| ==> rest[i] == bs[i + 1];
      AddUpdatesOwnDate(rest, e);
      var tail := Add(rest, e);
      assert r == [bs[0]] + tail;
      forall i | 1 <= i < |bs|
        ensures r[i] == tail[i - 1] && rest[i - 1] == bs[i]
      {
      }
    }
  }

  /** `daily_forecasts` after the loop over `es`: one bucket per distinct date, in
      first-seen order, each holding exactly that date's entries in original order. */
  function Group<P>(es: seq<Entry<P>>): (bs: seq<Bucket<P>>)
    ensures |bs| == |DistinctKeys(es)|
    ensures forall i :: 0 <= i < |bs| ==>
              bs[i].date == DistinctKeys(es)[i] && bs[i].items == EntriesOn(es, bs[i].date)
  {
    if |es| == 0 then []
    else
      var p := es[..|es| - 1];
      var e := es[|es| - 1];
      var bs := Group(p);
      SplitLast(es);
      AddExtendsGroup(p, e, bs);
      Add(bs, e)
  }

  /** `bs` is the grouping of `es`: one bucket per distinct key, in order, each holding
      that key's entries. */
  ghost predicate GroupsOf<P>(bs: seq<Bucket<P>>, es: seq<Entry<P>>)
  {
    var ks := DistinctKeys(es);
    && |bs| == |ks|
    && forall i :: 0 <= i < |bs| ==> bs[i].date == ks[i] && bs[i].items == EntriesOn(es, ks[i])
  }

  /** One loop iteration turns the grouping of `p` into the grouping of `p + [e]`. */
  lemma AddExtendsGroup<P>(p: seq<Entry<P>>, e: Entry<P>, bs: seq<Bucket<P>>)
    requires GroupsOf(bs, p)
    ensures DistinctDates(bs)
    ensures GroupsOf(Add(bs, e), p + [e])
  {
    assert DistinctDates(bs);
    AddUpdatesOwnDate(bs, e);
    DistinctKeysSnoc(p, e);
    if KeyOf(e) in DistinctKeys(p) {
      AddExtendsKnownDate(p, e, bs);
    } else {
      AddExtendsNewDate(p, e, bs);
    }
  }

  /** The loop step for an entry whose date already has a bucket. */
  lemma AddExtendsKnownDate<P>(p: seq<Entry<P>>, e: Entry<P>, bs: seq<Bucket<P>>)
    requires GroupsOf(bs, p) && DistinctDates(bs)
    requires KeyOf(e) in DistinctKeys(p)
    ensures GroupsOf(Add(bs, e), p + [e])
  {
    var kp := DistinctKeys(p);
    var i :| 0 <= i < |kp| && kp[i] == KeyOf(e);
    AddKnownDate(bs, e, i);
    AddUpdatesOwnDate(bs, e);
    DistinctKeysSnoc(p, e);
    var r := Add(bs, e);
    forall j | 0 <= j < |r|
      ensures r[j].date == kp[j] && r[j].items == EntriesOn(p + [e], kp[j])
    {
      EntriesOnSnoc(p, e, kp[j]);
    }
  }

  /** The loop step for an entry whose date has no bucket yet. */
  lemma AddExtendsNewDate<P>(p: seq<Entry<P>>, e: Entry<P>, bs: seq<Bucket<P>>)
    requires GroupsOf(bs, p) && DistinctDates(bs)
    requires KeyOf(e) !in DistinctKeys(p)
    ensures GroupsOf(Add(bs, e), p + [e])
  {
    var k := KeyOf(e);
    var kp := DistinctKeys(p);
    AddNewDate(bs, e);
    AddUpdatesOwnDate(bs, e);
    DistinctKeysSnoc(p, e);
    EntriesOnNonEmpty(p, k);
    var r := Add(bs, e);
    var ks := kp + [k];
    assert |r| == |ks|;
    forall j | 0 <= j < |r|
      ensures r[j].date == ks[j] && r[j].items == EntriesOn(p + [e], ks[j])
    {
      if j < |bs| {
        assert ks[j] == kp[j] == bs[j].date;
        EntriesOnSnoc(p, e, kp[j]);
      } else {
        assert j == |bs|;
        assert ks[j] == k && r[j] == Bucket(k, [e]);
        EntriesOnSnoc(p, e, k);
      }
    }
  }

  /** The buckets' entries laid end to end. */
  function Flatten<P>(bs: seq<Bucket<P>>): seq<Entry<P>>
  {
    if |bs| == 0 then [] else bs[0].items + Flatten(bs[1..])
  }

  /** One loop step adds exactly the new entry to the buckets' contents. */
  lemma {:induction false} AddKeepsEntries<P>(bs: seq<Bucket<P>>, e: Entry<P>)
    ensures multiset(Flatten(Add(bs, e))) == multiset(Flatten(bs)) + multiset{e}
  {
    var r := Add(bs, e);
    if |bs| == 0 {
      assert Flatten(r) == [e] + Flatten(r[1..]);
    } else if bs[0].date == KeyOf(e) {
      assert r[1..] == bs[1..];
    } else {
      assert r[1..] == Add(bs[1..], e);
      AddKeepsEntries(bs[1..], e);
    }
  }

  /** The buckets together are a rearrangement of the grouped entries: nothing is
      lost and nothing is duplicated. */
  lemma {:induction false} GroupIsPermutation<P>(es: seq<Entry<P>>)
    ensures multiset(Flatten(Group(es))) == multiset(es)
  {
    if |es| > 0 {
      var p := es[..|es| - 1];
      var e := es[|es| - 1];
      SplitLast(es);
      GroupIsPermutation(p);
      PermutationStep(Group(p), Group(es), p, e);
    }
  }

  /** If `bs` rearranges `p`, then one loop step on `e` rearranges `p + [e]`. */
  lemma PermutationStep<P>(bs: seq<Bucket<P>>, r: seq<Bucket<P>>, p: seq<Entry<P>>, e: Entry<P>)
    requires r == Add(bs, e)
    requires multiset(Flatten(bs)) == multiset(p)
    ensures multiset(Flatten(r)) == multiset(p + [e])
  {
    AddKeepsEntries(bs, e);
  }

  /** The partition invariant of the grouping loop. */
  lemma GroupPartition<P>(es: seq<Entry<P>>)
    ensures var bs := Group(es);
      && DistinctDates(bs)
      && (forall i :: 0 <= i < |bs| ==> |bs[i].items| > 0)
      && (forall i, x :: 0 <= i < |bs| && x in bs[i].items ==> x in es && KeyOf(x) == bs[i].date)
      && (forall j :: 0 <= j < |es| ==>
            exists i :: 0 <= i < |bs| && bs[i].date == KeyOf(es[j]) && es[j] in bs[i].items)
      && multiset(Flatten(bs)) == multiset(es)
  {
    var bs := Group(es);
    var ks := DistinctKeys(es);
    forall i | 0 <= i < |bs|
      ensures |bs[i].items| > 0
    {
      EntriesOnNonEmpty(es, ks[i]);
    }
    forall j | 0 <= j < |es|
      ensures exists i :: 0 <= i < |bs| && bs[i].date == KeyOf(es[j]) && es[j] in bs[i].items
    {
      assert KeyOf(es[j]) in ks;
      var i :| 0 <= i < |ks| && ks[i] == KeyOf(es[j]);
      assert bs[i].date == KeyOf(es[j]);
    }
    GroupIsPermutation(es);
  }

  // ---------------------------------------------------------------------------
  // Capping and the representative of a day (lines 168-170).
  // ---------------------------------------------------------------------------

  /** The buckets that are rendered: the first `MaxDays`, or all of them. */
  function Cap<P>(bs: seq<Bucket<P>>): (shown: seq<Bucket<P>>)
    ensures |shown| == Min(MaxDays, |bs|)
    ensures shown <= bs
  {
    if |bs| <= MaxDays then bs else bs[..MaxDays]
  }

  /** `'12:00:00' in f['dt_txt']`. */
  predicate IsMidday<P>(e: Entry<P>)
  {
    Contains(e.dtTxt, Midday)
  }

  /** Position of the first midday entry, if there is one. */
  function MiddayIndex<P>(items: seq<Entry<P>>): (r: Option<nat>)
    ensures r.Some? ==> r.value < |items| && IsMidday(items[r.value]) &&
                        forall j :: 0 <= j < r.value ==> !IsMidday(items[j])
    ensures r.None? ==> forall j :: 0 <= j < |items| ==> !IsMidday(items[j])
  {
    if |items| == 0 then None
    else if IsMidday(items[0]) then Some(0)
    else
      match MiddayIndex(items[1..])
      case None => None
      case Some(i) => Some(i + 1)
  }

  /** `next((f for f in forecasts if '12:00:00' in f['dt_txt']), forecasts[0])`:
      the earliest midday entry, falling back to the first entry. */
  function Representative<P>(items: seq<Entry<P>>): (rep: Entry<P>)
    requires |items| > 0
    ensures rep in items
    ensures (exists j :: 0 <= j < |items| && IsMidday(items[j])) ==>
              IsMidday(rep) &&
              exists i :: 0 <= i < |items| && items[i] == rep &&
                          forall j :: 0 <= j < i ==> !IsMidday(items[j])
    ensures (forall j :: 0 <= j < |items| ==> !IsMidday(items[j])) ==> rep == items[0]
  {
    match MiddayIndex(items)
    case Some(i) => items[i]
    case None => items[0]
  }

  /** The day blocks `format_forecast` renders for the entry list `entries`. */
  function Summarize<P>(entries: seq<Entry<P>>): (days: seq<Day<P>>)
    ensures var kept := Truncate(entries);
      var ks := DistinctKeys(kept);
      && |days| == Min(MaxDays, |ks|)
      && forall i :: 0 <= i < |days| ==>
           && days[i].date == ks[i]
           && |EntriesOn(kept, ks[i])| > 0
           && days[i].rep == Representative(EntriesOn(kept, ks[i]))
  {
    var kept := Truncate(entries);
    var shown := Cap(Group(kept));
    ShownBuckets(kept);
    seq(|shown|, i requires 0 <= i < |shown| => Day(shown[i].date, Representative(shown[i].items)))
  }

  /** The rendered buckets are the first distinct dates, each with its non-empty entries. */
  lemma ShownBuckets<P>(kept: seq<Entry<P>>)
    ensures var shown := Cap(Group(kept));
      var ks := DistinctKeys(kept);
      && |shown| == Min(MaxDays, |ks|)
      && forall i :: 0 <= i < |shown| ==>
           shown[i].date == ks[i] && shown[i].items == EntriesOn(kept, ks[i]) && |shown[i].items| > 0
  {
    var bs := Group(kept);
    var ks := DistinctKeys(kept);
    forall i | 0 <= i < |bs|
      ensures |bs[i].items| > 0
    {
      EntriesOnNonEmpty(kept, ks[i]);
    }
  }

  /** Entries after the first `MaxEntries` never influence the rendered days. */
  lemma TailBeyondCapIgnored<P>(entries: seq<Entry<P>>, tail: seq<Entry<P>>)
    requires |entries| >= MaxEntries
    ensures Summarize(entries + tail) == Summarize(entries)
  {
    assert Truncate(entries + tail) == Truncate(entries);
  }

  /** The representative of a date is one of the entries, and it has that date. */
  lemma RepresentativeOfDate<P>(es: seq<Entry<P>>, k: string)
    requires k in DistinctKeys(es)
    ensures |EntriesOn(es, k)| > 0
    ensures var rep := Representative(EntriesOn(es, k));
      rep in es && KeyOf(rep) == k
  {
    EntriesOnNonEmpty(es, k);
    var items := EntriesOn(es, k);
    var n :| 0 <= n < |items| && items[n] == Representative(items);
  }

  /** Encounter order for one pair of keys. Proving it apart from its callers keeps
      the all-pairs statement of `KeysInEncounterOrder` out of their proof context. */
  lemma KeyPairInEncounterOrder<P>(es: seq<Entry<P>>, i: nat, j: nat)
    requires i < j < |DistinctKeys(es)|
    ensures FirstIndex(es, DistinctKeys(es)[i]) < FirstIndex(es, DistinctKeys(es)[j])
  {
    KeysInEncounterOrder(es);
  }

  /** The rendered days carry distinct dates, ordered by the dates' first appearance
      among the kept entries. */
  lemma DaysInEncounterOrder<P>(entries: seq<Entry<P>>)
    ensures var kept := Truncate(entries);
      var days := Summarize(entries);
      forall i, j :: 0 <= i < j < |days| ==>
        days[i].date != days[j].date &&
        FirstIndex(kept, days[i].date) < FirstIndex(kept, days[j].date)
  {
    var kept := Truncate(entries);
    var days := Summarize(entries);
    var ks := DistinctKeys(kept);
    forall i, j | 0 <= i < j < |days|
      ensures days[i].date != days[j].date
      ensures FirstIndex(kept, days[i].date) < FirstIndex(kept, days[j].date)
    {
      assert days[i].date == ks[i] && days[j].date == ks[j];
      KeyPairInEncounterOrder(kept, i, j);
    }
  }

  /** The first entry of a date's bucket is the date's first occurrence in `es`. */
  lemma {:induction false} EntriesOnFirst<P>(es: seq<Entry<P>>, k: string)
    requires k in DistinctKeys(es)
    ensures |EntriesOn(es, k)| > 0 && EntriesOn(es, k)[0] == es[FirstIndex(es, k)]
  {
    EntriesOnNonEmpty(es, k);
    var p := es[..|es| - 1];
    var e := es[|es| - 1];
    SplitLast(es);
    EntriesOnSnoc(p, e, k);
    DistinctKeysSnoc(p, e);
    if k in DistinctKeys(p) {
      EntriesOnFirst(p, k);
      var j :| 0 <= j < |p| && KeyOf(p[j]) == k;
      FirstIndexExtend(p, e, k);
    } else {
      EntriesOnNonEmpty(p, k);
      FirstIndexOfNewKey(p, e);
    }
  }

  /** When no entry of a date contains the midday marker, the date is represented by
      its first entry in the list. */
  lemma FallbackIsFirstOfDate<P>(es: seq<Entry<P>>, k: string)
    requires k in DistinctKeys(es)
    requires forall j :: 0 <= j < |es| && KeyOf(es[j]) == k ==> !IsMidday(es[j])
    ensures |EntriesOn(es, k)| > 0
    ensures Representative(EntriesOn(es, k)) == es[FirstIndex(es, k)]
  {
    var items := EntriesOn(es, k);
    EntriesOnFirst(es, k);
    forall n | 0 <= n < |items|
      ensures !IsMidday(items[n])
    {
      var j :| 0 <= j < |es| && es[j] == items[n];
    }
  }

  /** When some entry of a date contains the midday marker, the date is represented by
      a midday entry. */
  lemma MiddayPreferred<P>(es: seq<Entry<P>>, k: string, j: nat)
    requires j < |es| && KeyOf(es[j]) == k && IsMidday(es[j])
    ensures |EntriesOn(es, k)| > 0
    ensures IsMidday(Representative(EntriesOn(es, k)))
  {
    var items := EntriesOn(es, k);
    var n :| 0 <= n < |items| && items[n] == es[j];
  }
}
