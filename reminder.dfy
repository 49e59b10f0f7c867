/**
 * internal/usecase/notifications/record_reminder_calculate.go: planning a
 * user's "record your spending" reminders from their transactions. The
 * hours of day at which the user records most become the reminder times,
 * the categories they record most go into the text, and one send task per
 * hour is put on the Asynq queue.
 *
 * The transactions read, the clock, the random choice of text and the
 * queue's answers are parameters. The order in which Go ranges over a map
 * is left open: the model picks any key of those left.
 */
module Reminder {
  import opened Wrappers
  import opened Uuids
  import opened Times
  import opened Errors
  import opened Categories
  import opened Transactions
  import opened Text

  /** The hour used when the user has no transactions. */
  const DefaultHour := 12
  /** How many peak hours and top categories are kept. */
  const TopCount := 3
  const SecondsPerHour := 3600
  /** `RecordReminderSendTaskName`, internal/tasks/record_reminder.go. */
  const SendTaskName := "record_reminder:send"
  const QueueName := "medium"

  /** A send task handed to the queue: its type, payload, queue and delay in seconds. */
  datatype Task = Task(typeName: string, userId: UuidText, text: string, queue: string, delay: int)

  /** What a run does: fail, crash on a transaction without a category, or plan the reminders. */
  datatype Outcome =
    | Failed(err: Error)
    | Crashed
    | Finished(tasks: seq<Task>, accepted: seq<Task>)

  // ----------------------------------------------------------------- counting

  /** How often `k` occurs in `ks`. */
  function Occurrences<K(==,!new)>(ks: seq<K>, k: K): nat {
    if ks == [] then 0 else Occurrences(ks[..|ks| - 1], k) + (if ks[|ks| - 1] == k then 1 else 0)
  }

  /** A key occurs in a sequence exactly when it is counted. */
  lemma {:induction false} OccursIffCounted<K(!new)>(ks: seq<K>, k: K)
    ensures Occurrences(ks, k) > 0 <==> k in ks
  {
    if ks != [] {
      OccursIffCounted(ks[..|ks| - 1], k);
      assert ks == ks[..|ks| - 1] + [ks[|ks| - 1]];
    }
  }

  /** `m` counts the keys of `ks`: it holds each key that occurs, with its number of occurrences. */
  ghost predicate IsTally<K(!new)>(m: map<K, nat>, ks: seq<K>) {
    (forall k :: k in m <==> k in ks) && (forall k :: k in m ==> m[k] == Occurrences(ks, k))
  }

  /** Incrementing the bucket of `x` counts one more key. */
  lemma TallyStep<K(!new)>(m: map<K, nat>, ks: seq<K>, x: K)
    requires IsTally(m, ks)
    ensures IsTally(m[x := (if x in m then m[x] else 0) + 1], ks + [x])
  {
    assert (ks + [x])[..|ks|] == ks;
    forall k ensures k in ks + [x] <==> k in ks || k == x {
    }
    OccursIffCounted(ks, x);
  }

  /** The hour of day at which each transaction was created. */
  function HoursOf(txs: seq<TxRec>): (r: seq<int>)
    ensures |r| == |txs| && forall i :: 0 <= i < |txs| ==> r[i] == txs[i].createdAt.hour
  {
    if txs == [] then [] else HoursOf(txs[..|txs| - 1]) + [txs[|txs| - 1].createdAt.hour]
  }

  /** The name of each transaction's category. */
  function NamesOf(txs: seq<TxRec>): (r: seq<string>)
    ensures |r| == |txs|
    ensures forall i :: 0 <= i < |txs| && txs[i].category.Some? ==> r[i] == txs[i].category.value.name
  {
    if txs == [] then []
    else
      var t := txs[|txs| - 1];
      NamesOf(txs[..|txs| - 1]) + [if t.category.Some? then t.category.value.name else ""]
  }

  /**
   * The counting loop: each transaction adds one to its hour's bucket and
   * then one to its category's; a transaction without a category stops the
   * run there (Go dereferences the nil category).
   */
  method CountPeaks(txs: seq<TxRec>) returns (crashed: bool, hourCounts: map<int, nat>, categoryCounts: map<string, nat>)
    ensures crashed <==> exists i :: 0 <= i < |txs| && txs[i].category.None?
    ensures !crashed ==> IsTally(hourCounts, HoursOf(txs)) && IsTally(categoryCounts, NamesOf(txs))
  {
    hourCounts, categoryCounts := map[], map[];
    var i := 0;
    while i < |txs|
      invariant 0 <= i <= |txs|
      invariant forall j :: 0 <= j < i ==> txs[j].category.Some?
      invariant IsTally(hourCounts, HoursOf(txs[..i])) && IsTally(categoryCounts, NamesOf(txs[..i]))
    {
      var t := txs[i];
      assert txs[..i + 1][..i] == txs[..i];
      TallyStep(hourCounts, HoursOf(txs[..i]), t.createdAt.hour);
      hourCounts := hourCounts[t.createdAt.hour := (if t.createdAt.hour in hourCounts then hourCounts[t.createdAt.hour] else 0) + 1];
      if t.category.None? {
        return true, hourCounts, categoryCounts;
      }
      var name := t.category.value.name;
      TallyStep(categoryCounts, NamesOf(txs[..i]), name);
      categoryCounts := categoryCounts[name := (if name in categoryCounts then categoryCounts[name] else 0) + 1];
      i := i + 1;
    }
    assert txs[..|txs|] == txs;
    return false, hourCounts, categoryCounts;
  }

  /** The sum of the counts of the given keys. */
  function CountOf<K(==,!new)>(keys: seq<K>, ks: seq<K>): nat {
    if keys == [] then 0 else CountOf(keys[..|keys| - 1], ks) + Occurrences(ks, keys[|keys| - 1])
  }

  /** No two positions of `keys` hold the same key. */
  predicate Distinct<K(==,!new)>(keys: seq<K>) {
    forall i, j :: 0 <= i < j < |keys| ==> keys[i] != keys[j]
  }

  lemma {:induction false} CountOfNone<K(!new)>(keys: seq<K>)
    ensures CountOf(keys, []) == 0
  {
    if keys != [] {
      CountOfNone(keys[..|keys| - 1]);
    }
  }

  lemma {:induction false} CountOfSnoc<K(!new)>(keys: seq<K>, ks: seq<K>, x: K)
    ensures CountOf(keys, ks + [x]) == CountOf(keys, ks) + Occurrences(keys, x)
  {
    assert (ks + [x])[..|ks|] == ks;
    if keys != [] {
      CountOfSnoc(keys[..|keys| - 1], ks, x);
    }
  }

  lemma {:induction false} OnceInDistinct<K(!new)>(keys: seq<K>, x: K)
    requires Distinct(keys) && x in keys
    ensures Occurrences(keys, x) == 1
  {
    var init := keys[..|keys| - 1];
    if keys[|keys| - 1] == x {
      assert x !in init;
      OccursIffCounted(init, x);
    } else {
      assert x in init;
      OnceInDistinct(init, x);
    }
  }

  /**
   * Each key falls in exactly one bucket: over distinct keys covering every
   * key that occurs, the counts add up to the number of keys counted.
   */
  lemma {:induction false} CountsSumToTotal<K(!new)>(keys: seq<K>, ks: seq<K>)
    requires Distinct(keys) && forall k :: k in ks ==> k in keys
    ensures CountOf(keys, ks) == |ks|
  {
    if ks == [] {
      CountOfNone(keys);
    } else {
      var init, x := ks[..|ks| - 1], ks[|ks| - 1];
      assert ks == init + [x];
      CountsSumToTotal(keys, init);
      CountOfSnoc(keys, init, x);
      OnceInDistinct(keys, x);
    }
  }

  // ------------------------------------------------------------------ ranking

  /** One entry of the slice built from a count map. */
  datatype Bucket<K> = Bucket(key: K, count: nat)

  /** No two entries share a key. */
  predicate DistinctKeys<K(==,!new)>(s: seq<Bucket<K>>) {
    forall i, j :: 0 <= i < j < |s| ==> s[i].key != s[j].key
  }

  /** Some entry has the key. */
  predicate HasKey<K(==,!new)>(s: seq<Bucket<K>>, k: K) {
    exists i :: 0 <= i < |s| && s[i].key == k
  }

  /** `s` lists the entries of `m`, each once. */
  predicate Lists<K(==,!new)>(s: seq<Bucket<K>>, m: map<K, nat>) {
    && (forall i :: 0 <= i < |s| ==> s[i].key in m && s[i].count == m[s[i].key])
    && DistinctKeys(s)
    && (forall k :: k in m ==> HasKey(s, k))
  }

  /** `for k, c := range m { s = append(s, {k, c}) }`, in whatever order Go picks. */
  method Buckets<K(==,!new)>(m: map<K, nat>) returns (s: seq<Bucket<K>>)
    ensures Lists(s, m)
  {
    s := [];
    var rest := m.Keys;
    while rest != {}
      invariant rest <= m.Keys
      invariant forall i :: 0 <= i < |s| ==> s[i].key in m && s[i].key !in rest && s[i].count == m[s[i].key]
      invariant DistinctKeys(s)
      invariant forall k :: k in m && k !in rest ==> HasKey(s, k)
      decreases |rest|
    {
      var k :| k in rest;
      ghost var before := s;
      s := s + [Bucket(k, m[k])];
      assert s[|s| - 1].key == k;
      forall k' | HasKey(before, k') ensures HasKey(s, k') {
        var i :| 0 <= i < |before| && before[i].key == k';
        assert s[i] == before[i];
      }
      rest := rest - {k};
    }
  }

  /** Counts never grow along the sequence. */
  predicate NonIncreasing<K>(s: seq<Bucket<K>>) {
    forall i, j :: 0 <= i < j < |s| ==> s[i].count >= s[j].count
  }

  /** `b` placed after every entry whose count is at least its own. */
  function InsertByCount<K(==,!new)>(s: seq<Bucket<K>>, b: Bucket<K>): (r: seq<Bucket<K>>)
    ensures |r| == |s| + 1 && multiset(r) == multiset(s) + multiset{b}
  {
    if s == [] then [b]
    else if s[0].count >= b.count then
      assert s == [s[0]] + s[1..];
      [s[0]] + InsertByCount(s[1..], b)
    else [b] + s
  }

  /** The inserted sequence holds the entries and `b`, and nothing else. */
  lemma InsertMembers<K(!new)>(s: seq<Bucket<K>>, b: Bucket<K>)
    ensures forall x :: x in InsertByCount(s, b) <==> x in s || x == b
  {
    var r := InsertByCount(s, b);
    forall x ensures x in r <==> x in s || x == b {
      assert x in r <==> x in multiset(r);
      assert x in s <==> x in multiset(s);
    }
  }

  /** Inserting keeps the order by count. */
  lemma {:induction false} InsertKeepsOrder<K(!new)>(s: seq<Bucket<K>>, b: Bucket<K>)
    requires NonIncreasing(s)
    ensures NonIncreasing(InsertByCount(s, b))
  {
    if s != [] && s[0].count >= b.count {
      var tail := s[1..];
      InsertKeepsOrder(tail, b);
      InsertMembers(tail, b);
      var rest := InsertByCount(tail, b);
      var r := [s[0]] + rest;
      forall j | 0 < j < |r|
        ensures r[0].count >= r[j].count
      {
        assert r[j] == rest[j - 1];
        assert r[j] in tail || r[j] == b;
      }
    }
  }

  /** Inserting an entry whose key is new keeps the keys distinct. */
  lemma {:induction false} InsertKeepsDistinct<K(!new)>(s: seq<Bucket<K>>, b: Bucket<K>)
    ensures DistinctKeys(s) && !HasKey(s, b.key) ==> DistinctKeys(InsertByCount(s, b))
  {
    var r := InsertByCount(s, b);
    if DistinctKeys(s) && !HasKey(s, b.key) && s != [] {
      if s[0].count >= b.count {
        var tail := s[1..];
        assert !HasKey(tail, b.key) by {
          forall i | 0 <= i < |tail| ensures tail[i].key != b.key {
            assert tail[i] == s[i + 1];
          }
        }
        InsertKeepsDistinct(tail, b);
        InsertMembers(tail, b);
        var rest := InsertByCount(tail, b);
        assert r == [s[0]] + rest;
        forall j | 0 < j < |r|
          ensures r[0].key != r[j].key
        {
          assert r[j] == rest[j - 1];
          if r[j] != b {
            assert r[j] in tail;
            var i :| 0 <= i < |tail| && tail[i] == r[j];
            assert tail[i] == s[i + 1];
          }
        }
      } else {
        forall j | 0 < j < |r|
          ensures r[0].key != r[j].key
        {
          assert r[j] == s[j - 1];
        }
      }
    }
  }

  /**
   * `sort.Slice` by count, largest first: a permutation of the entries with
   * non-increasing counts. Go's sort is not stable, so ties may come out in
   * any order; the model's order is one of those.
   */
  function SortByCount<K(==,!new)>(s: seq<Bucket<K>>): (r: seq<Bucket<K>>)
    ensures |r| == |s| && multiset(r) == multiset(s) && NonIncreasing(r)
    ensures DistinctKeys(s) ==> DistinctKeys(r)
  {
    if s == [] then []
    else
      var init, b := s[..|s| - 1], s[|s| - 1];
      assert s == init + [b];
      var sorted := SortByCount(init);
      InsertKeepsOrder(sorted, b);
      SortKeepsKeys(s, sorted);
      InsertKeepsDistinct(sorted, b);
      InsertByCount(sorted, b)
  }

  /** The sorted entries of all but the last are those entries, so the last key is new among them. */
  lemma SortKeepsKeys<K(!new)>(s: seq<Bucket<K>>, sorted: seq<Bucket<K>>)
    requires s != [] && multiset(sorted) == multiset(s[..|s| - 1])
    ensures DistinctKeys(s) ==> !HasKey(sorted, s[|s| - 1].key)
    ensures DistinctKeys(s) ==> DistinctKeys(s[..|s| - 1])
  {
    var init := s[..|s| - 1];
    if DistinctKeys(s) {
      forall i | 0 <= i < |sorted|
        ensures sorted[i].key != s[|s| - 1].key
      {
        assert sorted[i] in multiset(init);
        var j :| 0 <= j < |init| && init[j] == sorted[i];
        assert init[j] == s[j];
      }
      forall i, j | 0 <= i < j < |init| ensures init[i].key != init[j].key {
        assert init[i] == s[i] && init[j] == s[j];
      }
    }
  }

  /** A rearrangement with distinct keys of a listing of `m` lists `m`. */
  lemma PermutedListing<K(!new)>(s: seq<Bucket<K>>, r: seq<Bucket<K>>, m: map<K, nat>)
    requires Lists(s, m) && multiset(r) == multiset(s) && DistinctKeys(r)
    ensures Lists(r, m)
  {
    forall i | 0 <= i < |r|
      ensures r[i].key in m && r[i].count == m[r[i].key]
    {
      assert r[i] in multiset(s);
      var a :| 0 <= a < |s| && s[a] == r[i];
    }
    forall k | k in m
      ensures HasKey(r, k)
    {
      var a :| 0 <= a < |s| && s[a].key == k;
      assert s[a] in multiset(r);
      var b :| 0 <= b < |r| && r[b] == s[a];
    }
  }

  /** The keys of the first `n` entries, or of all when there are fewer. */
  method TopKeys<K(==,!new)>(s: seq<Bucket<K>>, n: nat) returns (top: seq<K>)
    ensures |top| == if |s| < n then |s| else n
    ensures forall i :: 0 <= i < |top| ==> top[i] == s[i].key
  {
    var limit := n;
    if |s| < limit {
      limit := |s|;
    }
    top := [];
    var i := 0;
    while i < limit
      invariant 0 <= i <= limit && |top| == i
      invariant forall j :: 0 <= j < i ==> top[j] == s[j].key
    {
      top := top + [s[i].key];
      i := i + 1;
    }
  }

  /**
   * `top` is a valid choice of the `n` most frequent keys of `ks`: at most
   * `n` distinct keys that occur, all of them when fewer than `n` do, in
   * non-increasing order of frequency, and none less frequent than a key
   * left out.
   */
  ghost predicate IsTopChoice<K(!new)>(top: seq<K>, ks: seq<K>, n: nat) {
    && |top| <= n
    && (|top| < n ==> forall k :: k in ks ==> k in top)
    && Distinct(top)
    && (forall i :: 0 <= i < |top| ==> top[i] in ks)
    && (forall i, j :: 0 <= i < j < |top| ==> Occurrences(ks, top[i]) >= Occurrences(ks, top[j]))
    && (forall i, k :: 0 <= i < |top| && k !in top ==> Occurrences(ks, top[i]) >= Occurrences(ks, k))
  }

  /** The first `n` keys of a count-sorted listing of the tally are a valid top choice. */
  lemma {:induction false} TopOfRanking<K(!new)>(ks: seq<K>, m: map<K, nat>, s: seq<Bucket<K>>, top: seq<K>, n: nat)
    requires IsTally(m, ks) && Lists(s, m) && NonIncreasing(s)
    requires |top| == (if |s| < n then |s| else n) && forall i :: 0 <= i < |top| ==> top[i] == s[i].key
    ensures IsTopChoice(top, ks, n)
  {
    forall k | k in ks && |top| < n
      ensures k in top
    {
      var j :| 0 <= j < |s| && s[j].key == k;
      assert top[j] == k;
    }
    forall i, k | 0 <= i < |top| && k !in top
      ensures Occurrences(ks, top[i]) >= Occurrences(ks, k)
    {
      if k in ks {
        var j :| 0 <= j < |s| && s[j].key == k;
        assert j >= |top|;
        assert s[i].count >= s[j].count;
      } else {
        OccursIffCounted(ks, k);
      }
    }
  }

  /**
   * Counting, listing, sorting and cutting: a valid choice of the `n` most
   * frequent keys, empty exactly when nothing was counted.
   */
  method RankTop<K(==,!new)>(ks: seq<K>, counts: map<K, nat>, n: nat) returns (top: seq<K>)
    requires IsTally(counts, ks) && n > 0
    ensures IsTopChoice(top, ks, n)
    ensures |top| == 0 <==> |ks| == 0
  {
    var listed := Buckets(counts);
    var sorted := SortByCount(listed);
    PermutedListing(listed, sorted, counts);
    top := TopKeys(sorted, n);
    TopOfRanking(ks, counts, sorted, top, n);
    if |ks| > 0 {
      assert ks[0] in counts;
      assert HasKey(sorted, ks[0]);
    }
  }

  // --------------------------------------------------------------------- text

  /** A reminder text: an opening, the clause around the category names, a closing. */
  datatype Template = Template(opening: string, clauseBefore: string, clauseAfter: string, closing: string)

  /** `constructReminderText1`, `2` and `3`. */
  const Templates: seq<Template> := [
    Template(
      "\U{1F440} \U{410} \U{43D}\U{443} \U{43F}\U{440}\U{438}\U{437}\U{43D}\U{430}\U{432}\U{430}\U{439}\U{442}\U{435}\U{441}\U{44C}, \U{443}\U{436}\U{435} \U{43F}\U{43E}\U{442}\U{440}\U{430}\U{442}\U{438}\U{43B}\U{438}\U{441}\U{44C}?",
      "\n\n\U{41F}\U{43E}\U{434}\U{43E}\U{437}\U{440}\U{435}\U{432}\U{430}\U{44E}: \U{441}\U{43D}\U{43E}\U{432}\U{430} <i>",
      "</i> \U{2615}\U{1F604}",
      "\n\n\U{417}\U{430}\U{43F}\U{438}\U{448}\U{438}\U{442}\U{435}, \U{43F}\U{43E}\U{43A}\U{430} \U{43A}\U{43E}\U{444}\U{435} \U{43D}\U{435} \U{441}\U{434}\U{435}\U{43B}\U{430}\U{43B} \U{434}\U{44B}\U{440}\U{43A}\U{443} \U{432} \U{431}\U{44E}\U{434}\U{436}\U{435}\U{442}\U{435} \U{1F605}"),
    Template(
      "\U{1F4B8} \U{412}\U{430}\U{448}\U{438} \U{434}\U{435}\U{43D}\U{44C}\U{433}\U{438} \U{441}\U{43D}\U{43E}\U{432}\U{430} \U{440}\U{435}\U{448}\U{438}\U{43B}\U{438} \U{43F}\U{440}\U{43E}\U{433}\U{443}\U{43B}\U{44F}\U{442}\U{44C}\U{441}\U{44F}!",
      "\n\n\U{418} \U{43A}\U{430}\U{43A} \U{432}\U{441}\U{435}\U{433}\U{434}\U{430} \U{2014} \U{432} \U{43D}\U{430}\U{43F}\U{440}\U{430}\U{432}\U{43B}\U{435}\U{43D}\U{438}\U{438}: <i>",
      "</i> \U{1F937}\U{200D}\U{2642}\U{FE0F}",
      "\n\n\U{414}\U{430}\U{432}\U{430}\U{439}\U{442}\U{435} \U{43F}\U{43E}\U{439}\U{43C}\U{430}\U{435}\U{43C} \U{438}\U{445} \U{432} \U{441}\U{43F}\U{438}\U{441}\U{43E}\U{447}\U{435}\U{43A} \U{440}\U{430}\U{441}\U{445}\U{43E}\U{434}\U{43E}\U{432} \U{1F575}\U{FE0F}\U{200D}\U{2642}\U{FE0F}"),
    Template(
      "\U{1F4DD} \U{41F}\U{43E}\U{440}\U{430} \U{437}\U{430}\U{43F}\U{438}\U{441}\U{430}\U{442}\U{44C} \U{440}\U{430}\U{441}\U{445}\U{43E}\U{434}\U{44B}, \U{43F}\U{43E}\U{43A}\U{430} \U{43E}\U{43D}\U{438} \U{43D}\U{435} \U{441}\U{431}\U{435}\U{436}\U{430}\U{43B}\U{438}!",
      "\n\n\U{418} \U{434}\U{430}\U{2026} \U{441}\U{43D}\U{43E}\U{432}\U{430} <i>",
      "</i> \U{1F60F}",
      "\n\n\U{41A}\U{43E}\U{448}\U{435}\U{43B}\U{451}\U{43A} \U{432}\U{435}\U{434}\U{44C} \U{43D}\U{435} \U{440}\U{435}\U{437}\U{438}\U{43D}\U{43E}\U{432}\U{44B}\U{439}\U{2026} \U{43F}\U{43E}\U{43A}\U{430} \U{1F605}")
  ]

  /** The text of template `t` for the top categories: the clause only when there are some. */
  function Render(t: Template, topCategories: seq<string>): string {
    t.opening + (if |topCategories| > 0 then t.clauseBefore + Join(topCategories, ", ") + t.clauseAfter else "")
      + t.closing
  }

  /** The `switch` on `RandomInt(1, 3)`: the chosen template, or "" for a value with no case. */
  function ReminderText(choice: int, topCategories: seq<string>): string {
    if 1 <= choice <= |Templates| then Render(Templates[choice - 1], topCategories) else ""
  }

  /** `strings.Join` contains each of the parts. */
  lemma {:induction false} JoinContainsEach(parts: seq<string>, sep: string, i: nat)
    requires i < |parts|
    ensures Contains(Join(parts, sep), parts[i])
  {
    var j := Join(parts, sep);
    if i == 0 {
      assert OccursAt(j, parts[0], 0);
    } else {
      var tail := Join(parts[1..], sep);
      JoinContainsEach(parts[1..], sep, i - 1);
      var k :| OccursAt(tail, parts[i], k);
      assert OccursAt(tail, parts[i], k);
      var head := parts[0] + sep;
      assert j == head + tail;
      assert j[|head|..] == tail;
      assert j[|head| + k..|head| + k + |parts[i]|] == j[|head|..][k..k + |parts[i]|];
      assert OccursAt(j, parts[i], |head| + k);
    }
  }

  /** A part of the middle piece is a part of the whole. */
  lemma ContainsInMiddle(a: string, b: string, c: string, part: string)
    requires Contains(b, part)
    ensures Contains(a + b + c, part)
  {
    var k :| OccursAt(b, part, k);
    assert OccursAt(b, part, k);
    assert (a + b + c)[|a| + k..|a| + k + |part|] == b[k..k + |part|];
    assert OccursAt(a + b + c, part, |a| + k);
  }

  /** Every template has a non-empty clause. */
  lemma TemplatesMarkTheClause()
    ensures forall i :: 0 <= i < |Templates| ==> |Templates[i].clauseBefore| > 0
  {
  }

  /**
   * The text has the category clause exactly when there are top
   * categories: without them it is the bare opening and closing, and with
   * them it is longer and names each of them.
   */
  lemma TextNamesCategories(choice: int, topCategories: seq<string>)
    requires 1 <= choice <= 3
    ensures var t := Templates[choice - 1];
            (ReminderText(choice, topCategories) == t.opening + t.closing) <==> |topCategories| == 0
    ensures forall i :: 0 <= i < |topCategories| ==> Contains(ReminderText(choice, topCategories), topCategories[i])
  {
    var t := Templates[choice - 1];
    TemplatesMarkTheClause();
    if |topCategories| > 0 {
      assert |ReminderText(choice, topCategories)| > |t.opening + t.closing|;
      forall i | 0 <= i < |topCategories|
        ensures Contains(ReminderText(choice, topCategories), topCategories[i])
      {
        var joined := Join(topCategories, ", ");
        JoinContainsEach(topCategories, ", ", i);
        ContainsInMiddle(t.clauseBefore, joined, t.clauseAfter, topCategories[i]);
        ContainsInMiddle(t.opening, t.clauseBefore + joined + t.clauseAfter, t.closing, topCategories[i]);
      }
    }
  }

  // ------------------------------------------------------------------ schedule

  /** The time of day in seconds. */
  function ClockSeconds(t: Time): int {
    t.hour * SecondsPerHour + t.minute * 60 + t.second
  }

  /**
   * The delay until the next `h`:00:00: today's, or tomorrow's when today's
   * has passed; it is less than a day and lands on `h`:00:00.
   */
  function NextRunDelay(now: Time, h: int): (d: int)
    requires now.Valid() && 0 <= h < 24
    ensures 0 <= d < SecondsPerDay
    ensures (ClockSeconds(now) + d) % SecondsPerDay == h * SecondsPerHour
  {
    var d := h * SecondsPerHour - ClockSeconds(now);
    if d < 0 then d + SecondsPerDay else d
  }

  /** Send tasks the queue accepts, in order: those whose `Enqueue` did not fail. */
  function Accepted(tasks: seq<Task>, enqueueFails: nat -> bool): (r: seq<Task>)
    ensures |r| <= |tasks|
    ensures forall x :: x in r ==> x in tasks
  {
    if tasks == [] then []
    else Accepted(tasks[..|tasks| - 1], enqueueFails) + (if enqueueFails(|tasks| - 1) then [] else [tasks[|tasks| - 1]])
  }

  /** With no enqueue failing, the queue takes every task. */
  lemma {:induction false} NoFailureAcceptsAll(tasks: seq<Task>, enqueueFails: nat -> bool)
    requires forall i :: 0 <= i < |tasks| ==> !enqueueFails(i)
    ensures Accepted(tasks, enqueueFails) == tasks
  {
    if tasks != [] {
      NoFailureAcceptsAll(tasks[..|tasks| - 1], enqueueFails);
    }
  }

  /** The loop over the peak hours: one send task per hour, an enqueue failure only logged. */
  method Schedule(userId: UuidText, text: string, peakHours: seq<int>, now: Time, enqueueFails: nat -> bool)
    returns (tasks: seq<Task>, accepted: seq<Task>)
    requires now.Valid() && forall i :: 0 <= i < |peakHours| ==> 0 <= peakHours[i] < 24
    ensures |tasks| == |peakHours|
    ensures forall i :: 0 <= i < |peakHours| ==>
              tasks[i] == Task(SendTaskName, userId, text, QueueName, NextRunDelay(now, peakHours[i]))
    ensures accepted == Accepted(tasks, enqueueFails)
  {
    tasks, accepted := [], [];
    var i := 0;
    while i < |peakHours|
      invariant 0 <= i <= |peakHours| && |tasks| == i
      invariant forall j :: 0 <= j < i ==> tasks[j] == Task(SendTaskName, userId, text, QueueName, NextRunDelay(now, peakHours[j]))
      invariant accepted == Accepted(tasks, enqueueFails)
    {
      var delay := NextRunDelay(now, peakHours[i]);
      var task := Task(SendTaskName, userId, text, QueueName, delay);
      assert (tasks + [task])[..i] == tasks;
      tasks := tasks + [task];
      if !enqueueFails(i) {
        accepted := accepted + [task];
      }
      i := i + 1;
    }
  }

  // --------------------------------------------------------------------- run

  /** The peak hours: [12] without transactions, else a valid choice of the three busiest hours. */
  ghost predicate PeakHoursOf(peakHours: seq<int>, txs: seq<TxRec>) {
    if |txs| == 0 then peakHours == [DefaultHour] else IsTopChoice(peakHours, HoursOf(txs), TopCount)
  }

  /** Hours of day of valid times. */
  predicate HoursInDay(hours: seq<int>) {
    forall i :: 0 <= i < |hours| ==> 0 <= hours[i] < 24
  }

  /** The peak hours from the hour counts: [12] when there are none, else the three busiest. */
  method PeakHours(txs: seq<TxRec>, hourCounts: map<int, nat>) returns (peakHours: seq<int>)
    requires IsTally(hourCounts, HoursOf(txs))
    requires forall i :: 0 <= i < |txs| ==> txs[i].createdAt.Valid()
    ensures PeakHoursOf(peakHours, txs) && HoursInDay(peakHours)
  {
    peakHours := RankTop(HoursOf(txs), hourCounts, TopCount);
    if |peakHours| == 0 {
      peakHours := [DefaultHour];
    } else {
      forall i | 0 <= i < |peakHours|
        ensures 0 <= peakHours[i] < 24
      {
        var j :| 0 <= j < |txs| && HoursOf(txs)[j] == peakHours[i];
        assert txs[j].createdAt.Valid();
      }
    }
  }

  /**
   * `RecordReminderCalculate`. `fetched` is what `GetByUserID` returned for
   * all of the user's transactions, `parseErr` the message `uuid.Parse`
   * gives a malformed id, `choice` what `RandomInt(1, 3)` drew, `now` the
   * clock, and `enqueueFails(i)` whether the i-th `Enqueue` failed. The
   * chosen peak hours and top categories are returned beside the outcome.
   */
  method RecordReminderCalculate(userId: UuidText, parseErr: string, fetched: Result<seq<TxRec>>, choice: int,
                                 now: Time, enqueueFails: nat -> bool)
    returns (o: Outcome, peakHours: seq<int>, topCategories: seq<string>)
    requires now.Valid()
    requires fetched.Ok? ==> forall i :: 0 <= i < |fetched.value| ==> fetched.value[i].createdAt.Valid()
    ensures userId.Malformed? ==> o == Failed(Validation("user_id", parseErr))
    ensures userId.Canonical? && fetched.Err? ==> o == Failed(fetched.error)
    ensures o.Crashed? <==> userId.Canonical? && fetched.Ok? && exists i :: 0 <= i < |fetched.value| && fetched.value[i].category.None?
    ensures o.Finished? <==> userId.Canonical? && fetched.Ok? && !o.Crashed?
    ensures o.Finished? ==> && PeakHoursOf(peakHours, fetched.value) && HoursInDay(peakHours)
                            && IsTopChoice(topCategories, NamesOf(fetched.value), TopCount)
                            && |o.tasks| == |peakHours|
                            && (forall i :: 0 <= i < |peakHours| ==>
                                  o.tasks[i] == Task(SendTaskName, userId, ReminderText(choice, topCategories), QueueName,
                                                     NextRunDelay(now, peakHours[i])))
                            && o.accepted == Accepted(o.tasks, enqueueFails)
  {
    peakHours, topCategories := [], [];
    if userId.Malformed? {
      return Failed(Validation("user_id", parseErr)), peakHours, topCategories;
    }
    if fetched.Err? {
      return Failed(fetched.error), peakHours, topCategories;
    }
    var txs := fetched.value;
    var crashed, hourCounts, categoryCounts := CountPeaks(txs);
    if crashed {
      return Crashed, peakHours, topCategories;
    }
    peakHours := PeakHours(txs, hourCounts);
    topCategories := RankTop(NamesOf(txs), categoryCounts, TopCount);
    var text := ReminderText(choice, topCategories);
    var tasks, accepted := Schedule(userId, text, peakHours, now, enqueueFails);
    return Finished(tasks, accepted), peakHours, topCategories;
  }
}
