/** The key-value store behind the analytics endpoints (Upstash Redis over REST), reduced to
    the commands used: SET and GET on strings, LPUSH, LTRIM and LRANGE on lists, INCR on
    counters. */
module KvStore {
  import opened Wrappers
  import opened Text

  function Min(a: int, b: int): int {
    if a < b then a else b
  }

  /** The first `n` elements, or all of them. */
  function Take<T>(xs: seq<T>, n: nat): (r: seq<T>)
    ensures |r| == Min(n, |xs|) && r <= xs
  {
    xs[..Min(n, |xs|)]
  }

  /** The elements from `start` to `stop` inclusive, with the index rules LRANGE and LTRIM
      share: a negative index counts from the end, a start before the head becomes 0, a
      stop past the end becomes the last index, and an empty range is the empty list. */
  function Range<T>(xs: seq<T>, start: int, stop: int): (r: seq<T>)
    ensures |r| <= |xs|
    ensures 0 <= start <= stop ==> r == xs[Min(start, |xs|)..Min(stop + 1, |xs|)]
    ensures 0 <= stop < start ==> r == []
  {
    var n := |xs|;
    var s := if start < 0 then start + n else start;
    var e := if stop < 0 then stop + n else stop;
    var s := if s < 0 then 0 else s;
    if s > e || s >= n then []
    else
      var e := if e >= n then n - 1 else e;
      xs[s..e + 1]
  }

  /** A range from the head is a prefix. */
  lemma RangeFromHead<T>(xs: seq<T>, stop: nat)
    ensures Range(xs, 0, stop) == Take(xs, stop + 1)
  {
  }

  /** A negative stop counts from the end: `0 .. -2` is everything but the last element,
      however long the list is. */
  lemma RangeAllButLast<T>(xs: seq<T>)
    requires |xs| >= 1
    ensures Range(xs, 0, -2) == xs[..|xs| - 1]
  {
  }

  /** The commands the handlers issue that change the store. */
  datatype Command =
    | SetCmd(key: string, value: string)
    | LPushCmd(key: string, value: string)
    | LTrimCmd(key: string, start: int, stop: int)
    | IncrCmd(key: string)

  /** The store's contents: string keys, list keys and counter keys. */
  datatype StoreState = StoreState(
    strings: map<string, string>, lists: map<string, seq<string>>, counters: map<string, nat>)
  {
    /** A missing list reads as the empty list. */
    function List(key: string): seq<string> {
      if key in lists then lists[key] else []
    }

    /** A missing counter reads as 0. */
    function Counter(key: string): nat {
      if key in counters then counters[key] else 0
    }
  }

  /** The effect of one command. SET replaces a string; LPUSH adds a new head; LTRIM keeps
      only a range and removes a list trimmed to nothing; INCR counts from 0. */
  function Exec(s: StoreState, c: Command): StoreState {
    match c
    case SetCmd(k, v) => s.(strings := s.strings[k := v])
    case LPushCmd(k, v) => s.(lists := s.lists[k := [v] + s.List(k)])
    case LTrimCmd(k, start, stop) =>
      var kept := Range(s.List(k), start, stop);
      if kept == [] then s.(lists := s.lists - {k}) else s.(lists := s.lists[k := kept])
    case IncrCmd(k) => s.(counters := s.counters[k := s.Counter(k) + 1])
  }

  /** The effect of a sequence of commands issued in order. */
  function ExecAll(s: StoreState, cs: seq<Command>): StoreState
    decreases |cs|
  {
    if cs == [] then s else Exec(ExecAll(s, cs[..|cs| - 1]), cs[|cs| - 1])
  }

  /** Issuing one more command of a sequence. */
  lemma ExecAllStep(s: StoreState, cs: seq<Command>, k: nat)
    requires k < |cs|
    ensures ExecAll(s, cs[..k + 1]) == Exec(ExecAll(s, cs[..k]), cs[k])
  {
    assert cs[..k + 1][..k] == cs[..k];
  }

  /** The effect of a sequence of requests issued in order when the store answers those
      at the indices in `rejected` with an error (`ok: false`) and leaves its contents as
      they were for them. */
  function ExecAnswered(s: StoreState, cs: seq<Command>, rejected: set<nat>): StoreState
    decreases |cs|
  {
    if cs == [] then s
    else
      var before := ExecAnswered(s, cs[..|cs| - 1], rejected);
      if |cs| - 1 in rejected then before else Exec(before, cs[|cs| - 1])
  }

  /** Issuing one more request of a sequence: it takes effect unless it is rejected. */
  lemma ExecAnsweredStep(s: StoreState, cs: seq<Command>, rejected: set<nat>, k: nat)
    requires k < |cs|
    ensures ExecAnswered(s, cs[..k + 1], rejected) ==
              if k in rejected then ExecAnswered(s, cs[..k], rejected)
              else Exec(ExecAnswered(s, cs[..k], rejected), cs[k])
  {
    assert cs[..k + 1][..k] == cs[..k];
  }

  /** When the store accepts every request, the effect is that of all the commands. */
  lemma {:induction false} ExecAnsweredAll(s: StoreState, cs: seq<Command>, rejected: set<nat>)
    requires forall i :: 0 <= i < |cs| ==> i !in rejected
    ensures ExecAnswered(s, cs, rejected) == ExecAll(s, cs)
    decreases |cs|
  {
    if cs != [] {
      ExecAnsweredAll(s, cs[..|cs| - 1], rejected);
    }
  }

  /** LTRIM leaves every other list as it was and the trimmed one holding the range. */
  lemma TrimKeeps(s: StoreState, k: string, start: int, stop: int, j: string)
    ensures Exec(s, LTrimCmd(k, start, stop)).List(j) ==
              if j == k then Range(s.List(k), start, stop) else s.List(j)
  {
  }

  /** The store, with one method per command. */
  class Store {
    var strings: map<string, string>
    var lists: map<string, seq<string>>
    var counters: map<string, nat>

    constructor()
      ensures State() == StoreState(map[], map[], map[])
    {
      strings, lists, counters := map[], map[], map[];
    }

    function State(): StoreState
      reads this
    {
      StoreState(strings, lists, counters)
    }

    /** SET key value. */
    method Set(key: string, value: string)
      modifies this
      ensures State() == Exec(old(State()), SetCmd(key, value))
    {
      strings := strings[key := value];
    }

    /** LPUSH key value. */
    method LPush(key: string, value: string)
      modifies this
      ensures State() == Exec(old(State()), LPushCmd(key, value))
    {
      lists := lists[key := [value] + State().List(key)];
    }

    /** LTRIM key start stop. */
    method LTrim(key: string, start: int, stop: int)
      modifies this
      ensures State() == Exec(old(State()), LTrimCmd(key, start, stop))
    {
      var kept := Range(State().List(key), start, stop);
      if kept == [] {
        lists := lists - {key};
      } else {
        lists := lists[key := kept];
      }
    }

    /** INCR key. */
    method Incr(key: string)
      modifies this
      ensures State() == Exec(old(State()), IncrCmd(key))
    {
      counters := counters[key := State().Counter(key) + 1];
    }

    /** GET key on a string key; `None` is the REST API's `null` result. */
    method Get(key: string) returns (v: Option<string>)
      ensures v == if key in strings then Some(strings[key]) else None
    {
      v := if key in strings then Some(strings[key]) else None;
    }

    /** GET key on a counter key: the counter's decimal rendering, or `null`. */
    method GetCounter(key: string) returns (v: Option<string>)
      ensures key in counters ==> v == Some(NatToString(counters[key]))
      ensures key !in counters ==> v.None?
    {
      v := if key in counters then Some(NatToString(counters[key])) else None;
    }

    /** LRANGE key start stop. */
    method LRange(key: string, start: int, stop: int) returns (r: seq<string>)
      ensures r == Range(State().List(key), start, stop)
    {
      r := Range(State().List(key), start, stop);
    }
  }

  // ---------------------------------------------------------------------------
  // the recent-visitors list

  /** How many ids the recent list keeps. */
  const Capacity: nat := 1000

  /** The list after LPUSH of `id` followed by LTRIM 0 999. */
  function PushRecent(list: seq<string>, id: string): (r: seq<string>)
    ensures 1 <= |r| <= Capacity && r[0] == id
    ensures r[1..] <= list
  {
    Range([id] + list, 0, Capacity - 1)
  }

  /** The list after recording `ids` one after the other. */
  function PushAll(list: seq<string>, ids: seq<string>): seq<string>
    decreases |ids|
  {
    if ids == [] then list else PushRecent(PushAll(list, ids[..|ids| - 1]), ids[|ids| - 1])
  }

  lemma TakeCons(x: string, ys: seq<string>, n: nat)
    requires n >= 1
    ensures Take([x] + Take(ys, n), n) == Take([x] + ys, n)
  {
  }

  lemma ReverseSnoc(xs: seq<string>, x: string)
    ensures Reverse(xs + [x]) == [x] + Reverse(xs)
  {
    var a, b := Reverse(xs + [x]), [x] + Reverse(xs);
    assert |a| == |b|;
    forall i | 0 <= i < |a| ensures a[i] == b[i] {
      if i > 0 {
        assert a[i] == (xs + [x])[|xs| - i];
      }
    }
  }

  /** Newest first and bounded: after recording `ids` on a list within the capacity, the
      list is the ids in reverse order of arrival followed by the earlier list, cut to the
      capacity. */
  lemma {:induction false} PushAllNewestFirst(list: seq<string>, ids: seq<string>)
    requires |list| <= Capacity
    ensures PushAll(list, ids) == Take(Reverse(ids) + list, Capacity)
    decreases |ids|
  {
    if ids != [] {
      var front, x := ids[..|ids| - 1], ids[|ids| - 1];
      PushAllNewestFirst(list, front);
      assert ids == front + [x];
      ReverseSnoc(front, x);
      RangeFromHead([x] + PushAll(list, front), Capacity - 1);
      TakeCons(x, Reverse(front) + list, Capacity);
      assert [x] + (Reverse(front) + list) == Reverse(ids) + list;
    }
  }
}
