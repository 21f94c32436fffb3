/** The schedule store of esp_code/src/main.cpp: a fixed-capacity array and a
    count (`routines[10]`/`routine_count`, `alarms[5]`/`alarm_count`), keyed by
    an `id` field. The functions give the specification on the live prefix
    `a[..count]`; the methods are the array algorithms of `handleRoutineSync`,
    `handleAlarmSync`, `handleFullSync` and `findRoutineById`/`findAlarmById`,
    written once for both record kinds. */
module Store {
  import opened Wrappers

  /** Position of the first element satisfying `p`, or `|s|` when none does. */
  function FirstWhere<T>(s: seq<T>, p: T -> bool): (i: nat)
    ensures i <= |s|
    ensures i < |s| ==> p(s[i])
    ensures forall j :: 0 <= j < i ==> !p(s[j])
  {
    if |s| == 0 then 0 else if p(s[0]) then 0 else 1 + FirstWhere(s[1..], p)
  }

  /** The first-match position is determined by the prefix that fails `p`. */
  lemma {:induction false} FirstWhereIs<T>(s: seq<T>, p: T -> bool, i: nat)
    requires i <= |s|
    requires forall j :: 0 <= j < i ==> !p(s[j])
    requires i < |s| ==> p(s[i])
    ensures FirstWhere(s, p) == i
  {
    if |s| > 0 && i > 0 {
      assert !p(s[0]);
      FirstWhereIs(s[1..], p, i - 1);
    }
  }

  function KeyIs<T>(key: T -> int, id: int): T -> bool {
    (x: T) => key(x) == id
  }

  /** Position of the first entry with this id, or `|s|` (the source's -1). */
  function IndexOf<T>(s: seq<T>, key: T -> int, id: int): (i: nat)
    ensures i <= |s|
    ensures i < |s| ==> key(s[i]) == id
    ensures i == |s| <==> forall j :: 0 <= j < |s| ==> key(s[j]) != id
  {
    FirstWhere(s, KeyIs(key, id))
  }

  ghost predicate HasKey<T>(s: seq<T>, key: T -> int, id: int) {
    exists j :: 0 <= j < |s| && key(s[j]) == id
  }

  /** At most one entry per id. */
  ghost predicate UniqueKeys<T>(s: seq<T>, key: T -> int) {
    forall i, j :: 0 <= i < j < |s| ==> key(s[i]) != key(s[j])
  }

  /** `findRoutineById` / `findAlarmById`: a negative id finds nothing, even
      when an entry carries it; otherwise the first entry with that id. */
  function FindById<T>(s: seq<T>, key: T -> int, id: int): (r: Option<T>)
    ensures r.Some? <==> id >= 0 && HasKey(s, key, id)
    ensures r.Some? ==> r.value in s && key(r.value) == id
  {
    if id < 0 then None
    else
      var i := IndexOf(s, key, id);
      if i < |s| then Some(s[i]) else None
  }

  /** The upsert part of `handleRoutineSync` / `handleAlarmSync`: an existing
      id is overwritten in place, a new one appended while there is room,
      otherwise the store is left alone and the call fails. */
  function Upsert<T>(s: seq<T>, key: T -> int, cap: nat, x: T): (r: (seq<T>, bool))
    ensures r.1 <==> HasKey(s, key, key(x)) || |s| < cap
    ensures !r.1 ==> r.0 == s
    ensures r.1 ==> x in r.0
    ensures |s| <= cap ==> |r.0| <= cap
  {
    var i := IndexOf(s, key, key(x));
    if i < |s| then
      assert s[i := x][i] == x;
      (s[i := x], true)
    else if |s| < cap then (s + [x], true)
    else (s, false)
  }

  /** The first entry with an existing id is overwritten in place and the
      count is kept; nothing else moves, even when a full sync has left a
      later duplicate of the id. */
  lemma UpsertExisting<T>(s: seq<T>, key: T -> int, cap: nat, x: T, j: nat)
    requires j < |s| && key(s[j]) == key(x)
    requires forall k :: 0 <= k < j ==> key(s[k]) != key(x)
    ensures Upsert(s, key, cap, x) == (s[j := x], true)
  {
    FirstWhereIs(s, KeyIs(key, key(x)), j);
  }

  /** A new id is appended at the end while the store has room... */
  lemma UpsertNew<T>(s: seq<T>, key: T -> int, cap: nat, x: T)
    requires !HasKey(s, key, key(x)) && |s| < cap
    ensures Upsert(s, key, cap, x) == (s + [x], true)
  {
  }

  /** ... and fails, leaving the store unchanged, when it is full: the
      eleventh distinct routine (sixth alarm) is refused. */
  lemma UpsertFull<T>(s: seq<T>, key: T -> int, cap: nat, x: T)
    requires !HasKey(s, key, key(x)) && |s| == cap
    ensures Upsert(s, key, cap, x) == (s, false)
  {
  }

  /** Upsert keeps ids unique. */
  lemma UpsertKeepsUnique<T>(s: seq<T>, key: T -> int, cap: nat, x: T)
    requires UniqueKeys(s, key)
    ensures UniqueKeys(Upsert(s, key, cap, x).0, key)
  {
    var i := IndexOf(s, key, key(x));
    var r := Upsert(s, key, cap, x).0;
    if i < |s| {
      forall a, b | 0 <= a < b < |r| ensures key(r[a]) != key(r[b]) {
        if a == i { assert key(s[i]) == key(x); }
        else if b == i { assert key(s[i]) == key(x); }
      }
    } else if |s| < cap {
      forall a, b | 0 <= a < b < |r| ensures key(r[a]) != key(r[b]) {
        if b == |s| { assert r[a] == s[a]; }
      }
    }
  }

  /** After a successful upsert the id resolves to the record just written,
      whether or not the store held duplicate ids. */
  lemma UpsertThenFind<T>(s: seq<T>, key: T -> int, cap: nat, x: T)
    requires key(x) >= 0
    requires Upsert(s, key, cap, x).1
    ensures FindById(Upsert(s, key, cap, x).0, key, key(x)) == Some(x)
  {
    var r := Upsert(s, key, cap, x).0;
    var i := IndexOf(s, key, key(x));
    assert i < |r| && r[i] == x;
    assert i == FirstWhere(s, KeyIs(key, key(x)));
    forall k | 0 <= k < i ensures key(r[k]) != key(x) {
      assert !KeyIs(key, key(x))(s[k]);
      assert r[k] == s[k];
    }
    FirstWhereIs(r, KeyIs(key, key(x)), i);
  }

  /** The delete part: the first entry with the id is removed, later entries
      shift down one place, and an absent id is reported. */
  function Delete<T>(s: seq<T>, key: T -> int, id: int): (r: (seq<T>, bool))
    ensures r.1 <==> HasKey(s, key, id)
    ensures !r.1 ==> r.0 == s
    ensures r.1 ==> |r.0| == |s| - 1
  {
    var i := IndexOf(s, key, id);
    if i < |s| then (s[..i] + s[i + 1..], true) else (s, false)
  }

  /** Deletion keeps the order of the survivors: entries before the removed
      one stay put, every later one moves down exactly one place. */
  lemma DeleteShiftsDown<T>(s: seq<T>, key: T -> int, id: int)
    requires HasKey(s, key, id)
    ensures var i, r := IndexOf(s, key, id), Delete(s, key, id).0;
      key(s[i]) == id &&
      (forall j :: 0 <= j < i ==> r[j] == s[j]) &&
      (forall j :: i <= j < |r| ==> r[j] == s[j + 1])
  {
  }

  /** With unique ids, a deleted id is gone and the rest stay unique. */
  lemma DeleteRemovesId<T>(s: seq<T>, key: T -> int, id: int)
    requires UniqueKeys(s, key)
    ensures !HasKey(Delete(s, key, id).0, key, id)
    ensures UniqueKeys(Delete(s, key, id).0, key)
  {
    var i := IndexOf(s, key, id);
    var r := Delete(s, key, id).0;
    if i < |s| {
      forall j | 0 <= j < |r| ensures key(r[j]) != id {
        if j >= i { assert r[j] == s[j + 1]; }
      }
      forall a, b | 0 <= a < b < |r| ensures key(r[a]) != key(r[b]) {
        var a', b' := if a < i then a else a + 1, if b < i then b else b + 1;
        assert r[a] == s[a'] && r[b] == s[b'];
      }
    }
  }

  /** `handleFullSync`: the first `cap` items in input order. */
  function Take<T>(items: seq<T>, cap: nat): (r: seq<T>)
    ensures |r| <= cap && |r| <= |items|
    ensures |r| == cap || |r| == |items|
    ensures forall j :: 0 <= j < |r| ==> r[j] == items[j]
  {
    if |items| <= cap then items else items[..cap]
  }

  /** Full sync does not remove duplicate ids: a list that fits is stored
      exactly as given, so any duplicates in it stay in the store. */
  lemma TakeKeepsDuplicates<T>(items: seq<T>, key: T -> int, cap: nat)
    requires |items| <= cap
    ensures Take(items, cap) == items
    ensures !UniqueKeys(items, key) ==> !UniqueKeys(Take(items, cap), key)
  {
  }

  /** The position `IndexOf` returns is the first one holding the id. */
  lemma IndexOfIsFirst<T>(s: seq<T>, key: T -> int, id: int)
    ensures forall j :: 0 <= j < IndexOf(s, key, id) ==> key(s[j]) != id
  {
    var i := IndexOf(s, key, id);
    forall j | 0 <= j < i ensures key(s[j]) != id {
      assert !KeyIs(key, id)(s[j]);
    }
  }

  /** `FindById` returns the first entry holding the id, which matters once
      a full sync has stored duplicates. */
  lemma FindByIdIsFirst<T>(s: seq<T>, key: T -> int, id: int)
    ensures var r := FindById(s, key, id);
      r.Some? ==> exists i :: 0 <= i < |s| && r.value == s[i] && forall j :: 0 <= j < i ==> key(s[j]) != id
  {
    IndexOfIsFirst(s, key, id);
    var r := FindById(s, key, id);
    if r.Some? {
      var i := IndexOf(s, key, id);
      assert r.value == s[i];
    }
  }

  // ----- The array algorithms -----

  /** The linear scan of the firmware's `for (i = 0; i < count; i++)` loops. */
  method Scan<T>(a: array<T>, count: nat, p: T -> bool) returns (i: nat)
    requires count <= a.Length
    ensures i == FirstWhere(a[..count], p)
  {
    i := 0;
    while i < count
      invariant i <= count
      invariant forall j :: 0 <= j < i ==> !p(a[j])
    {
      if p(a[i]) {
        break;
      }
      i := i + 1;
    }
    FirstWhereIs(a[..count], p, i);
  }

  /** `findRoutineById` / `findAlarmById` on the array. */
  method Find<T>(a: array<T>, count: nat, key: T -> int, id: int) returns (r: Option<T>)
    requires count <= a.Length
    ensures r == FindById(a[..count], key, id)
  {
    if id < 0 {
      return None;
    }
    var i := Scan(a, count, KeyIs(key, id));
    r := if i < count then Some(a[i]) else None;
  }

  /** Upsert on the array: find the id, else take slot `count++` if there is
      room, then overwrite the slot found. */
  method UpsertInto<T>(a: array<T>, count: nat, key: T -> int, x: T) returns (newCount: nat, ok: bool)
    requires count <= a.Length
    modifies a
    ensures newCount <= a.Length
    ensures (a[..newCount], ok) == Upsert(old(a[..count]), key, a.Length, x)
  {
    var index := Scan(a, count, KeyIs(key, key(x)));
    newCount := count;
    if index == count && count < a.Length {
      newCount := count + 1;
    }
    ok := index < newCount;
    if ok {
      a[index] := x;
    }
    assert ok && index < count ==> a[..newCount] == old(a[..count])[index := x];
    assert ok && index == count ==> a[..newCount] == old(a[..count]) + [x];
  }

  /** Delete on the array: find the id, shift every later entry down one
      place, decrement the count. */
  method DeleteFrom<T>(a: array<T>, count: nat, key: T -> int, id: int) returns (newCount: nat, ok: bool)
    requires count <= a.Length
    modifies a
    ensures newCount <= count
    ensures (a[..newCount], ok) == Delete(old(a[..count]), key, id)
  {
    var i := Scan(a, count, KeyIs(key, id));
    if i == count {
      return count, false;
    }
    var j := i;
    while j < count - 1
      invariant i <= j <= count - 1
      invariant forall k :: 0 <= k < i ==> a[k] == old(a[k])
      invariant forall k :: i <= k < j ==> a[k] == old(a[k + 1])
      invariant forall k :: j <= k < a.Length ==> a[k] == old(a[k])
    {
      a[j] := a[j + 1];
      j := j + 1;
    }
    newCount, ok := count - 1, true;
    ghost var was := old(a[..count]);
    assert a[..newCount] == was[..i] + was[i + 1..] by {
      forall k | 0 <= k < newCount ensures a[k] == (was[..i] + was[i + 1..])[k] {
        if k < i { assert a[k] == was[k]; } else { assert a[k] == was[k + 1]; }
      }
    }
  }

  /** The full-sync loop: every item is visited, but only written while
      `count < a.Length`. */
  method Fill<T>(a: array<T>, items: seq<T>) returns (count: nat)
    modifies a
    ensures count <= a.Length
    ensures a[..count] == Take(items, a.Length)
  {
    count := 0;
    var k := 0;
    while k < |items|
      invariant 0 <= k <= |items|
      invariant count == if k <= a.Length then k else a.Length
      invariant a[..count] == items[..count]
    {
      if count < a.Length {
        a[count] := items[k];
        count := count + 1;
      }
      k := k + 1;
    }
  }
}
