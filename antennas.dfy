/**
 * Dropping stopped antennas (`remove_bad_ants`).
 *
 * The antenna names are collected in order, each is paired with its
 * activity sensor `<name>_activity` (a sequence of activity states), and
 * every name whose sensor ever reads `stop` is removed from the list with
 * `list.remove`, which deletes the first occurrence.
 */
module Antennas {

  const STOP: string := "stop"

  /** The sensor that records the activity of antenna `name`. */
  function ActivityKey(name: string): string {
    name + "_activity"
  }

  /** Every antenna of `names` has an activity sensor. */
  predicate HasActivity(sensor: map<string, seq<string>>, names: seq<string>) {
    forall n :: 0 <= n < |names| ==> ActivityKey(names[n]) in sensor
  }

  /** Antenna `name` has an activity sensor, and it was stopped at some point of the observation. */
  predicate Stopped(sensor: map<string, seq<string>>, name: string) {
    ActivityKey(name) in sensor && STOP in sensor[ActivityKey(name)]
  }

  /** The antennas never stopped, in their original order. */
  function GoodAnts(names: seq<string>, sensor: map<string, seq<string>>): (r: seq<string>)
    ensures |r| <= |names|
    decreases |names|
  {
    if names == [] then []
    else
      var last := names[|names| - 1];
      GoodAnts(names[..|names| - 1], sensor) + (if Stopped(sensor, last) then [] else [last])
  }

  /** `list.remove(x)`: the list without its first `x`; Python raises `ValueError` when there is none. */
  function RemoveFirst(s: seq<string>, x: string): (r: seq<string>)
    requires x in s
    ensures |r| + 1 == |s|
    ensures multiset(r) == multiset(s) - multiset{x}
  {
    assert s == [s[0]] + s[1..];
    if s[0] == x then s[1..] else [s[0]] + RemoveFirst(s[1..], x)
  }

  /** The first `x` is the one after a prefix without `x`. */
  lemma {:induction false} RemoveFirstAfter(a: seq<string>, x: string, b: seq<string>)
    requires x !in a
    ensures RemoveFirst(a + ([x] + b), x) == a + b
  {
    if a != [] {
      var s := a + ([x] + b);
      assert a[0] in a;
      assert s[0] == a[0] && s[1..] == a[1..] + ([x] + b);
      assert a == [a[0]] + a[1..];
      RemoveFirstAfter(a[1..], x, b);
    }
  }

  /**
   * `remove_bad_ants`: the names, minus one occurrence per stopped entry.
   * Since the sensor is looked up by name, every copy of a stopped name is
   * removed and the result is exactly the never-stopped antennas in order.
   */
  method RemoveBadAnts(ants: seq<string>, sensor: map<string, seq<string>>) returns (antList: seq<string>)
    requires HasActivity(sensor, ants)
    ensures antList == GoodAnts(ants, sensor)
  {
    antList := [];
    for k := 0 to |ants|
      invariant antList == ants[..k]
    {
      antList := antList + [ants[k]];
    }
    assert antList == ants;
    var activity: seq<(string, seq<string>)> := [];
    for k := 0 to |antList|
      invariant |activity| == k
      invariant forall m :: 0 <= m < k ==> activity[m] == (ants[m], sensor[ActivityKey(ants[m])])
    {
      activity := activity + [(antList[k], sensor[ActivityKey(antList[k])])];
    }
    for i := 0 to |activity|
      invariant antList == GoodAnts(ants[..i], sensor) + ants[i..]
    {
      var (antName, antActivity) := activity[i];
      assert antName == ants[i] && antActivity == sensor[ActivityKey(ants[i])];
      RemoveBadAntsStep(ants, sensor, i);
      if STOP in antActivity {
        antList := RemoveFirst(antList, antName);
      }
    }
    assert ants[..|ants|] == ants;
  }

  /** One step of the removal loop keeps the list equal to the kept prefix followed by the rest. */
  lemma RemoveBadAntsStep(ants: seq<string>, sensor: map<string, seq<string>>, i: nat)
    requires HasActivity(sensor, ants) && i < |ants|
    ensures Stopped(sensor, ants[i]) ==>
              RemoveFirst(GoodAnts(ants[..i], sensor) + ants[i..], ants[i]) == GoodAnts(ants[..i + 1], sensor) + ants[i + 1..]
    ensures !Stopped(sensor, ants[i]) ==>
              GoodAnts(ants[..i], sensor) + ants[i..] == GoodAnts(ants[..i + 1], sensor) + ants[i + 1..]
  {
    assert ants[i..] == [ants[i]] + ants[i + 1..];
    assert ants[..i + 1] == ants[..i] + [ants[i]];
    if Stopped(sensor, ants[i]) {
      StoppedRemoved(ants[..i], ants[i], ants[i + 1..], sensor);
    } else {
      RunningKept(ants[..i], ants[i], ants[i + 1..], sensor);
    }
  }

  /** A stopped antenna between the antennas already seen and the rest is the first copy removed. */
  lemma StoppedRemoved(seen: seq<string>, name: string, rest: seq<string>, sensor: map<string, seq<string>>)
    requires Stopped(sensor, name)
    ensures RemoveFirst(GoodAnts(seen, sensor) + ([name] + rest), name) == GoodAnts(seen + [name], sensor) + rest
  {
    GoodAntsSnoc(seen, name, sensor);
    GoodAntsMember(seen, sensor, name);
    RemoveFirstAfter(GoodAnts(seen, sensor), name, rest);
  }

  /** An antenna never stopped moves from the rest to the kept antennas. */
  lemma RunningKept(seen: seq<string>, name: string, rest: seq<string>, sensor: map<string, seq<string>>)
    requires !Stopped(sensor, name)
    ensures GoodAnts(seen, sensor) + ([name] + rest) == GoodAnts(seen + [name], sensor) + rest
  {
    GoodAntsSnoc(seen, name, sensor);
  }

  /** One more antenna is kept after the others when it was never stopped. */
  lemma GoodAntsSnoc(names: seq<string>, x: string, sensor: map<string, seq<string>>)
    ensures GoodAnts(names + [x], sensor) == GoodAnts(names, sensor) + (if Stopped(sensor, x) then [] else [x])
  {
    assert (names + [x])[..|names|] == names;
  }

  /** An antenna is kept exactly when it is listed and never stopped. */
  lemma {:induction false} GoodAntsMember(names: seq<string>, sensor: map<string, seq<string>>, x: string)
    ensures x in GoodAnts(names, sensor) <==> x in names && !Stopped(sensor, x)
    decreases |names|
  {
    if names != [] {
      var init := names[..|names| - 1];
      GoodAntsMember(init, sensor, x);
      assert names == init + [names[|names| - 1]];
    }
  }

  /** With no antenna stopped every antenna is kept. */
  lemma {:induction false} NoneStopped(names: seq<string>, sensor: map<string, seq<string>>)
    requires forall n :: 0 <= n < |names| ==> !Stopped(sensor, names[n])
    ensures GoodAnts(names, sensor) == names
    decreases |names|
  {
    if names != [] {
      NoneStopped(names[..|names| - 1], sensor);
    }
  }

  /** The kept antennas are a subsequence: each keeps its place relative to the others. */
  lemma {:induction false} GoodAntsSplit(a: seq<string>, b: seq<string>, sensor: map<string, seq<string>>)
    ensures GoodAnts(a + b, sensor) == GoodAnts(a, sensor) + GoodAnts(b, sensor)
    decreases |b|
  {
    if b != [] {
      assert (a + b)[..|a + b| - 1] == a + b[..|b| - 1];
      GoodAntsSplit(a, b[..|b| - 1], sensor);
    } else {
      assert a + b == a;
    }
  }
}
