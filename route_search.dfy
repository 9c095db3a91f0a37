/** The passenger's route search: a case-insensitive substring match on each
    ride's route, applied to the current ride list (views/PassengerView.tsx:32-34). */
module RouteSearch {
  import opened Types

  /** Lower-cases one character; only ASCII letters change. */
  function LowerChar(c: char): (r: char)
    ensures 'A' <= c <= 'Z' ==> r as int == c as int + 32
    ensures !('A' <= c <= 'Z') ==> r == c
  {
    if 'A' <= c <= 'Z' then (c as int + 32) as char else c
  }

  function Lower(s: string): (r: string)
    ensures |r| == |s|
    ensures forall i :: 0 <= i < |s| ==> r[i] == LowerChar(s[i])
  {
    seq(|s|, i requires 0 <= i < |s| => LowerChar(s[i]))
  }

  /** The window of s starting at i spells sub. */
  predicate OccursAt(s: string, sub: string, i: int) {
    0 <= i && i + |sub| <= |s| && s[i..i + |sub|] == sub
  }

  /** `s.includes(sub)`: sub occurs somewhere in s (the empty string is in every string). */
  predicate Contains(s: string, sub: string) {
    exists i | 0 <= i <= |s| - |sub| :: OccursAt(s, sub, i)
  }

  /** Whether one ride is kept for the query. */
  predicate Matches(query: string, ride: Ride) {
    Contains(Lower(ride.route), Lower(query))
  }

  function KeepMatching(query: string, rides: seq<Ride>): (r: seq<Ride>)
    ensures |r| <= |rides|
    ensures forall x :: x in r <==> x in rides && Matches(query, x)
  {
    if rides == [] then []
    else if Matches(query, rides[0]) then [rides[0]] + KeepMatching(query, rides[1..])
    else KeepMatching(query, rides[1..])
  }

  /** filteredRides: the whole list for an empty query, otherwise the matching rides. */
  function Filter(query: string, rides: seq<Ride>): (r: seq<Ride>)
    ensures query == [] ==> r == rides
    ensures query != [] ==> forall x :: x in r <==> x in rides && Matches(query, x)
    ensures |r| <= |rides|
  {
    if query == [] then rides else KeepMatching(query, rides)
  }

  /** Filtering keeps the original order: it distributes over concatenation. */
  lemma {:induction false} KeepMatchingAppend(query: string, a: seq<Ride>, b: seq<Ride>)
    ensures KeepMatching(query, a + b) == KeepMatching(query, a) + KeepMatching(query, b)
    decreases |a|
  {
    if a == [] {
      assert a + b == b;
    } else {
      assert (a + b)[0] == a[0];
      assert (a + b)[1..] == a[1..] + b;
      KeepMatchingAppend(query, a[1..], b);
    }
  }

  /** A non-empty query that every route contains gives back the list unchanged. */
  lemma {:induction false} KeepMatchingAll(query: string, rides: seq<Ride>)
    requires forall x :: x in rides ==> Matches(query, x)
    ensures KeepMatching(query, rides) == rides
    decreases |rides|
  {
    if rides != [] {
      assert forall x :: x in rides[1..] ==> x in rides;
      KeepMatchingAll(query, rides[1..]);
    }
  }

  /** A query no route contains empties the list. */
  lemma {:induction false} KeepMatchingNone(query: string, rides: seq<Ride>)
    requires forall x :: x in rides ==> !Matches(query, x)
    ensures KeepMatching(query, rides) == []
    decreases |rides|
  {
    if rides != [] {
      assert forall x :: x in rides[1..] ==> x in rides;
      KeepMatchingNone(query, rides[1..]);
    }
  }
}
