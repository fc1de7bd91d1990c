/**
 * Searching the files of the write-ahead log, newest first, for the end of a height
 * (consensus/wal.go, SearchForEndHeight). Each file is what the decoder reads from it.
 */
module WalSearch {

  /** What one call of the decoder yields: the end of a height, another message, or a corrupted entry. */
  datatype Item = Marker(height: int) | Other | Corrupt

  type Group = seq<seq<Item>>

  /** What a reader opened at file i sees: that file and all later ones. */
  function From(g: Group, i: nat): seq<Item>
    requires i <= |g|
    decreases |g| - i
  {
    if i == |g| then [] else g[i] + From(g, i + 1)
  }

  function LastMarker(s: seq<Item>): int {
    if s == [] then -1
    else if s[|s| - 1].Marker? then s[|s| - 1].height
    else LastMarker(s[..|s| - 1])
  }

  /** The early exit: the newest marker seen is already below the height sought. */
  predicate GivesUp(s: seq<Item>, height: int) {
    0 < LastMarker(s) < height
  }

  /** The last file that holds the marker sought. */
  ghost predicate Newest(g: Group, i: nat, height: int) {
    i < |g| && Marker(height) in g[i] && Marker(height) !in From(g, i + 1)
  }

  /** Whether the search comes to the file that holds the marker: no newer files make it give up. */
  ghost predicate Reached(g: Group, height: int) {
    exists i: nat :: Newest(g, i, height) && (i + 1 == |g| || !GivesUp(From(g, i + 1), height))
  }

  datatype Outcome = Found(rest: seq<Item>) | NotFound | Error

  lemma {:induction false} LastMarkerAppend(s: seq<Item>, x: Item)
    ensures LastMarker(s + [x]) == if x.Marker? then x.height else LastMarker(s)
  {
    assert (s + [x])[..|s|] == s;
  }

  /** What lies before is overridden by any marker that follows. */
  lemma {:induction false} LastMarkerConcat(s: seq<Item>, t: seq<Item>)
    ensures LastMarker(s + t) == if exists x :: x in t && x.Marker? then LastMarker(t) else LastMarker(s)
  {
    if t == [] {
      assert s + t == s;
    } else {
      var n := |t| - 1;
      assert s + t == s + t[..n] + [t[n]] && t == t[..n] + [t[n]];
      LastMarkerAppend(s + t[..n], t[n]);
      LastMarkerAppend(t[..n], t[n]);
      if !t[n].Marker? {
        LastMarkerConcat(s, t[..n]);
        if x :| x in t[..n] && x.Marker? {
          assert x in t;
        }
      } else {
        assert t[n] in t;
      }
    }
  }

  lemma {:induction false} NoMarkers(s: seq<Item>)
    requires forall x :: x in s ==> !x.Marker?
    ensures LastMarker(s) == -1
  {
    if s != [] {
      NoMarkers(s[..|s| - 1]);
    }
  }

  lemma {:induction false} FileInFrom(g: Group, i: nat, j: nat, x: Item)
    requires i <= j < |g| && x in g[j]
    ensures x in From(g, i)
    decreases j - i
  {
    if i < j {
      FileInFrom(g, i + 1, j, x);
    }
  }

  lemma {:induction false} FileOf(g: Group, i: nat, x: Item) returns (j: nat)
    requires i <= |g| && x in From(g, i)
    ensures i <= j < |g| && x in g[j]
    decreases |g| - i
  {
    if x in g[i] {
      j := i;
    } else {
      j := FileOf(g, i + 1, x);
    }
  }

  /** Once the newest files decide to give up, so do more of them. */
  lemma {:induction false} LastMarkerStays(g: Group, i: nat, j: nat)
    requires i <= j <= |g| && exists x :: x in From(g, j) && x.Marker?
    ensures LastMarker(From(g, i)) == LastMarker(From(g, j))
    ensures exists x :: x in From(g, i) && x.Marker?
    decreases j - i
  {
    if i < j {
      LastMarkerStays(g, i + 1, j);
      var x :| x in From(g, i + 1) && x.Marker?;
      assert x in From(g, i);
      LastMarkerConcat(g[i], From(g, i + 1));
    }
  }

  lemma NeverReached(g: Group, index: nat, height: int)
    requires index < |g| && Marker(height) !in From(g, index) && GivesUp(From(g, index), height)
    ensures !Reached(g, height)
  {
    if forall x :: x in From(g, index) ==> !x.Marker? { NoMarkers(From(g, index)); }
    forall i: nat | Newest(g, i, height) ensures i + 1 < |g| && GivesUp(From(g, i + 1), height) {
      if index <= i { FileInFrom(g, index, i, Marker(height)); }
      LastMarkerStays(g, i + 1, index);
    }
  }

  /** Scanning one reader to its end, or to the marker. */
  method Scan(s: seq<Item>, height: int, ignoreCorruption: bool, last: int) returns (out: Outcome, last': int)
    ensures out.Found? ==> exists k :: 0 <= k < |s| && s[k] == Marker(height) && out.rest == s[k + 1..]
    ensures out == NotFound ==> Marker(height) !in s && last' == LastSeen(last, s)
    ensures out == Error ==> !ignoreCorruption && Corrupt in s
  {
    last' := last;
    var k := 0;
    while k < |s|
      invariant 0 <= k <= |s| && Marker(height) !in s[..k] && last' == LastSeen(last, s[..k])
    {
      assert s[..k + 1] == s[..k] + [s[k]];
      LastMarkerAppend(s[..k], s[k]);
      if s[k].Corrupt? {
        if !ignoreCorruption { return Error, last'; }
      } else if s[k].Marker? {
        last' := s[k].height;
        if last' == height { return Found(s[k + 1..]), last'; }
      }
      k := k + 1;
    }
    assert s[..k] == s;
    return NotFound, last';
  }

  /** The variable that survives from one reader to the next. */
  function LastSeen(last: int, s: seq<Item>): int {
    if exists x :: x in s && x.Marker? then LastMarker(s) else last
  }

  /**
   * SearchForEndHeight. It finds the marker exactly when the search is not given up before the
   * newest file that holds it, and then leaves the reader right behind a marker of that height. It
   * fails only on a corrupted entry that it was not told to ignore.
   */
  method SearchForEndHeight(g: Group, height: int, ignoreCorruption: bool) returns (out: Outcome)
    ensures out != Error ==> (out.Found? <==> Reached(g, height))
    ensures out.Found? ==> exists i, k :: 0 <= i < |g| && 0 <= k < |g[i]| && g[i][k] == Marker(height)
                                          && out.rest == From(g, i)[k + 1..]
    ensures out == Error ==> !ignoreCorruption && exists i :: 0 <= i < |g| && Corrupt in g[i]
  {
    var last := -1;
    var index := |g|;
    while index > 0
      invariant 0 <= index <= |g| && Marker(height) !in From(g, index)
      invariant last == LastMarker(From(g, index))
      invariant index < |g| ==> !GivesUp(From(g, index), height)
    {
      index := index - 1;
      var s := From(g, index);
      out, last := Scan(s, height, ignoreCorruption, last);
      if out == Error {
        var j := FileOf(g, index, Corrupt);
        return;
      }
      if out.Found? {
        assert Newest(g, index, height);
        return;
      }
      LastSeenAll(g, index);
      if last > 0 && last < height {
        NeverReached(g, index, height);
        return;
      }
    }
    forall i: nat | Newest(g, i, height) ensures false {
      FileInFrom(g, 0, i, Marker(height));
    }
    return NotFound;
  }

  lemma LastSeenAll(g: Group, i: nat)
    requires i < |g|
    ensures LastSeen(LastMarker(From(g, i + 1)), From(g, i)) == LastMarker(From(g, i))
  {
    if forall x :: x in From(g, i) ==> !x.Marker? {
      NoMarkers(From(g, i));
      NoMarkers(From(g, i + 1));
    }
  }

  // ----- logs that consensus writes -----

  /** Positive markers come in strictly increasing order; a zero may be written into any empty head file. */
  ghost predicate Increasing(s: seq<Item>) {
    forall i, j :: 0 <= i < j < |s| && s[i].Marker? && s[j].Marker? && s[i].height > 0 && s[j].height > 0 ==>
      s[i].height < s[j].height
  }

  lemma {:induction false} LastMarkerIsLast(s: seq<Item>, k: nat)
    requires k < |s| && s[k].Marker?
    ensures exists j :: k <= j < |s| && s[j] == Marker(LastMarker(s))
  {
    var n := |s| - 1;
    if !s[n].Marker? {
      LastMarkerIsLast(s[..n], k);
    } else {
      assert s[n] == Marker(LastMarker(s));
    }
  }

  /** From(g, 0) is what precedes file i, followed by From(g, i). */
  lemma {:induction false} FromSuffix(g: Group, i: nat)
    requires i <= |g|
    ensures |From(g, i)| <= |From(g, 0)| && From(g, 0)[|From(g, 0)| - |From(g, i)|..] == From(g, i)
  {
    if i > 0 {
      FromSuffix(g, i - 1);
      var all, s, t := From(g, 0), From(g, i - 1), From(g, i);
      assert s[|g[i - 1]|..] == t;
      assert all[|all| - |t|..] == s[|s| - |t|..];
    }
  }

  /** With increasing markers the early exit is sound: a marker is found if and only if it is there. */
  lemma SearchIsComplete(g: Group, height: int)
    requires Increasing(From(g, 0))
    ensures Reached(g, height) <==> Marker(height) in From(g, 0)
  {
    forall i: nat | Newest(g, i, height) ensures Marker(height) in From(g, 0) {
      FileInFrom(g, 0, i, Marker(height));
    }
    if Marker(height) in From(g, 0) {
      var j := FileOf(g, 0, Marker(height));
      var i := NewestFile(g, height, |g|);
      if i + 1 < |g| && GivesUp(From(g, i + 1), height) {
        NotBelow(g, i, height);
      }
    }
  }

  lemma {:induction false} NewestFile(g: Group, height: int, n: nat) returns (i: nat)
    requires n <= |g| && Marker(height) !in From(g, n) && exists j :: 0 <= j < n && Marker(height) in g[j]
    ensures Newest(g, i, height)
  {
    if Marker(height) in g[n - 1] {
      i := n - 1;
    } else {
      i := NewestFile(g, height, n - 1);
    }
  }

  lemma NotBelow(g: Group, i: nat, height: int)
    requires Increasing(From(g, 0)) && i + 1 < |g| && Marker(height) in g[i] && height > 0
    ensures !GivesUp(From(g, i + 1), height)
  {
    var all, s, t := From(g, 0), From(g, i), From(g, i + 1);
    if forall x :: x in t ==> !x.Marker? {
      NoMarkers(t);
    } else if LastMarker(t) > 0 {
      var k :| 0 <= k < |t| && t[k].Marker?;
      LastMarkerIsLast(t, k);
      var j :| 0 <= j < |t| && t[j] == Marker(LastMarker(t));
      var m :| 0 <= m < |g[i]| && g[i][m] == Marker(height);
      FromSuffix(g, i);
      var d := |all| - |s|;
      assert all[d..][m] == s[m] == Marker(height);
      assert all[d..][|g[i]| + j] == s[|g[i]| + j] == t[j];
    }
  }

  /** Without that order the early exit misses markers that are in the log. */
  lemma SearchMisses()
    ensures var g := [[Marker(5)], [Marker(3)]]; Marker(5) in From(g, 0) && !Reached(g, 5)
  {
    var g := [[Marker(5)], [Marker(3)]];
    assert From(g, 2) == [] && From(g, 1) == [Marker(3)] && From(g, 0) == [Marker(5), Marker(3)];
    LastMarkerAppend([], Marker(3));
    assert [] + [Marker(3)] == [Marker(3)];
    NeverReached(g, 1, 5);
  }
}
