/** Characters picked by draws that may fail: how often each comes out, and draws that pick wanted ones. */
module Drawing {
  import opened Wrappers

  /** The i-th draw below `max`; None is a failing random source. */
  type Draws = (nat, nat) -> Option<nat>

  ghost predicate Fair(draw: Draws) {
    forall i, max :: max > 0 && draw(i, max).Some? ==> draw(i, max).value < max
  }

  /** Fair, and no draw fails. */
  ghost predicate Succeeds(draw: Draws) {
    Fair(draw) && forall i, max :: max > 0 ==> draw(i, max).Some?
  }

  ghost predicate NoneEmpty(classes: seq<string>) {
    forall k :: 0 <= k < |classes| ==> classes[k] != ""
  }

  /** The character a draw picks from a class; a failed draw picks none. */
  function PickedFrom(chars: string, d: Option<nat>): string
    requires d.Some? ==> d.value < |chars|
  {
    if d.Some? then [chars[d.value]] else ""
  }

  /** What the first n draws pick, each from its class. */
  function PicksFrom(classes: seq<string>, draw: Draws, n: nat): string
    requires Fair(draw) && NoneEmpty(classes) && n <= |classes|
  {
    if n == 0 then "" else PicksFrom(classes, draw, n - 1) + PickedFrom(classes[n - 1], draw(n - 1, |classes[n - 1]|))
  }

  /** What n draws from index `first` on pick from one class. */
  function FillFrom(chars: string, draw: Draws, first: nat, n: nat): string
    requires Fair(draw) && chars != ""
  {
    if n == 0 then "" else FillFrom(chars, draw, first, n - 1) + PickedFrom(chars, draw(first + n - 1, |chars|))
  }

  // ---------- how often a character is drawn ----------

  predicate PicksChar(chars: string, d: Option<nat>, c: char) {
    d.Some? && d.value < |chars| && chars[d.value] == c
  }

  /** The k-th draw picks `c` from the k-th class. */
  predicate ClassHit(classes: seq<string>, draw: Draws, k: nat, c: char)
    requires k < |classes|
  {
    PicksChar(classes[k], draw(k, |classes[k]|), c)
  }

  /** The i-th draw from index `first` on picks `c`. */
  predicate FillHit(chars: string, draw: Draws, first: nat, i: nat, c: char) {
    PicksChar(chars, draw(first + i, |chars|), c)
  }

  function PickHits(classes: seq<string>, draw: Draws, n: nat, c: char): set<nat>
    requires n <= |classes|
  {
    set k: nat | k < n && ClassHit(classes, draw, k, c)
  }

  function FillHits(chars: string, draw: Draws, first: nat, n: nat, c: char): set<nat> {
    set i: nat | i < n && FillHit(chars, draw, first, i, c)
  }

  lemma OneMore(s: string, chars: string, d: Option<nat>, c: char)
    requires d.Some? ==> d.value < |chars|
    ensures multiset(s + PickedFrom(chars, d))[c] == multiset(s)[c] + if PicksChar(chars, d, c) then 1 else 0
  {
  }

  lemma OneMoreHit(before: set<nat>, after: set<nat>, n: nat, hit: bool)
    requires n !in before && after == before + if hit then {n} else {}
    ensures |after| == |before| + if hit then 1 else 0
  {
  }

  lemma PickHitsGrow(classes: seq<string>, draw: Draws, n: nat, c: char)
    requires 0 < n <= |classes|
    ensures |PickHits(classes, draw, n, c)|
      == |PickHits(classes, draw, n - 1, c)| + if ClassHit(classes, draw, n - 1, c) then 1 else 0
  {
    OneMoreHit(PickHits(classes, draw, n - 1, c), PickHits(classes, draw, n, c), n - 1,
      ClassHit(classes, draw, n - 1, c));
  }

  lemma FillHitsGrow(chars: string, draw: Draws, first: nat, n: nat, c: char)
    requires 0 < n
    ensures |FillHits(chars, draw, first, n, c)|
      == |FillHits(chars, draw, first, n - 1, c)| + if FillHit(chars, draw, first, n - 1, c) then 1 else 0
  {
    OneMoreHit(FillHits(chars, draw, first, n - 1, c), FillHits(chars, draw, first, n, c), n - 1,
      FillHit(chars, draw, first, n - 1, c));
  }

  lemma {:induction false} PickCounts(classes: seq<string>, draw: Draws, n: nat, c: char)
    requires Fair(draw) && NoneEmpty(classes) && n <= |classes|
    ensures multiset(PicksFrom(classes, draw, n))[c] == |PickHits(classes, draw, n, c)|
  {
    if n == 0 {
      assert PickHits(classes, draw, 0, c) == {};
    } else {
      PickCounts(classes, draw, n - 1, c);
      OneMore(PicksFrom(classes, draw, n - 1), classes[n - 1], draw(n - 1, |classes[n - 1]|), c);
      PickHitsGrow(classes, draw, n, c);
    }
  }

  lemma {:induction false} FillCounts(chars: string, draw: Draws, first: nat, n: nat, c: char)
    requires Fair(draw) && chars != ""
    ensures multiset(FillFrom(chars, draw, first, n))[c] == |FillHits(chars, draw, first, n, c)|
  {
    if n == 0 {
      assert FillHits(chars, draw, first, 0, c) == {};
    } else {
      FillCounts(chars, draw, first, n - 1, c);
      assert first + (n - 1) == first + n - 1;
      OneMore(FillFrom(chars, draw, first, n - 1), chars, draw(first + n - 1, |chars|), c);
      FillHitsGrow(chars, draw, first, n, c);
    }
  }

  // ---------- when no draw fails ----------

  lemma {:induction false} PicksOneEach(classes: seq<string>, draw: Draws, n: nat)
    requires Succeeds(draw) && NoneEmpty(classes) && n <= |classes|
    ensures var s := PicksFrom(classes, draw, n); |s| == n && forall k :: 0 <= k < n ==> s[k] in classes[k]
  {
    if n > 0 {
      PicksOneEach(classes, draw, n - 1);
    }
  }

  lemma {:induction false} FillsAll(chars: string, draw: Draws, first: nat, n: nat)
    requires Succeeds(draw) && chars != ""
    ensures var s := FillFrom(chars, draw, first, n); |s| == n && forall c :: c in s ==> c in chars
  {
    if n > 0 {
      FillsAll(chars, draw, first, n - 1);
    }
  }

  // ---------- draws that pick wanted characters ----------

  ghost function PositionOf(chars: string, c: char): (j: nat)
    requires c in chars
    ensures j < |chars| && chars[j] == c
  {
    var j :| 0 <= j < |chars| && chars[j] == c;
    j
  }

  /** One character of each class is wanted, then characters of `chars`. */
  ghost predicate Wanted(classes: seq<string>, chars: string, each: string, rest: string) {
    && |each| == |classes| && (forall k :: 0 <= k < |classes| ==> each[k] in classes[k])
    && (forall i :: 0 <= i < |rest| ==> rest[i] in chars)
  }

  /** The number drawn at index i: for the classes, for the rest, and from `start` on those of the shuffle. */
  ghost function NumberAt(classes: seq<string>, chars: string, each: string, rest: string, start: nat,
                          shuffle: nat -> Option<nat>, i: nat): nat
    requires Wanted(classes, chars, each, rest)
  {
    if i < |classes| then PositionOf(classes[i], each[i])
    else if i < |classes| + |rest| then PositionOf(chars, rest[i - |classes|])
    else if i >= start && shuffle(i - start).Some? then shuffle(i - start).value
    else 0
  }

  ghost function Choosing(classes: seq<string>, chars: string, each: string, rest: string, start: nat,
                          shuffle: nat -> Option<nat>): (draw: Draws)
    requires Wanted(classes, chars, each, rest)
    ensures Succeeds(draw)
  {
    (i, max) =>
      var v := NumberAt(classes, chars, each, rest, start, shuffle, i); if v < max then Some(v) else Some(0)
  }

  lemma {:induction false} PicksAreWanted(classes: seq<string>, chars: string, each: string, rest: string, start: nat,
                                          shuffle: nat -> Option<nat>, n: nat)
    requires Wanted(classes, chars, each, rest) && NoneEmpty(classes) && n <= |classes|
    ensures PicksFrom(classes, Choosing(classes, chars, each, rest, start, shuffle), n) == each[..n]
  {
    if n > 0 {
      PicksAreWanted(classes, chars, each, rest, start, shuffle, n - 1);
      var draw := Choosing(classes, chars, each, rest, start, shuffle);
      assert draw(n - 1, |classes[n - 1]|) == Some(PositionOf(classes[n - 1], each[n - 1]));
      assert each[..n] == each[..n - 1] + [each[n - 1]];
    }
  }

  lemma {:induction false} FillIsWanted(classes: seq<string>, chars: string, each: string, rest: string, start: nat,
                                        shuffle: nat -> Option<nat>, n: nat)
    requires Wanted(classes, chars, each, rest) && chars != "" && n <= |rest|
    ensures FillFrom(chars, Choosing(classes, chars, each, rest, start, shuffle), |classes|, n) == rest[..n]
  {
    if n > 0 {
      FillIsWanted(classes, chars, each, rest, start, shuffle, n - 1);
      var draw := Choosing(classes, chars, each, rest, start, shuffle);
      assert draw(|classes| + n - 1, |chars|) == Some(PositionOf(chars, rest[n - 1]));
      assert rest[..n] == rest[..n - 1] + [rest[n - 1]];
    }
  }

  lemma ShuffleIsWanted(classes: seq<string>, chars: string, each: string, rest: string, start: nat,
                        shuffle: nat -> Option<nat>, i: nat)
    requires Wanted(classes, chars, each, rest) && start >= |classes| + |rest|
    requires shuffle(i).Some? && shuffle(i).value <= i
    ensures Choosing(classes, chars, each, rest, start, shuffle)(start + i, i + 1) == shuffle(i)
  {
    assert start + i - start == i;
  }

  lemma OneLess(a: multiset<char>, b: multiset<char>, c: multiset<char>, d: multiset<char>, x: char)
    requires a <= c && a == b + multiset{x} && c == d + multiset{x}
    ensures b <= d
  {
    assert b == a - multiset{x} && d == c - multiset{x};
  }

  lemma TakeOut(t: string, c: char) returns (less: string)
    requires c in t
    ensures multiset(t) == multiset(less) + multiset{c}
  {
    var i :| 0 <= i < |t| && t[i] == c;
    less := t[..i] + t[i + 1..];
    assert t == t[..i] + [c] + t[i + 1..];
  }

  lemma FirstOut(c: char, s: string)
    ensures multiset([c] + s) == multiset(s) + multiset{c}
  {
  }

  /** `t` without one occurrence of each character of `cs`. */
  lemma {:induction false} Without(t: string, cs: string) returns (rest: string)
    requires multiset(cs) <= multiset(t)
    ensures multiset(cs + rest) == multiset(t)
    decreases |cs|
  {
    if cs == "" {
      rest := t;
      assert cs + rest == t;
    } else {
      var c, more := cs[0], cs[1..];
      assert cs == [c] + more;
      FirstOut(c, more);
      assert c in multiset(cs) && c in multiset(t);
      var less := TakeOut(t, c);
      OneLess(multiset(cs), multiset(more), multiset(t), multiset(less), c);
      rest := Without(less, more);
      assert cs + rest == [c] + (more + rest);
      FirstOut(c, more + rest);
    }
  }
}
