/** The password generator: four classes, a filled buffer and a Fisher-Yates shuffle, with draws that may fail. */
module Password {
  import opened Wrappers
  import opened Sorting
  import opened Drawing

  const LOWERCASE: string := "abcdefghijklmnopqrstuvwxyz"
  const UPPERCASE: string := "ABCDEFGHIJKLMNOPQRSTUVWXYZ"
  const DIGITS: string := "0123456789"
  const SPECIAL: string := "!@#$%^&*()_+-=[]{}|;:,.<>?"
  const ALL_CHARS: string := LOWERCASE + UPPERCASE + DIGITS + SPECIAL
  const DEFAULT_LENGTH := 16

  // ---------- the shuffle ----------

  function Swapped<T>(s: seq<T>, i: nat, j: nat): seq<T>
    requires i < |s| && j < |s|
  {
    s[i := s[j]][j := s[i]]
  }

  /** Positions n-1 down to 1 are each swapped with the drawn position; a failed draw skips its swap. */
  function Shuffled<T>(s: seq<T>, n: nat, draws: nat -> Option<nat>): seq<T>
    requires n <= |s|
    requires forall i :: draws(i).Some? ==> draws(i).value <= i
    decreases n
  {
    if n <= 1 then s
    else
      var d := draws(n - 1);
      Shuffled(if d.Some? then Swapped(s, n - 1, d.value) else s, n - 1, draws)
  }

  /** The shuffle in place; `draws(i)` is the draw for position i. */
  method ShuffleBytes(data: array<char>, draws: nat -> Option<nat>)
    requires forall i :: draws(i).Some? ==> draws(i).value <= i
    modifies data
    ensures data[..] == Shuffled(old(data[..]), data.Length, draws)
  {
    var i := data.Length - 1;
    while i > 0
      invariant data.Length > 0 ==> 0 <= i < data.Length
      invariant data.Length > 0 ==> Shuffled(data[..], i + 1, draws) == Shuffled(old(data[..]), data.Length, draws)
    {
      var d := draws(i);
      if d.Some? {
        ghost var before := data[..];
        data[i], data[d.value] := data[d.value], data[i];
        assert data[..] == Swapped(before, i, d.value);
      }
      i := i - 1;
    }
  }

  lemma SwapPermutes<T>(s: seq<T>, i: nat, j: nat)
    requires i < |s| && j < |s|
    ensures multiset(Swapped(s, i, j)) == multiset(s)
  {
  }

  /** Whatever is drawn, failures included, the result is a rearrangement. */
  lemma {:induction false} ShuffledPermutes<T>(s: seq<T>, n: nat, draws: nat -> Option<nat>)
    requires n <= |s|
    requires forall i :: draws(i).Some? ==> draws(i).value <= i
    ensures multiset(Shuffled(s, n, draws)) == multiset(s)
    decreases n
  {
    if n > 1 {
      var d := draws(n - 1);
      if d.Some? { SwapPermutes(s, n - 1, d.value); }
      ShuffledPermutes(if d.Some? then Swapped(s, n - 1, d.value) else s, n - 1, draws);
    }
  }

  /** The draw that brings the wanted element to the end of the first n, then those for the rest. */
  ghost function DrawsFor<T(!new)>(s: seq<T>, t: seq<T>, n: nat): (draws: nat -> Option<nat>)
    requires n <= |s| == |t| && multiset(s[..n]) == multiset(t[..n])
    ensures forall i :: draws(i).Some? ==> draws(i).value <= i
    decreases n
  {
    if n <= 1 then i => None
    else
      assert t[n - 1] in multiset(s[..n]) by { assert t[..n][n - 1] == t[n - 1]; assert t[n - 1] in multiset(t[..n]); }
      var j :| 0 <= j < n && s[j] == t[n - 1];
      RestMatches(s, t, n, j);
      var rest := DrawsFor(Swapped(s, n - 1, j), t, n - 1);
      (i: nat) => if i == n - 1 then Some(j) else rest(i)
  }

  lemma RestMatches<T>(s: seq<T>, t: seq<T>, n: nat, j: nat)
    requires 1 < n <= |s| == |t| && multiset(s[..n]) == multiset(t[..n])
    requires j < n && s[j] == t[n - 1]
    ensures multiset(Swapped(s, n - 1, j)[..n - 1]) == multiset(t[..n - 1])
  {
    var u := Swapped(s, n - 1, j);
    SwapPermutes(s[..n], n - 1, j);
    assert Swapped(s[..n], n - 1, j) == u[..n];
    assert u[..n] == u[..n - 1] + [t[n - 1]];
    assert t[..n] == t[..n - 1] + [t[n - 1]];
    SameWithoutLast(u[..n - 1], t[..n - 1], t[n - 1]);
  }

  lemma TailMatches<T>(s: seq<T>, t: seq<T>, n: nat, j: nat)
    requires 1 < n <= |s| == |t| && s[n..] == t[n..]
    requires j < n && s[j] == t[n - 1]
    ensures Swapped(s, n - 1, j)[n - 1..] == t[n - 1..]
  {
    var u := Swapped(s, n - 1, j);
    assert u[n..] == s[n..];
    assert u[n - 1..] == [u[n - 1]] + u[n..] && t[n - 1..] == [t[n - 1]] + t[n..];
  }

  lemma SameWithoutLast<T>(a: seq<T>, b: seq<T>, x: T)
    requires multiset(a + [x]) == multiset(b + [x])
    ensures multiset(a) == multiset(b)
  {
    assert multiset(a) == multiset(a + [x]) - multiset{x};
    assert multiset(b) == multiset(b + [x]) - multiset{x};
  }

  lemma {:induction false} ShuffledSameDraws<T>(s: seq<T>, n: nat, a: nat -> Option<nat>, b: nat -> Option<nat>)
    requires n <= |s|
    requires forall i :: a(i).Some? ==> a(i).value <= i
    requires forall i :: b(i).Some? ==> b(i).value <= i
    requires forall i :: 0 < i < n ==> a(i) == b(i)
    ensures Shuffled(s, n, a) == Shuffled(s, n, b)
    decreases n
  {
    if n > 1 {
      var d := a(n - 1);
      ShuffledSameDraws(if d.Some? then Swapped(s, n - 1, d.value) else s, n - 1, a, b);
    }
  }

  /** Every rearrangement is reachable: some draws j <= i make the shuffle produce it. */
  lemma {:induction false} EveryRearrangementReachable<T(!new)>(s: seq<T>, t: seq<T>, n: nat)
    requires n <= |s| == |t| && multiset(s[..n]) == multiset(t[..n]) && s[n..] == t[n..]
    ensures Shuffled(s, n, DrawsFor(s, t, n)) == t
    decreases n
  {
    if n <= 1 {
      ShortMatches(s, t, n);
    } else {
      var draws := DrawsFor(s, t, n);
      var j := draws(n - 1).value;
      var u := Swapped(s, n - 1, j);
      RestMatches(s, t, n, j);
      TailMatches(s, t, n, j);
      EveryRearrangementReachable(u, t, n - 1);
      ShuffledSameDraws(u, n - 1, draws, DrawsFor(u, t, n - 1));
    }
  }

  lemma ShortMatches<T>(s: seq<T>, t: seq<T>, n: nat)
    requires n <= 1 && n <= |s| == |t| && multiset(s[..n]) == multiset(t[..n]) && s[n..] == t[n..]
    ensures s == t
  {
    assert s == s[..n] + s[n..] && t == t[..n] + t[n..];
    if n == 1 {
      assert s[..1] == [s[0]] && t[..1] == [t[0]];
      assert s[0] in multiset(s[..1]);
    }
  }

  /** The position swapped with position i: the drawn one, or i itself when the draw fails. */
  function Picked(draws: nat -> Option<nat>, i: nat): nat {
    if draws(i).Some? then draws(i).value else i
  }

  lemma PickedIsSwapped<T>(s: seq<T>, n: nat, draws: nat -> Option<nat>)
    requires 1 < n <= |s|
    requires forall i :: draws(i).Some? ==> draws(i).value <= i
    ensures Shuffled(s, n, draws) == Shuffled(Swapped(s, n - 1, Picked(draws, n - 1)), n - 1, draws)
  {
    if draws(n - 1).None? {
      assert Swapped(s, n - 1, n - 1) == s;
    }
  }

  lemma {:induction false} ShuffledKeepsTail<T>(s: seq<T>, n: nat, draws: nat -> Option<nat>)
    requires n <= |s|
    requires forall i :: draws(i).Some? ==> draws(i).value <= i
    ensures |Shuffled(s, n, draws)| == |s|
    ensures forall k :: n <= k < |s| ==> Shuffled(s, n, draws)[k] == s[k]
    decreases n
  {
    if n > 1 {
      PickedIsSwapped(s, n, draws);
      ShuffledKeepsTail(Swapped(s, n - 1, Picked(draws, n - 1)), n - 1, draws);
    }
  }

  /** Of distinct elements, two draw sequences make the same rearrangement exactly if they pick the same positions. */
  lemma {:induction false} DrawsTellApart<T>(s: seq<T>, n: nat, a: nat -> Option<nat>, b: nat -> Option<nat>)
    requires n <= |s| && Distinct(s)
    requires forall i :: a(i).Some? ==> a(i).value <= i
    requires forall i :: b(i).Some? ==> b(i).value <= i
    ensures Shuffled(s, n, a) == Shuffled(s, n, b) <==> forall i :: 0 < i < n ==> Picked(a, i) == Picked(b, i)
    decreases n
  {
    if n > 1 {
      var j, k := Picked(a, n - 1), Picked(b, n - 1);
      var u, v := Swapped(s, n - 1, j), Swapped(s, n - 1, k);
      PickedIsSwapped(s, n, a);
      PickedIsSwapped(s, n, b);
      ShuffledKeepsTail(u, n - 1, a);
      ShuffledKeepsTail(v, n - 1, b);
      assert u[n - 1] == s[j] && v[n - 1] == s[k];
      assert Shuffled(s, n, a) == Shuffled(s, n, b) ==> j == k;
      DrawsTellApart(u, n - 1, a, b);
    }
  }

  lemma {:induction false} DrawsForSucceed<T(!new)>(s: seq<T>, t: seq<T>, n: nat)
    requires n <= |s| == |t| && multiset(s[..n]) == multiset(t[..n])
    ensures forall i :: 0 < i < n ==> DrawsFor(s, t, n)(i).Some?
    decreases n
  {
    if n > 1 {
      var draws := DrawsFor(s, t, n);
      var j := draws(n - 1).value;
      RestMatches(s, t, n, j);
      DrawsForSucceed(Swapped(s, n - 1, j), t, n - 1);
    }
  }

  lemma SamePicks(n: nat, a: nat -> Option<nat>, b: nat -> Option<nat>)
    requires forall i :: 0 < i < n ==> a(i).Some? && b(i).Some?
    ensures (forall i :: 0 < i < n ==> Picked(a, i) == Picked(b, i)) <==> forall i :: 0 < i < n ==> a(i) == b(i)
  {
    if forall i :: 0 < i < n ==> Picked(a, i) == Picked(b, i) {
      forall i | 0 < i < n ensures a(i) == b(i) {
        assert Picked(a, i) == Picked(b, i);
      }
    }
  }

  /**
   Of distinct elements, each rearrangement is made by exactly one sequence of draws that succeed, so that draws
   without a bias make a shuffle without one.
   */
  lemma OneDrawSequenceEach<T(!new)>(s: seq<T>, t: seq<T>, draws: nat -> Option<nat>)
    requires Distinct(s) && |s| == |t| && multiset(s[..|s|]) == multiset(t[..|s|])
    requires forall i :: draws(i).Some? ==> draws(i).value <= i
    requires forall i :: 0 < i < |s| ==> draws(i).Some?
    ensures Shuffled(s, |s|, draws) == t <==> forall i :: 0 < i < |s| ==> draws(i) == DrawsFor(s, t, |s|)(i)
  {
    var wanted := DrawsFor(s, t, |s|);
    EveryRearrangementReachable(s, t, |s|);
    DrawsForSucceed(s, t, |s|);
    DrawsTellApart(s, |s|, draws, wanted);
    SamePicks(|s|, draws, wanted);
  }

  // ---------- the password ----------

  /** The classes of which one character each is drawn, in order. */
  const CLASSES: seq<string> := [LOWERCASE, UPPERCASE, DIGITS, SPECIAL]

  function TargetLength(length: int): nat {
    if length < 8 then DEFAULT_LENGTH else length
  }

  predicate FromAlphabet(s: string) {
    forall c <- s :: c in ALL_CHARS
  }

  lemma NoClassEmpty()
    ensures NoneEmpty(CLASSES) && ALL_CHARS != ""
  {
  }

  lemma ClassesInAlphabet()
    ensures forall k :: 0 <= k < |CLASSES| ==> FromAlphabet(CLASSES[k])
  {
  }

  /** The first three classes are all letters of either case and all digits, and the fourth has none of these. */
  lemma ClassesExactly(c: char)
    ensures c in LOWERCASE <==> 'a' <= c <= 'z'
    ensures c in UPPERCASE <==> 'A' <= c <= 'Z'
    ensures c in DIGITS <==> '0' <= c <= '9'
    ensures c in SPECIAL ==> !('a' <= c <= 'z') && !('A' <= c <= 'Z') && !('0' <= c <= '9')
  {
    LowercaseExactly(c);
    UppercaseExactly(c);
    DigitsExactly(c);
    SpecialsApart(c);
  }

  lemma DigitsExactly(c: char)
    ensures c in DIGITS <==> '0' <= c <= '9'
  {
  }

  lemma SpecialsApart(c: char)
    ensures c in SPECIAL ==> !('a' <= c <= 'z') && !('A' <= c <= 'Z') && !('0' <= c <= '9')
  {
  }

  lemma LowercaseExactly(c: char)
    ensures c in LOWERCASE <==> 'a' <= c <= 'z'
  {
  }

  lemma UppercaseExactly(c: char)
    ensures c in UPPERCASE <==> 'A' <= c <= 'Z'
  {
  }

  /** A drawn character of a class is appended; a failed draw appends nothing. */
  method AppendOne(buffer: string, chars: string, d: Option<nat>) returns (longer: string)
    requires d.Some? ==> d.value < |chars|
    ensures longer == buffer + PickedFrom(chars, d)
  {
    longer := buffer;
    if d.Some? {
      longer := buffer + [chars[d.value]];
    }
  }

  /** The four class draws, in order. */
  method DrawClasses(draw: Draws) returns (buffer: string)
    requires Fair(draw) && NoneEmpty(CLASSES)
    ensures buffer == PicksFrom(CLASSES, draw, 4)
  {
    var b1 := AppendOne("", LOWERCASE, draw(0, |LOWERCASE|));
    var b2 := AppendOne(b1, UPPERCASE, draw(1, |UPPERCASE|));
    var b3 := AppendOne(b2, DIGITS, draw(2, |DIGITS|));
    buffer := AppendOne(b3, SPECIAL, draw(3, |SPECIAL|));
    FourPicks(CLASSES, draw);
  }

  lemma FourPicks(classes: seq<string>, draw: Draws)
    requires Fair(draw) && NoneEmpty(classes) && |classes| == 4
    ensures PicksFrom(classes, draw, 4)
      == PickedFrom(classes[0], draw(0, |classes[0]|)) + PickedFrom(classes[1], draw(1, |classes[1]|))
         + PickedFrom(classes[2], draw(2, |classes[2]|)) + PickedFrom(classes[3], draw(3, |classes[3]|))
  {
    assert PicksFrom(classes, draw, 0) == "";
    assert PicksFrom(classes, draw, 1) == PickedFrom(classes[0], draw(0, |classes[0]|));
    assert PicksFrom(classes, draw, 2) == PicksFrom(classes, draw, 1) + PickedFrom(classes[1], draw(1, |classes[1]|));
    assert PicksFrom(classes, draw, 3) == PicksFrom(classes, draw, 2) + PickedFrom(classes[2], draw(2, |classes[2]|));
  }

  /** Up to `length` further characters, one by draw. */
  method Fill(buffer: string, chars: string, length: nat, draw: Draws) returns (filled: string)
    requires Fair(draw) && chars != "" && |buffer| <= length
    ensures filled == buffer + FillFrom(chars, draw, 4, length - |buffer|)
  {
    filled := buffer;
    for i := |buffer| to length
      invariant filled == buffer + FillFrom(chars, draw, 4, i - |buffer|)
    {
      filled := AppendOne(filled, chars, draw(4 + i - |buffer|, |chars|));
    }
  }

  /** The draws of the shuffle: one below i + 1 for position i. */
  function DrawsFrom(draw: Draws, first: nat): (draws: nat -> Option<nat>)
    requires Fair(draw)
    ensures forall i: nat :: draws(i).Some? ==> draws(i).value <= i
  {
    (i: nat) => draw(first + i, i + 1)
  }

  /** The shuffle of a string, in a buffer of its own. */
  method Shuffle(filled: string, first: nat, draw: Draws) returns (password: string)
    requires Fair(draw)
    ensures password == Shuffled(filled, |filled|, DrawsFrom(draw, first))
  {
    var data := new char[|filled|](i requires 0 <= i < |filled| => filled[i]);
    assert data[..] == filled;
    ShuffleBytes(data, DrawsFrom(draw, first));
    password := data[..];
  }

  lemma {:induction false} PicksAtMost(classes: seq<string>, draw: Draws, n: nat)
    requires Fair(draw) && NoneEmpty(classes) && n <= |classes|
    ensures |PicksFrom(classes, draw, n)| <= n
  {
    if n > 0 {
      PicksAtMost(classes, draw, n - 1);
    }
  }

  /** What is drawn, before the shuffle. */
  function Drawn(classes: seq<string>, chars: string, n: nat, draw: Draws): string
    requires Fair(draw) && NoneEmpty(classes) && chars != "" && |classes| == 4 <= n
  {
    var picks := PicksFrom(classes, draw, 4);
    PicksAtMost(classes, draw, 4);
    picks + FillFrom(chars, draw, 4, n - |picks|)
  }

  /** What the draws make of classes and an alphabet: n characters, shuffled. */
  function Made(classes: seq<string>, chars: string, n: nat, draw: Draws): string
    requires Fair(draw) && NoneEmpty(classes) && chars != "" && |classes| == 4 <= n
  {
    var drawn := Drawn(classes, chars, n, draw);
    Shuffled(drawn, |drawn|, DrawsFrom(draw, 4 + n))
  }

  /** The password the draws make. */
  function Generated(length: int, draw: Draws): string
    requires Fair(draw)
  {
    NoClassEmpty();
    Made(CLASSES, ALL_CHARS, TargetLength(length), draw)
  }

  predicate HasOneOf(s: string, chars: string) {
    exists c <- s :: c in chars
  }

  /** Every class whose draw succeeds has a character in `s`. */
  ghost predicate ClassesPresent(classes: seq<string>, draw: Draws, s: string) {
    forall k :: 0 <= k < |classes| && draw(k, |classes[k]|).Some? ==> HasOneOf(s, classes[k])
  }

  lemma GeneratedProperties(length: int, draw: Draws)
    requires Fair(draw)
    ensures ClassDraws(CLASSES, draw, 4) <= TargetLength(length) && |Generated(length, draw)| == TargetLength(length)
      - FailedFills(ALL_CHARS, draw, TargetLength(length) - ClassDraws(CLASSES, draw, 4))
    ensures FromAlphabet(Generated(length, draw)) && ClassesPresent(CLASSES, draw, Generated(length, draw))
  {
    PasswordLength(length, draw);
    PasswordFromAlphabet(length, draw);
    NoClassEmpty();
    AllSurvive(CLASSES, ALL_CHARS, TargetLength(length), draw);
  }

  /** What the draws make, of the length that failed fill draws leave, from the alphabet and with the classes drawn. */
  method GenerateRandomPassword(length: int, draw: Draws) returns (password: string)
    requires Fair(draw)
    ensures password == Generated(length, draw)
    ensures ClassDraws(CLASSES, draw, 4) <= TargetLength(length) && |password| == TargetLength(length)
      - FailedFills(ALL_CHARS, draw, TargetLength(length) - ClassDraws(CLASSES, draw, 4))
    ensures FromAlphabet(password)
    ensures ClassesPresent(CLASSES, draw, password)
  {
    GeneratedProperties(length, draw);
    NoClassEmpty();
    var buffer := DrawClasses(draw);
    PicksAtMost(CLASSES, draw, 4);
    var filled := Fill(buffer, ALL_CHARS, TargetLength(length), draw);
    password := Shuffle(filled, 4 + TargetLength(length), draw);
  }

  // ---------- what is drawn is what comes out ----------

  /** Each character comes out as often as it is drawn, wherever failed draws leave gaps. */
  lemma MadeOfDraws(classes: seq<string>, chars: string, n: nat, draw: Draws, c: char)
    requires Fair(draw) && NoneEmpty(classes) && chars != "" && |classes| == 4 <= n
    ensures |PicksFrom(classes, draw, 4)| <= n
    ensures multiset(Made(classes, chars, n, draw))[c] ==
      |PickHits(classes, draw, 4, c)| + |FillHits(chars, draw, 4, n - |PicksFrom(classes, draw, 4)|, c)|
  {
    var picks := PicksFrom(classes, draw, 4);
    PicksAtMost(classes, draw, 4);
    MadeOfDrawn(classes, chars, n, draw);
    CountsAdd(picks, FillFrom(chars, draw, 4, n - |picks|), c);
    PickCounts(classes, draw, 4, c);
    FillCounts(chars, draw, 4, n - |picks|, c);
  }

  lemma CountsAdd(a: string, b: string, c: char)
    ensures multiset(a + b)[c] == multiset(a)[c] + multiset(b)[c]
  {
  }

  lemma MadeOfDrawn(classes: seq<string>, chars: string, n: nat, draw: Draws)
    requires Fair(draw) && NoneEmpty(classes) && chars != "" && |classes| == 4 <= n
    ensures multiset(Made(classes, chars, n, draw)) == multiset(Drawn(classes, chars, n, draw))
    ensures |Made(classes, chars, n, draw)| == |Drawn(classes, chars, n, draw)|
  {
    var drawn := Drawn(classes, chars, n, draw);
    ShuffledPermutes(drawn, |drawn|, DrawsFrom(draw, 4 + n));
    SameLength(drawn, Made(classes, chars, n, draw));
  }

  /** The password consists of the characters drawn: those of the classes, and those of the fill draws after them. */
  lemma PasswordOfDraws(length: int, draw: Draws, c: char)
    requires Fair(draw) && NoneEmpty(CLASSES)
    ensures |PicksFrom(CLASSES, draw, 4)| <= TargetLength(length)
    ensures multiset(Generated(length, draw))[c] == |PickHits(CLASSES, draw, 4, c)|
      + |FillHits(ALL_CHARS, draw, 4, TargetLength(length) - |PicksFrom(CLASSES, draw, 4)|, c)|
  {
    MadeOfDraws(CLASSES, ALL_CHARS, TargetLength(length), draw, c);
  }

  // ---------- failing draws ----------

  function Count(d: Option<nat>): nat {
    if d.Some? then 1 else 0
  }

  /** How many of the first n class draws succeed. */
  function ClassDraws(classes: seq<string>, draw: Draws, n: nat): nat
    requires n <= |classes|
  {
    if n == 0 then 0 else ClassDraws(classes, draw, n - 1) + Count(draw(n - 1, |classes[n - 1]|))
  }

  /** How many of the first n fill draws fail. */
  function FailedFills(chars: string, draw: Draws, n: nat): nat {
    if n == 0 then 0 else FailedFills(chars, draw, n - 1) + 1 - Count(draw(4 + n - 1, |chars|))
  }

  lemma {:induction false} PicksLength(classes: seq<string>, draw: Draws, n: nat)
    requires Fair(draw) && NoneEmpty(classes) && n <= |classes|
    ensures |PicksFrom(classes, draw, n)| == ClassDraws(classes, draw, n) <= n
  {
    if n > 0 {
      PicksLength(classes, draw, n - 1);
    }
  }

  lemma {:induction false} FillLength(chars: string, draw: Draws, n: nat)
    requires Fair(draw) && chars != ""
    ensures |FillFrom(chars, draw, 4, n)| == n - FailedFills(chars, draw, n)
  {
    if n > 0 {
      FillLength(chars, draw, n - 1);
    }
  }

  lemma SameLength(a: string, b: string)
    requires multiset(a) == multiset(b)
    ensures |a| == |b|
  {
    assert |a| == |multiset(a)| == |multiset(b)| == |b|;
  }

  /** A failed class draw is made up for by a further fill draw; a failed fill draw is missing. */
  lemma PasswordLength(length: int, draw: Draws)
    requires Fair(draw)
    ensures ClassDraws(CLASSES, draw, 4) <= TargetLength(length)
    ensures |Generated(length, draw)| == TargetLength(length)
      - FailedFills(ALL_CHARS, draw, TargetLength(length) - ClassDraws(CLASSES, draw, 4))
  {
    NoClassEmpty();
    MadeLength(CLASSES, ALL_CHARS, TargetLength(length), draw);
  }

  lemma DrawnLength(classes: seq<string>, chars: string, n: nat, draw: Draws)
    requires Fair(draw) && NoneEmpty(classes) && chars != "" && |classes| == 4 <= n
    ensures ClassDraws(classes, draw, 4) <= n
    ensures |Drawn(classes, chars, n, draw)| == n - FailedFills(chars, draw, n - ClassDraws(classes, draw, 4))
  {
    PicksLength(classes, draw, 4);
    FillLength(chars, draw, n - ClassDraws(classes, draw, 4));
  }

  lemma MadeLength(classes: seq<string>, chars: string, n: nat, draw: Draws)
    requires Fair(draw) && NoneEmpty(classes) && chars != "" && |classes| == 4 <= n
    ensures ClassDraws(classes, draw, 4) <= n
    ensures |Made(classes, chars, n, draw)| == n - FailedFills(chars, draw, n - ClassDraws(classes, draw, 4))
  {
    DrawnLength(classes, chars, n, draw);
    MadeOfDrawn(classes, chars, n, draw);
  }

  /** A class whose draw succeeds is in what is made, whatever other draws fail. */
  lemma ClassSurvives(classes: seq<string>, chars: string, n: nat, draw: Draws, k: nat)
    requires Fair(draw) && NoneEmpty(classes) && chars != "" && |classes| == 4 <= n
    requires k < 4 && draw(k, |classes[k]|).Some?
    ensures classes[k][draw(k, |classes[k]|).value] in Made(classes, chars, n, draw)
  {
    var c := classes[k][draw(k, |classes[k]|).value];
    MadeOfDraws(classes, chars, n, draw, c);
    assert ClassHit(classes, draw, k, c) && k in PickHits(classes, draw, 4, c);
    assert multiset(Made(classes, chars, n, draw))[c] > 0;
  }

  lemma AllSurvive(classes: seq<string>, chars: string, n: nat, draw: Draws)
    requires Fair(draw) && NoneEmpty(classes) && chars != "" && |classes| == 4 <= n
    ensures ClassesPresent(classes, draw, Made(classes, chars, n, draw))
  {
    forall k | 0 <= k < |classes| && draw(k, |classes[k]|).Some?
      ensures HasOneOf(Made(classes, chars, n, draw), classes[k])
    {
      ClassSurvives(classes, chars, n, draw, k);
    }
  }

  /** Whatever draws fail, every character is from the alphabet. */
  lemma PasswordFromAlphabet(length: int, draw: Draws)
    requires Fair(draw)
    ensures FromAlphabet(Generated(length, draw))
  {
    NoClassEmpty();
    ClassesInAlphabet();
    MadeFrom(CLASSES, ALL_CHARS, TargetLength(length), draw);
  }

  lemma MadeFrom(classes: seq<string>, chars: string, n: nat, draw: Draws)
    requires Fair(draw) && NoneEmpty(classes) && chars != "" && |classes| == 4 <= n
    requires forall k, c :: 0 <= k < 4 && c in classes[k] ==> c in chars
    ensures forall c :: c in Made(classes, chars, n, draw) ==> c in chars
  {
    forall c | c in Made(classes, chars, n, draw) ensures c in chars {
      MadeOfDraws(classes, chars, n, draw, c);
      assert multiset(Made(classes, chars, n, draw))[c] > 0;
      SomeHit(classes, chars, draw, n - |PicksFrom(classes, draw, 4)|, c);
    }
  }

  lemma SomeHit(classes: seq<string>, chars: string, draw: Draws, m: nat, c: char)
    requires |classes| == 4 && forall k, x :: 0 <= k < 4 && x in classes[k] ==> x in chars
    requires |PickHits(classes, draw, 4, c)| + |FillHits(chars, draw, 4, m, c)| > 0
    ensures c in chars
  {
    if PickHits(classes, draw, 4, c) != {} {
      var k :| k in PickHits(classes, draw, 4, c);
      assert ClassHit(classes, draw, k, c);
    } else {
      var i :| i in FillHits(chars, draw, 4, m, c);
      assert FillHit(chars, draw, 4, i, c);
    }
  }

  /** With no failing fill draw nothing is missing from the target length. */
  lemma {:induction false} NoFailuresFullLength(chars: string, draw: Draws, n: nat)
    requires forall i :: 4 <= i < 4 + n ==> draw(i, |chars|).Some?
    ensures FailedFills(chars, draw, n) == 0
  {
    if n > 0 {
      NoFailuresFullLength(chars, draw, n - 1);
    }
  }

  // ---------- which passwords there are ----------

  /** One character of each class, at four different positions, and otherwise characters of the alphabet. */
  ghost predicate OneOfEach(classes: seq<string>, chars: string, t: string) {
    && (forall i :: 0 <= i < |t| ==> t[i] in chars)
    && exists each: string ::
      |each| == |classes| && (forall k :: 0 <= k < |classes| ==> each[k] in classes[k]) && multiset(each) <= multiset(t)
  }

  /** Draws that make a string of this form, and all succeed. */
  lemma EachIsPossible(classes: seq<string>, chars: string, n: nat, t: string) returns (draw: Draws)
    requires NoneEmpty(classes) && chars != "" && |classes| == 4 <= n
    requires |t| == n && OneOfEach(classes, chars, t)
    ensures Succeeds(draw) && Made(classes, chars, n, draw) == t
  {
    var each: string :|
      |each| == |classes| && (forall k :: 0 <= k < |classes| ==> each[k] in classes[k])
      && multiset(each) <= multiset(t);
    var rest := Without(t, each);
    SameLength(each + rest, t);
    RestFrom(chars, t, each, rest);
    draw := DrawsThatMake(classes, chars, n, t, each, rest);
  }

  lemma DrawsThatMake(classes: seq<string>, chars: string, n: nat, t: string, each: string, rest: string)
    returns (draw: Draws)
    requires NoneEmpty(classes) && chars != "" && |classes| == 4 && n == 4 + |rest|
    requires Drawing.Wanted(classes, chars, each, rest) && |t| == n && multiset(each + rest) == multiset(t)
    ensures Succeeds(draw) && Made(classes, chars, n, draw) == t
  {
    var s := each + rest;
    WholeMatches(s, t);
    var shuffle := DrawsFor(s, t, n);
    DrawsForSucceed(s, t, n);
    EveryRearrangementReachable(s, t, n);
    draw := Choosing(classes, chars, each, rest, 4 + n, shuffle);
    MadeAsWanted(classes, chars, each, rest, n, shuffle);
  }

  lemma MadeAsWanted(classes: seq<string>, chars: string, each: string, rest: string, n: nat,
                     shuffle: nat -> Option<nat>)
    requires NoneEmpty(classes) && chars != "" && |classes| == 4 && n == 4 + |rest|
    requires Drawing.Wanted(classes, chars, each, rest)
    requires forall i :: shuffle(i).Some? ==> shuffle(i).value <= i
    requires forall i :: 0 < i < n ==> shuffle(i).Some?
    ensures Made(classes, chars, n, Choosing(classes, chars, each, rest, 4 + n, shuffle))
      == Shuffled(each + rest, n, shuffle)
  {
    DrawnIsWanted(classes, chars, each, rest, n, shuffle);
    ShuffledAsWanted(classes, chars, each, rest, n, shuffle);
  }

  lemma WholeMatches(s: string, t: string)
    requires |s| == |t| && multiset(s) == multiset(t)
    ensures multiset(s[..|s|]) == multiset(t[..|s|]) && s[|s|..] == t[|s|..]
  {
    assert s[..|s|] == s && t[..|s|] == t;
  }

  lemma DrawnIsWanted(classes: seq<string>, chars: string, each: string, rest: string, n: nat,
                      shuffle: nat -> Option<nat>)
    requires NoneEmpty(classes) && chars != "" && |classes| == 4 && n == 4 + |rest|
    requires Drawing.Wanted(classes, chars, each, rest)
    ensures Drawn(classes, chars, n, Choosing(classes, chars, each, rest, 4 + n, shuffle)) == each + rest
  {
    PicksAreWanted(classes, chars, each, rest, 4 + n, shuffle, 4);
    FillIsWanted(classes, chars, each, rest, 4 + n, shuffle, |rest|);
    assert each[..4] == each && rest[..|rest|] == rest;
  }

  lemma ShuffledAsWanted(classes: seq<string>, chars: string, each: string, rest: string, n: nat,
                         shuffle: nat -> Option<nat>)
    requires |classes| == 4 && n == 4 + |rest| && Drawing.Wanted(classes, chars, each, rest)
    requires forall i :: shuffle(i).Some? ==> shuffle(i).value <= i
    requires forall i :: 0 < i < n ==> shuffle(i).Some?
    ensures var draw := Choosing(classes, chars, each, rest, 4 + n, shuffle);
      Shuffled(each + rest, n, DrawsFrom(draw, 4 + n)) == Shuffled(each + rest, n, shuffle)
  {
    var draw := Choosing(classes, chars, each, rest, 4 + n, shuffle);
    forall i | 0 < i < n ensures DrawsFrom(draw, 4 + n)(i) == shuffle(i) {
      ShuffleIsWanted(classes, chars, each, rest, 4 + n, shuffle, i);
    }
    ShuffledSameDraws(each + rest, n, DrawsFrom(draw, 4 + n), shuffle);
  }

  lemma RestFrom(chars: string, t: string, each: string, rest: string)
    requires multiset(each + rest) == multiset(t) && forall i :: 0 <= i < |t| ==> t[i] in chars
    ensures forall i :: 0 <= i < |rest| ==> rest[i] in chars
  {
    forall i | 0 <= i < |rest| ensures rest[i] in chars {
      assert rest[i] in each + rest && rest[i] in multiset(t);
    }
  }

  /** When no draw fails, what is made has this form. */
  lemma MadeHasForm(classes: seq<string>, chars: string, n: nat, draw: Draws)
    requires Succeeds(draw) && NoneEmpty(classes) && chars != "" && |classes| == 4 <= n
    requires forall k, c :: 0 <= k < 4 && c in classes[k] ==> c in chars
    ensures var t := Made(classes, chars, n, draw); |t| == n && OneOfEach(classes, chars, t)
  {
    var each, t := PicksFrom(classes, draw, 4), Made(classes, chars, n, draw);
    PicksOneEach(classes, draw, 4);
    FillsAll(chars, draw, 4, n - 4);
    var fill := FillFrom(chars, draw, 4, n - 4);
    MadeOfDrawn(classes, chars, n, draw);
    assert Drawn(classes, chars, n, draw) == each + fill;
    FormKept(classes, chars, each, fill, t);
  }

  lemma FormKept(classes: seq<string>, chars: string, each: string, fill: string, t: string)
    requires |each| == |classes| && (forall k :: 0 <= k < |classes| ==> each[k] in classes[k])
    requires forall k, c :: 0 <= k < |classes| && c in classes[k] ==> c in chars
    requires forall c :: c in fill ==> c in chars
    requires multiset(t) == multiset(each + fill)
    ensures OneOfEach(classes, chars, t)
  {
    forall i | 0 <= i < |t| ensures t[i] in chars {
      assert t[i] in multiset(t) && t[i] in each + fill;
    }
    assert multiset(each + fill) == multiset(each) + multiset(fill);
  }

  /**
   The passwords there are when no draw fails: the strings of the length asked for (16 below 8) with a character of
   each class at four different positions and otherwise characters of the alphabet, in any order.
   */
  lemma PasswordsExactly(length: int, t: string)
    ensures (exists draw: Draws :: Succeeds(draw) && Generated(length, draw) == t) <==>
      |t| == (if length < 8 then 16 else length) && OneOfEach(CLASSES, ALL_CHARS, t)
  {
    NoClassEmpty();
    if |t| == TargetLength(length) && OneOfEach(CLASSES, ALL_CHARS, t) {
      var draw := EachIsPossible(CLASSES, ALL_CHARS, TargetLength(length), t);
      assert Generated(length, draw) == t;
    }
    forall draw: Draws | Succeeds(draw) && Generated(length, draw) == t
      ensures |t| == TargetLength(length) && OneOfEach(CLASSES, ALL_CHARS, t)
    {
      ClassesInAlphabet();
      MadeHasForm(CLASSES, ALL_CHARS, TargetLength(length), draw);
    }
  }
}
