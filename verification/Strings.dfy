/** Strings as the operator compares, joins and cuts them. */
module Strings {

  /** Go's `<` on strings: lexicographic by code unit. */
  predicate Less(a: string, b: string) {
    b != "" && (a == "" || a[0] < b[0] || (a[0] == b[0] && Less(a[1..], b[1..])))
  }

  /** `a` is a proper beginning of `b`, or has the smaller character where they first differ. */
  ghost predicate ComesBefore(a: string, b: string) {
    exists i :: 0 <= i <= |a| && i < |b| && a[..i] == b[..i] && (i == |a| || a[i] < b[i])
  }

  lemma {:induction false} LessExactly(a: string, b: string)
    ensures Less(a, b) <==> ComesBefore(a, b)
  {
    if a == "" || b == "" {
      assert b != "" ==> a[..0] == b[..0];
    } else if a[0] != b[0] {
      assert a[..0] == b[..0];
      forall i | 0 < i <= |a| && i < |b| ensures a[..i] != b[..i] {
        assert a[..i][0] == a[0] && b[..i][0] == b[0];
      }
    } else {
      LessExactly(a[1..], b[1..]);
      var c, d := a[1..], b[1..];
      if i :| 0 <= i <= |c| && i < |d| && c[..i] == d[..i] && (i == |c| || c[i] < d[i]) {
        assert a[..i + 1] == [a[0]] + a[1..][..i] && b[..i + 1] == [b[0]] + b[1..][..i];
      }
      if i :| 0 <= i <= |a| && i < |b| && a[..i] == b[..i] && (i == |a| || a[i] < b[i]) {
        assert i > 0;
        assert a[1..][..i - 1] == a[..i][1..] && b[1..][..i - 1] == b[..i][1..];
      }
    }
  }

  predicate AtMost(a: string, b: string) {
    !Less(b, a)
  }

  lemma {:induction false} LessTrichotomy(a: string, b: string)
    ensures !Less(a, a)
    ensures Less(a, b) ==> !Less(b, a)
    ensures a == b || Less(a, b) || Less(b, a)
  {
    if a != "" {
      LessTrichotomy(a[1..], if b == "" then a[1..] else b[1..]);
    }
    if a != "" && b != "" && a[0] == b[0] {
      LessTrichotomy(a[1..], b[1..]);
      assert a == [a[0]] + a[1..] && b == [b[0]] + b[1..];
    }
  }

  lemma {:induction false} LessTransitive(a: string, b: string, c: string)
    requires Less(a, b) && Less(b, c)
    ensures Less(a, c)
  {
    if a != "" && a[0] == b[0] == c[0] {
      LessTransitive(a[1..], b[1..], c[1..]);
    }
  }

  /** strings.Join */
  function Join(parts: seq<string>, sep: string): string {
    if parts == [] then ""
    else if |parts| == 1 then parts[0]
    else parts[0] + sep + Join(parts[1..], sep)
  }

  /** Does every character of `s` belong to `inside`? */
  predicate Within(s: string, inside: char -> bool) {
    forall c <- s :: inside(c)
  }

  /** `s` is empty or starts with a character outside `inside`. */
  predicate Leaves(s: string, inside: char -> bool) {
    s == "" || !inside(s[0])
  }

  lemma Associates(a: string, b: string, c: string)
    ensures (a + b) + c == a + (b + c)
  {
  }

  lemma PrefixCancels(p: string, s: string, t: string)
    requires p + s == p + t
    ensures s == t
  {
    assert s == (p + s)[|p|..] == t;
  }

  /** strings.Split on a one-character separator. */
  function Split(s: string, sep: char): (parts: seq<string>)
    ensures |parts| >= 1
  {
    if s == "" then [""]
    else if s[0] == sep then [""] + Split(s[1..], sep)
    else var rest := Split(s[1..], sep); [[s[0]] + rest[0]] + rest[1..]
  }

  lemma {:induction false} SplitWhole(s: string, sep: char)
    requires sep !in s
    ensures Split(s, sep) == [s]
  {
    if s != "" {
      SplitWhole(s[1..], sep);
      assert [s[0]] + s[1..] == s;
    }
  }

  lemma {:induction false} SplitCons(a: string, s: string, sep: char)
    requires sep !in a
    ensures Split(a + [sep] + s, sep) == [a] + Split(s, sep)
  {
    if a == "" {
      assert a + [sep] + s == [sep] + s;
      assert ([sep] + s)[1..] == s;
    } else {
      SplitCons(a[1..], s, sep);
      assert (a + [sep] + s)[1..] == a[1..] + [sep] + s;
      assert [a[0]] + a[1..] == a;
    }
  }

  /** Joining undoes splitting, and no part contains the separator. */
  lemma {:induction false} SplitParts(s: string, sep: char)
    ensures Join(Split(s, sep), [sep]) == s
    ensures forall part <- Split(s, sep) :: sep !in part
  {
    if s != "" {
      var rest := Split(s[1..], sep);
      SplitParts(s[1..], sep);
      assert s == [s[0]] + s[1..];
      if s[0] == sep {
        JoinAfterEmpty(rest, sep);
      } else {
        JoinLongerFirst(s[0], rest, sep);
        assert forall part <- rest[1..] :: part in rest;
      }
    }
  }

  lemma JoinAfterEmpty(parts: seq<string>, sep: char)
    requires parts != []
    ensures Join([""] + parts, [sep]) == [sep] + Join(parts, [sep])
  {
    assert ([""] + parts)[1..] == parts;
  }

  lemma JoinLongerFirst(c: char, parts: seq<string>, sep: char)
    requires parts != []
    ensures Join([[c] + parts[0]] + parts[1..], [sep]) == [c] + Join(parts, [sep])
  {
    assert ([[c] + parts[0]] + parts[1..])[1..] == parts[1..];
  }

  /** Splitting in two: exactly one separator. */
  lemma SplitInTwo(s: string, sep: char, a: string, b: string)
    ensures Split(s, sep) == [a, b] <==> s == a + [sep] + b && sep !in a && sep !in b
  {
    if Split(s, sep) == [a, b] {
      SplitParts(s, sep);
      assert [a, b][1..] == [b] && a in [a, b] && b in [a, b];
      assert Join([a, b], [sep]) == a + [sep] + Join([b], [sep]);
    }
    if s == a + [sep] + b && sep !in a && sep !in b {
      SplitCons(a, b, sep);
      SplitWhole(b, sep);
    }
  }

  /** Splitting undoes joining when no part contains the separator. */
  lemma {:induction false} SplitJoin(parts: seq<string>, sep: char)
    requires parts != []
    requires forall part <- parts :: sep !in part
    ensures Split(Join(parts, [sep]), sep) == parts
  {
    if |parts| == 1 {
      SplitWhole(parts[0], sep);
    } else {
      SplitJoin(parts[1..], sep);
      SplitCons(parts[0], Join(parts[1..], [sep]), sep);
      assert parts == [parts[0]] + parts[1..];
    }
  }

  /** strings.ToLower on the ASCII letters. */
  function ToLower(s: string): string {
    seq(|s|, i requires 0 <= i < |s| => if 'A' <= s[i] <= 'Z' then s[i] - 'A' + 'a' else s[i])
  }

  /** strings.Contains */
  predicate Contains(s: string, sub: string) {
    sub <= s || (s != "" && Contains(s[1..], sub))
  }

  /** The character `c` is read as `p`: an upper-case ASCII letter as its lower-case one, any other as itself. */
  predicate ReadAs(c: char, p: char) {
    if 'A' <= c <= 'Z' then c as int + 32 == p as int else c == p
  }

  predicate StandsAt(s: string, phrase: string, i: nat) {
    i + |phrase| <= |s| && forall j :: 0 <= j < |phrase| ==> ReadAs(s[i + j], phrase[j])
  }

  /** The phrase occurs in `s`, in any ASCII case. */
  predicate Mentions(s: string, phrase: string) {
    exists i :: 0 <= i <= |s| && StandsAt(s, phrase, i)
  }

  lemma StandsLater(s: string, phrase: string, i: nat)
    requires s != ""
    ensures StandsAt(s, phrase, i + 1) <==> StandsAt(s[1..], phrase, i)
  {
    if StandsAt(s, phrase, i + 1) {
      forall j | 0 <= j < |phrase| ensures ReadAs(s[1..][i + j], phrase[j]) {
        assert s[1..][i + j] == s[i + 1 + j];
      }
    }
    if StandsAt(s[1..], phrase, i) {
      forall j | 0 <= j < |phrase| ensures ReadAs(s[i + 1 + j], phrase[j]) {
        assert s[1..][i + j] == s[i + 1 + j];
      }
    }
  }

  lemma StandsFirst(s: string, phrase: string)
    ensures phrase <= ToLower(s) <==> StandsAt(s, phrase, 0)
  {
    var l := ToLower(s);
    if phrase <= l {
      assert forall j :: 0 <= j < |phrase| ==> phrase[j] == l[j];
    }
    if StandsAt(s, phrase, 0) {
      assert forall j :: 0 <= j < |phrase| ==> l[j] == phrase[j] by {
        assert forall j :: 0 <= j < |phrase| ==> s[0 + j] == s[j];
      }
      assert phrase == l[..|phrase|];
    }
  }

  /** Looking for a phrase in the lower-cased string finds it in any ASCII case. */
  lemma {:induction false} LoweredContains(s: string, phrase: string)
    ensures Contains(ToLower(s), phrase) <==> Mentions(s, phrase)
  {
    StandsFirst(s, phrase);
    if s != "" {
      assert ToLower(s)[1..] == ToLower(s[1..]);
      LoweredContains(s[1..], phrase);
      forall i: nat ensures StandsAt(s, phrase, i + 1) <==> StandsAt(s[1..], phrase, i) {
        StandsLater(s, phrase, i);
      }
      if Mentions(s, phrase) && !StandsAt(s, phrase, 0) {
        var i :| 0 <= i <= |s| && StandsAt(s, phrase, i);
        assert StandsAt(s[1..], phrase, i - 1);
      }
    }
  }
}
