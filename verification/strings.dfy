/**
 * The few JavaScript string operations the front end relies on, with the
 * semantics of `String.prototype.startsWith`, `includes`, `lastIndexOf`,
 * `split` with a one-character separator, and `Array.prototype.join`.
 * Strings are sequences of characters; every literal of the front end lies in
 * the Basic Multilingual Plane, so a character stands for one UTF-16 unit.
 */
module Strings {
  import opened Wrappers

  /** `s.startsWith(prefix)` */
  predicate StartsWith(s: string, prefix: string)
  {
    |prefix| <= |s| && s[..|prefix|] == prefix
  }

  /** `s.endsWith(suffix)` */
  predicate EndsWith(s: string, suffix: string)
  {
    |suffix| <= |s| && s[|s| - |suffix|..] == suffix
  }

  /** A concatenation starts with its first part and ends with its second. */
  lemma {:induction false} ConcatEnds(a: string, b: string)
    ensures StartsWith(a + b, a) && EndsWith(a + b, b)
  {
    assert (a + b)[..|a|] == a;
    assert (a + b)[|a|..] == b;
  }

  /** `sub` occurs in `s` starting at position `i`. */
  predicate OccursAt(s: string, sub: string, i: nat)
  {
    i + |sub| <= |s| && s[i..i + |sub|] == sub
  }

  /** `s.includes(sub)`: `sub` occurs at some position of `s`. */
  predicate Contains(s: string, sub: string)
  {
    exists i: nat :: i <= |s| && OccursAt(s, sub, i)
  }

  /** A string that occurs in `b` occurs in any string built around `b`. */
  lemma {:induction false} ContainsInside(a: string, b: string, c: string, sub: string)
    requires Contains(b, sub)
    ensures Contains(a + b + c, sub)
  {
    var i: nat :| i <= |b| && OccursAt(b, sub, i);
    var s := a + b + c;
    assert s[|a| + i..|a| + i + |sub|] == sub;
    assert OccursAt(s, sub, |a| + i);
  }

  /** A string included in `s` is included in any extension of `s`. */
  lemma {:induction false} ContainsInPrefix(s: string, t: string, sub: string)
    requires Contains(s, sub)
    ensures Contains(s + t, sub)
  {
    var i: nat :| i <= |s| && OccursAt(s, sub, i);
    assert (s + t)[i..i + |sub|] == s[i..i + |sub|];
    assert OccursAt(s + t, sub, i);
  }

  /** A string lacking one of the characters of `sub` does not include `sub`. */
  lemma {:induction false} MissingCharNotContained(s: string, sub: string, c: char)
    requires c in sub && c !in s
    ensures !Contains(s, sub)
  {
    forall i: nat | i + |sub| <= |s|
      ensures !OccursAt(s, sub, i)
    {
      assert forall x :: x in s[i..i + |sub|] ==> x in s;
    }
  }

  /** `parts.join(sep)` */
  function Join(parts: seq<string>, sep: char): string
    decreases |parts|
  {
    if |parts| == 0 then ""
    else if |parts| == 1 then parts[0]
    else parts[0] + [sep] + Join(parts[1..], sep)
  }

  /** Prepending a character to the first part prepends it to the joined string. */
  lemma {:induction false} JoinConsHead(x: char, head: string, rest: seq<string>, sep: char)
    ensures Join([[x] + head] + rest, sep) == [x] + Join([head] + rest, sep)
  {
    if |rest| > 0 {
      assert ([[x] + head] + rest)[1..] == rest;
      assert ([head] + rest)[1..] == rest;
    }
  }

  /**
   * `s.split(sep)`: the pieces of `s` between separators, always at least one
   * (`''.split('.')` is `['']`). Joining them back gives `s`, and no piece
   * holds the separator.
   */
  function Split(s: string, sep: char): (parts: seq<string>)
    ensures |parts| >= 1
    ensures forall i :: 0 <= i < |parts| ==> sep !in parts[i]
    ensures Join(parts, sep) == s
    ensures |parts| == 1 <==> sep !in s
    decreases |s|
  {
    if |s| == 0 then [""]
    else
      var rest := Split(s[1..], sep);
      assert s == [s[0]] + s[1..];
      if s[0] == sep then
        assert Join([""] + rest, sep) == [sep] + Join(rest, sep) by {
          assert ([""] + rest)[1..] == rest;
        }
        [""] + rest
      else
        JoinConsHead(s[0], rest[0], rest[1..], sep);
        assert [rest[0]] + rest[1..] == rest;
        [[s[0]] + rest[0]] + rest[1..]
  }

  /**
   * The split is the only way to cut `s` into separator-free pieces that join
   * back to `s`.
   */
  lemma {:induction false} SplitUnique(parts: seq<string>, s: string, sep: char)
    requires |parts| >= 1
    requires forall i :: 0 <= i < |parts| ==> sep !in parts[i]
    requires Join(parts, sep) == s
    ensures parts == Split(s, sep)
    decreases |s|
  {
    if |parts| >= 2 {
      assert Join(parts, sep) == parts[0] + [sep] + Join(parts[1..], sep);
    }
    assert |parts[0]| <= |s| && s[..|parts[0]|] == parts[0];
    assert |parts| >= 2 ==> |parts[0]| < |s| && s[|parts[0]|] == sep;
    if |s| == 0 {
      assert |parts| == 1;
    } else if s[0] == sep {
      assert parts[0] == [];
      assert |parts| >= 2;
      assert Join(parts[1..], sep) == s[1..];
      SplitUnique(parts[1..], s[1..], sep);
      assert parts == [""] + parts[1..];
    } else {
      assert parts[0] != [];
      var head := parts[0][1..];
      var tail := [head] + parts[1..];
      assert parts[0] == [s[0]] + head;
      assert parts == [[s[0]] + head] + parts[1..];
      JoinConsHead(s[0], head, parts[1..], sep);
      assert Join(tail, sep) == s[1..];
      assert forall i :: 0 <= i < |tail| ==> sep !in tail[i] by {
        forall i | 0 <= i < |tail| ensures sep !in tail[i] {
          if i == 0 { assert sep !in parts[0]; } else { assert tail[i] == parts[i]; }
        }
      }
      SplitUnique(tail, s[1..], sep);
      var rest := Split(s[1..], sep);
      assert rest == tail;
      assert Split(s, sep) == [[s[0]] + rest[0]] + rest[1..];
      assert rest[1..] == parts[1..];
    }
  }

  /** A separator-free prefix ending at the first separator becomes the first piece. */
  lemma {:induction false} SplitAtFirst(a: string, b: string, sep: char)
    requires sep !in a
    ensures Split(a + [sep] + b, sep) == [a] + Split(b, sep)
  {
    var parts := [a] + Split(b, sep);
    assert parts[1..] == Split(b, sep);
    assert forall i :: 1 <= i < |parts| ==> parts[i] == Split(b, sep)[i - 1];
    SplitUnique(parts, a + [sep] + b, sep);
  }

  /** `s.split(sep)[i]`, which is `undefined` past the last piece. */
  function SplitField(s: string, sep: char, i: nat): Option<string>
  {
    var parts := Split(s, sep);
    if i < |parts| then Some(parts[i]) else None
  }

  /**
   * `s.lastIndexOf(c)`: the position of the last occurrence of `c`, or -1
   * when `c` does not occur.
   */
  function LastIndexOf(s: string, c: char): (k: int)
    ensures k == -1 <==> c !in s
    ensures k >= 0 ==> k < |s| && s[k] == c && c !in s[k + 1..]
    decreases |s|
  {
    if |s| == 0 then -1
    else
      var k := LastIndexOf(s[1..], c);
      assert s == [s[0]] + s[1..];
      if k >= 0 then
        assert s[k + 2..] == s[1..][k + 1..];
        k + 1
      else if s[0] == c then
        assert s[1..] == s[0 + 1..];
        0
      else -1
  }

  /** The last `c` of `head + [c] + tail` is the one after `head` when `tail` holds none. */
  lemma {:induction false} LastIndexOfBeforeTail(head: string, tail: string, c: char)
    requires c !in tail
    ensures LastIndexOf(head + [c] + tail, c) == |head|
    ensures (head + [c] + tail)[..|head|] == head
  {
    var s := head + [c] + tail;
    var k := LastIndexOf(s, c);
    assert s[|head|] == c;
    forall j | k < j < |s|
      ensures s[j] != c
    {
      assert s[j] == s[k + 1..][j - k - 1];
    }
    forall j | |head| < j < |s|
      ensures s[j] != c
    {
      assert s[j] == tail[j - |head| - 1];
    }
  }

  /** `parts.slice(0, -1)` */
  function DropLast(parts: seq<string>): seq<string>
  {
    if |parts| == 0 then [] else parts[..|parts| - 1]
  }

  /** How dropping the last piece of a split reacts to one more leading character. */
  lemma {:induction false} JoinAllButLastStep(x: char, t: string, sep: char)
    ensures Join(DropLast(Split([x] + t, sep)), sep)
         == if sep !in t then "" else [x] + Join(DropLast(Split(t, sep)), sep)
  {
    var s := [x] + t;
    var rest := Split(t, sep);
    assert s[1..] == t;
    if x == sep {
      assert Split(s, sep) == [""] + rest;
      if |rest| >= 2 {
        assert DropLast(Split(s, sep)) == [""] + DropLast(rest);
        assert ([""] + DropLast(rest))[1..] == DropLast(rest);
      } else {
        assert DropLast(Split(s, sep)) == [""];
      }
    } else {
      assert Split(s, sep) == [[x] + rest[0]] + rest[1..];
      if |rest| >= 2 {
        var d := DropLast(rest);
        assert DropLast(Split(s, sep)) == [[x] + d[0]] + d[1..];
        assert [d[0]] + d[1..] == d;
        JoinConsHead(x, d[0], d[1..], sep);
      }
    }
  }

  /** The first `k + 1` characters are the head followed by `k` characters of the tail. */
  lemma {:induction false} PrefixOfCons(s: string, k: nat)
    requires k < |s|
    ensures s[..k + 1] == [s[0]] + s[1..][..k]
  {
    assert s[1..][..k] == s[1..k + 1];
  }

  /**
   * `s.split(sep).slice(0, -1).join(sep)` is the part of `s` before its last
   * separator, and the empty string when `s` holds no separator at all.
   */
  lemma {:induction false} JoinAllButLast(s: string, sep: char)
    ensures Join(DropLast(Split(s, sep)), sep)
         == if sep in s then s[..LastIndexOf(s, sep)] else ""
    decreases |s|
  {
    if |s| > 0 {
      var t := s[1..];
      assert s == [s[0]] + t;
      JoinAllButLast(t, sep);
      JoinAllButLastStep(s[0], t, sep);
      var k := LastIndexOf(t, sep);
      if k >= 0 {
        PrefixOfCons(s, k);
      }
    }
  }
}
