/** The string operations the completion resolver relies on: `endsWith`,
    `slice(0, -1)`, `split('.')`, `join(sep)` and `toLowerCase()`, on
    strings modelled as sequences of characters. */
module Strings {

  /** `s.endsWith(suffix)`. */
  predicate EndsWith(s: string, suffix: string) {
    |suffix| <= |s| && s[|s| - |suffix|..] == suffix
  }

  /** Ending with a one-character suffix is having it as the last character. */
  lemma EndsWithChar(s: string, c: char)
    ensures EndsWith(s, [c]) <==> |s| >= 1 && s[|s| - 1] == c
  {
    if |s| >= 1 && s[|s| - 1] == c {
      assert s[|s| - 1..] == [c];
    }
  }

  /** `s.slice(0, -1)`: everything but the last character. */
  function DropLast(s: string): (r: string)
    requires |s| >= 1
    ensures r + [s[|s| - 1]] == s
  {
    s[..|s| - 1]
  }

  /** `toLowerCase()` on one character, for the ASCII letters. */
  function LowerChar(c: char): char {
    if 'A' <= c <= 'Z' then (c as int + 32) as char else c
  }

  /** `s.toLowerCase()`, restricted to ASCII letters. */
  function Lower(s: string): (r: string)
    ensures |r| == |s|
  {
    seq(|s|, i requires 0 <= i < |s| => LowerChar(s[i]))
  }

  /** `parts.join(sep)`: the parts with `sep` between neighbours; `[]` joins to "". */
  function Join(parts: seq<string>, sep: string): string {
    if |parts| == 0 then ""
    else if |parts| == 1 then parts[0]
    else parts[0] + sep + Join(parts[1..], sep)
  }

  /** Joining peels off the first part and the separator after it. */
  lemma JoinCons(head: string, tail: seq<string>, sep: string)
    requires |tail| >= 1
    ensures Join([head] + tail, sep) == head + sep + Join(tail, sep)
  {
    assert ([head] + tail)[1..] == tail;
  }

  /** `s.split(sep)` for a one-character separator: the maximal runs between
      separators, including empty ones, so `"".split('.')` is `[""]` and
      `"a..b".split('.')` is `["a", "", "b"]`. Joining the parts with the
      separator gives back `s`. */
  function Split(s: string, sep: char): (parts: seq<string>)
    ensures |parts| >= 1
    ensures forall i :: 0 <= i < |parts| ==> sep !in parts[i]
    ensures Join(parts, [sep]) == s
  {
    if |s| == 0 then [""]
    else
      var rest := Split(s[1..], sep);
      if s[0] == sep then
        [""] + rest
      else
        var parts := [[s[0]] + rest[0]] + rest[1..];
        assert Join(parts, [sep]) == s by {
          if |rest| > 1 {
            assert rest == [rest[0]] + rest[1..];
            assert Join(rest, [sep]) == rest[0] + [sep] + Join(rest[1..], [sep]);
          }
          assert s == [s[0]] + s[1..];
        }
        parts
  }

  /** A string with no separator in it splits into itself alone. */
  lemma {:induction false} SplitWithoutSeparator(s: string, sep: char)
    requires sep !in s
    ensures Split(s, sep) == [s]
  {
    if |s| > 0 {
      SplitWithoutSeparator(s[1..], sep);
      assert [s[0]] + s[1..] == s;
    }
  }

  /** Splitting at the first separator: a separator-free head comes off as
      the first part. */
  lemma {:induction false} SplitAfterHead(head: string, sep: char, tail: string)
    requires sep !in head
    ensures Split(head + [sep] + tail, sep) == [head] + Split(tail, sep)
  {
    if |head| == 0 {
      assert head + [sep] + tail == [sep] + tail;
      assert ([sep] + tail)[1..] == tail;
    } else {
      var s := head + [sep] + tail;
      assert s[1..] == head[1..] + [sep] + tail;
      SplitAfterHead(head[1..], sep, tail);
      assert [head[0]] + head[1..] == head;
    }
  }

  /** Split undoes Join for separator-free parts; with the last ensures of
      `Split`, the two are inverse to each other. */
  lemma {:induction false} SplitOfJoin(parts: seq<string>, sep: char)
    requires |parts| >= 1
    requires forall i :: 0 <= i < |parts| ==> sep !in parts[i]
    ensures Split(Join(parts, [sep]), sep) == parts
  {
    if |parts| == 1 {
      SplitWithoutSeparator(parts[0], sep);
    } else {
      SplitOfJoin(parts[1..], sep);
      SplitAfterHead(parts[0], sep, Join(parts[1..], [sep]));
      assert [parts[0]] + parts[1..] == parts;
    }
  }

  /** `s.toLowerCase() === "home"` holds exactly for the sixteen upper/lower
      case spellings of "home". */
  lemma LowerIsHome(s: string)
    ensures Lower(s) == "home" <==>
      && |s| == 4
      && (s[0] == 'h' || s[0] == 'H')
      && (s[1] == 'o' || s[1] == 'O')
      && (s[2] == 'm' || s[2] == 'M')
      && (s[3] == 'e' || s[3] == 'E')
  {
    if |s| == 4 && Lower(s) == "home" {
      var l := Lower(s);
      assert l[0] == LowerChar(s[0]) && l[0] == "home"[0] == 'h';
      assert l[1] == LowerChar(s[1]) && l[1] == "home"[1] == 'o';
      assert l[2] == LowerChar(s[2]) && l[2] == "home"[2] == 'm';
      assert l[3] == LowerChar(s[3]) && l[3] == "home"[3] == 'e';
    }
  }
}
