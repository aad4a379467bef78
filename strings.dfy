/** Splitting and joining strings on a one-character separator.  Secret-store
    paths are '/'-joined segments and query text is '\n'-terminated lines; both
    are read back into their parts with Split. */
module Strings {

  /** The parts of `s` between occurrences of `sep`, like Go's strings.Split:
      "a/b" gives ["a", "b"], "" gives [""], "a/" gives ["a", ""]. */
  function Split(s: string, sep: char): (parts: seq<string>)
    ensures |parts| > 0
    decreases |s|
  {
    if s == [] then [[]]
    else
      var init := Split(s[..|s| - 1], sep);
      if s[|s| - 1] == sep then init + [[]]
      else init[..|init| - 1] + [init[|init| - 1] + [s[|s| - 1]]]
  }

  /** The parts joined with `sep` between them, as path.Join does for clean
      elements. */
  function Join(parts: seq<string>, sep: char): string
    requires |parts| > 0
    decreases |parts|
  {
    if |parts| == 1 then parts[0]
    else Join(parts[..|parts| - 1], sep) + [sep] + parts[|parts| - 1]
  }

  /** Join unfolded at its last part. */
  lemma JoinSnoc(parts: seq<string>, last: string, sep: char)
    requires |parts| > 0
    ensures Join(parts + [last], sep) == Join(parts, sep) + [sep] + last
  {
    assert (parts + [last])[..|parts|] == parts;
  }

  /** A string without the separator is a single part. */
  lemma {:induction false} SplitNoSeparator(s: string, sep: char)
    requires sep !in s
    ensures Split(s, sep) == [s]
    decreases |s|
  {
    if s != [] {
      assert sep !in s[..|s| - 1];
      SplitNoSeparator(s[..|s| - 1], sep);
      assert s[..|s| - 1] + [s[|s| - 1]] == s;
    }
  }

  /** Split unfolded at a final separator. */
  lemma SplitSnocSeparator(s: string, sep: char)
    ensures Split(s + [sep], sep) == Split(s, sep) + [[]]
  {
    assert (s + [sep])[..|s|] == s;
  }

  /** Split unfolded at a final character that is not the separator. */
  lemma SplitSnocOther(s: string, c: char, sep: char)
    requires c != sep
    ensures var init := Split(s, sep);
      Split(s + [c], sep) == init[..|init| - 1] + [init[|init| - 1] + [c]]
  {
    assert (s + [c])[..|s|] == s;
  }

  /** Splitting distributes over a separator placed between two strings. */
  lemma {:induction false} SplitAround(a: string, b: string, sep: char)
    ensures Split(a + [sep] + b, sep) == Split(a, sep) + Split(b, sep)
    decreases |b|
  {
    if b == [] {
      assert a + [sep] + b == a + [sep];
      SplitSnocSeparator(a, sep);
    } else {
      var b', c := b[..|b| - 1], b[|b| - 1];
      assert b == b' + [c];
      assert a + [sep] + b == (a + [sep] + b') + [c];
      SplitAround(a, b', sep);
      if c == sep {
        SplitSnocSeparator(a + [sep] + b', sep);
        SplitSnocSeparator(b', sep);
      } else {
        SplitSnocOther(a + [sep] + b', c, sep);
        SplitSnocOther(b', c, sep);
        LastPartExtended(Split(a, sep), Split(b', sep), c);
      }
    }
  }

  /** Extending the last part of a concatenation of non-empty part lists
      extends the last part of the second list. */
  lemma LastPartExtended(front: seq<string>, tail: seq<string>, c: char)
    requires |tail| > 0
    ensures var init := front + tail;
      init[..|init| - 1] + [init[|init| - 1] + [c]]
        == front + (tail[..|tail| - 1] + [tail[|tail| - 1] + [c]])
  {
    var init := front + tail;
    assert init[..|init| - 1] == front + tail[..|tail| - 1];
  }

  /** Reading back joined parts: splitting a join gives the parts of the first
      element followed by the remaining elements, when those hold no separator. */
  lemma {:induction false} SplitJoin(parts: seq<string>, sep: char)
    requires |parts| > 0
    requires forall i :: 1 <= i < |parts| ==> sep !in parts[i]
    ensures Split(Join(parts, sep), sep) == Split(parts[0], sep) + parts[1..]
    decreases |parts|
  {
    if |parts| > 1 {
      var init, last := parts[..|parts| - 1], parts[|parts| - 1];
      assert init[0] == parts[0];
      assert Join(parts, sep) == Join(init, sep) + [sep] + last;
      SplitJoin(init, sep);
      SplitAround(Join(init, sep), last, sep);
      SplitNoSeparator(last, sep);
      assert Split(Join(parts, sep), sep) == Split(parts[0], sep) + init[1..] + [last];
      assert init[1..] + [last] == parts[1..];
    }
  }

  /** The lines of `lines`, each followed by a newline. */
  function Terminated(lines: seq<string>): string
    decreases |lines|
  {
    if lines == [] then "" else lines[0] + "\n" + Terminated(lines[1..])
  }

  /** Reading newline-terminated text back: its lines, then the empty rest. */
  lemma {:induction false} SplitTerminated(lines: seq<string>)
    requires forall i :: 0 <= i < |lines| ==> '\n' !in lines[i]
    ensures Split(Terminated(lines), '\n') == lines + [""]
    decreases |lines|
  {
    if lines != [] {
      SplitTerminated(lines[1..]);
      SplitAround(lines[0], Terminated(lines[1..]), '\n');
      SplitNoSeparator(lines[0], '\n');
      assert lines[0] + "\n" + Terminated(lines[1..]) == lines[0] + ['\n'] + Terminated(lines[1..]);
      assert [lines[0]] + lines[1..] + [""] == lines + [""];
    }
  }
}
