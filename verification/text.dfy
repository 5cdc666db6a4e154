/** String operations the container sampler relies on: Python's
    `str.split(sep)`, the `if x` filter that drops empty segments, and
    `str.replace(c, '')`, which deletes every occurrence of `c`. */
module Text {

  /** Number of occurrences of `c` in `s`. */
  function Count(s: string, c: char): nat
  {
    if |s| == 0 then 0 else (if s[0] == c then 1 else 0) + Count(s[1..], c)
  }

  /** Python's `s.split(sep)` for a one-character separator: the maximal
      separator-free pieces between separators, always at least one
      (`"".split(sep) == [""]`). */
  function Split(s: string, sep: char): (r: seq<string>)
    ensures |r| == Count(s, sep) + 1
    ensures forall i :: 0 <= i < |r| ==> sep !in r[i]
  {
    if |s| == 0 then [""]
    else
      var rest := Split(s[1..], sep);
      if s[0] == sep then [""] + rest
      else [[s[0]] + rest[0]] + rest[1..]
  }

  /** Python's `sep.join(parts)`, the inverse of `Split`. */
  function Join(parts: seq<string>, sep: char): string
    requires |parts| > 0
  {
    if |parts| == 1 then parts[0] else parts[0] + [sep] + Join(parts[1..], sep)
  }

  /** `[x for x in parts if x]`: keeps the non-empty strings, in order.
      Every non-empty piece is kept as often as it occurs and the empty one
      never; `NonEmptyAppend` fixes the order. */
  function NonEmpty(parts: seq<string>): (r: seq<string>)
    ensures |r| <= |parts|
    ensures forall i :: 0 <= i < |r| ==> r[i] != "" && r[i] in parts
    ensures forall x :: multiset(r)[x] == if x == "" then 0 else multiset(parts)[x]
  {
    if |parts| == 0 then []
    else
      assert parts == [parts[0]] + parts[1..];
      if parts[0] == "" then NonEmpty(parts[1..])
    else [parts[0]] + NonEmpty(parts[1..])
  }

  /** The non-empty lines of `s`: `[x for x in s.split('\n') if x]`. */
  function Lines(s: string): (r: seq<string>)
    ensures forall i :: 0 <= i < |r| ==> r[i] != "" && '\n' !in r[i]
  {
    NonEmpty(Split(s, '\n'))
  }

  /** Python's `s.replace(c, '')`: every occurrence of `c` is deleted and
      every other character is kept in its original order. */
  function RemoveAll(s: string, c: char): (r: string)
    ensures c !in r
    ensures |r| + Count(s, c) == |s|
    ensures c !in s ==> r == s
  {
    if |s| == 0 then ""
    else if s[0] == c then RemoveAll(s[1..], c)
    else [s[0]] + RemoveAll(s[1..], c)
  }

  /** Splitting and re-joining with the same separator gives the input back. */
  lemma {:induction false} JoinSplit(s: string, sep: char)
    ensures Join(Split(s, sep), sep) == s
  {
    if |s| == 0 {
    } else {
      var rest := Split(s[1..], sep);
      JoinSplit(s[1..], sep);
      if s[0] == sep {
        assert Split(s, sep) == [""] + rest;
        assert ([""] + rest)[1..] == rest;
        assert s == [sep] + s[1..];
      } else {
        var parts := [[s[0]] + rest[0]] + rest[1..];
        assert Split(s, sep) == parts;
        if |rest| == 1 {
          assert Join(rest, sep) == rest[0];
          assert s == [s[0]] + s[1..];
        } else {
          assert parts[1..] == rest[1..];
          assert Join(rest, sep) == rest[0] + [sep] + Join(rest[1..], sep);
          assert s == [s[0]] + s[1..];
        }
      }
    }
  }

  /** Splitting a separator-free prefix glued onto `t`: the prefix joins the
      first piece of `t`. */
  lemma {:induction false} SplitPrefix(a: string, t: string, sep: char)
    requires sep !in a
    ensures Split(a + t, sep) == [a + Split(t, sep)[0]] + Split(t, sep)[1..]
  {
    if |a| == 0 {
      assert a + t == t;
      assert a + Split(t, sep)[0] == Split(t, sep)[0];
      assert Split(t, sep) == [Split(t, sep)[0]] + Split(t, sep)[1..];
    } else {
      assert (a + t)[1..] == a[1..] + t;
      assert sep !in a[1..] by {
        forall i | 0 <= i < |a[1..]| ensures a[1..][i] != sep {
          assert a[1..][i] == a[i + 1];
        }
      }
      SplitPrefix(a[1..], t, sep);
      assert (a + t)[0] == a[0];
      assert [a[0]] + (a[1..] + Split(t, sep)[0]) == a + Split(t, sep)[0];
    }
  }

  /** Joining separator-free pieces and splitting again gives the pieces
      back: `Split` and `Join` are inverse in both directions. */
  lemma {:induction false} SplitJoin(parts: seq<string>, sep: char)
    requires |parts| > 0
    requires forall i :: 0 <= i < |parts| ==> sep !in parts[i]
    ensures Split(Join(parts, sep), sep) == parts
  {
    if |parts| == 1 {
      SplitPrefix(parts[0], "", sep);
      assert parts[0] + "" == parts[0];
    } else {
      var tail := Join(parts[1..], sep);
      SplitJoin(parts[1..], sep);
      assert parts[0] + [sep] + tail == parts[0] + ([sep] + tail);
      SplitPrefix(parts[0], [sep] + tail, sep);
      assert ([sep] + tail)[1..] == tail;
      assert Split([sep] + tail, sep) == [""] + parts[1..];
      assert parts[0] + "" == parts[0];
    }
  }

  /** A trailing separator adds exactly one empty piece. */
  lemma {:induction false} SplitTrailing(s: string, sep: char)
    ensures Split(s + [sep], sep) == Split(s, sep) + [""]
  {
    if |s| == 0 {
      assert s + [sep] == [sep];
      assert Split([sep][1..], sep) == [""];
    } else {
      assert (s + [sep])[1..] == s[1..] + [sep];
      SplitTrailing(s[1..], sep);
      var rest := Split(s[1..], sep);
      if s[0] != sep {
        assert (rest + [""])[0] == rest[0];
        assert (rest + [""])[1..] == rest[1..] + [""];
      }
    }
  }

  lemma {:induction false} NonEmptyAppend(a: seq<string>, b: seq<string>)
    ensures NonEmpty(a + b) == NonEmpty(a) + NonEmpty(b)
  {
    if |a| == 0 {
      assert a + b == b;
    } else {
      assert (a + b)[1..] == a[1..] + b;
      NonEmptyAppend(a[1..], b);
    }
  }

  /** The runtime's output ends with a newline; dropping or adding it does
      not change the lines. */
  lemma LinesTrailingNewline(s: string)
    ensures Lines(s + "\n") == Lines(s)
  {
    SplitTrailing(s, '\n');
    NonEmptyAppend(Split(s, '\n'), [""]);
    assert NonEmpty([""]) == [];
    assert Lines(s) + [] == Lines(s);
  }

  lemma {:induction false} NonEmptyKeeps(parts: seq<string>)
    requires forall i :: 0 <= i < |parts| ==> parts[i] != ""
    ensures NonEmpty(parts) == parts
  {
    if |parts| > 0 {
      NonEmptyKeeps(parts[1..]);
      assert parts == [parts[0]] + parts[1..];
    }
  }

  /** Lines joined by newlines (one line per container) are read back
      exactly: one line per piece, in order. */
  lemma LinesJoin(parts: seq<string>)
    requires |parts| > 0
    requires forall i :: 0 <= i < |parts| ==> parts[i] != "" && '\n' !in parts[i]
    ensures Lines(Join(parts, '\n')) == parts
  {
    SplitJoin(parts, '\n');
    NonEmptyKeeps(parts);
  }

  /** Output with no characters, or only newlines, has no lines at all. */
  lemma {:induction false} LinesOfNewlines(s: string)
    requires forall i :: 0 <= i < |s| ==> s[i] == '\n'
    ensures Lines(s) == []
  {
    if |s| > 0 {
      var t := s[..|s| - 1];
      assert s == t + "\n";
      LinesOfNewlines(t);
      LinesTrailingNewline(t);
    }
  }

  /** Removing `c` twice is the same as removing it once (immediate from
      the contract of `RemoveAll`). */
  lemma RemoveAllIdempotent(s: string, c: char)
    ensures RemoveAll(RemoveAll(s, c), c) == RemoveAll(s, c)
  {
  }

  /** Removal works piecewise, so it is not limited to a leading `c`. */
  lemma {:induction false} RemoveAllAppend(a: string, b: string, c: char)
    ensures RemoveAll(a + b, c) == RemoveAll(a, c) + RemoveAll(b, c)
  {
    if |a| == 0 {
      assert a + b == b;
    } else {
      assert (a + b)[1..] == a[1..] + b;
      RemoveAllAppend(a[1..], b, c);
    }
  }

  /** Every '/' goes, not only a leading one. */
  lemma RemoveAllExamples()
    ensures RemoveAll("/web", '/') == "web"
    ensures RemoveAll("/a/b/", '/') == "ab"
  {
  }
}
