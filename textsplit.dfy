/**
 * The string operations the label layout relies on: `String.Split` on one separator
 * character (no options, so empty pieces are kept), `String.Join`, and a string's
 * characters as one-character strings.
 */
module TextSplit {

  /** `s.Split(c)`: the pieces between occurrences of `c`, empty pieces included. */
  function Split(s: string, c: char): (parts: seq<string>)
    ensures |parts| >= 1
    ensures forall i :: 0 <= i < |parts| ==> c !in parts[i]
    decreases |s|
  {
    if s == [] then [""]
    else
      var rest := Split(s[1..], c);
      if s[0] == c then [""] + rest
      else
        assert forall i :: 1 <= i < |rest| ==> ([[s[0]] + rest[0]] + rest[1..])[i] == rest[i];
        [[s[0]] + rest[0]] + rest[1..]
  }

  /** `String.Join(sep, ws)`. */
  function Joined(ws: seq<string>, sep: string): string
    decreases |ws|
  {
    if ws == [] then ""
    else if |ws| == 1 then ws[0]
    else ws[0] + sep + Joined(ws[1..], sep)
  }

  /** Splitting and joining again with the separator gives back the string. */
  lemma {:induction false} SplitJoinedRoundTrip(s: string, c: char)
    ensures Joined(Split(s, c), [c]) == s
    decreases |s|
  {
    if s != [] {
      var rest := Split(s[1..], c);
      SplitJoinedRoundTrip(s[1..], c);
      if s[0] == c {
        assert Split(s, c) == [""] + rest;
        JoinedBehindEmpty(rest, [c]);
      } else {
        assert Split(s, c) == [[s[0]] + rest[0]] + rest[1..];
        JoinedPrefixedHead(s[0], rest, [c]);
      }
      assert s == [s[0]] + s[1..];
    }
  }

  /** An empty first piece contributes only the separator in front of the rest. */
  lemma JoinedBehindEmpty(rest: seq<string>, sep: string)
    requires rest != []
    ensures Joined([""] + rest, sep) == sep + Joined(rest, sep)
  {
    assert ([""] + rest)[1..] == rest;
  }

  /** A character put in front of the first piece comes first in the joined string. */
  lemma JoinedPrefixedHead(x: char, rest: seq<string>, sep: string)
    requires rest != []
    ensures Joined([[x] + rest[0]] + rest[1..], sep) == [x] + Joined(rest, sep)
  {
    var parts := [[x] + rest[0]] + rest[1..];
    if |rest| > 1 {
      assert parts[1..] == rest[1..];
      assert [x] + rest[0] + sep + Joined(rest[1..], sep) == [x] + (rest[0] + sep + Joined(rest[1..], sep));
    }
  }

  /** Splitting a string without the separator gives the string itself. */
  lemma {:induction false} SplitWithoutSeparator(s: string, c: char)
    requires c !in s
    ensures Split(s, c) == [s]
    decreases |s|
  {
    if s != [] {
      assert c !in s[1..] by {
        assert forall i :: 0 <= i < |s[1..]| ==> s[1..][i] == s[i + 1];
      }
      SplitWithoutSeparator(s[1..], c);
      assert s == [s[0]] + s[1..];
    }
  }

  /** `s.ToCharArray().Select(x => x.ToString())`. */
  function Chars(s: string): (cs: seq<string>)
    ensures |cs| == |s|
    ensures forall i :: 0 <= i < |s| ==> cs[i] == [s[i]]
  {
    seq(|s|, i requires 0 <= i < |s| => [s[i]])
  }

  /** Each piece followed by the separator, all concatenated. */
  function Spelled(ws: seq<string>, sep: string): string
    decreases |ws|
  {
    if ws == [] then "" else Spelled(ws[..|ws| - 1], sep) + ws[|ws| - 1] + sep
  }

  lemma {:induction false} SpelledAppend(a: seq<string>, b: seq<string>, sep: string)
    ensures Spelled(a + b, sep) == Spelled(a, sep) + Spelled(b, sep)
    decreases |b|
  {
    if b != [] {
      var init := b[..|b| - 1];
      assert (a + b)[..|a + b| - 1] == a + init;
      assert (a + b)[|a + b| - 1] == b[|b| - 1];
      SpelledAppend(a, init, sep);
    } else {
      assert a + b == a;
    }
  }

  lemma SpelledCons(w: string, ws: seq<string>, sep: string)
    ensures Spelled([w] + ws, sep) == w + sep + Spelled(ws, sep)
  {
    SpelledAppend([w], ws, sep);
    assert Spelled([w], sep) == Spelled([], sep) + w + sep;
  }

  /** The characters, each followed by nothing, spell the string. */
  lemma {:induction false} SpelledChars(s: string)
    ensures Spelled(Chars(s), "") == s
    decreases |s|
  {
    if s != [] {
      var init := s[..|s| - 1];
      assert Chars(s)[..|s| - 1] == Chars(init);
      SpelledChars(init);
      assert s == init + [s[|s| - 1]];
    }
  }

  /** Each word followed by the separator spells the joined words followed by the separator. */
  lemma {:induction false} SpelledIsJoinedPlusSeparator(ws: seq<string>, sep: string)
    requires ws != []
    ensures Spelled(ws, sep) == Joined(ws, sep) + sep
    decreases |ws|
  {
    if |ws| > 1 {
      SpelledIsJoinedPlusSeparator(ws[1..], sep);
      assert ws == [ws[0]] + ws[1..];
      SpelledCons(ws[0], ws[1..], sep);
    } else {
      assert ws == [ws[0]];
      SpelledCons(ws[0], [], sep);
    }
  }

  /** A segment's space-separated words, each followed by a space, spell the segment and a space. */
  lemma SpelledWords(s: string)
    ensures Spelled(Split(s, ' '), " ") == s + " "
  {
    SplitJoinedRoundTrip(s, ' ');
    SpelledIsJoinedPlusSeparator(Split(s, ' '), " ");
  }
}
