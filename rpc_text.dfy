/** The hover-text formatter of the presence session: labelled lines are padded
    towards a per-line budget and concatenated, with a fallback for the host's
    128-character limit. */
module RpcText {
  import opened Python
  import opened Project

  /** The keys the session puts in a `lines` mapping. */
  datatype Key = ThemeKey | ArtistScrobblesKey | FirstTimeKey | NameKey | ScrobblesKey | ArtistsKey | LovedTracksKey

  /** One entry of the ordered `lines` mapping: its key and its rendered text. */
  datatype Line = Line(key: Key, value: string)

  /** The keys padded by the large-image rule (`theme`, `artist_scrobbles`,
      `first_time`); every other key is a small-image line. */
  predicate IsLargeKey(key: Key)
  {
    key == ThemeKey || key == ArtistScrobblesKey || key == FirstTimeKey
  }

  /** Above this length the concatenation loses its pad characters. */
  const HostTextLimit: nat := 128
  /** Small-image lines longer than this are never padded. */
  const LongLine: nat := 20

  /** How many pad strings follow `line`; a count of zero or less means none. */
  function PadCount(line: string, limit: int): int
  {
    limit - |line| - CountUpper(line)
  }

  /** What one entry contributes to the text, in a mapping of `count` entries. */
  function Piece(l: Line, count: nat, limit: int, xchar: string): string
  {
    var line := l.value + " ";
    if IsLargeKey(l.key) then
      if count == 1 then line else line + Repeat(xchar, PadCount(line, limit)) + " "
    else
      line + (if |line| > LongLine then "" else Repeat(xchar, PadCount(line, limit))) + " "
  }

  /** The pieces of `ls`, in order, for a mapping of `count` entries. */
  function Joined(ls: seq<Line>, count: nat, limit: int, xchar: string): string
    decreases |ls|
  {
    if |ls| == 0 then ""
    else Joined(ls[..|ls| - 1], count, limit, xchar) + Piece(ls[|ls| - 1], count, limit, xchar)
  }

  /** Building one more entry appends its piece. */
  lemma JoinedStep(ls: seq<Line>, i: nat, count: nat, limit: int, xchar: string)
    requires i < |ls|
    ensures Joined(ls[..i + 1], count, limit, xchar) ==
            Joined(ls[..i], count, limit, xchar) + Piece(ls[i], count, limit, xchar)
  {
    assert ls[..i + 1][..i] == ls[..i];
  }

  /** The hover text for `lines`. */
  function ImageText(lines: seq<Line>, limit: int, xchar: string): string
  {
    var joined := Joined(lines, |lines|, limit, xchar);
    Strip(if |joined| > HostTextLimit then RemoveAll(joined, xchar) else joined)
  }

  /** Every piece opens with the entry's text and one space; padding, if any, comes after. */
  lemma PieceStartsWithLine(l: Line, count: nat, limit: int, xchar: string)
    ensures l.value + " " <= Piece(l, count, limit, xchar)
  {
  }

  /** The text built so far is a prefix of the text built from all entries. */
  lemma {:induction false} JoinedPrefix(ls: seq<Line>, k: nat, count: nat, limit: int, xchar: string)
    requires k <= |ls|
    ensures Joined(ls[..k], count, limit, xchar) <= Joined(ls, count, limit, xchar)
    decreases |ls|
  {
    if k < |ls| {
      var init := ls[..|ls| - 1];
      assert init[..k] == ls[..k];
      JoinedPrefix(init, k, count, limit, xchar);
    } else {
      assert ls[..k] == ls;
    }
  }

  /** `w` appears in `text` starting at offset `at`. */
  predicate Occurs(text: string, at: nat, w: string)
  {
    at + |w| <= |text| && text[at..at + |w|] == w
  }

  /** The pieces of the entries before `k`, then entry `k`'s piece, open the whole text. */
  lemma JoinedSplit(ls: seq<Line>, k: nat, limit: int, xchar: string)
    requires k < |ls|
    ensures Joined(ls[..k], |ls|, limit, xchar) + Piece(ls[k], |ls|, limit, xchar) <=
            Joined(ls, |ls|, limit, xchar)
  {
    JoinedPrefix(ls, k + 1, |ls|, limit, xchar);
    JoinedStep(ls, k, |ls|, limit, xchar);
  }

  /** Entry `k` appears, as its text followed by a space, right after the pieces of the
      entries before it: entries keep their order and none is dropped. */
  lemma {:induction false} LineInPlace(ls: seq<Line>, k: nat, limit: int, xchar: string)
    requires k < |ls|
    ensures Occurs(Joined(ls, |ls|, limit, xchar), |Joined(ls[..k], |ls|, limit, xchar)|, ls[k].value + " ")
  {
    JoinedSplit(ls, k, limit, xchar);
    PieceStartsWithLine(ls[k], |ls|, limit, xchar);
    PrefixSlice(Joined(ls[..k], |ls|, limit, xchar), Piece(ls[k], |ls|, limit, xchar),
                ls[k].value + " ", Joined(ls, |ls|, limit, xchar));
  }

  /** A piece that opens with `line` and follows `before` at the start of `text`
      puts `line` right after `before`. */
  lemma PrefixSlice(before: string, piece: string, line: string, text: string)
    requires before + piece <= text && line <= piece
    ensures Occurs(text, |before|, line)
  {
    assert before + line <= text;
  }

  /** A padded line is followed by exactly `limit - len(line) - uppercase` pad strings,
      or by none when that count is not positive; the only lines left unpadded are a
      lone large-image line and small-image lines longer than 20 characters. */
  lemma PadWidth(l: Line, count: nat, limit: int, xchar: string)
    ensures var line := l.value + " ";
            var pads := if PadCount(line, limit) > 0 then PadCount(line, limit) else 0;
            var exempt := if IsLargeKey(l.key) then count == 1 else |line| > LongLine;
            |Piece(l, count, limit, xchar)| ==
              if exempt then |line| + (if IsLargeKey(l.key) then 0 else 1)
              else |line| + pads * |xchar| + 1
  {
    RepeatLength(xchar, PadCount(l.value + " ", limit));
  }

  /** A padded line is followed by `limit - len(line) - uppercase` copies of the pad
      string and a space. Only with a one-character pad does that fill the budget: the
      line then takes `limit - uppercase + 1` characters whatever its length. */
  lemma PaddedLineFillsBudget(l: Line, count: nat, limit: int, xchar: string)
    requires !(IsLargeKey(l.key) && count == 1)
    requires !IsLargeKey(l.key) ==> |l.value| + 1 <= LongLine
    requires PadCount(l.value + " ", limit) >= 0
    ensures |Piece(l, count, limit, xchar)| ==
            |l.value| + 2 + PadCount(l.value + " ", limit) * |xchar|
    ensures |xchar| == 1 ==> |Piece(l, count, limit, xchar)| == limit - CountUpper(l.value + " ") + 1
  {
    PadWidth(l, count, limit, xchar);
  }

  /** With the session's three-character pad string the budget is not met: a padded line
      takes `3 * limit - 2 * len(line) - 3 * uppercase + 1` characters, so padded lines
      of different lengths differ in width. */
  lemma SessionPadWidthVaries(l: Line, count: nat, limit: int)
    requires !(IsLargeKey(l.key) && count == 1)
    requires !IsLargeKey(l.key) ==> |l.value| + 1 <= LongLine
    requires PadCount(l.value + " ", limit) >= 0
    ensures |Piece(l, count, limit, RpcXChar)| ==
            3 * limit - 2 * |l.value + " "| - 3 * CountUpper(l.value + " ") + 1
  {
    PaddedLineFillsBudget(l, count, limit, RpcXChar);
  }

  /** Two short lines, one and three letters long, padded with the session's pad string:
      75 and 71 characters. */
  lemma SessionPadExample()
    ensures |Piece(Line(NameKey, "a"), 2, RpcLineLimit, RpcXChar)| == 75
    ensures |Piece(Line(NameKey, "abc"), 2, RpcLineLimit, RpcXChar)| == 71
  {
    assert "a "[..1] == "a" && "a"[..0] == "";
    assert "abc "[..3] == "abc" && "abc"[..2] == "ab" && "ab"[..1] == "a";
    assert CountUpper("a ") == 0 && CountUpper("abc ") == 0;
    SessionPadWidthVaries(Line(NameKey, "a"), 2, RpcLineLimit);
    SessionPadWidthVaries(Line(NameKey, "abc"), 2, RpcLineLimit);
  }

  /** A lone large-image line is not padded: the text is the line itself. */
  lemma SoleLargeLineUnpadded(l: Line, limit: int, xchar: string)
    requires IsLargeKey(l.key)
    requires |l.value| < HostTextLimit
    ensures ImageText([l], limit, xchar) == Strip(l.value + " ")
  {
    assert [l][..0] == [];
    assert Joined([l], 1, limit, xchar) == Joined([], 1, limit, xchar) + Piece(l, 1, limit, xchar);
    assert Joined([l], 1, limit, xchar) == l.value + " ";
  }

  /** A lone short small-image line is still padded, unlike a lone large-image line. */
  lemma SoleSmallLinePadded(l: Line, limit: int, xchar: string)
    requires !IsLargeKey(l.key)
    requires |l.value| + 1 <= LongLine
    ensures Joined([l], 1, limit, xchar) ==
            l.value + " " + Repeat(xchar, PadCount(l.value + " ", limit)) + " "
  {
    assert [l][..0] == [];
  }

  /** In a mapping of several entries a large-image line is padded whatever its length,
      while a small-image line of the same text is not. */
  lemma LongLineRuleIsSmallOnly(value: string, count: nat, limit: int, xchar: string)
    requires count != 1
    requires |value| + 1 > LongLine
    ensures Piece(Line(ThemeKey, value), count, limit, xchar) ==
            value + " " + Repeat(xchar, PadCount(value + " ", limit)) + " "
    ensures Piece(Line(NameKey, value), count, limit, xchar) == value + "  "
  {
  }

  /** Removing an absent pattern changes nothing. */
  lemma {:induction false} RemoveAllAbsent(s: string, pat: string)
    requires |pat| > 0 && pat[0] !in s
    ensures RemoveAll(s, pat) == s
    decreases |s|
  {
    if |s| >= |pat| {
      assert s[..|pat|][0] == s[0];
      assert s[..|pat|] != pat;
      RemoveAllAbsent(s[1..], pat);
      assert s == [s[0]] + s[1..];
    }
  }

  /** The fallback gives no length bound: one long small-image line without pad
      characters comes out longer than 128 characters. */
  lemma FallbackGivesNoBound(l: Line, limit: int, xchar: string)
    requires !IsLargeKey(l.key)
    requires |l.value| > HostTextLimit
    requires |xchar| > 0 && xchar[0] !in l.value && xchar[0] != ' '
    requires !IsSpace(l.value[0]) && !IsSpace(l.value[|l.value| - 1])
    ensures ImageText([l], limit, xchar) == l.value
    ensures |ImageText([l], limit, xchar)| > HostTextLimit
  {
    assert [l][..0] == [];
    var joined := l.value + "  ";
    assert Joined([l], 1, limit, xchar) == joined;
    assert xchar[0] !in joined;
    RemoveAllAbsent(joined, xchar);
    var once := l.value + " ";
    assert joined[..|joined| - 1] == once;
    assert once[..|once| - 1] == l.value;
    assert StripRight(l.value) == l.value;
    assert StripRight(once) == l.value;
    assert StripRight(joined) == l.value;
    assert joined[0] == l.value[0];
    assert StripLeft(joined) == joined;
  }

  /** A copy of the pattern at the front is deleted and the scan goes on after it. */
  lemma RemoveLeadingCopy(pat: string, s: string)
    requires |pat| > 0
    ensures RemoveAll(pat + s, pat) == RemoveAll(s, pat)
  {
    assert (pat + s)[..|pat|] == pat;
    assert (pat + s)[|pat|..] == s;
  }

  /** Text in which the pattern's first character never occurs is kept as it is, and the
      scan resumes right after it. */
  lemma {:induction false} RemoveAfterAbsent(a: string, s: string, pat: string)
    requires |pat| > 0 && pat[0] !in a
    ensures RemoveAll(a + s, pat) == a + RemoveAll(s, pat)
    decreases |a|
  {
    if a != [] {
      if |a + s| < |pat| {
        assert a + s == a + s;
      } else {
        assert (a + s)[..|pat|][0] == a[0];
        assert (a + s)[1..] == a[1..] + s;
        RemoveAfterAbsent(a[1..], s, pat);
        assert a == [a[0]] + a[1..];
      }
    } else {
      assert a + s == s;
    }
  }

  /** A run of whole copies of the pattern at the front is deleted. */
  lemma {:induction false} RemoveLeadingRun(pat: string, n: int, s: string)
    requires |pat| > 0
    ensures RemoveAll(Repeat(pat, n) + s, pat) == RemoveAll(s, pat)
    decreases if n > 0 then n else 0
  {
    if n > 0 {
      assert Repeat(pat, n) + s == pat + (Repeat(pat, n - 1) + s);
      RemoveLeadingCopy(pat, Repeat(pat, n - 1) + s);
      RemoveLeadingRun(pat, n - 1, s);
    } else {
      assert Repeat(pat, n) + s == s;
    }
  }

  /** The entries' texts with their separators and nothing else. */
  function Bare(ls: seq<Line>, count: nat): string
    decreases |ls|
  {
    if |ls| == 0 then ""
    else
      var l := ls[|ls| - 1];
      Bare(ls[..|ls| - 1], count) + l.value + (if IsLargeKey(l.key) && count == 1 then " " else "  ")
  }

  /** Text free of the pattern's first character, a run of pads and a space: the
      deletion keeps the text and the space and resumes after them. */
  lemma RemovePadRun(line: string, k: int, xchar: string, s: string)
    requires |xchar| > 0 && xchar[0] != ' ' && xchar[0] !in line
    ensures RemoveAll(line + Repeat(xchar, k) + " " + s, xchar) == line + " " + RemoveAll(s, xchar)
  {
    assert line + Repeat(xchar, k) + " " + s == line + (Repeat(xchar, k) + (" " + s));
    RemoveAfterAbsent(line, Repeat(xchar, k) + (" " + s), xchar);
    RemoveLeadingRun(xchar, k, " " + s);
    RemoveAfterAbsent(" ", s, xchar);
  }

  /** Deleting the pad string from one piece, and from whatever follows it, leaves the
      entry's text and its spaces followed by the deletion from the rest. */
  lemma RemovePadFromPiece(l: Line, count: nat, limit: int, xchar: string, s: string)
    requires |xchar| > 0 && xchar[0] != ' ' && xchar[0] !in l.value
    ensures RemoveAll(Piece(l, count, limit, xchar) + s, xchar) ==
            l.value + (if IsLargeKey(l.key) && count == 1 then " " else "  ") + RemoveAll(s, xchar)
  {
    var line := l.value + " ";
    assert xchar[0] !in line;
    if IsLargeKey(l.key) && count == 1 {
      RemoveAfterAbsent(line, s, xchar);
    } else {
      var k := if !IsLargeKey(l.key) && |line| > LongLine then 0 else PadCount(line, limit);
      assert Piece(l, count, limit, xchar) == line + Repeat(xchar, k) + " ";
      RemovePadRun(line, k, xchar, s);
    }
  }

  /** No entry's text contains `c`, stated entry by entry from the last one, the way
      `Joined` is built. */
  predicate FreeOf(ls: seq<Line>, c: char)
    decreases |ls|
  {
    |ls| == 0 || (FreeOf(ls[..|ls| - 1], c) && c !in ls[|ls| - 1].value)
  }

  lemma {:induction false} FreeOfEvery(ls: seq<Line>, c: char)
    requires forall i :: 0 <= i < |ls| ==> c !in ls[i].value
    ensures FreeOf(ls, c)
    decreases |ls|
  {
    if |ls| != 0 {
      var init := ls[..|ls| - 1];
      assert forall i :: 0 <= i < |init| ==> init[i] == ls[i];
      FreeOfEvery(init, c);
    }
  }

  /** The fallback's deletion scanned over the pieces and whatever follows them. */
  lemma {:induction false} RemovePadFromJoined(ls: seq<Line>, count: nat, limit: int, xchar: string, s: string)
    requires |xchar| > 0 && xchar[0] != ' ' && FreeOf(ls, xchar[0])
    ensures RemoveAll(Joined(ls, count, limit, xchar) + s, xchar) == Bare(ls, count) + RemoveAll(s, xchar)
    decreases |ls|
  {
    if |ls| == 0 {
      assert Joined(ls, count, limit, xchar) + s == s;
    } else {
      var init, l := ls[..|ls| - 1], ls[|ls| - 1];
      var front, piece := Joined(init, count, limit, xchar), Piece(l, count, limit, xchar);
      var gap := if IsLargeKey(l.key) && count == 1 then " " else "  ";
      var tail := RemoveAll(s, xchar);
      assert FreeOf(init, xchar[0]) && xchar[0] !in l.value;
      assert Joined(ls, count, limit, xchar) + s == front + (piece + s);
      RemovePadFromJoined(init, count, limit, xchar, piece + s);
      RemovePadFromPiece(l, count, limit, xchar, s);
      assert Bare(ls, count) == Bare(init, count) + l.value + gap;
      Regroup(Bare(init, count), l.value, gap, tail);
    }
  }

  lemma Regroup(a: string, b: string, c: string, d: string)
    ensures a + (b + c + d) == a + b + c + d
  {
  }

  /** When no entry contains the pad string's first character (and that character is not
      a space), the 128-character fallback undoes exactly the padding: what is left is
      every entry's text with its spaces. Pad runs are whole copies of the pad string,
      so a pad string of any length is removed completely. */
  lemma FallbackUndoesPadding(ls: seq<Line>, count: nat, limit: int, xchar: string)
    requires |xchar| > 0 && xchar[0] != ' '
    requires forall i :: 0 <= i < |ls| ==> xchar[0] !in ls[i].value
    ensures RemoveAll(Joined(ls, count, limit, xchar), xchar) == Bare(ls, count)
  {
    FreeOfEvery(ls, xchar[0]);
    RemovePadFromJoined(ls, count, limit, xchar, "");
    assert Joined(ls, count, limit, xchar) + "" == Joined(ls, count, limit, xchar);
    assert Bare(ls, count) + "" == Bare(ls, count);
  }

  /** The same for the pad string the session passes: when the padded text is over 128
      characters, the hover text is the entries' texts with their spaces, stripped. */
  lemma FallbackWithSessionPad(ls: seq<Line>, limit: int)
    requires forall i :: 0 <= i < |ls| ==> RpcXChar[0] !in ls[i].value
    requires |Joined(ls, |ls|, limit, RpcXChar)| > HostTextLimit
    ensures ImageText(ls, limit, RpcXChar) == Strip(Bare(ls, |ls|))
  {
    FallbackUndoesPadding(ls, |ls|, limit, RpcXChar);
  }
}
