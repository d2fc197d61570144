/** Conversation tags of apps/portal/src/lib/chat-storage.ts:
    `generateTag` turns the first message into a kebab-case title part and
    appends the month and day, and the two Redis key formats. The date is a
    parameter: `month` is the 0-based month and `day` the day of the month. */
module ChatTag {
  import opened Strings

  /** The characters the title part keeps: `[a-z0-9]`. */
  predicate IsSlugChar(c: char) {
    'a' <= c <= 'z' || '0' <= c <= '9'
  }

  predicate SlugOrDash(s: string) {
    forall i | 0 <= i < |s| :: IsSlugChar(s[i]) || s[i] == '-'
  }

  predicate NoDoubleDash(s: string) {
    forall i | 0 <= i < |s| - 1 :: !(s[i] == '-' && s[i + 1] == '-')
  }

  /** The `[a-z0-9]` characters of `s`, in order. */
  function SlugChars(s: string): (r: string)
    ensures forall i | 0 <= i < |r| :: IsSlugChar(r[i])
  {
    if |s| == 0 then "" else (if IsSlugChar(s[0]) then [s[0]] else "") + SlugChars(s[1..])
  }

  /** How many dashes `s` holds. */
  function DashCount(s: string): nat {
    if |s| == 0 then 0 else (if s[0] == '-' then 1 else 0) + DashCount(s[1..])
  }

  /** How many maximal runs of characters outside `[a-z0-9]` `s` holds:
      the positions holding such a character that start `s` (when
      `afterSlug`) or follow a slug character. */
  function RunStarts(s: string, afterSlug: bool): nat {
    if |s| == 0 then 0
    else (if !IsSlugChar(s[0]) && afterSlug then 1 else 0) + RunStarts(s[1..], IsSlugChar(s[0]))
  }

  function RunCount(s: string): nat {
    RunStarts(s, true)
  }

  /** The counts of a string that starts with a known character. */
  lemma ConsCounts(c: char, x: string)
    ensures SlugChars([c] + x) == (if IsSlugChar(c) then [c] else "") + SlugChars(x)
    ensures DashCount([c] + x) == (if c == '-' then 1 else 0) + DashCount(x)
    ensures RunStarts([c] + x, true) == (if IsSlugChar(c) then 0 else 1) + RunStarts(x, IsSlugChar(c))
  {
    assert ([c] + x)[0] == c && ([c] + x)[1..] == x;
  }

  /** Drop the leading run of characters outside `[a-z0-9]`. */
  function SkipRun(s: string): (r: string)
    ensures |r| <= |s| && r == s[|s| - |r|..]
    ensures |r| > 0 ==> IsSlugChar(r[0])
    ensures forall i | 0 <= i < |s| - |r| :: !IsSlugChar(s[i])
  {
    if |s| > 0 && !IsSlugChar(s[0]) then
      var r := SkipRun(s[1..]);
      assert s[1..][|s| - 1 - |r|..] == s[|s| - |r|..];
      assert forall i | 0 <= i < |s| - |r| :: !IsSlugChar(s[i]) by {
        forall i | 0 <= i < |s| - |r|
          ensures !IsSlugChar(s[i])
        {
          if i > 0 {
            assert s[i] == s[1..][i - 1];
          }
        }
      }
      r
    else s
  }

  /** Skipping a run loses no slug character, and the run it skips, already
      under way, starts no new one. */
  lemma {:induction false} SkipRunCounts(s: string)
    ensures SlugChars(SkipRun(s)) == SlugChars(s)
    ensures RunStarts(SkipRun(s), true) == RunStarts(s, false)
  {
    if |s| > 0 && !IsSlugChar(s[0]) {
      SkipRunCounts(s[1..]);
    }
  }

  /** `s.replace(/[^a-z0-9]+/g, '-')`: each maximal run of other characters
      becomes one dash. The slug characters are kept in order, there is one
      dash per run, and a dash leads exactly when a run does. */
  function Collapse(s: string): (r: string)
    ensures SlugOrDash(r)
    ensures NoDoubleDash(r)
    ensures (|r| > 0 && r[0] == '-') <==> (|s| > 0 && !IsSlugChar(s[0]))
    ensures |r| == 0 <==> |s| == 0
    ensures SlugChars(r) == SlugChars(s)
    ensures DashCount(r) == RunCount(s)
    decreases |s|
  {
    if |s| == 0 then ""
    else if IsSlugChar(s[0]) then
      var rest := Collapse(s[1..]);
      ConsCounts(s[0], rest);
      ConsCounts(s[0], s[1..]);
      assert [s[0]] + s[1..] == s;
      [s[0]] + rest
    else
      var rest := Collapse(SkipRun(s[1..]));
      SkipRunCounts(s[1..]);
      ConsCounts('-', rest);
      ConsCounts(s[0], s[1..]);
      assert [s[0]] + s[1..] == s;
      "-" + rest
  }

  /** A maximal run of other characters, followed by the end or by a slug
      character, becomes exactly one dash. With CollapseSlugPrefix this
      fixes `Collapse` on every input, run by run. */
  lemma CollapseRun(run: string, rest: string)
    requires |run| > 0 && forall i | 0 <= i < |run| :: !IsSlugChar(run[i])
    requires |rest| > 0 ==> IsSlugChar(rest[0])
    ensures Collapse(run + rest) == "-" + Collapse(rest)
  {
    var s := run + rest;
    assert s[0] == run[0];
    assert s[1..] == run[1..] + rest;
    SkipRunPrefix(run[1..], rest);
    CollapseLeadingRun(s);
  }

  /** Collapsing a string that opens with a run of other characters. */
  lemma CollapseLeadingRun(s: string)
    requires |s| > 0 && !IsSlugChar(s[0])
    ensures Collapse(s) == "-" + Collapse(SkipRun(s[1..]))
  {
  }

  lemma {:induction false} SkipRunPrefix(run: string, rest: string)
    requires forall i | 0 <= i < |run| :: !IsSlugChar(run[i])
    requires |rest| > 0 ==> IsSlugChar(rest[0])
    ensures SkipRun(run + rest) == rest
  {
    if |run| > 0 {
      assert (run + rest)[0] == run[0];
      assert (run + rest)[1..] == run[1..] + rest;
      SkipRunPrefix(run[1..], rest);
    } else {
      assert run + rest == rest;
    }
  }

  function DropLeadingDashes(s: string): (r: string)
    ensures |r| <= |s| && r == s[|s| - |r|..]
    ensures |r| > 0 ==> r[0] != '-'
    ensures forall i | 0 <= i < |s| - |r| :: s[i] == '-'
  {
    if |s| > 0 && s[0] == '-' then
      var r := DropLeadingDashes(s[1..]);
      assert s[1..][|s| - 1 - |r|..] == s[|s| - |r|..];
      assert forall i | 0 <= i < |s| - |r| :: s[i] == '-' by {
        forall i | 0 <= i < |s| - |r|
          ensures s[i] == '-'
        {
          if i > 0 {
            assert s[i] == s[1..][i - 1];
          }
        }
      }
      r
    else s
  }

  function DropTrailingDashes(s: string): (r: string)
    ensures r <= s
    ensures |r| > 0 ==> r[|r| - 1] != '-'
    ensures forall i | |r| <= i < |s| :: s[i] == '-'
  {
    if |s| > 0 && s[|s| - 1] == '-' then DropTrailingDashes(s[..|s| - 1]) else s
  }

  /** `s[a..b]` is what is left of `s` once dash runs are cut from both
      ends: only dashes lie outside it. */
  ghost predicate DashEdges(s: string, a: int, b: int) {
    && 0 <= a <= b <= |s|
    && (forall i | 0 <= i < a :: s[i] == '-')
    && (forall i | b <= i < |s| :: s[i] == '-')
  }

  /** `s.replace(/^-+|-+$/g, '')`: the infix of `s` left once the dash
      runs at both ends are cut, which neither starts nor ends in a dash. */
  function TrimDashes(s: string): (r: string)
    ensures exists a, b :: DashEdges(s, a, b) && r == s[a..b]
    ensures |r| > 0 ==> r[0] != '-' && r[|r| - 1] != '-'
    ensures SlugOrDash(s) ==> SlugOrDash(r)
    ensures NoDoubleDash(s) ==> NoDoubleDash(r)
  {
    var a := DropLeadingDashes(s);
    var r := DropTrailingDashes(a);
    InfixKeepsShape(s, r, |s| - |a|);
    TrimmedEdges(s, a, r);
    r
  }

  lemma TrimmedEdges(s: string, a: string, r: string)
    requires |a| <= |s| && a == s[|s| - |a|..] && forall i | 0 <= i < |s| - |a| :: s[i] == '-'
    requires r <= a && forall i | |r| <= i < |a| :: a[i] == '-'
    ensures DashEdges(s, |s| - |a|, |s| - |a| + |r|) && r == s[|s| - |a|..|s| - |a| + |r|]
  {
    var off := |s| - |a|;
    forall i | off + |r| <= i < |s|
      ensures s[i] == '-'
    {
      assert s[i] == a[i - off];
    }
  }

  /** A slice of a kebab-case string is kebab-case. */
  lemma InfixKeepsShape(s: string, r: string, offset: nat)
    requires offset + |r| <= |s| && r == s[offset..offset + |r|]
    ensures SlugOrDash(s) ==> SlugOrDash(r)
    ensures NoDoubleDash(s) ==> NoDoubleDash(r)
  {
    assert forall i | 0 <= i < |r| :: r[i] == s[offset + i];
  }

  /** Longest message prefix looked at, and longest title part kept. */
  const MessagePrefixLength: nat := 40
  const TitlePartLength: nat := 25

  /** The title part of a tag: the first 40 characters, lower-cased, runs of
      other characters turned into single dashes, dashes trimmed at both
      ends, then cut to 25 characters. */
  function TitlePart(firstMessage: string): string {
    Take(TrimDashes(Collapse(Lower(Take(firstMessage, MessagePrefixLength)))), TitlePartLength)
  }

  /** A title part is kebab-case: only `[a-z0-9-]`, no `--`, no leading dash,
      at most 25 characters. The cut happens after trimming, so it may end in
      a dash. */
  lemma TitlePartShape(firstMessage: string)
    ensures var t := TitlePart(firstMessage);
            && SlugOrDash(t)
            && NoDoubleDash(t)
            && (|t| > 0 ==> t[0] != '-')
            && |t| <= TitlePartLength
  {
    var d := Collapse(Lower(Take(firstMessage, MessagePrefixLength)));
    var c := TrimDashes(d);
    assert SlugOrDash(c) && NoDoubleDash(c);
    TakeKeepsShape(c, TitlePartLength);
  }

  /** A prefix of a kebab-case string that does not start with a dash is
      one too. */
  lemma TakeKeepsShape(c: string, n: nat)
    requires SlugOrDash(c) && NoDoubleDash(c) && (|c| > 0 ==> c[0] != '-')
    ensures var t := Take(c, n);
            SlugOrDash(t) && NoDoubleDash(t) && (|t| > 0 ==> t[0] != '-') && |t| <= n
  {
    var t := Take(c, n);
    assert t == c[0..|t|];
    InfixKeepsShape(c, t, 0);
  }

  /** The cut can leave a trailing dash: 24 letters, a space and a letter
      give a title part that ends in `-`. */
  lemma TitlePartMayEndInDash(word: string, last: char)
    requires |word| == 24 && forall i | 0 <= i < |word| :: 'a' <= word[i] <= 'z'
    requires 'a' <= last <= 'z'
    ensures TitlePart(word + " " + [last]) == word + "-"
  {
    var m := word + [' ', last];
    assert m == word + " " + [last];
    assert Take(m, MessagePrefixLength) == m;
    LowerKeepsLowercase(m);
    CollapseWordSpaceLetter(word, last);
    var c := word + ['-', last];
    TrimDashesKeepsClean(c);
    assert c[..25] == word + "-";
  }

  lemma LowerKeepsLowercase(s: string)
    requires forall i | 0 <= i < |s| :: !IsAsciiUpper(s[i])
    ensures Lower(s) == s
  {
  }

  lemma CollapseSpaceLetter(last: char)
    requires IsSlugChar(last)
    ensures Collapse([' ', last]) == ['-', last]
  {
    CollapseRun([' '], [last]);
    CollapseSlugPrefix([last], []);
    assert [' '] + [last] == [' ', last];
    assert [last] + [] == [last];
  }

  lemma CollapseWordSpaceLetter(word: string, last: char)
    requires forall i | 0 <= i < |word| :: IsSlugChar(word[i])
    requires IsSlugChar(last)
    ensures Collapse(word + [' ', last]) == word + ['-', last]
  {
    CollapseSlugPrefix(word, [' ', last]);
    AppendCollapsedSpaceLetter(word, last);
  }

  lemma AppendCollapsedSpaceLetter(word: string, last: char)
    requires IsSlugChar(last)
    ensures word + Collapse([' ', last]) == word + ['-', last]
  {
    CollapseSpaceLetter(last);
  }

  lemma TrimDashesKeepsClean(c: string)
    requires |c| > 0 && c[0] != '-' && c[|c| - 1] != '-'
    ensures TrimDashes(c) == c
  {
    assert DropLeadingDashes(c) == c;
    assert DropTrailingDashes(c) == c;
  }

  /** Collapsing leaves a leading run of slug characters as it is. */
  lemma {:induction false} CollapseSlugPrefix(w: string, rest: string)
    requires forall i | 0 <= i < |w| :: IsSlugChar(w[i])
    ensures Collapse(w + rest) == w + Collapse(rest)
  {
    if |w| > 0 {
      var s := w + rest;
      assert s[0] == w[0] && IsSlugChar(s[0]);
      assert s[1..] == w[1..] + rest;
      assert Collapse(s) == [w[0]] + Collapse(s[1..]);
      CollapseSlugPrefix(w[1..], rest);
      assert Collapse(s[1..]) == w[1..] + Collapse(rest);
      calc {
        Collapse(s);
        [w[0]] + Collapse(s[1..]);
        [w[0]] + (w[1..] + Collapse(rest));
        ([w[0]] + w[1..]) + Collapse(rest);
        { assert [w[0]] + w[1..] == w; }
        w + Collapse(rest);
      }
    } else {
      assert w + rest == rest;
      assert w + Collapse(rest) == Collapse(rest);
    }
  }

  /** `toLocaleString('en', { month: 'short' }).toLowerCase()` for the
      0-based month. */
  function MonthName(month: nat): (name: string)
    requires month < 12
    ensures |name| == 3 && SlugOrDash(name)
  {
    ["jan", "feb", "mar", "apr", "may", "jun", "jul", "aug", "sep", "oct", "nov", "dec"][month]
  }

  /** `generateTag`: `<titlePart>-<month>-<day>`. */
  function GenerateTag(firstMessage: string, month: nat, day: nat): (tag: string)
    requires month < 12
  {
    TitlePart(firstMessage) + "-" + MonthName(month) + "-" + NatToString(day)
  }

  lemma SlugOrDashConcat(a: string, b: string)
    requires SlugOrDash(a) && SlugOrDash(b)
    ensures SlugOrDash(a + b)
  {
    forall i | 0 <= i < |a + b|
      ensures IsSlugChar((a + b)[i]) || (a + b)[i] == '-'
    {
      if i >= |a| {
        assert (a + b)[i] == b[i - |a|];
      }
    }
  }

  /** Joining kebab-case parts with dashes gives a colon-free string that
      is not `list`. */
  lemma JoinedTagShape(t: string, m: string, d: string)
    requires SlugOrDash(t) && SlugOrDash(m) && SlugOrDash(d)
    ensures var tag := t + "-" + m + "-" + d;
            SlugOrDash(tag) && '-' in tag && ':' !in tag && tag != "list"
  {
    SlugOrDashConcat(t, "-");
    SlugOrDashConcat(t + "-", m);
    SlugOrDashConcat(t + "-" + m, "-");
    SlugOrDashConcat(t + "-" + m + "-", d);
    var tag := t + "-" + m + "-" + d;
    assert tag[|t|] == '-';
    assert '-' !in "list";
  }

  /** Every tag is made of `[a-z0-9-]` and holds a dash, so it has no colon
      and is never the word `list`. */
  lemma TagShape(firstMessage: string, month: nat, day: nat)
    requires month < 12
    ensures var tag := GenerateTag(firstMessage, month, day);
            && SlugOrDash(tag)
            && '-' in tag
            && ':' !in tag
            && tag != "list"
  {
    TitlePartShape(firstMessage);
    var d := NatToString(day);
    assert SlugOrDash(d);
    JoinedTagShape(TitlePart(firstMessage), MonthName(month), d);
  }

  function ConversationKey(userEmail: string, tag: string): string {
    "chat:" + userEmail + ":" + tag
  }

  function UserConversationsKey(userEmail: string): string {
    "chat:" + userEmail + ":list"
  }

  /** Distinct users have distinct list keys. */
  lemma UserConversationsKeyInjective()
    ensures forall e1, e2 | UserConversationsKey(e1) == UserConversationsKey(e2) :: e1 == e2
  {
    forall e1, e2 | UserConversationsKey(e1) == UserConversationsKey(e2)
      ensures e1 == e2
    {
      var a := UserConversationsKey(e1);
      assert |e1| == |e2|;
      assert a[5..5 + |e1|] == e1;
      assert UserConversationsKey(e2)[5..5 + |e2|] == e2;
    }
  }

  /** A conversation key built from a colon-free tag is never a user's list
      key, whichever two users are involved. */
  lemma KeysDisjoint(e1: string, e2: string, tag: string)
    requires ':' !in tag && tag != "list"
    ensures ConversationKey(e1, tag) != UserConversationsKey(e2)
  {
    var a := ConversationKey(e1, tag);
    var b := UserConversationsKey(e2);
    if |tag| < 4 {
      assert b[|b| - |tag| - 1] != ':';
      assert a[|a| - |tag| - 1] == ':';
    } else if |tag| > 4 {
      assert a[|a| - 5] == tag[|tag| - 5];
      assert b[|b| - 5] == ':';
    } else {
      assert tag == a[|a| - 4..];
      assert "list" == b[|b| - 4..];
    }
  }

  /** Keys of generated tags never collide with a list key. */
  lemma GeneratedKeysDisjoint(e1: string, e2: string, firstMessage: string, month: nat, day: nat)
    requires month < 12
    ensures ConversationKey(e1, GenerateTag(firstMessage, month, day)) != UserConversationsKey(e2)
  {
    TagShape(firstMessage, month, day);
    KeysDisjoint(e1, e2, GenerateTag(firstMessage, month, day));
  }
}
